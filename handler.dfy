/** The decision of the `check_food` request handler, apart from HTTP: validate
    the food name, look the food up once, and answer with an error or with a
    report built from the first product found. The food database is a parameter
    `fetch`: `fetch(name, k)` is the outcome the `k`-th attempt to look `name`
    up would have (attempts counted from 0), so which attempts the handler
    consults can be stated. */
module Handler {
  import opened Seqs
  import opened Nutrients
  import opened Scoring
  import opened AdviceRules

  /** A product of the food database, as far as the handler reads it. */
  datatype Product = Product(productName: Option<string>, nutriments: Option<Nutriments>)

  /** The outcome of one lookup: the request failed (transport, timeout, undecodable
      body), or the body parsed and its `products` entry may be absent. */
  datatype Lookup = FetchFailed(details: string) | Fetched(products: Option<seq<Product>>)

  /** The JSON body of a request: `food` and `profile` may be absent. */
  datatype Request = Request(food: Option<string>, profile: Option<Profile>)

  /** The success body. */
  datatype Report = Report(productName: string, nutriments: NutrientFacts, healthScore: Assessment, advice: seq<string>)

  /** A success (status 200) or an error body with its status. */
  datatype Response = Ok(report: Report) | Error(status: nat, error: string, details: Option<string>)

  /** The outcomes of successive attempts to look a name up. */
  type Lookups = (string, nat) -> Lookup

  function Status(r: Response): nat
  {
    if r.Ok? then 200 else r.status
  }

  const NoFood := Error(400, "No food provided", None)
  const NotFound := Error(404, "Food not found", None)
  const FetchError := "Failed to fetch from OpenFoodFacts"

  /** The request names a food: `food` is present and not the empty string. */
  predicate HasFood(req: Request)
  {
    req.food.Some? && req.food.value != ""
  }

  /** The lookup found at least one product. */
  predicate Found(l: Lookup)
  {
    l.Fetched? && l.products.Some? && l.products.value != []
  }

  /** The report for a product and a profile: the score and the advice are those
      of the very values reported, and those are the values extracted from the
      product's nutrient data. */
  function BuildReport(product: Product, profile: Profile): (r: Report)
    ensures r.nutriments == Extract(product.nutriments)
    ensures r.healthScore == Assess(r.nutriments)
    ensures r.advice == Advice(r.nutriments, profile)
  {
    var nf := Extract(product.nutriments);
    Report(GetOr(product.productName, "Unknown"), nf, Assess(nf), Advice(nf, profile))
  }

  /** The outcome of the handler's one lookup: the first attempt for the food name. */
  function FirstAttempt(req: Request, fetch: Lookups): Lookup
    requires HasFood(req)
  {
    fetch(req.food.value, 0)
  }

  /** The response of the handler. Only the first attempt for the food name is
      read; every error is a 400, 404 or 500, and a report comes only from a
      found product. */
  function CheckFood(req: Request, fetch: Lookups): (r: Response)
    ensures r.Error? ==> r.status in {400, 404, 500}
    ensures r.Ok? ==> HasFood(req) && Found(FirstAttempt(req, fetch))
  {
    if !HasFood(req) then NoFood
    else
      match FirstAttempt(req, fetch)
      case FetchFailed(details) => Error(500, FetchError, Some(details))
      case Fetched(products) =>
        if products.None? || products.value == [] then NotFound
        else Ok(BuildReport(products.value[0], GetOr(req.profile, EmptyProfile)))
  }

  /** A missing or empty food name, and only that, is answered with 400
      "No food provided", before any lookup. */
  lemma NoFoodIff(req: Request, fetch: Lookups)
    ensures Status(CheckFood(req, fetch)) == 400 <==> !HasFood(req)
    ensures !HasFood(req) ==> CheckFood(req, fetch) == Error(400, "No food provided", None)
  {
  }

  /** Without a food name no lookup is made: the database plays no part in the answer. */
  lemma NoFoodIgnoresLookup(req: Request, fetch1: Lookups, fetch2: Lookups)
    requires !HasFood(req)
    ensures CheckFood(req, fetch1) == CheckFood(req, fetch2)
  {
  }

  /** A named food is looked up once, under its own name, with no retry: databases
      that agree on the first attempt for that name give the same answer, whatever
      later attempts or other names would return. */
  lemma SingleLookup(req: Request, fetch1: Lookups, fetch2: Lookups)
    requires HasFood(req)
    requires fetch1(req.food.value, 0) == fetch2(req.food.value, 0)
    ensures CheckFood(req, fetch1) == CheckFood(req, fetch2)
  {
  }

  /** A failed lookup, and only that, is answered with 500 and the failure's details. */
  lemma FetchFailedIff(req: Request, fetch: Lookups)
    ensures Status(CheckFood(req, fetch)) == 500
      <==> HasFood(req) && FirstAttempt(req, fetch).FetchFailed?
    ensures HasFood(req) && FirstAttempt(req, fetch).FetchFailed? ==>
      CheckFood(req, fetch)
        == Error(500, "Failed to fetch from OpenFoodFacts", Some(FirstAttempt(req, fetch).details))
  {
  }

  /** A parsed answer whose `products` is absent or empty, and only that, is answered with 404. */
  lemma NotFoundIff(req: Request, fetch: Lookups)
    ensures Status(CheckFood(req, fetch)) == 404
      <==> HasFood(req) && FirstAttempt(req, fetch).Fetched? && !Found(FirstAttempt(req, fetch))
    ensures Status(CheckFood(req, fetch)) == 404 ==>
      CheckFood(req, fetch) == Error(404, "Food not found", None)
  {
  }

  /** A report is returned exactly when a product was found, and it is built
      from the first product with the caller's profile (an empty one if absent). */
  lemma ReportIff(req: Request, fetch: Lookups)
    ensures CheckFood(req, fetch).Ok? <==> HasFood(req) && Found(FirstAttempt(req, fetch))
    ensures HasFood(req) && Found(FirstAttempt(req, fetch)) ==>
      CheckFood(req, fetch).report
        == BuildReport(FirstAttempt(req, fetch).products.value[0], GetOr(req.profile, EmptyProfile))
  {
  }

  /** The response is either a full report or an error body; every error has one of
      the three statuses 400, 404 and 500. */
  lemma StatusesAreExhaustive(req: Request, fetch: Lookups)
    ensures Status(CheckFood(req, fetch)) in {200, 400, 404, 500}
    ensures Status(CheckFood(req, fetch)) == 200 <==> CheckFood(req, fetch).Ok?
  {
  }

  /** Products after the first do not affect the answer. */
  lemma OnlyFirstProductMatters(req: Request, fetch1: Lookups, fetch2: Lookups)
    requires HasFood(req)
    requires Found(FirstAttempt(req, fetch1)) && Found(FirstAttempt(req, fetch2))
    requires FirstAttempt(req, fetch1).products.value[0] == FirstAttempt(req, fetch2).products.value[0]
    ensures CheckFood(req, fetch1) == CheckFood(req, fetch2)
  {
  }

  /** The product name is reported as found, and as "Unknown" when the product has none. */
  lemma ReportName(product: Product, profile: Profile)
    ensures product.productName.None? ==> BuildReport(product, profile).productName == "Unknown"
    ensures product.productName.Some? ==> BuildReport(product, profile).productName == product.productName.value
  {
  }

  /** A product without nutrient data is reported with all values 0, a perfect
      "Healthy" score, no reasons and no advice, whatever the profile. */
  lemma ReportWithoutNutriments(product: Product, profile: Profile)
    requires product.nutriments.None?
    ensures BuildReport(product, profile).nutriments == Zero
    ensures BuildReport(product, profile).healthScore == Assessment(100, "Healthy", [])
    ensures BuildReport(product, profile).advice == []
  {
  }
}
