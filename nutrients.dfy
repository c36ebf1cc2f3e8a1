/** The five per-100g nutrient values the service works with, and their
    extraction from a product's `nutriments` object of the food database. */
module Nutrients {
  import opened Seqs

  /** A JSON object of numeric nutrient values, keyed by the food database's field names. */
  type Nutriments = map<string, real>

  const EnergyKey := "energy-kcal_100g"
  const SugarsKey := "sugars_100g"
  const SaturatedFatKey := "saturated-fat_100g"
  const SodiumKey := "sodium_100g"
  const ProteinsKey := "proteins_100g"

  /** The only keys the extraction reads. */
  const SourceKeys := {EnergyKey, SugarsKey, SaturatedFatKey, SodiumKey, ProteinsKey}

  /** The fixed record built for every product (the `nf` dictionary of the service). */
  datatype NutrientFacts = NutrientFacts(
    calories: real,
    sugars: real,
    saturatedFat: real,
    sodium: real,
    protein: real)

  const Zero := NutrientFacts(0.0, 0.0, 0.0, 0.0, 0.0)

  /** `m.get(key, 0)`. */
  function Field(m: Nutriments, key: string): real
  {
    if key in m then m[key] else 0.0
  }

  /** The record for a product whose `nutriments` entry is `n` (`None` when the key is absent). */
  function Extract(n: Option<Nutriments>): (r: NutrientFacts)
    ensures n.None? ==> r == Zero
    ensures forall k :: k in SourceKeys ==> ToNutriments(r)[k] == Field(GetOr(n, map[]), k)
  {
    var m := GetOr(n, map[]);
    NutrientFacts(
      Field(m, EnergyKey),
      Field(m, SugarsKey),
      Field(m, SaturatedFatKey),
      Field(m, SodiumKey),
      Field(m, ProteinsKey))
  }

  /** The source object that holds exactly the values of `nf`. */
  function ToNutriments(nf: NutrientFacts): Nutriments
  {
    map[EnergyKey := nf.calories, SugarsKey := nf.sugars, SaturatedFatKey := nf.saturatedFat,
        SodiumKey := nf.sodium, ProteinsKey := nf.protein]
  }

  /** Each field is read from its own key; an absent key reads as 0 and a
      present value (negative or not) passes through unchanged. */
  lemma ExtractFields(m: Nutriments)
    ensures Extract(Some(m)).calories == (if EnergyKey in m then m[EnergyKey] else 0.0)
    ensures Extract(Some(m)).sugars == (if SugarsKey in m then m[SugarsKey] else 0.0)
    ensures Extract(Some(m)).saturatedFat == (if SaturatedFatKey in m then m[SaturatedFatKey] else 0.0)
    ensures Extract(Some(m)).sodium == (if SodiumKey in m then m[SodiumKey] else 0.0)
    ensures Extract(Some(m)).protein == (if ProteinsKey in m then m[ProteinsKey] else 0.0)
  {
  }

  /** A product without a `nutriments` entry, or with an empty one, has every value 0. */
  lemma MissingNutrimentsAreZero()
    ensures Extract(None) == Zero
    ensures Extract(Some(map[])) == Zero
  {
  }

  /** Keys other than the five are ignored: objects that agree on the five keys give the same record. */
  lemma ExtractReadsOnlyItsKeys(m: Nutriments, m': Nutriments)
    requires forall k :: k in SourceKeys ==> (k in m <==> k in m') && (k in m ==> m[k] == m'[k])
    ensures Extract(Some(m)) == Extract(Some(m'))
  {
  }

  /** Every record is recovered from the object that holds its values. */
  lemma ExtractRoundTrip(nf: NutrientFacts)
    ensures Extract(Some(ToNutriments(nf))) == nf
  {
  }
}
