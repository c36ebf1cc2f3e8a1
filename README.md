# Nutri-Check health scoring and advice, in Dafny

Nutri-Check is a one-endpoint web service. A caller posts a food name and an
optional health profile. The service looks the food up in the OpenFoodFacts
database and reads five per-100g nutrient values from the first product found.
It returns a health score with a label and the reasons for each penalty, plus
personalised dietary warnings.

This project models the service's logic:

- **Nutrient extraction** (`nutrients.dfy`, module `Nutrients`). The product's
  `nutriments` object becomes a fixed five-field record (`Extract`). An absent
  key reads as 0, and an absent `nutriments` entry reads as an empty object.
- **Health scorer** (`scoring.dfy`, module `Scoring`). The four rules are a
  table: `Rule`, with `Amount`, `Limit`, `Penalty` and `Reason`, evaluated in
  `RuleOrder`. `Assess` is the specification: 100 minus the penalties of the
  fired rules, the label of that score, and the reasons of the fired rules.
  `HealthScore` is the scorer as the service writes it: a running score, a
  growing list of reasons and one `if` per rule. It is proved equal to
  `Assess`. The label field is called `grade` because `label` is a Dafny
  keyword.
- **Advice generator** (`advice.dfy`, module `AdviceRules`). The three advice
  rules form a table too (`Tip`, `TipOrder`, `Signal`, `NutrientHigh`,
  `Message`). `Advice` is the specification, and `PersonalizedAdvice` is the
  step-by-step version proved equal to it.
- **Request decision** (`handler.dfy`, module `Handler`). `CheckFood` decides
  the response of `check_food`. The food database is a parameter `fetch`:
  `fetch(name, k)` is the outcome of the `k`-th attempt to look `name` up,
  either a failure with its details or the parsed `products` entry. Indexing
  by attempt makes "no lookup before the 400" and "one attempt, no retry"
  statements about which outcomes the answer depends on.
- **Support** (`text.dfy`, `seqs.dfy`). ASCII lower-casing and substring
  containment (`Text`). An option type, order-preserving filter and map, and
  the ordered-subsequence relation (`Seqs`).

## Model

| member | source | states |
|---|---|---|
| `Nutrients.Extract` | Backend/app.py:62-69 | an absent `nutriments` entry gives the all-zero record, and under each of the five source keys the record holds what `.get(key, 0)` reads from the object; `ExtractFields` spells this out field by field |
| `Nutrients.ExtractFields` | Backend/app.py:62-69 | each of the five fields is read from its own key (`energy-kcal_100g`, `sugars_100g`, `saturated-fat_100g`, `sodium_100g`, `proteins_100g`); an absent key gives 0, and a present value passes through unchanged, negative or not |
| `Nutrients.MissingNutrimentsAreZero` | Backend/app.py:62-69 | a product with no `nutriments` entry, or an empty one, gets a record with every field 0 |
| `Nutrients.ExtractReadsOnlyItsKeys` | Backend/app.py:63-69 | keys other than the five are ignored: two objects that agree on the five keys give the same record |
| `Nutrients.ExtractRoundTrip` | Backend/app.py:63-69 | every record is recovered by extracting from the object that holds its five values under the source keys |
| `Scoring.HealthScore` | Backend/app.py:9-26 | the step-by-step scorer (running score, appended reasons, label of the final score) returns exactly the table-driven assessment `Assess` |
| `Scoring.FiredRulesStepwise` | Backend/app.py:12-23 | the rules that fire, taken from the rule table, are calories, sugar, saturated fat and sodium, each included exactly when it fires, in that order |
| `Scoring.ScoreFormula` | Backend/app.py:10-23 | score = 100 − 40·[calories > 700] − 30·[sugars > 30] − 20·[saturated fat > 10] − 15·[sodium > 1000], with strict comparisons |
| `Scoring.ReasonsFormula` | Backend/app.py:11-23 | reasons are "High calories", "High sugar", "High saturated fat" and "High sodium", each present exactly when its rule fires, in that order |
| `Scoring.ScoreRange` | Backend/app.py:10-23 | the score lies in [−5, 100] and is not clamped at 0; it is −5 exactly when all four rules fire |
| `Scoring.ReasonIffFires` | Backend/app.py:12-23 | a rule's reason is reported if and only if that rule's nutrient is strictly above its limit |
| `Scoring.ReasonsInRuleOrder` | Backend/app.py:11-23 | the reasons are an ordered subsequence of the four reasons in rule order |
| `Scoring.ReasonsMatchDeductions` | Backend/app.py:10-23 | one reason per fired rule, the score is 100 less those rules' penalties, the reasons are empty iff the score is 100, and the score is 100 iff no rule fires |
| `Scoring.Label` | Backend/app.py:25 | "Healthy" iff score ≥ 85, "Moderate" iff 60 ≤ score < 85, "Unhealthy" iff score < 60 |
| `Scoring.LabelMonotone` | Backend/app.py:25 | a higher score never gets a worse label |
| `Scoring.HealthyIff` | Backend/app.py:10-25 | the label is "Healthy" exactly when calories, sugars and saturated fat are all within their limits; sodium alone (score 85) still counts as Healthy |
| `Scoring.ProteinIgnored` | Backend/app.py:9-26 | changing the protein value never changes the assessment |
| `Scoring.AllRulesFireExample` | Backend/app.py:10-25 | calories 800, sugars 40, saturated fat 12, sodium 1200 give score −5, "Unhealthy" and all four reasons in order |
| `Scoring.AtLimitsExample` | Backend/app.py:12-25 | values exactly at every limit (700, 30, 10, 1000) deduct nothing: score 100, "Healthy", no reasons |
| `AdviceRules.PersonalizedAdvice` | Backend/app.py:29-40 | the step-by-step generator (lower-case both fields, one `if` per tip) returns exactly the table-driven advice `Advice` |
| `AdviceRules.AdviceStepwise` | Backend/app.py:34-39 | the advice is the diabetes, hypertension and weight-loss messages, each included exactly when its tip applies, in that order |
| `AdviceRules.AdviceIff` | Backend/app.py:31-39 | "Avoid: High sugar for diabetes" iff lower(conditions) contains "diabetes" and sugars > 15; "Avoid: High sodium for hypertension" iff it contains "hypertension" and sodium > 500; "Too many calories for weight loss" iff lower(goal) = "weight loss" and calories > 400; no tip depends on another |
| `AdviceRules.AdviceInTipOrder` | Backend/app.py:34-39 | the messages are an ordered subsequence of the three messages in the fixed order |
| `AdviceRules.AdviceIgnoresCase` | Backend/app.py:31-32 | profiles whose conditions and goals differ only in letter case get identical advice |
| `AdviceRules.MentionedConditionMatches` | Backend/app.py:31-35 | "diabetes" written in any letter case anywhere in the conditions text triggers the diabetes message when sugars > 15 |
| `AdviceRules.AbsentFieldsGiveNoAdvice` | Backend/app.py:31-39 | absent conditions give no diabetes or hypertension message, an absent goal gives no weight-loss message, and the empty profile gives no advice |
| `AdviceRules.AdviceIgnoresProtein` | Backend/app.py:29-40 | changing the protein value never changes the advice |
| `AdviceRules.AllTipsExample` | Backend/app.py:31-39 | conditions "Diabetes, Hypertension", goal "Weight Loss", sugars 20, sodium 600 and calories 500 give all three messages in order |
| `Text.Lower` | Backend/app.py:31-32 | the result has the input's length, each character is the ASCII lower-casing of the input's character at the same index, and no capital letter remains |
| `Text.Contains` | Backend/app.py:34-36 | the empty string is contained in every string, and a contained string is never longer than the text; `ContainsIff` ties it to an occurrence at some index |
| `Text.LowerIdentifiesCaseVariants` | Backend/app.py:31-32 | two strings lower-case to the same string if and only if they differ only in the case of ASCII letters |
| `Text.ContainsIff` | Backend/app.py:34-36 | substring containment holds if and only if the needle occurs at some index of the haystack |
| `Text.ContainsLower` | Backend/app.py:31-36 | an occurrence of a word in any letter case is still an occurrence once both are lower-cased |
| `Handler.CheckFood` | Backend/app.py:43-79 | every error has status 400, 404 or 500, and a report is returned only for a named food whose first lookup found a product; `NoFoodIff`, `FetchFailedIff`, `NotFoundIff` and `ReportIff` give each status in both directions |
| `Handler.BuildReport` | Backend/app.py:61-79 | the reported nutrient values are those extracted from the product, and the reported score and advice are those of exactly these values; `ReportName` and `ReportWithoutNutriments` state the name and the no-data case |
| `Handler.NoFoodIff` | Backend/app.py:45-49 | the status is 400 exactly when `food` is missing or empty, and then the body is "No food provided" |
| `Handler.NoFoodIgnoresLookup` | Backend/app.py:48-54 | without a food name no lookup is made: any two databases give the same answer |
| `Handler.SingleLookup` | Backend/app.py:52-56 | the food is looked up once, under its own name, with no retry: databases that agree on the first attempt for that name give the same answer, whatever later attempts or other names return |
| `Handler.FetchFailedIff` | Backend/app.py:53-56 | the status is 500 exactly when the lookup failed, and the body carries "Failed to fetch from OpenFoodFacts" and the failure's details |
| `Handler.NotFoundIff` | Backend/app.py:58-59 | the status is 404 exactly when the lookup parsed but `products` is absent or empty, and the body is "Food not found" |
| `Handler.ReportIff` | Backend/app.py:46-79 | a report is returned exactly when a product was found; it is built from `products[0]` with the caller's profile, or the empty profile when none was sent |
| `Handler.StatusesAreExhaustive` | Backend/app.py:48-79 | every response is a full report (200) or an error with status 400, 404 or 500, never a mix |
| `Handler.OnlyFirstProductMatters` | Backend/app.py:61-79 | lookups that agree on the first product give the same response |
| `Handler.ReportName` | Backend/app.py:75 | the report carries the product's name, or "Unknown" when it has none |
| `Handler.ReportWithoutNutriments` | Backend/app.py:62-79 | a product without nutrient data is reported with all values 0, score 100, "Healthy", no reasons and no advice, whatever the profile |

## Left out

- Flask application setup, routing, `jsonify`, CORS and `app.run` are web-framework plumbing with no logic to state.
- The outbound HTTP request is left out: building the query URL (`replace(' ', '%20')`), `requests.get` with its 5-second timeout, and `.json()`. The lookup is the parameter `fetch`, indexed by name and attempt, which returns either a failure with an opaque details string (standing for `str(e)`) or the parsed `products` entry.
- JSON numbers are modelled as `real`. IEEE behaviour (NaN, infinities, rounding) is not modelled; the rules only compare against integer constants.
- Python's `str.lower` is modelled on ASCII letters only; other Unicode case mappings are not.
- Ill-typed JSON is left out; nutrient values are `real` and profile fields and names are strings. A compared nutrient (`energy-kcal_100g`, `sugars_100g`, `saturated-fat_100g`, `sodium_100g`) present as `null` or as a non-numeric, non-boolean value passes through `.get` unchanged, and its comparison in the scorer (Backend/app.py:12-21) raises an uncaught error. `.get(key, 0)` does not turn `null` into 0. A JSON `true` or `false` compares as 1 or 0 without raising and is reported unchanged; the model does not represent boolean nutrients.
- A `proteins_100g` present as `null` or as a non-number is never compared, so it passes through into a status-200 report unchanged; the model does not represent such a value.
- Other ill-typed inputs are not represented: a `null` or non-string `conditions`/`goal`; a `null` or non-object `profile` (it fails at Backend/app.py:31); a `null` or non-object `nutriments` (it fails at Backend/app.py:64); a non-string `food`; a non-object body or product; a non-list `products`. A falsy non-string `food` (`0`, `false`, `[]`, `{}`) is answered with 400 "No food provided" (Backend/app.py:48-49), and a falsy non-list `products` (`0`, `false`, `""`, `{}`) with 404 (Backend/app.py:58-59). A truthy non-string `food`, a truthy non-list `products`, a non-object body and a non-object product end in the framework's generic error response.
- `Handler.ReportName`: a `product_name` that is present but `null` is not represented; the model's name is either absent or a string.
- HTTP status 200 of a report is implicit in `Handler.Status`; response headers and JSON serialisation are not modelled.
