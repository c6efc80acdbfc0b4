# Coffee tab ledger — a Dafny model

A small group keeps a shared coffee tab. Members have a balance and a coffee
count. An admin records top-ups, expenses and bean purchases against a group
pot held in one configuration document. A member links a browser session to
their member record by scanning a QR code. The code carries a short-lived
claim token, and a server function exchanges it for a credential.

This project models three parts of that system:

- **The claim-token exchange** (`claim_token.dfy`, module `ClaimToken`). This
  is the hosted function behind the QR code. It picks the payload out of the
  request shapes the platform may deliver and reads the token and the
  scanner's identity. It loads the claim and rejects a missing or expired
  one, deleting an expired claim. It loads the member and then does one of
  three things:
  - mints a credential for the member's existing identity;
  - links the scanner's identity to a member that has none, then mints one;
  - when no scanner identity was sent, mints a credential for the existing
    link, if there is one, and reports the member.

  A used claim is consumed. `createJwtForUid` tries the SDK first and then
  four REST endpoints in order.
- **The ledger** (`db.dfy`, module `Db`, class `Db.Store`). Members are kept
  as a sequence in listing order, the group configuration as an optional
  document, and the logs as an append-only sequence. Each operation of
  `js/db.js` is a method: coffee charges, top-ups, expenses, bean purchases,
  the grams-per-cup setting, and the member, config and log queries. Each
  states the whole new state. Configuration defaults (18 g per cup, 0.50 per
  cup, 0.0278 per gram) apply when a field is missing or zero.
- **The dashboard's data** (`analytics.dfy`, module `Analytics`, class
  `Analytics.Dashboard`). This covers the dashboard's start-up loading, the
  group coffee ranking (in-place sort of the member array), the spending
  ranking by name, the keyword categories of purchases and their totals, the
  four-week coffee series, the user's total spend and the activity feed.

Shared helpers:

- `js.dfy` holds JavaScript semantics: the `a || b || …` chain over
  strings, ASCII `toLowerCase`, `includes`, `Math.abs`, `slice(0, k)`
  and `filter`.
- `sorting.dfy` holds an in-place insertion sort for a descending
  comparator and the "top k" predicate that all rankings and newest-first
  queries satisfy.
- `dictionary.dfy` models a JavaScript object used as an insertion-ordered
  dictionary, with per-key accumulation.
- `documents.dfy` holds the stored documents.
- `wrappers.dfy` holds `Option`.

How the model represents the source:

- An absent, `null` or empty string field is `""`.
- Money is `real` and timestamps are integer milliseconds.
- JSON parsing, the clock, network answers and the SDK's behaviour become
  parameters of the operations. The `Backend` record holds the claim
  function's service outcomes, the `Upload` value holds the receipt
  upload's outcome, and a flag says whether the log listing is readable.

The ledger does not guarantee that a balance equals the sum of its logs,
because every write works from the caller's snapshot of the member. The model
therefore states each write as a change: the new balance is the old balance
plus the logged amount plus how far the snapshot was out of date
(`MemberFlow`, `GroupFlow`). `Db.StaleSnapshotLosesCharge` shows a charge
lost by two writes from one snapshot.

No code path charges more than the price per cup: `registerCoffee` and
`registerCoffeeWithDynamicPrice` subtract exactly the price
(js/db.js:58-68, 195-212), as `Db.CoffeeAtConfiguredPrice` shows.

## Model

| member | source | states |
|---|---|---|
| ClaimToken.SelectPayload | functions/claim-token/index.js:26-36 | a `null` payload arises only from parsing the text `null`; with no truthy field the payload is the empty object |
| ClaimToken.FirstTruthySlot | functions/claim-token/index.js:28-32 | the index of the first truthy request field, every earlier one falsy |
| ClaimToken.SelectPayloadByPrecedence | functions/claim-token/index.js:26-36 | the payload is the interpretation of the first truthy of `payload`, `body`, `args`, `variables`, `query` by its position; `payload` is always parsed, `body` and `args` when strings, and a parse failure gives the empty object |
| ClaimToken.ScannerOf | functions/claim-token/index.js:102 | the scanner identity is empty exactly when `scannerUid`, `scanner_uid`, `scanner` and the request's `scannerUid` all are; otherwise it is the first of them that is set |
| ClaimToken.TokenOf | functions/claim-token/index.js:38-39 | reading the token throws exactly when the payload is `null`; the token is empty exactly when all four places it may come from are empty |
| ClaimToken.UnwrapJwt | functions/claim-token/index.js:142-150 | a non-empty string answer is the credential; an object gives its first truthy of `jwt`, `token`, `accessToken`, `secret`; nothing else gives one; a credential is never empty |
| ClaimToken.BaseEndpointStripsVersion | functions/claim-token/index.js:117-119 | an endpoint with or without a trailing `/`, `/v1` or `/v1/` has the same base |
| ClaimToken.StripsTrailingSlash | functions/claim-token/index.js:119 | a trailing `/` is removed and nothing more |
| ClaimToken.StripsVersion | functions/claim-token/index.js:119 | a trailing `/v1` or `/v1/` is removed and nothing more |
| ClaimToken.FirstSuccess | functions/claim-token/index.js:126-138 | no credential exactly when every URL fails; otherwise the answer of the first URL that succeeds, every earlier one failing |
| ClaimToken.CreateJwtForUid | functions/claim-token/index.js:105-139 | the loop finds the credential `Minted` defines: none for an empty uid, the SDK's answer when it has one, else the first successful REST endpoint |
| ClaimToken.Minted | functions/claim-token/index.js:105-139 | none for an empty uid; the SDK's answer for that uid when it answers; otherwise none exactly when all four REST endpoints for that uid fail |
| ClaimToken.BaseEndpoint | functions/claim-token/index.js:119 | the base is a prefix of the raw endpoint, at most five characters shorter, and the raw endpoint itself when it ends in neither `/` nor `/v1` |
| ClaimToken.JwtUrls | functions/claim-token/index.js:120-125 | the four endpoint shapes for the uid on the stripped base, in the order tried (a definition; `CreateJwtForUid` and `Minted` are stated over it) |
| ClaimToken.Fetch | functions/claim-token/index.js:53-70 | a read by id: the document when it exists and the SDK or the REST fallback reaches it, otherwise none (a definition; `Exchange` is stated over it) |
| ClaimToken.Expired | functions/claim-token/index.js:73-77 | a claim is expired when it has an expiry time earlier than now (a definition; `Exchange` is stated over it) |
| ClaimToken.Exchange | functions/claim-token/index.js:19-203 | every outcome of the handler: server error on a `null` payload, missing token, invalid or expired claim (the expired one deleted), missing member, credential for the linked identity, first-time link of the scanner (or server error when that write fails), report without a scanner; when the claim is consumed and what the member document becomes |
| ClaimToken.ResubmitAfterExchange | functions/claim-token/index.js:153-192 | after a successful exchange whose deletion succeeded, presenting the same token again is rejected as invalid |
| ClaimToken.ScanReads | functions/claim-token/index.js:26-38 | a request whose object `body` holds a token and a `scannerUid` yields that token and that scanner |
| ClaimToken.FirstScan | functions/claim-token/index.js:153-182 | the first scan of an unlinked member links the scanner, answers with the scanner's credential and consumes only its own token |
| ClaimToken.FirstClaimWins | functions/claim-token/index.js:153-182 | two claims for an unlinked member, with an SDK that mints a distinct credential per uid: the first links scanner U1; the second, from U2, is answered with U1's credential (not the one U2 would get) and U1 stays linked |
| Js.FirstTruthy | functions/claim-token/index.js:38 | the result is empty exactly when all candidates are; otherwise it is the first non-empty one |
| Js.FirstTruthyOfFour | functions/claim-token/index.js:102 | a four-operand short-circuit `or` of strings picks the first non-empty operand |
| Js.ToLower | js/analytics.js:346 | the same length, each character lower-cased |
| Js.Abs | js/analytics.js:355 | non-negative and equal to the value or its negation |
| Js.Take | js/analytics.js:390 | the first `min(k, length)` elements |
| Js.Filter | js/analytics.js:426-429 | keeps exactly the elements satisfying the predicate, with their multiplicities |
| Sorting.SortDescending | js/analytics.js:182-184 | the array ends sorted by the key, descending, and is a permutation of what it held |
| Sorting.TopK | js/analytics.js:182-184 | in a sequence sorted descending, no element after the first k outranks one of them |
| Sorting.SortedPrefixIsTop | js/analytics.js:307-309 | the first k of a descending sorted permutation are a top-k selection |
| Sorting.TopBy | js/analytics.js:307-309 | the result is a top-k selection: `min(k, n)` elements of the input, sorted descending, none left out above any kept |
| Sorting.TopOfTop | js/analytics.js:390 | the first k' of a top-k selection (k' <= k) are a top-k' selection of the original |
| Dictionary.Get | js/analytics.js:355 | a value is found exactly when the key is present, and it is stored under that key |
| Dictionary.GetPut | js/analytics.js:304 | after a store, the key reads the new value and every other key is unchanged |
| Dictionary.HasKeyPut | js/analytics.js:304 | a store adds its key and no other |
| Dictionary.DistinctKeysPut | js/analytics.js:304 | a store keeps keys distinct |
| Dictionary.SumValuesPut | js/analytics.js:355 | a store changes the total of the values by the new value minus the old |
| Dictionary.SumValuesAccumulate | js/analytics.js:355 | adding x under a key raises the total by x |
| Dictionary.SumByTotal | js/analytics.js:344-356 | the per-key totals add up to the total over all elements |
| Dictionary.SumByGet | js/analytics.js:344-356 | the total under a key is the sum over the elements with that key |
| Dictionary.SumByKeys | js/analytics.js:344-356 | a key is present exactly when some element has it; keys are distinct |
| Db.Effective | js/db.js:116-134 | no document gives the defaults; the group funds pass through; a non-zero field is kept; a zero field takes its default; no effective field is zero |
| Db.EffectiveIdempotent | js/db.js:119-124 | applying the defaults to an effective configuration changes nothing |
| Db.IndexOf | js/db.js:62-65 | the first member with the id, or none exactly when no member has it |
| Db.IndexOfUpdate | js/db.js:62-65 | rewriting a member under its own id moves no id |
| Db.FirstLinked | js/db.js:3-13 | the first member whose identity is the uid; none exactly when the uid is empty or unlinked |
| Db.GroupOnly | js/db.js:44-55 | keeps exactly the EXPENSE and BEANS logs, each as often as it occurs |
| Db.ListNewest | js/db.js:35-41 | a newest-first selection: `min(limit, n)` logs of the collection, descending by time, none left out newer than any returned |
| Db.GroupFlowAppend | js/db.js:22-32 | appending a log moves the group flow by its amount exactly when it is a top-up, expense or bean log |
| Db.MemberFlowAppend | js/db.js:22-32 | appending a log moves a member's flow by its amount exactly when it is that member's coffee or top-up |
| Db.Store.constructor | js/db.js:1 | the store holds the given members, configuration and logs |
| Db.Store.GetMemberByUid | js/db.js:3-13 | the result is the first member linked to the uid |
| Db.Store.GetAllMembers | js/db.js:16-19 | all members in listing order |
| Db.Store.GetGlobalConfig | js/db.js:116-134 | the stored configuration with defaults applied |
| Db.Store.GetLogs | js/db.js:35-41 | the ten newest logs, newest first |
| Db.Store.GetGroupLogs | js/db.js:44-55 | the ten newest expense or bean logs, newest first, all of them group logs |
| Db.Store.LogAction | js/db.js:22-32 | exactly one log stamped now is appended; members and configuration unchanged |
| Db.Store.RegisterCoffee | js/db.js:58-68 | an unknown member throws and nothing changes; otherwise the member gets the snapshot's balance minus the price and one more coffee, one coffee log is appended, the balance moves by the logged amount plus the snapshot's staleness, and the group flow is unchanged |
| Db.Store.RegisterCoffeeWithDynamicPrice | js/db.js:195-212 | `RegisterCoffee` at the effective price per cup |
| Db.Store.AddFunds | js/db.js:100-113 | the member is credited from the snapshot first; with no configuration the call then throws, the credit stands and no log is written; otherwise the pot rises by the amount and a top-up log is appended; member and group flows reconcile |
| Db.Store.RecordExpense | js/db.js:70-97 | a failed upload throws and nothing changes; with no configuration it throws after the upload; otherwise the pot falls by the amount and an expense log of the negated amount by the admin, with the receipt's id, is appended; no member's flow moves |
| Db.Store.UpdateGramsPerCup | js/db.js:137-151 | succeeds exactly when the configuration exists; it then stores the grams and a price per cup of the effective price per gram times the grams |
| Db.Store.RecordCoffeeBeanPurchase | js/db.js:154-192 | the price per gram becomes amount / grams, the price per cup that times the effective grams per cup, the pot falls by the amount and a bean log is appended; upload failure and a missing configuration throw as for expenses |
| Db.BeanPurchaseExample | js/db.js:173-183 | 18 g per cup and a pot of 100: beans for 18 over 900 g give 0.02 per gram, 0.36 per cup and a pot of 82 |
| Db.CoffeeAtConfiguredPrice | js/db.js:195-212 | a coffee at 0.50 from a balance of 0.30 leaves -0.20 and logs -0.50: no surcharge |
| Db.StaleSnapshotLosesCharge | js/db.js:58-68 | two charges from one snapshot leave the balance one price lower, though two coffee logs are written |
| Analytics.WeekIndex | js/analytics.js:115 | the whole number of weeks between the log and now |
| Analytics.WeekSlot | js/analytics.js:113-118 | a log gets a slot exactly when it lies within the last four weeks; the slot is 3 minus its week index; such a log is within thirty days |
| Analytics.TallyAddsCounts | js/analytics.js:113-119 | a counter that starts as a number ends raised by the number of logs in its slot |
| Analytics.Tally | js/analytics.js:113-119 | the `forEach` keeps four counters; `TallyAddsCounts` and `TallyOntoObjects` state what each slot becomes |
| Analytics.TallyOntoObjects | js/analytics.js:105-119 | a counter that does not start as a number stays as it was if no log falls in its slot, else becomes NaN |
| Analytics.WeekSeriesAsWritten | js/analytics.js:97-126 | the four values the chart is given for the member, from the member's recent coffees, counters starting as `{}` (stated by `WeekSeriesAsWrittenShowsNoCounts`) |
| Analytics.WeekSeries | js/analytics.js:97-126 | the same four values with counters starting at 0 (stated by `WeekSeriesCounts`) |
| Analytics.WeekSeriesCounts | js/analytics.js:97-126 | with counters started at zero, each week shows how many of the member's COFFEE logs of the last thirty days fall in it |
| Analytics.WeekSeriesAsWrittenShowsNoCounts | js/analytics.js:97-126 | with counters started as `{}`, a week shows `{}` when it holds none of the member's recent coffees and 0 otherwise |
| Analytics.OneCoffeeThisWeek | js/analytics.js:105-126 | one coffee stamped now shows as 0 this week as written, and as 1 when corrected |
| Analytics.FirstMatch | js/analytics.js:347-353 | the index of the first rule whose keywords occur in the text, all earlier ones not matching |
| Analytics.Categorize | js/analytics.js:346-353 | the category of a message, through the rule table (stated by `CategorizeFirstMatch` and `RuleOrderSpelledOut`) |
| Analytics.CategorizeFirstMatch | js/analytics.js:346-353 | the category is Other exactly when no rule matches; otherwise it is the first matching rule's |
| Analytics.RuleOrderSpelledOut | js/analytics.js:346-353 | the category equals the source's if / else-if chain of keyword tests on the lower-cased message |
| Analytics.MentionsEither | js/analytics.js:349-353 | a two-keyword rule matches exactly when the text includes either keyword |
| Analytics.BeansLogIsCoffeeBeans | js/db.js:186 | every bean-purchase log message is categorised as coffee beans |
| Analytics.CategoryTotalsSum | js/analytics.js:344-356 | the category totals add up to the sum of the absolute amounts |
| Analytics.CategoryTotals | js/analytics.js:344-356 | the `categories` object built by the `forEach` (stated by `CategoryTotalsSum` and `CategoryTotalsGet`) |
| Analytics.CategoryTotalsGet | js/analytics.js:344-356 | each category's total is the sum of the absolute amounts of its logs; a category appears exactly when some log has it; categories are distinct |
| Analytics.CoffeeCounts | js/analytics.js:177-180 | the `memberCoffeeCount` object (stated by `CoffeeCountsKeys` and `CoffeeCountsOf`) |
| Analytics.CoffeeCountsKeys | js/analytics.js:177-180 | an id is counted exactly when some member has it |
| Analytics.CoffeeCountsOf | js/analytics.js:177-180 | every member's id is counted; with no later member sharing the id, its count is that member's coffees |
| Analytics.SpendingByNameOf | js/analytics.js:302-305 | with no later member of the same name, that name maps to the member's absolute balance |
| Analytics.SpendingByName | js/analytics.js:302-305 | the `memberSpending` object (stated by `SpendingByNameOf` and `SpendingByNameKeys`) |
| Analytics.SpendingByNameKeys | js/analytics.js:302-305 | a name appears exactly when some member has it; names are distinct; there are no more entries than members |
| Analytics.IsTopSameKey | js/analytics.js:182-184 | a top-k selection under one key is one under any key that agrees with it on the input |
| Analytics.TotalSpent | js/analytics.js:426-431 | the sum of the absolute amounts of the member's COFFEE logs: never negative, zero when the member has none, positive when one of them has a non-zero amount |
| Analytics.TotalSpentAppend | js/analytics.js:426-431 | appending a log raises the user's spend by its absolute amount exactly when it is that user's coffee |
| Analytics.ChargeAddsPrice | js/analytics.js:426-431 | a coffee charge raises the charged member's spend by the absolute price and nobody else's |
| Analytics.ActivityFeed | js/analytics.js:390 | `allLogs.slice(0, 15)` (stated by `ActivityFeedShowsNewest`) |
| Analytics.ActivityFeedShowsNewest | js/analytics.js:390 | the first fifteen of the hundred newest logs are the fifteen newest |
| Analytics.Dashboard.constructor | js/analytics.js:1-5 | no user, no members, no logs |
| Analytics.Dashboard.GetAllLogs | js/analytics.js:48-59 | the hundred newest logs when the listing is readable, none otherwise |
| Analytics.Dashboard.Init | js/analytics.js:8-45 | the user is the first member linked to the session; with none nothing else loads; otherwise the members, the hundred newest logs and the ten newest group logs are loaded |
| Analytics.Dashboard.GroupCoffeeRanking | js/analytics.js:177-187 | the member array ends a permutation of itself sorted by coffee count; the chart's eight are a top-eight selection, and by each member's own count when ids are unique |
| Analytics.Dashboard.SpendingRanking | js/analytics.js:302-312 | the chart's eight are a top-eight selection of the names by absolute balance |
| Analytics.Dashboard.PurchaseBreakdown | js/analytics.js:344-356 | the loop builds exactly the category totals of the group logs |

## Left out

- Response writing (`res.json`), console logging and the `details` text of error replies are left out; a reply is its status and body.
- Client and environment setup (`node-appwrite` clients, API keys, the project id) and the URL building other than the four JWT endpoints and the `/v1` strip are left out: they choose where requests go, not what they decide.
- The clock, `JSON.parse`, the hosted services' answers and the storage upload are parameters; the uploaded file itself is not modelled.
- Concurrency is left out: operations run one at a time, so races between two claims or two charges appear only as sequential scenarios (`ClaimToken.FirstClaimWins`, `Db.StaleSnapshotLosesCharge`).
- Floating point is modelled as exact `real`: IEEE rounding, `toFixed` display and the average per week are left out.
- The daily spending buckets depend on locale date formatting and are left out. The week chart is modelled only as its four counters.
- UI rendering, the DOM, chart drawing, themes, and `js/ui.js`, `js/app.js`, `js/auth.js` and `js/config.js` are not part of this model.
- Network failures of `js/db.js` other than a missing document and a failed upload are left out. This includes a failing member or group-log listing during dashboard start-up.
- String-typed amounts, `parseFloat`, and NaN or undefined configuration fields are left out: configuration numbers are reals, and a zero field takes its default.
- Js.ToLower: lower-cases ASCII letters only, because the model of strings has no Unicode case tables.
- Sorting.SortDescending: the order among elements with equal keys is not stated, so the tie order of the charts is not claimed.
- The catch at functions/claim-token/index.js:194-197 is unreachable in the model, because `createJwtForUid` never throws.
- The request is taken after the platform's `req.req` unwrapping.
- Timestamps are ISO strings in the source and integer milliseconds here; their ordering is the same.
- Db.FirstLinked: an empty uid links nobody, whereas the service's answer to a query on an undefined uid is not modelled.
- Db.Store.RecordCoffeeBeanPurchase: requires a non-zero gram count, because dividing by zero gives Infinity in JavaScript and reals have no Infinity.
- ClaimToken.Exchange: the reply without a scanner has no `linked` field in the source; `Granted(false, …)` stands for that absent field.
- Analytics.Dashboard.SpendingRanking: reads the member array after `GroupCoffeeRanking` has sorted it in place, as the source does, so among members that share a name the one kept follows the sorted order.

## Findings

| source | as written | input that shows it | evidently intended | confidence | as-written member | corrected member |
|---|---|---|---|---|---|---|
| js/analytics.js:97-126 | the four week counters start as `{}`, so `++` turns a counter into NaN; the chart shows 0 for a week with coffees and `{}` for an empty one | one COFFEE log of the user stamped now: this week shows 0 | each week shows how many coffees the user had in it (counters starting at 0) | not executed; high | Analytics.WeekSeriesAsWrittenShowsNoCounts | Analytics.WeekSeriesCounts |
