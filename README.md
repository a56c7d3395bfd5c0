# Carbon food print: a Dafny model of the footprint bookkeeping

This project models how the carbon-food-print app does its bookkeeping. The user adds the food
items eaten on a day, each with a quantity and an origin, to a pending list. The daily
calculation works out the transport emissions of each item. It also works out what the same
item would have cost coming from its domestic origin. The day's total is appended to a history
kept in local storage. The dashboard shows the cumulative CFP and the number of trees needed
to absorb it in a year.

Modules, one per component of `script.py`, plus a small helper module:

- `Wrappers`: `Option`, the model's `None`.
- `Geo`: `EncodeQuery` turns every space of a place name into `+`. `GetCoords` asks the
  geocoding service for the encoded name. `GetDistance` gives a distance only when both places
  resolved. The service is a function parameter (`Lookup`: query to optional coordinates). So
  is the haversine distance (`Metric`).
- `Footprint`: the catalogue entry, the pending entry, the summary row and the totals. It holds
  the per-entry figures (`Weight`, `EvaluateEntry`: weight × distance × 0.0002). It holds the
  all-or-nothing verdict over the list (`Evaluate`, `DailyOutcome`) and the running totals
  (`Total`).
- `Records`: the daily record, the cumulative CFP over the history, and the dashboard figures
  (the tree count is the cumulative CFP divided by 14).
- `Storage`: local storage, modelled as a class holding a map from keys to stored values. JSON
  text is replaced by the value it encodes.
- `Users`: the `User` class (`IsRegistered`, `Save`, `Load`).
- `App`: the `CFPApp` class. Its fields are the catalogue, the pending list `dailyInput` and
  the history `allRecords`. Its methods are `SaveUserData`, `AddFood`, `CalculateDaily` (the
  loop), `LoadRecords` and `UpdateDashboard`.

`CalculateDaily` is proved against `DailyOutcome`, a function of the pending list and of the
calculation context (catalogue, residence, lookup, distance). When the outcome is a saved
summary, the method appends exactly one record and writes the whole history back to storage.
It also empties the pending list. Any other outcome leaves the history, the pending list and
the storage unchanged. The lemmas about `Evaluate`, `Total` and `CumulativeCfp` state the
rest: one row per entry in input order, the first failure decides, and totals are sums.

Details of the code that the model keeps:

- Only the space character is replaced in the query. Other whitespace is sent as it is.
- The weight falls back to a factor of 1 when `avg_weight_kg` is null or 0. A catalogue entry
  that lacks the `avg_weight_kg`, `domestic_origin` or `NameEn` key raises `KeyError` in the
  code, with nothing changed. The model's catalogue entries always carry all three fields
  (`avgWeightKg` is an `Option<real>`, with None for null), so that failure is not modelled.
- An entry whose food id is not in the catalogue raises `KeyError` in the asynchronous task.
  Nothing has been changed at that point. The model reports it as
  `Aborted(UnknownFood(id))` and changes nothing.
- An empty pending list is answered with an alert and no change: `EmptyInput`.
- The two distances of an entry are awaited one after the other, and both are computed before
  either is checked. The model computes both and then checks.

## Model

| member | source | states |
|---|---|---|
| `Geo.EncodeQuery` | script.py:83 | the query has the length of the place name; every space becomes `+`, every other character is kept; no space remains |
| `Geo.GetCoords` | script.py:82-90 | the service is asked with the place name in which every space is replaced by `+`, character by character |
| `Geo.GetDistance` | script.py:102-109 | None exactly when either coordinate lookup is None; otherwise the distance between the two looked-up coordinates, non-negative when the distance function is |
| `Footprint.Weight` | script.py:161 | quantity × average unit weight; exactly the quantity when that weight is null or 0 |
| `Footprint.EvaluateEntry` | script.py:159-173 | unknown food id fails with `UnknownFood`; otherwise the entry fails exactly when one of the two distances (origin→residence, domestic origin→residence) is None; on success the row has the catalogue name, the weight, cfp = weight × distance × 0.0002 and domestic cfp = weight × domestic distance × 0.0002 |
| `Footprint.Evaluate` | script.py:159-176 | the empty list has no rows and no failure; a list with rows has one row per entry |
| `Footprint.Total` | script.py:157-176 | running totals that start at 0 for the empty list and are never negative when no row has a negative figure |
| `Footprint.DailyOutcome` | script.py:151-176 | `EmptyInput` exactly for the empty list; a saved summary has one row per entry and totals equal to the sums over its rows |
| `Footprint.EvaluateComputed` | script.py:159-173 | the list has rows exactly when every entry has figures; then there is one row per entry and row i is entry i's |
| `Footprint.FailureExtends` | script.py:166-168 | once a prefix of the list has failed, the entries after it do not change the verdict (the run stops at the first failure) |
| `Footprint.EvaluateFailed` | script.py:159-168 | a failed list names the failure of its first entry without figures; every earlier entry has figures |
| `Footprint.FirstFailureDecides` | script.py:159-168 | conversely, when entry k is the first one without figures, the list fails with entry k's failure |
| `Footprint.TotalConcat` | script.py:157-176 | the totals of two row lists joined are the componentwise sums of their totals, from 0 |
| `Footprint.TotalOrderIndependent` | script.py:174-176 | adding two groups of rows in either order gives the same totals |
| `Footprint.DailyOutcomeMeaning` | script.py:151-176 | empty list gives `EmptyInput`; a summary exactly when every entry has figures, one row per entry in input order, totals equal to the sums over the rows; an abort carries the first entry's failure |
| `Records.CumulativeCfp` | script.py:223 | 0 for an empty history; never negative when no record's total is negative |
| `Records.CumulativeConcat` | script.py:223 | the cumulative CFP of two histories joined is the sum of theirs |
| `Records.CumulativeOrderIndependent` | script.py:223 | the cumulative CFP does not depend on the order of the records |
| `Records.Dashboard` | script.py:222-224 | total CFP is the sum of `total_cfp` over the history; trees × 14 equals it; both 0 for an empty history |
| `Users.User.constructor` | script.py:10-13 | a fresh user has an empty name and residence over the given storage |
| `Users.User.IsRegistered` | script.py:15-17 | holds exactly when both the name and the residence are non-empty |
| `Users.User.Save` | script.py:19-24 | sets both fields and overwrites the stored profile with them, leaving other keys alone |
| `Users.User.Load` | script.py:26-34 | true exactly when a profile is stored; then both fields are restored from it; otherwise false and the fields are unchanged |
| `Users.SaveThenLoad` | script.py:15-34 | a save followed by a load on a fresh user over the same storage returns true, restores both fields, and that user is registered exactly when both are non-empty |
| `Users.LoadWithoutProfile` | script.py:26-34 | with no profile stored, load returns false and a fresh user stays unregistered |
| `App.CFPApp.constructor` | script.py:43-47 | a fresh application has an empty pending list and an empty history and a fresh unregistered user |
| `App.CFPApp.SaveUserData` | script.py:69-78 | saves exactly when name and residence are both non-empty, after which the user is registered; otherwise nothing changes; the persisted history is untouched |
| `App.CFPApp.AddFood` | script.py:112-125 | appends one entry exactly when the origin is non-empty and the quantity parses; an empty origin gives `MissingOrigin`, an unparsable quantity `BadQuantity`, and then the pending list is unchanged |
| `App.CFPApp.CalculateDaily` | script.py:151-189 | the outcome is `DailyOutcome` of the old pending list; on success the history grows by exactly one record dated `date` whose total is the totals' cfp, earlier records unchanged, the cumulative CFP grows by that total, the pending list is emptied and the whole history is written to storage; on an empty list or an abort the history, pending list and storage are unchanged |
| `App.CFPApp.LoadRecords` | script.py:244-246 | takes over the stored history when there is one, otherwise keeps the current one |
| `App.CFPApp.UpdateDashboard` | script.py:222-224 | total CFP is the cumulative CFP of the history and the tree figure is that divided by 14 |
| `App.Reload` | script.py:244-246 | a fresh application over the same storage loads back exactly the history an earlier one persisted |

## Left out

- DOM and presentation: `ShowLoading`, `UpdateUI`, `UpdateDailyTable`, `ShowSumarryTable`, the two-decimal formatting, the forest of tree emoji and every `alert`. The names listed in the "fail to find location" alert are not modelled; an abort carries the failing entry instead.
- The haversine `DistanceCalculation`: floating-point trigonometry. It is the `Metric` parameter, assumed non-negative where a lemma needs it.
- The network side of `GetCoords` (URL, fetch, JSON parsing, exception swallowing): the `Lookup` parameter, applied to the encoded query.
- The concurrency of `asyncio.gather` and the async/await structure: both lookups complete before their results are used, and only one calculation runs at a time.
- JSON serialisation in local storage: stored values are datatypes. A value of the other record's shape under a key, which the code would fail on, is treated as absent by `Users.User.Load` and `App.CFPApp.LoadRecords`.
- Clock and start-up: the date is a parameter of `CalculateDaily`; the catalogue fetch of `run` is replaced by a constructor parameter; the module-level singleton is not modelled.
- Reading the form fields: `AddFood` and `SaveUserData` take the field values as parameters, with the quantity already parsed (`None` when `float` would raise).
- Floating point: quantities are `real`; no claim is made about IEEE rounding.
- A storage write that fails: storage writes always succeed in the model.
