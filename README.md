# Smart traffic signal optimisation: verified model of the detection-to-decision core

The application analyses one traffic frame. An object detector finds the vehicles in it. The
application then counts them per class and turns the total into a signal recommendation: a density
tier, a green-signal time in seconds and a status line. This project models that core in Dafny and
proves its properties:

- `vehicles.dfy`, module `Vehicles`: the counting loop of `process_frame`. The detector's output is
  taken as a list of results, each holding the class labels of its boxes. The per-class dictionary
  `vehicle_types` is an insertion-ordered list of items (`Tally`). The loop is an imperative method
  (`ProcessFrame`) with nested loops and invariants. It is proved against a reference definition,
  `TallyOf`, which gives each of the five classes, in their initial order, the number of detections
  carrying that label. The module also holds the chart filter `Positive`: the items with a positive
  count, in order.
- `signal.dfy`, module `Signal`: `traffic_logic`, the three-way threshold cascade, with its tier
  ranges, its boundary values and its monotonicity.
- `pipeline.dfy`, module `Pipeline`: one analysis as the image and video branches run it. The tally
  feeds the decision, and the chart filter runs over the tally. The end-to-end scenarios are lemmas.

The status strings are kept verbatim, emoji prefix included ("🟢 Smooth Traffic", ...).

## Model

| member | source | states |
|---|---|---|
| `Vehicles.Find` | app.py:109 | dictionary membership `label in vehicle_types`: None exactly when no key equals the label; otherwise the position of the first item whose key is the label |
| `Vehicles.InitialTally` | app.py:101-102 | the literal `{"car":0,"truck":0,"bus":0,"motorcycle":0,"bicycle":0}` is the tally of no detections, and it sums to 0 |
| `Vehicles.TotalBumped` | app.py:110-111 | `vehicle_types[label] += 1` raises the sum of the counts by exactly one, which is why `vehicle_count += 1` keeps the count equal to that sum |
| `Vehicles.TallyOfAppend` | app.py:109-111 | one more detection: a vehicle label increments its own class and no other; any other label leaves the tally unchanged |
| `Vehicles.CountStep` | app.py:109-111 | one loop step on the dictionary held: a label found in it increments that item and the total by one; a label not found changes nothing |
| `Vehicles.TotalOfTally` | app.py:109-111 | the sum of the per-class counts equals the number of detections whose label is one of the five vehicle classes |
| `Vehicles.ProcessFrame` | app.py:101-111 | after the nested loops, `vehicle_types` holds, for each of the five classes in order, the number of detections with that label; `vehicle_count` equals the sum of those counts and the number of vehicle detections |
| `Vehicles.TallyShape` | app.py:102 | every tally has exactly the five initial keys in their initial order, and no count is negative |
| `Vehicles.TallyOrderIndependent` | app.py:104-111 | two detection sequences with the same multiset of labels give the same tally, so the order of detections does not matter |
| `Vehicles.IgnoredLabel` | app.py:109 | a detection whose label is not a vehicle class (such as "person"), inserted anywhere, changes neither any class count nor the total |
| `Vehicles.Positive` | app.py:174 | an item is kept exactly when it is in the tally with a count above 0; each kept item occurs as often as in the tally and no more, so nothing is repeated; nothing longer than the tally comes out |
| `Vehicles.PositiveKeepsOrder` | app.py:174 | any two kept items appear in the same relative order as in the tally |
| `Vehicles.PositiveEmptyIffTotalZero` | app.py:174-175 | with no negative count, the filtered items are empty exactly when the counts sum to 0, so the chart is skipped exactly when no vehicle was counted |
| `Signal.Decide` | app.py:118-120 | the fixed tier table: LOW gives 15 s and "🟢 Smooth Traffic", MEDIUM gives 30 s and "🟡 Moderate Traffic", HIGH gives 45 s and "🔴 Heavy Congestion" |
| `Signal.TrafficLogic` | app.py:117-120 | LOW exactly when the count is at most 10; MEDIUM exactly when it is 11 to 25; HIGH exactly when it is 26 or more; time and status are the tier's row of the table |
| `Signal.Boundaries` | app.py:118-119 | 10 still gives LOW, 11 and 25 give MEDIUM, 26 gives HIGH, each with its time and status |
| `Signal.GreenTimeMonotone` | app.py:117-120 | a larger count never gets a shorter green time, and the time stays between 15 and 45 seconds |
| `Signal.StatusDeterminesTier` | app.py:118-120 | two counts get the same status line exactly when they get the same tier |
| `Pipeline.AnalyzeFrame` | app.py:157-174 | the count comes from the tally of the detections, the decision is `traffic_logic` of that count, the chart items are the positive counts in tally order, and the chart is empty exactly when the count is 0 |
| `Pipeline.ScenarioEmpty` | app.py:101-118 | no detections: all five counts 0, total 0, LOW with 15 s and "🟢 Smooth Traffic", nothing to chart |
| `Pipeline.ScenarioTenCars` | app.py:109-118 | ten car detections: car count 10, total 10, still LOW with 15 s |
| `Pipeline.ScenarioElevenCars` | app.py:109-119 | eleven car detections: total 11, MEDIUM with 30 s and "🟡 Moderate Traffic" |
| `Pipeline.ScenarioCarsAndTrucks` | app.py:109-120 | fifteen cars and twelve trucks: total 27, HIGH with 45 s and "🔴 Heavy Congestion" |
| `Pipeline.ScenarioWithPersons` | app.py:109-118 | five cars, three buses and two persons: tally car 5, truck 0, bus 3, motorcycle 0, bicycle 0; the persons are not counted; total 8, LOW |
| `Pipeline.ChartOfFirstAndThird` | app.py:174 | when only the first and third classes have positive counts, the chart holds exactly those two items, first before third |
| `Pipeline.ScenarioWithPersonsReport` | app.py:157-174 | the whole analysis of one detector result with five cars, three buses and two persons reports the tally car 5, truck 0, bus 3, motorcycle 0, bicycle 0, count 8, LOW with 15 s and "🟢 Smooth Traffic", and the chart items car 5 then bus 3 |

## Left out

- The detector load and inference (`load_model`, `model.predict` with its confidence, overlap and
  image-size parameters and its class-id filter): a foreign neural-network call. Its output enters
  the model as the list of box labels per result.
- The class-id-to-name lookup `model.names[cls]`: a table owned by the detector, so labels are
  taken as given.
- Annotation (`frame.copy()`, `result.plot()`): image drawing for display only. `ProcessFrame`
  therefore returns the count and the tally but no annotated frame.
- The page layout, session navigation, styling, metrics, file uploaders and footer: presentation only.
- File and video input (temporary file, video capture, image decoding), including the branch that
  shows nothing when the video's first frame cannot be read: input handling outside the core.
- The bar-chart drawing: only the filter that selects its data is modelled.
- Integer width: Python integers are unbounded, and so are Dafny's, so no wrap-around exists to model.
