# Business impact analysis project: a Dafny model

This project models the logic of a guided business impact analysis (BIA)
tool. The tool is a form-driven application that records:

- an organization;
- its processes, each with dependencies;
- an impact assessment per process (financial, operational and reputational
  scores from 1 to 5);
- assets, with the fuzzy inputs of the PARAM risk model;
- a decision matrix of products against criteria, with triangular fuzzy
  numbers (TFNs) as evaluations.

Three pieces are modelled, each as pure functions over immutable datatypes:

- **Scoring and summary** (`Calculations`, from `engine/calculations.py`).
  A process's placeholder priority is 0.4·financial + 0.4·operational +
  0.2·reputational. The review summary gives the process count, the average
  priority, and the maximum priority when impacts exist.
- **Project records and their dictionary form** (`Models` and `Values`, from
  `engine/models.py`). `ToDict` is `BIAProject.to_dict`. `FromDict` is
  `BIAProject.from_dict`, with its defaults and its rejections. The
  dictionary is an abstract `Value` (string, integer, list, keyed object),
  not JSON text.
- **Form state changes** (`Forms`, from `ui/forms.py`). These cover the TFN
  clamp applied to every edited number, the repair of the evaluation grid
  to products × criteria, and the add and update rules of the forms for
  processes, dependencies, impacts, assets, criteria and products. Each is a
  function from the old state and the submitted values to the new state.

`Wrappers` holds the `Option` and `Result` types.

The source imports `TriangularFuzzyNumber`, `Asset`, `Criterion`, `Product`,
`DecisionMatrix`, `LikelihoodInputs` and `ImpactInputs` from
`engine/models.py`, but that file does not define them. `Forms` declares
them with the fields the forms use. The asset register (`AssetRegister`) is
kept apart from `Models.Project` for the same reason: the `BIAProject`
dataclass has no asset fields.

Two behaviours of the code are worth noting:

- A grid whose row count differs from the product count is reset wholesale
  to (1,1,1) cells. It is not padded row by row, and no error is raised.
  `Forms.AddProductResetsGrid` shows the consequence: adding a product
  discards every evaluation entered so far.
- Adding an asset records default inputs of (1,1,1), not zero-valued ones.

## Model

| member | source | states |
|---|---|---|
| `Calculations.Priority` | engine/calculations.py:6-9 | the priority lies between the smallest and the largest of the three scores, because the weights are positive and sum to one |
| `Calculations.PriorityWeights` | engine/calculations.py:9 | all-zero scores give 0; raising the financial or operational score by d raises the priority by exactly 0.4·d, and raising the reputational score by d raises it by 0.2·d, so the weighting is determined |
| `Calculations.PriorityInSliderRange` | engine/calculations.py:9 | scores within the slider range 1..5 give a priority in [1, 5] |
| `Calculations.PriorityMonotone` | engine/calculations.py:9 | raising any score never lowers the priority |
| `Calculations.Max` | engine/calculations.py:22 | the result is one of the scores and no score exceeds it |
| `Calculations.SummarizeRisk` | engine/calculations.py:12-22 | the process count is always the number of processes; with no impacts, the average is 0 and there is no maximum; otherwise the average is the mean (sum over count) of the priorities, the maximum is the largest priority and is one of them, and lowest priority ≤ average ≤ maximum |
| `Calculations.MeanWithinBounds` | engine/calculations.py:21 | when every score lies between two bounds, so does their mean (sum over count) |
| `Calculations.AverageInSliderRange` | engine/calculations.py:18-22 | impacts scored in 1..5 give an average and a maximum in [1, 5] |
| `Values.Elements` | engine/models.py:52 | a list yields its items; an empty string or empty dict yields no items; an integer is rejected; iteration succeeds exactly for a list, an empty string or an empty dict |
| `Values.DecodeEach` | engine/models.py:62 | a list comprehension of decodes succeeds exactly when every element decodes; it keeps length and order; otherwise it fails with the error of the first failing element |
| `Models.DecodeOrganization` | engine/models.py:7-11 | rejects a non-dict or an unknown key; absent fields read as ""; any dict of known string fields is accepted |
| `Models.DecodeDependency` | engine/models.py:14-18 | rejects a non-dict, an unknown key or a missing `name`; absent `category` and `criticality` read as "Internal" and 3; any well-typed dict with a name is accepted |
| `Models.DecodeProcess` | engine/models.py:52-60 | rejects a non-dict; absent name, owner and description read as ""; the dependencies are the in-order decode of the `dependencies` entry, and are empty when that entry is absent; any dict whose name, owner and description are strings and whose dependencies decode is accepted, whatever other keys it holds |
| `Models.DecodeImpact` | engine/models.py:29-34 | rejects a non-dict, an unknown key or a missing `process_name`; each absent score reads as 1; any dict of known keys with a string process name and integer scores is accepted |
| `Models.FromDict` | engine/models.py:47-69 | a non-dict is rejected; on success the title reads with default "Untitled BIA Project", the organization is the decode of `organization` (default {}), and processes and impacts are the in-order decodes of their lists; a rejected organization rejects the project; when the organization, every process and every impact decode and the title (if present) is a string, the project is accepted, whatever other keys it holds |
| `Models.ToDict` | engine/models.py:44-45 | the dict has exactly the keys title, organization, processes and impacts; the title is stored as a string, the organization as its dict, and processes and impacts as lists of the same length holding each record's dict in order |
| `Models.RoundTrip` | engine/models.py:44-69 | `from_dict(to_dict(p)) == p` for every project, preserving title, organization and the order of processes, dependencies and impacts |
| `Models.MissingFieldsGiveDefaultProject` | engine/models.py:48-69 | a dict with none of the four project keys, whatever else it holds, reads as the default project |
| `Models.MissingFieldsGiveDefaultProcess` | engine/models.py:53-58 | a process record with none of its keys reads as ("", "", "", no dependencies) |
| `Models.RequiredFieldOnlyGivesDefaults` | engine/models.py:14-34 | a dependency with only a name gets ("Internal", 3); an impact with only a process name gets scores (1, 1, 1) |
| `Models.BadImpactRejectsProject` | engine/models.py:62 | one rejected impact record rejects the whole project |
| `Models.BadDependencyRejectsProject` | engine/models.py:53 | one rejected dependency record, in any process, rejects the whole project |
| `Forms.Clamp` | ui/forms.py:155 | the result is ordered; the lower value is kept; middle and upper are raised only to the lower and middle values, never lowered; an ordered entry is stored unchanged |
| `Forms.ClampIdempotent` | ui/forms.py:155 | clamping a clamped number changes nothing |
| `Forms.ClampReversed` | ui/forms.py:256 | the entry (5, 2, 1) is stored as (5, 5, 5) |
| `Forms.EnsureMatrixShape` | ui/forms.py:210-219 | the grid has one row per product and one cell per criterion; criteria and products are unchanged; on a row-count mismatch every cell is (1,1,1); otherwise cells within the old row are kept and padded cells are (1,1,1); a well-shaped matrix is left as is |
| `Forms.EnsureMatrixShapeIdempotent` | ui/forms.py:210-219 | repairing twice is the same as repairing once |
| `Forms.AddCriterion` | ui/forms.py:232-233 | a criterion is appended only when its name is non-empty; products and evaluations are unchanged |
| `Forms.AddProduct` | ui/forms.py:240-241 | a product is appended only when its name is non-empty; criteria and evaluations are unchanged |
| `Forms.AddCriterionPadsRows` | ui/forms.py:214-217 | after adding a criterion to a well-shaped matrix and repairing it, every row keeps its cells and gains one (1,1,1) cell |
| `Forms.AddProductResetsGrid` | ui/forms.py:211-213 | after adding a product to a well-shaped matrix and repairing it, there is one more row and every cell is (1,1,1) |
| `Forms.AddProcess` | ui/forms.py:65-66 | a process with no dependencies is appended only when its name is non-empty; nothing else changes |
| `Forms.AddProcessCounted` | ui/forms.py:65-66 | the review summary's process count grows by one when a named process is added |
| `Forms.FirstNamed` | ui/forms.py:82-85 | the result is the position of the first element with the name, or the length when there is none; no earlier element has the name |
| `Forms.AddDependency` | ui/forms.py:69-85 | a dependency with a non-empty name is appended to the first process with the selected name and to no other; with an empty name or no such process nothing changes; the other fields are untouched |
| `Forms.SaveImpact` | ui/forms.py:88-114 | with no processes nothing changes; otherwise the first impact for the process takes the new scores in place, keeping the list length, or, if there is none, exactly one impact is appended; all other impacts and fields are unchanged |
| `Forms.SavedImpactIsFound` | ui/forms.py:100-114 | after saving, the lookup for that process finds exactly the saved scores |
| `Forms.SaveImpactKeepsNamesDistinct` | ui/forms.py:100-114 | if no process had two impacts before a save, none has two after it |
| `Forms.SaveImpactKeepsSliderRange` | ui/forms.py:96-98 | saving slider values keeps every impact score within 1..5 |
| `Forms.AddAsset` | ui/forms.py:124-139 | an asset is appended only when its name is non-empty; (1,1,1) inputs are added for that name only where none exist; existing inputs are never overwritten |
| `Forms.AddAssetKeepsInputsComplete` | ui/forms.py:124-139 | if every registered asset had both kinds of input before, it still does after an asset is added |

## Left out

- The fuzzy decision engine is left out: PARAM scoring, fuzzy BWM weights, fuzzy TOPSIS ranking and TFN arithmetic. `ui/forms.py` imports these, but `engine/models.py` and `engine/calculations.py` do not define them, so there is no code to model.
- Widget rendering, `st.session_state`, the sidebar navigation in `app.py` and the result tables are user-interface plumbing. Only the state changes behind the forms are modelled.
- `engine/storage.py` is left out: creating the data directory and reading or writing the JSON file are I/O. The JSON text format (`json.dumps`, indentation) is left out as well.
- `Calculations.Priority`: uses exact real arithmetic. The source's floating-point weights and the `round(…, 4)` display are not reproduced.
- `Models.FromDict`: only strings, integers, lists and dicts are represented. JSON null, booleans and floats are not.
- `Models.FromDict`: a field that holds the wrong kind of value is rejected as `IllTyped`. Python's dataclasses would store such a value unchecked.
- `Models.FromDict`: the error kinds are coarse. `UnexpectedKeyword` does not name the key, and Python's exception types and messages are not modelled.
- `render_welcome` and `render_organization` are left out: they assign text-input values straight to the title and organization fields and hold no logic.
- The input edit loop of `render_asset_risk_param` (ui/forms.py:172-190) is left out. It falls back to `LikelihoodInputs()` and `ImpactInputs()`, whose defaults are not defined in `engine/models.py`. The clamp each edited number passes through is `Forms.Clamp`.
- The per-cell evaluation editor and the best-to-others preference list (ui/forms.py:247-263) are reduced to `Forms.Clamp`. The values stored are the clamped widget values.
- Widget limits are not imposed as preconditions: the `min_value` bounds of the number inputs, and the selectbox that limits `Forms.AddDependency` and `Forms.SaveImpact` to existing process names. Both functions are defined for any name.
- The source edits rows in place, so a row list shared between two grid positions would change in both. The model has value semantics and no aliasing.
