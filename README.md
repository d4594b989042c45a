# MEPS v2 utilization service and MLflow registry manager, modelled in Dafny

This project models the two files that make up the core of the prediction
service in `python-models`.

`server.py` is a small HTTP service. It names eight count targets, such as
primary-care visits, ER visits and Rx fills. It also declares a request record
of 37 optional numeric features. On first use it loads one saved pipeline per
target from `python-models/models/v2-pkl` and caches the result.

- `GET /health` answers `{"status": "ok"}` when the models load.
- `POST /predict` lays the features out in the fixed column order and runs every
  loaded pipeline on that row. Each raw prediction becomes `max(0, int(round(p)))`.
- Any exception becomes an HTTP 500 whose detail is the exception's message.
- The helper `neg_to_nan` masks negative values in an array.

`model_registry.py` holds a class with three methods over four MLflow calls
(`register_model`, `transition_model_version_stage`, `search_model_versions`
and `sklearn.load_model`):

- registering the model logged by a run;
- moving a model version to a stage;
- loading the first listed version that is at a given stage.

Each method catches `MlflowException` and turns it into `None` or into a no-op.
Any other exception passes through.

Layout:

- `wrappers.dfy`: `Option` and `Result`.
- `text.dfy`: one lemma for cancelling a common prefix and suffix of strings,
  used to prove that the path and URI builders are injective.
- `server.dfy` (module `Server`), covering:
  - the target and column schema;
  - the `Features` record and how a request body fills it;
  - row assembly (`getattr` over `FEATURE_COLS`);
  - `neg_to_nan` as a method over an array;
  - Python's round-half-to-even and the count coercion;
  - model loading, both as a specification function and as a loop;
  - the prediction loop;
  - the two endpoints;
  - the cache, as class `Service`, whose field `models` is the source's global `_MODELS`.
- `model_registry.dfy` (module `ModelRegistry`), covering:
  - Python's outcome with and without an exception;
  - the `except MlflowException` filter;
  - the formatting of version numbers;
  - the URI and filter strings;
  - class `ModelRegistryManager`, with one method per source method.

Everything the source gets from outside enters the model as a parameter:

- the file system is the set of existing paths `fs`;
- `joblib.load` and `mlflow.sklearn.load_model` are a loader function;
- `pipe.predict` is a runner;
- each MLflow client call is a store function that returns a value or raises;
- the repository root that `Path(__file__).resolve().parents[2]` computes is the
  string `repoRoot`.

Python dictionaries that the source builds by inserting distinct keys in order
are sequences of `(key, value)` pairs. Their order is the dictionary's insertion
order.

## Model

| member | source | states |
|---|---|---|
| Server.TargetsDistinct | python-models/server/server.py:68-77 | the eight target names are pairwise distinct, so the registry and the outputs built from them have one entry per target |
| Server.ColumnsDistinct | python-models/server/server.py:81-119 | the 37 feature column names are pairwise distinct |
| Server.FeaturesMatchColumns | python-models/server/server.py:122-160 | the fields of `Features`, in declaration order, carry exactly the names in `FEATURE_COLS`, in the same order |
| Server.Attributes | python-models/server/server.py:124-160 | the record's declared attributes, name and value, that `getattr` reads at line 203; `FeaturesMatchColumns` and `RequestAttributes` state that the names are `FEATURE_COLS` and the values the record's fields |
| Server.LookupDistinct | python-models/server/server.py:203 | reading an attribute by name from a record with distinct names gives that attribute's own value |
| Server.Lookup | python-models/server/server.py:203 | `getattr` by name on the record's attribute list; `LookupDistinct` states that it finds the attribute's own value |
| Server.NoAttribute | python-models/server/server.py:203 | the `AttributeError` text `getattr` would raise for an undeclared column; `RowAssembly` proves that it is never reached |
| Server.ReadColumns | python-models/server/server.py:203 | the row comprehension over a column list; `ReadDeclaredColumns` states that it succeeds with one looked-up value per column |
| Server.AssembleRow | python-models/server/server.py:203 | the row of a `Features` record in `FEATURE_COLS` order; `RowAssembly` states that it never fails and lists the record's values in order |
| Server.ReadDeclaredColumns | python-models/server/server.py:203 | reading columns that the record declares never fails, and gives one value per column, each the attribute of that name |
| Server.RowAssembly | python-models/server/server.py:202-204 | building the row from a `Features` record never raises, and the row lists the record's values in `FEATURE_COLS` order |
| Server.RequestAttributes | python-models/server/server.py:122-160 | a request body fills each field with the value under the field's name, or `None` when the key is absent |
| Server.Field | python-models/server/server.py:124-160 | the `= None` default of every `Features` field: the body's value under the name, or `None`; `RequestAttributes` states it for each field |
| Server.FromRequest | python-models/server/server.py:122-160 | the record a request body makes, each absent field `None`; `RequestAttributes`, `RowFromRequest` and `ExtraKeysIgnored` state its behaviour |
| Server.RowFromRequest | python-models/server/server.py:122-204 | the row built from a request body has 37 entries, and entry i is the body's value for column i, or `None` when that key is missing |
| Server.ExtraKeysIgnored | python-models/server/server.py:122-203 | a body key that is not a feature column does not change the row |
| Server.SparseRequestExample | python-models/server/server.py:122-204 | a body giving only age and gender yields a row with those two values first, then 35 `None`s |
| Server.NegToNan | python-models/server/server.py:44-55 | returns a copy of the same length; an entry is missing exactly when the input entry was missing or negative, and a kept entry equals the input |
| Server.RoundHalfEven | python-models/server/server.py:210 | the result is a nearest integer to x, and the even one on a tie (Python's `round`) |
| Server.RoundUnique | python-models/server/server.py:210 | any integer with the rounding properties is the rounding result, so the rounding is determined |
| Server.RoundMonotone | python-models/server/server.py:210 | rounding keeps the order of its arguments |
| Server.Coerce | python-models/server/server.py:210 | the count is 0 exactly when the prediction is at most 0.5; above that it is the rounded prediction; from -0.5 upwards it lies within 0.5 of the prediction |
| Server.CoerceMonotone | python-models/server/server.py:210 | a larger prediction never gives a smaller count |
| Server.CoerceWholeCount | python-models/server/server.py:210 | a prediction that is already a whole count k is reported as k |
| Server.ModelsDir | python-models/server/server.py:173 | the models directory under the repository root; `PredictServesEveryTarget` and `FirstFileMissing` are stated over it through `LoadAll` |
| Server.ModelPath | python-models/server/server.py:179 | the model file of one target; `ModelPathInjective` states that different targets get different files |
| Server.ModelPathInjective | python-models/server/server.py:173-179 | different targets map to different model files in the same directory |
| Server.LoadTargetsSuccess | python-models/server/server.py:177-183 | the per-target loop succeeds exactly when every target's file exists and loads, and then keeps the targets in order with each loaded value |
| Server.LoadTargetsFirstFailure | python-models/server/server.py:178-182 | when target k is the first that cannot be loaded, the loop fails with that target's error: a missing file, or the loader's own failure |
| Server.LoadTargets | python-models/server/server.py:177-183 | the per-target loading loop as a function; `LoadTargetsSuccess` and `LoadTargetsFirstFailure` state its behaviour |
| Server.LoadAll | python-models/server/server.py:172-183 | a cold `_load_models`; `LoadAllSuccess` and `LoadAllFailure` state its behaviour and `ReadRegistry` computes it |
| Server.Loadable | python-models/server/server.py:180-182 | a target loads when its model file exists and `joblib.load` of it does not raise; `LoadTargetsSuccess` and `LoadAllSuccess` state that loading succeeds exactly when this holds for every target |
| Server.TargetError | python-models/server/server.py:180-182 | the exception the loop raises for a target it cannot load: a missing file, or the loader's own error; `LoadTargetsFirstFailure` and `LoadAllFailure` state which one is raised |
| Server.Message | python-models/server/server.py:175-194 | the `RuntimeError` texts `Models directory not found: <dir>` and `Missing model file: <path>`, or the loader's message, as `str(e)` gives them to the 500 detail; `HealthOkIffLoadable` and `FirstFileMissing` state it |
| Server.LoadAllSuccess | python-models/server/server.py:172-185 | loading succeeds exactly when the models directory exists and every target loads; the registry is then keyed by `COUNT_TARGETS` in order, and each value is the loader's result for that target's file |
| Server.LoadAllFailure | python-models/server/server.py:172-183 | a missing directory fails with the directory message before any file is read; otherwise a failure is the error of the first target that cannot be loaded |
| Server.FirstUnloadable | python-models/server/server.py:178-181 | locates the first target that cannot be loaded, where one exists, and every earlier target loads |
| Server.ReadRegistry | python-models/server/server.py:172-185 | the loop, with its early raise, computes exactly the loading specification |
| Server.RunAllSuccess | python-models/server/server.py:206-210 | the prediction loop succeeds exactly when every pipeline succeeds; its outputs are then keyed by the registry's targets in order, each the coerced prediction of that target's pipeline |
| Server.RunAllFirstFailure | python-models/server/server.py:207-209 | when pipeline k is the first to fail, the loop fails with that pipeline's message |
| Server.RunAll | python-models/server/server.py:206-210 | the outputs loop as a function; `RunAllSuccess` and `RunAllFirstFailure` state its behaviour and `RunPipelines` computes it |
| Server.RunPipelines | python-models/server/server.py:206-212 | the loop, with its early raise, computes exactly the prediction specification |
| Server.HealthOkIffLoadable | python-models/server/server.py:188-194 | health answers ok exactly when loading succeeds, and otherwise a 500 whose detail is the loading error's message |
| Server.HealthResponse | python-models/server/server.py:188-194 | health given what loading yields; `HealthOkIffLoadable` states its behaviour |
| Server.PredictResponse | python-models/server/server.py:197-214 | predict given what loading yields; `PredictAllOrNothing`, `PredictServesEveryTarget`, `MissingFileFailsBoth` and `FirstFileMissing` state its behaviour |
| Server.PredictAllOrNothing | python-models/server/server.py:197-214 | predict answers with a body exactly when loading succeeded and every loaded pipeline runs on the row; the body has one count per loaded target, and any error is a single 500, never a partial answer; a loading failure gives the same 500 and detail as `/health` |
| Server.PredictServesEveryTarget | python-models/server/server.py:172-212 | after a cold load, predict succeeds exactly when the directory exists and every target's model file exists, loads and runs on the row; the answer is then keyed by `COUNT_TARGETS` in order, and each value is the coerced output of the model loaded from that target's own file |
| Server.MissingFileFailsBoth | python-models/server/server.py:178-214 | if any target's model file is missing, health fails and predict answers no counts at all, even for the targets whose files exist |
| Server.FirstFileMissing | python-models/server/server.py:174-194 | with the directory present and the first target's file missing, both endpoints answer 500 with detail `Missing model file: ` followed by that file's path |
| Server.Service.constructor | python-models/server/server.py:164 | the cache starts empty, and so satisfies the invariant `Valid` that a filled cache holds exactly the targets of `COUNT_TARGETS`, in order |
| Server.Service.Resolve | python-models/server/server.py:169-183 | what `_load_models` yields in the current state: the cached dictionary when `_MODELS` is set, otherwise a cold load; `Service.LoadModels` states that its result is this |
| Server.Published | python-models/server/server.py:184 | `_MODELS` after a call: the dictionary after a full load, `None` after a failure; `Service.LoadModels` states that the cache becomes this |
| Server.Service.LoadModels | python-models/server/server.py:167-185 | a filled cache is returned unchanged; an empty cache is loaded, and the cache is filled only on success, so a failed load is retried on the next call; a successful result is keyed by `COUNT_TARGETS`, and `Valid` is preserved |
| Server.Service.Health | python-models/server/server.py:188-194 | the answer is the health response for what loading resolves to, the cache is updated as by `LoadModels`, and `Valid` is preserved |
| Server.Service.Predict | python-models/server/server.py:197-214 | the answer is the prediction response for what loading resolves to, a successful answer is keyed by `COUNT_TARGETS` whether the cache was warm or cold, the cache is updated as by `LoadModels`, and `Valid` is preserved |
| ModelRegistry.CatchMlflow | python-models/models/model_registry.py:29-31 | an MLflow exception becomes `None`, a returned value is wrapped, and any other exception propagates unchanged |
| ModelRegistry.ParseNatToString | python-models/models/model_registry.py:61 | the decimal text of a version number reads back as that number |
| ModelRegistry.NatToString | python-models/models/model_registry.py:61 | `str` on a non-negative int: a non-empty string of decimal digits; `ParseNatToString` states that it reads back as the number |
| ModelRegistry.IntToStringInjective | python-models/models/model_registry.py:61 | different integers have different decimal texts (`str` on `int`) |
| ModelRegistry.IntToString | python-models/models/model_registry.py:61 | `str` on an int: a minus sign for a negative number, then its digits; `ParseNatToString` states that those digits read back as the absolute value, and `IntToStringInjective` that the text is injective |
| ModelRegistry.RunModelUriInjective | python-models/models/model_registry.py:25 | different run ids give different `runs:/…/model` URIs |
| ModelRegistry.RunModelUri | python-models/models/model_registry.py:25 | the `runs:/<id>/model` URI; `RunModelUriInjective` states that it is injective |
| ModelRegistry.VersionUriInjective | python-models/models/model_registry.py:61 | for one model name, different versions give different `models:/…/…` URIs |
| ModelRegistry.VersionUri | python-models/models/model_registry.py:61 | the `models:/<model>/<version>` URI; `VersionUriInjective` states that it is injective in the version |
| ModelRegistry.NameFilter | python-models/models/model_registry.py:56 | the `name='<model>'` search filter that `FetchLatestModel` passes to the store |
| ModelRegistry.FirstAtStage | python-models/models/model_registry.py:58-59 | finds the first version whose current stage equals the requested stage; no earlier version has it, and the search finds nothing exactly when no version has it |
| ModelRegistry.FirstAtStageIs | python-models/models/model_registry.py:58-61 | a version at the stage with none before it at the stage is the one the search picks |
| ModelRegistry.Fetch | python-models/models/model_registry.py:54-68 | what `fetch_latest_model` answers for a listing outcome; `FetchListingFails`, `FetchNothingAtStage` and `FetchLoadsFirstAtStage` state its behaviour and `FetchLatestModel` computes it |
| ModelRegistry.ModelRegistryManager.constructor | python-models/models/model_registry.py:16-17 | the manager keeps the model name it was given |
| ModelRegistry.ModelRegistryManager.RegisterModel | python-models/models/model_registry.py:19-33 | registers the run's `runs:/<id>/model` URI under the manager's name; the result is the store's, or `None` on an MLflow exception; other exceptions propagate |
| ModelRegistry.ModelRegistryManager.TransitionModelStage | python-models/models/model_registry.py:35-48 | passes the manager's name, the version and the stage to the store; the call returns normally exactly when the store returns or raises an MLflow exception, and otherwise re-raises the store's exception |
| ModelRegistry.FetchListingFails | python-models/models/model_registry.py:54-68 | when listing the versions raises, the answer is `None` exactly for an MLflow exception, and any other exception propagates |
| ModelRegistry.FetchNothingAtStage | python-models/models/model_registry.py:58-64 | when no listed version is at the stage, the answer is `None` and no model is loaded |
| ModelRegistry.FetchLoadsFirstAtStage | python-models/models/model_registry.py:58-68 | the first listed version at the stage is loaded by its `models:/<model>/<version>` URI; the answer is `None` exactly when that load raises an MLflow exception, and other exceptions propagate |
| ModelRegistry.ModelRegistryManager.FetchLatestModel | python-models/models/model_registry.py:50-68 | searches by `name='<model>'` with the stage defaulting to `"None"`, and its loop with early return computes exactly the fetch specification |

## Left out

- FastAPI routing, uvicorn and the local runner (`server.py:217-221`) are left out. Only the outcome of each endpoint is modelled: a body, or status 500 with a detail string.
- Pydantic validation of the request body is left out: type checks, coercing numbers, rejecting non-numbers. `Server.FromRequest` models only the `None` defaults and the fact that unknown keys are ignored.
- The pandas `DataFrame` is not modelled. The one-row frame of `server.py:204` is the row sequence, in `FEATURE_COLS` order.
- The pandas branch of `neg_to_nan` (`server.py:50-51`) is left out; the model covers the array branch only. A missing value stands for NaN.
- Server.NegToNan: returns a sequence rather than a freshly allocated numpy array, and handles one dimension only.
- The `__mp_main__` registration shim (`server.py:58-63`) only matters to unpickling and is left out.
- Floating point is left out: numbers are Dafny reals. `round` on NaN or infinity, which raises in Python, is not modelled. Nor are precision loss and `float(...)` conversion of the pipeline output.
- Loading files is an abstract loader, and running a pipeline is an abstract runner. Unpickling and scikit-learn are not modelled.
- Path resolution is reduced to string concatenation with `/`. `Path(__file__).resolve().parents[2]` is the parameter `repoRoot`, and `exists()` is membership in the set `fs`.
- Python dictionaries are pair sequences. Appending stands for assigning because the keys are distinct (`Server.TargetsDistinct`).
- Concurrency is left out. The source's lazy cache has no lock, and the model treats each call as atomic.
- The `print` logging in both files is left out.
- MLflow's internals are left out: the tracking server, the registry store, and constructing `MlflowClient()`. Each client call is one store function passed to the method.
- `ModelRegistry.ModelRegistryManager.FetchLatestModel` takes "latest" to mean the first version in the order the store lists them, as the source's loop does. Nothing here assumes that order is by recency.
- In these places the model follows the code as written:
  - `register_model` reports an MLflow failure as `None`, without its cause (`model_registry.py:29-31`).
  - `transition_model_stage` swallows an MLflow failure (`model_registry.py:47-48`).
  - `fetch_latest_model` answers `None` both when no version is at the stage and when MLflow fails (`model_registry.py:63-68`).
  - A failed `_load_models` raises before it assigns `_MODELS`, so the cache stays empty and the next request retries the load (`server.py:174-184`).
