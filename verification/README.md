# Worker tasks of the ML model service, in Dafny

The service accepts machine-learning requests over HTTP and hands each one to
a Celery worker as an asynchronous task. This project models the worker side,
`api_db_model/tools.py`, and proves what it does with the arguments it
receives:

- `values.dfy` (module `Values`): the values that travel in task arguments
  and MongoDB documents, the exceptions the worker code can raise, and a
  task's reply (a returned value or a raised exception).
- `mlmodels_task.dfy` (module `MlModelsTask`): the `mlmodels` task. A method
  name selects one operation of the model registry (`Dispatch`). For the
  per-model operations the task reads `model_id` out of its keyword
  arguments, deletes it, and passes it positionally. `update_model` receives
  the whole keyword mapping as one argument. An unknown name falls through
  and the task returns `None`. `Task` is the task body as an imperative
  method, proved against `Dispatch`. The registry (`ML_models`) is not part
  of this model. It is a parameter: a function from the call the task makes
  to the reply the registry gives. The gateway's insertion of the URL id
  into the request body (`WithUrlId`) is modelled so that the round trip
  with the worker's extraction can be stated.
- `row_tasks.dfy` (module `RowTasks`): the row tasks over the MongoDB
  collection, which is modelled as a map from `_id` to document. The step
  functions (`AddRowStep`, `DeleteRowStep`, `UpdateRowStep`, `GetRowReply`)
  state each task's effect and reply. The class `Collection` holds the
  shared collection and runs the tasks as methods proved equal to those
  functions. `get_row` applies the disclosure rule (`Disclose`): a reader
  sees a document's `model` field only as "Fitted" or "Not fitted". `Replay`
  runs a sequence of row tasks; the lemmas about it say which rows a run can
  change.

The model follows the code. `delete_row` acknowledges with "Row deleted"
whether or not the row existed; it does not report a missing row. `get_row`
on a missing id raises an `IndexError`, because the index into the empty
result list lies outside the `try`. A document without a `model` field
yields "Wrong id". No code in `api_db_model/tools.py` or
`api_flask/api_flask.py` checks that a model is fitted before `predict`, and
none checks a model's lifecycle state.

BSON stores integers in at most 64 signed bits, and the driver raises an
`OverflowError` when it encodes a filter or document holding a wider
integer. Flask's `<int:...>` routes accept ids of any size, so the model
states this error path for every row task (`BsonEncodable`).

## Model

| member | source | states |
|---|---|---|
| `MlModelsTask.Dispatch` | api_db_model/tools.py:15-56 | each recognised method name selects exactly its own registry operation; any other value, `None` included, selects nothing; per-model operations get the `model_id` value first and the keyword arguments minus exactly that key, or a `KeyError` when it is missing; `update_model` gets the whole mapping as one positional argument; `create_model`, `get_model` and `delete_model` get the mapping unchanged as keywords |
| `MlModelsTask.TakeModelId` | api_db_model/tools.py:34-37 | a missing `model_id` gives a `KeyError` before any call; otherwise the id is passed first and the forwarded keywords are the input minus exactly `model_id`, all other entries unchanged |
| `MlModelsTask.Task` | api_db_model/tools.py:14-56 | the task returns `None` for an unrecognised name and raises `KeyError('model_id')` when a per-model call lacks it; `fit` returns "Model is fitted" whatever the registry returns and passes on what it raises; every other branch returns the registry's reply unchanged |
| `MlModelsTask.WithUrlId` | api_flask/api_flask.py:117-119 | the gateway's body holds the URL id under `model_id` and keeps every other entry |
| `MlModelsTask.UrlIdRoundTrip` | api_db_model/tools.py:34-56 | gateway and worker together: the registry receives the URL id, and the request body with any `model_id` of its own dropped |
| `MlModelsTask.UnknownMethodsFallThrough` | api_flask/api_flask.py:53 | the `model_name` task the gateway sends, and an absent method (`None`), reach no registry operation |
| `MlModelsTask.MethodName` | api_db_model/tools.py:16-52 | the method name string that each branch of the chain compares against |
| `RowTasks.Disclose` | api_db_model/tools.py:82-83 | the `model` field becomes "Fitted" unless it is "Not fitted"; it is never shown as anything else; all other fields and the key set are unchanged |
| `RowTasks.DiscloseIdempotent` | api_db_model/tools.py:82-83 | applying the rule twice shows what applying it once shows |
| `RowTasks.BsonEncodable` | api_db_model/tools.py:59-86 | the 64-bit signed integer limit the driver enforces, at any depth, on every filter and document the row tasks send |
| `RowTasks.WellFormed` | api_db_model/tools.py:59-86 | the collection invariant: every document's `_id` is its key, every stored document is encodable, and every generated id in use lies below the counter |
| `RowTasks.GetRowReply` | api_db_model/tools.py:77-86 | `OverflowError` for an id too wide for BSON; otherwise `IndexError` exactly when no document has the id; "Wrong id" exactly when the document has no `model` field; otherwise exactly the document through the disclosure rule (`Disclose`) |
| `RowTasks.AddRowStep` | api_db_model/tools.py:59-62 | a document too wide for BSON is refused with `OverflowError`; otherwise it is stored under its `_id`, exactly as given, or under a fresh generated id; a taken `_id` is refused with a duplicate-key error; a refused insert changes nothing; no other row changes; the reply is "Row inserted"; the collection invariant is kept |
| `RowTasks.DeleteRowStep` | api_db_model/tools.py:65-68 | an id too wide for BSON is refused with `OverflowError`; otherwise exactly that id is removed, every other row is unchanged, and the reply is "Row deleted" whether or not the row existed |
| `RowTasks.UpdateRowStep` | api_db_model/tools.py:71-74 | an id or replacement too wide for BSON is refused with `OverflowError`; otherwise the document with that id is replaced by the new fields plus its `_id`; other rows are unchanged; an absent id changes nothing and still replies "Row updated"; a replacement naming a different `_id` is refused |
| `RowTasks.Apply` | api_db_model/tools.py:59-86 | one row task keeps the collection invariant, changes a row only when it names that row's id as delete or update target, never overwrites on insert, creates an absent id only by inserting it, and `get_row` changes nothing |
| `RowTasks.Replay` | api_db_model/tools.py:59-86 | any sequence of row tasks keeps the collection invariant (every document's `_id` is its key; generated ids are fresh) |
| `RowTasks.ReplayKeepsUntargetedRow` | api_db_model/tools.py:59-74 | a row that no delete or update names survives any run of tasks unchanged |
| `RowTasks.ReplayKeepsAbsentRowAbsent` | api_db_model/tools.py:77-85 | an absent row stays absent, and `get_row` keeps raising on it (`IndexError`, or `OverflowError` for an id too wide for BSON), until an insert names its id |
| `RowTasks.GatewayAddThenGet` | api_flask/api_flask.py:160-164 | the body the gateway sends, with the URL id as `_id`, is refused with `OverflowError` if too wide for BSON, and otherwise is stored under that id exactly, and `get_row` shows it through the disclosure rule or as "Wrong id" |
| `RowTasks.UpdateThenGet` | api_db_model/tools.py:71-86 | after `update_row` with a replacement that has no `_id` or the same one, the id reads as the replacement alone; a replacement without `model` reads as "Wrong id"; one too wide for BSON leaves the reading unchanged |
| `RowTasks.DeleteThenGet` | api_db_model/tools.py:65-85 | after `delete_row`, `get_row` on that id raises `IndexError`, or `OverflowError` for an id too wide for BSON |
| `RowTasks.Collection.AddRow` | api_db_model/tools.py:59-62 | the shared collection and the reply are those of `AddRowStep`; the invariant is kept |
| `RowTasks.Collection.DeleteRow` | api_db_model/tools.py:65-68 | the shared collection and the reply are those of `DeleteRowStep` |
| `RowTasks.Collection.UpdateRow` | api_db_model/tools.py:71-74 | the shared collection and the reply are those of `UpdateRowStep` |
| `RowTasks.Collection.GetRow` | api_db_model/tools.py:77-86 | the reply is `GetRowReply` of the collection; the disclosure is applied to a local copy, and the collection is not modified |

## Left out

- The HTTP gateway (`api_flask/api_flask.py`): Flask routing, `celery.send_task`, and the formatting of results in `get_results`. Only the gateway's insertion of the URL id into the body is modelled.
- The Celery broker, result backend and task registration. Each task is modelled as a call that returns or raises.
- The model registry `ML_models` is not part of this model. Its replies are an arbitrary function of the call. No fit-before-predict rule is stated, because neither `api_db_model/tools.py` nor `api_flask/api_flask.py` enforces one.
- Python argument binding before a task body runs is not modelled. A body holding a `method` key for `mlmodels`, or an `id_` key for `update_row`, fails with a `TypeError` at that point. `Task` receives the method name and keyword mapping already bound.
- A request body that is not a JSON object is not modelled; the gateway fails on it before sending a task.
- The MongoDB driver itself is not part of this model. The collection is a map keyed by `_id`. BSON type-aware matching, where `1` and `1.0` match the same document, is not modelled: ids are compared as values. Generated ObjectIds come from a counter. Connection errors are not modelled, and neither is pymongo's refusal of update operators in a replacement document.
- `get_row` turns the cursor into a list and takes element 0. For an id that is not an object, `_id` is unique, so the cursor holds at most one document, and the model reads that document directly instead of iterating.
- Ids that are objects or arrays are compared as plain values in every row task. In MongoDB, an object id whose keys start with `$` is a query operator in the filters of `delete_row`, `update_row` and `get_row`, so it can select some other row or several rows; an object id without such keys is matched with its field order significant; and an insert with an array `_id` is refused. The gateway only sends integer ids for these routes (`api_flask/api_flask.py:160-189`).
- Job status, leases, retries, dead-lettering, per-model locking and back-pressure do not appear in the worker or gateway code and are not modelled.
- The 64-bit integer limit is modelled for the row tasks only; the `mlmodels` task hands integers to the registry, whose limits are not part of this model.
