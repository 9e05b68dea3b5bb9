/** The `mlmodels` Celery task: a method name selects one operation of the
    model registry, and the task's keyword arguments are reshaped into that
    operation's arguments. The registry itself is an opaque collaborator,
    given to the task as a function from a call to its reply. */
module MlModelsTask {
  import opened Values

  /** The registry operations the task can reach. `ReadModels` is the read
      of the registry's `models` attribute rather than a method call. */
  datatype RegistryOp =
    | GetAvailableModel
    | CreateModel
    | ReadModels
    | GetModel
    | UpdateModel
    | DeleteModel
    | Fit
    | Predict
    | PredictProba
    | GetScores
  {
    /** The operations addressed to one model, whose id the task takes out
        of the keyword arguments and passes positionally. */
    predicate TakesModelId() {
      Fit? || Predict? || PredictProba? || GetScores?
    }
  }

  /** The method name a client sends to select each operation. */
  function MethodName(op: RegistryOp): string {
    match op
    case GetAvailableModel => "get_possible_model"
    case CreateModel => "create_model"
    case ReadModels => "get_all_models"
    case GetModel => "get_model"
    case UpdateModel => "update_model"
    case DeleteModel => "delete_model"
    case Fit => "fit"
    case Predict => "predict"
    case PredictProba => "predict_proba"
    case GetScores => "get_scores"
  }

  /** A Python call's arguments: positional ones and `**` keyword ones. */
  datatype Args = Args(positional: seq<Value>, keywords: Kwargs)

  const NoArgs := Args([], map[])

  /** One call the task makes on the registry. */
  datatype RegistryCall = Call(op: RegistryOp, args: Args)

  /** What the selection in the task leads to: one registry call, a
      `KeyError` raised in the branch of `op` before any call, or no branch
      at all. */
  datatype Dispatched = Invoke(call: RegistryCall) | MissingKey(op: RegistryOp, key: string) | NoMatch

  /** The reply of the `fit` branch whenever the registry returns normally. */
  const FittedMessage := "Model is fitted"

  /** The key under which the gateway puts the model id from the URL. */
  const ModelIdKey := "model_id"

  /** The branch of the per-model operations: read the id, remove it from
      the keyword arguments, and pass it first. */
  function TakeModelId(op: RegistryOp, kwargs: Kwargs): (d: Dispatched)
    ensures ModelIdKey !in kwargs ==> d == MissingKey(op, ModelIdKey)
    ensures ModelIdKey in kwargs ==> d.Invoke? && d.call.op == op
    ensures d.Invoke? ==> d.call.args.positional == [kwargs[ModelIdKey]]
    ensures d.Invoke? ==> d.call.args.keywords.Keys == kwargs.Keys - {ModelIdKey}
    ensures d.Invoke? ==> forall k :: k in d.call.args.keywords ==> d.call.args.keywords[k] == kwargs[k]
  {
    if ModelIdKey in kwargs then
      Invoke(Call(op, Args([kwargs[ModelIdKey]], kwargs - {ModelIdKey})))
    else
      MissingKey(op, ModelIdKey)
  }

  /** The if/elif chain of the task: which registry call a method name and
      keyword arguments select. */
  function Dispatch(name: Value, kwargs: Kwargs): (d: Dispatched)
    // each recognised name selects its own operation, and nothing else
    ensures forall op: RegistryOp :: name == Str(MethodName(op)) ==>
      (d.Invoke? && d.call.op == op) || (op.TakesModelId() && ModelIdKey !in kwargs && d == MissingKey(op, ModelIdKey))
    ensures d.Invoke? ==> name == Str(MethodName(d.call.op))
    ensures d.MissingKey? ==>
      d.key == ModelIdKey && ModelIdKey !in kwargs && d.op.TakesModelId() && name == Str(MethodName(d.op))
    // a value naming no operation (None included) falls through
    ensures d.NoMatch? <==> forall op: RegistryOp :: name != Str(MethodName(op))
    // how the arguments are forwarded
    ensures d.Invoke? && d.call.op.TakesModelId() ==>
      ModelIdKey in kwargs && d.call.args.positional == [kwargs[ModelIdKey]] &&
      d.call.args.keywords.Keys == kwargs.Keys - {ModelIdKey} &&
      forall k :: k in d.call.args.keywords ==> d.call.args.keywords[k] == kwargs[k]
    ensures d.Invoke? && d.call.op == UpdateModel ==> d.call.args == Args([Object(kwargs)], map[])
    ensures d.Invoke? && (d.call.op == CreateModel || d.call.op == GetModel || d.call.op == DeleteModel) ==>
      d.call.args == Args([], kwargs)
    ensures d.Invoke? && (d.call.op == GetAvailableModel || d.call.op == ReadModels) ==> d.call.args == NoArgs
  {
    if name == Str("get_possible_model") then Invoke(Call(GetAvailableModel, NoArgs))
    else if name == Str("create_model") then Invoke(Call(CreateModel, Args([], kwargs)))
    else if name == Str("get_all_models") then Invoke(Call(ReadModels, NoArgs))
    else if name == Str("get_model") then Invoke(Call(GetModel, Args([], kwargs)))
    else if name == Str("update_model") then Invoke(Call(UpdateModel, Args([Object(kwargs)], map[])))
    else if name == Str("delete_model") then Invoke(Call(DeleteModel, Args([], kwargs)))
    else if name == Str("fit") then TakeModelId(Fit, kwargs)
    else if name == Str("predict") then TakeModelId(Predict, kwargs)
    else if name == Str("predict_proba") then TakeModelId(PredictProba, kwargs)
    else if name == Str("get_scores") then TakeModelId(GetScores, kwargs)
    else NoMatch
  }

  /** The `mlmodels` task as the worker runs it: select the branch, take the
      model id out of the (task-local) keyword dictionary where the branch
      does so, call the registry and report its reply. */
  method Task(name: Value, kwargs: Kwargs, registry: RegistryCall -> Reply) returns (r: Reply)
    ensures Dispatch(name, kwargs).NoMatch? ==> r == Return(Null)
    ensures Dispatch(name, kwargs).MissingKey? ==> r == Raise(KeyError(ModelIdKey))
    // every branch but `fit` hands back the registry's reply unchanged
    ensures Dispatch(name, kwargs).Invoke? && Dispatch(name, kwargs).call.op != Fit ==>
      r == registry(Dispatch(name, kwargs).call)
    // `fit` reports a constant whatever the registry returns, and passes its exceptions on
    ensures Dispatch(name, kwargs).Invoke? && Dispatch(name, kwargs).call.op == Fit ==>
      r == (if registry(Dispatch(name, kwargs).call).Raise? then registry(Dispatch(name, kwargs).call)
            else Return(Str(FittedMessage)))
  {
    var args := kwargs;
    if name == Str("get_possible_model") {
      r := registry(Call(GetAvailableModel, NoArgs));
    } else if name == Str("create_model") {
      r := registry(Call(CreateModel, Args([], args)));
    } else if name == Str("get_all_models") {
      r := registry(Call(ReadModels, NoArgs));
    } else if name == Str("get_model") {
      r := registry(Call(GetModel, Args([], args)));
    } else if name == Str("update_model") {
      r := registry(Call(UpdateModel, Args([Object(args)], map[])));
    } else if name == Str("delete_model") {
      r := registry(Call(DeleteModel, Args([], args)));
    } else if name == Str("fit") || name == Str("predict") ||
              name == Str("predict_proba") || name == Str("get_scores") {
      var op := if name == Str("fit") then Fit
                else if name == Str("predict") then Predict
                else if name == Str("predict_proba") then PredictProba
                else GetScores;
      if ModelIdKey !in args {
        return Raise(KeyError(ModelIdKey));
      }
      var modelId := args[ModelIdKey];
      args := args - {ModelIdKey};
      var reply := registry(Call(op, Args([modelId], args)));
      if op == Fit && reply.Return? {
        r := Return(Str(FittedMessage));
      } else {
        r := reply;
      }
    } else {
      r := Return(Null);
    }
  }

  /** The gateway's routes for the per-model operations write the id taken
      from the URL into the request body before sending the task. */
  function WithUrlId(body: Kwargs, urlId: nat): (kw: Kwargs)
    ensures ModelIdKey in kw && kw[ModelIdKey] == Int(urlId)
    ensures kw.Keys == body.Keys + {ModelIdKey}
    ensures forall k :: k in body && k != ModelIdKey ==> kw[k] == body[k]
  {
    body[ModelIdKey := Int(urlId)]
  }

  /** Gateway and worker together: the registry receives the URL id, and the
      request body with any `model_id` of its own dropped. */
  lemma UrlIdRoundTrip(op: RegistryOp, body: Kwargs, urlId: nat)
    requires op.TakesModelId()
    ensures Dispatch(Str(MethodName(op)), WithUrlId(body, urlId)) ==
            Invoke(Call(op, Args([Int(urlId)], body - {ModelIdKey})))
  {
  }

  /** The task the gateway sends when `model_type` is missing carries the
      method name `model_name`, and an absent method is Python's `None`:
      neither reaches the registry. */
  lemma UnknownMethodsFallThrough(kwargs: Kwargs)
    ensures Dispatch(Str("model_name"), kwargs) == NoMatch
    ensures Dispatch(Null, kwargs) == NoMatch
  {
  }
}
