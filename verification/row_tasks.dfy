/** The row tasks of the worker (`add_row`, `delete_row`, `update_row`,
    `get_row`) over the MongoDB collection. The collection is a map from a
    document's `_id` to the document; `_id` is unique in MongoDB, so a query
    on `_id` finds at most one document. */
module RowTasks {
  import opened Values

  const IdKey := "_id"
  const ModelKey := "model"
  const NotFitted := "Not fitted"
  const Fitted := "Fitted"
  const WrongId := "Wrong id"
  const RowInserted := "Row inserted"
  const RowDeleted := "Row deleted"
  const RowUpdated := "Row updated"

  /** BSON stores integers in at most 64 signed bits: the driver raises an
      `OverflowError` while encoding a filter or a document that holds an
      integer outside that range, at any depth. */
  predicate BsonEncodable(v: Value) {
    match v
    case Int(i) => -0x8000_0000_0000_0000 <= i < 0x8000_0000_0000_0000
    case List(items) => forall j :: 0 <= j < |items| ==> BsonEncodable(items[j])
    case Object(fields) => forall k :: k in fields ==> BsonEncodable(fields[k])
    case _ => true
  }

  /** Adding an encodable field to an encodable document keeps it encodable. */
  lemma EncodableWith(doc: Doc, k: string, v: Value)
    requires BsonEncodable(Object(doc)) && BsonEncodable(v)
    ensures BsonEncodable(Object(doc[k := v]))
  {
  }

  /** The collection: its documents by `_id`, and the counter standing for
      the driver's generator of fresh object ids. */
  datatype Store = Store(rows: map<Value, Doc>, nextObjectId: nat)

  /** Every document carries its own key as `_id` and could be encoded,
      and every generated id in use lies below the counter, so the next one
      is fresh. */
  predicate WellFormed(s: Store) {
    && (forall id :: id in s.rows ==> IdKey in s.rows[id] && s.rows[id][IdKey] == id)
    && (forall id :: id in s.rows ==> BsonEncodable(Object(s.rows[id])))
    && (forall id :: id in s.rows && id.ObjectId? ==> id.n < s.nextObjectId)
  }

  /** A row task's effect: the new collection and the task's reply. */
  datatype Step = Step(store: Store, reply: Reply)

  /** The disclosure rule of `get_row`: a reader sees the `model` field only
      as a fit status, "Not fitted" kept as it is and anything else shown
      as "Fitted". */
  function Disclose(doc: Doc): (r: Doc)
    requires ModelKey in doc
    ensures r.Keys == doc.Keys
    ensures r[ModelKey] == Str(Fitted) || r[ModelKey] == Str(NotFitted)
    ensures r[ModelKey] == Str(NotFitted) <==> doc[ModelKey] == Str(NotFitted)
    ensures forall k :: k in doc && k != ModelKey ==> r[k] == doc[k]
  {
    if doc[ModelKey] != Str(NotFitted) then doc[ModelKey := Str(Fitted)] else doc
  }

  /** Reading a row twice through the rule shows what reading it once shows. */
  lemma DiscloseIdempotent(doc: Doc)
    requires ModelKey in doc
    ensures Disclose(Disclose(doc)) == Disclose(doc)
  {
  }

  /** What `get_row` replies for `id`: an `OverflowError` when the filter
      cannot be encoded and an `IndexError` when no document matches (both
      arise in building the result list, outside the try), "Wrong id" when
      the document has no `model` field, and otherwise the document with its
      `model` field disclosed only as a fit status. */
  function GetRowReply(s: Store, id: Value): (r: Reply)
    ensures !BsonEncodable(id) ==> r == Raise(OverflowError)
    ensures BsonEncodable(id) ==> (r.Raise? <==> id !in s.rows)
    ensures BsonEncodable(id) && r.Raise? ==> r.error == IndexError
    ensures r == Return(Str(WrongId)) <==> BsonEncodable(id) && id in s.rows && ModelKey !in s.rows[id]
    ensures BsonEncodable(id) && id in s.rows && ModelKey in s.rows[id] ==>
      r == Return(Object(Disclose(s.rows[id])))
    ensures r.Return? ==> r.value.Str? || r.value.Object?
  {
    if !BsonEncodable(id) then Raise(OverflowError)
    else if id !in s.rows then Raise(IndexError)
    else if ModelKey !in s.rows[id] then Return(Str(WrongId))
    else Return(Object(Disclose(s.rows[id])))
  }

  /** The `_id` a document is stored under: its own, or a generated one. */
  function InsertedId(s: Store, doc: Doc): Value {
    if IdKey in doc then doc[IdKey] else ObjectId(s.nextObjectId)
  }

  /** `add_row`: insert the document. A document that cannot be encoded is
      refused with an `OverflowError`, one whose `_id` is taken with a
      duplicate-key error; one without an `_id` receives a fresh generated
      one. */
  function AddRowStep(s: Store, doc: Doc): (t: Step)
    requires WellFormed(s)
    ensures WellFormed(t.store)
    ensures !BsonEncodable(Object(doc)) ==> t == Step(s, Raise(OverflowError))
    ensures BsonEncodable(Object(doc)) && IdKey in doc && doc[IdKey] in s.rows ==>
      t == Step(s, Raise(DuplicateKeyError(doc[IdKey])))
    ensures BsonEncodable(Object(doc)) && !(IdKey in doc && doc[IdKey] in s.rows) ==>
      var id := InsertedId(s, doc);
      && id !in s.rows
      && t.reply == Return(Str(RowInserted))
      && t.store.rows.Keys == s.rows.Keys + {id}
      && t.store.rows[id].Keys == doc.Keys + {IdKey}
      && (forall k :: k in doc ==> t.store.rows[id][k] == doc[k])
      && (forall k :: k in s.rows ==> t.store.rows[k] == s.rows[k])
    // a document that brings its own `_id` is stored exactly as given
    ensures BsonEncodable(Object(doc)) && IdKey in doc && doc[IdKey] !in s.rows ==> t.store.rows[doc[IdKey]] == doc
  {
    if !BsonEncodable(Object(doc)) then Step(s, Raise(OverflowError))
    else if IdKey in doc then
      var id := doc[IdKey];
      if id in s.rows then Step(s, Raise(DuplicateKeyError(id)))
      else
        var next := if id.ObjectId? && id.n >= s.nextObjectId then id.n + 1 else s.nextObjectId;
        Step(Store(s.rows[id := doc], next), Return(Str(RowInserted)))
    else
      var id := ObjectId(s.nextObjectId);
      EncodableWith(doc, IdKey, id);
      Step(Store(s.rows[id := doc[IdKey := id]], s.nextObjectId + 1), Return(Str(RowInserted)))
  }

  /** `delete_row`: remove the document with that `_id`, acknowledged the
      same whether or not it was there; an id that cannot be encoded is
      refused with an `OverflowError`. */
  function DeleteRowStep(s: Store, id: Value): (t: Step)
    requires WellFormed(s)
    ensures WellFormed(t.store)
    ensures !BsonEncodable(id) ==> t == Step(s, Raise(OverflowError))
    ensures BsonEncodable(id) ==>
      && t.reply == Return(Str(RowDeleted))
      && t.store.rows.Keys == s.rows.Keys - {id}
      && forall k :: k in t.store.rows ==> t.store.rows[k] == s.rows[k]
    ensures t.store.nextObjectId == s.nextObjectId
  {
    if !BsonEncodable(id) then Step(s, Raise(OverflowError))
    else Step(Store(s.rows - {id}, s.nextObjectId), Return(Str(RowDeleted)))
  }

  /** `update_row`: replace the whole document with that `_id`. Nothing
      matches an absent id and nothing changes; a replacement naming a
      different `_id` is refused, since `_id` cannot change. A filter or a
      replacement that cannot be encoded is refused before anything is
      matched. */
  function UpdateRowStep(s: Store, id: Value, doc: Doc): (t: Step)
    requires WellFormed(s)
    ensures WellFormed(t.store)
    ensures !(BsonEncodable(id) && BsonEncodable(Object(doc))) ==> t == Step(s, Raise(OverflowError))
    ensures BsonEncodable(id) && BsonEncodable(Object(doc)) && id !in s.rows ==>
      t == Step(s, Return(Str(RowUpdated)))
    ensures BsonEncodable(id) && BsonEncodable(Object(doc)) && id in s.rows && IdKey in doc && doc[IdKey] != id ==>
      t == Step(s, Raise(ImmutableIdError(id)))
    ensures BsonEncodable(id) && BsonEncodable(Object(doc)) && id in s.rows && !(IdKey in doc && doc[IdKey] != id) ==>
      && t.reply == Return(Str(RowUpdated))
      && t.store.rows.Keys == s.rows.Keys
      && t.store.rows[id].Keys == doc.Keys + {IdKey}
      && (forall k :: k in doc ==> t.store.rows[id][k] == doc[k])
      && (forall k :: k in s.rows && k != id ==> t.store.rows[k] == s.rows[k])
    ensures t.store.nextObjectId == s.nextObjectId
  {
    if !(BsonEncodable(id) && BsonEncodable(Object(doc))) then Step(s, Raise(OverflowError))
    else if id !in s.rows then Step(s, Return(Str(RowUpdated)))
    else if IdKey in doc && doc[IdKey] != id then Step(s, Raise(ImmutableIdError(id)))
    else
      EncodableWith(doc, IdKey, id);
      Step(Store(s.rows[id := doc[IdKey := id]], s.nextObjectId), Return(Str(RowUpdated)))
  }

  /** One row task as the worker receives it. */
  datatype RowTask =
    | AddRowTask(doc: Doc)
    | DeleteRowTask(id: Value)
    | UpdateRowTask(id: Value, doc: Doc)
    | GetRowTask(id: Value)

  /** The tasks that address the document with `_id` = `id` by its id. */
  predicate Targets(t: RowTask, id: Value) {
    match t
    case DeleteRowTask(i) => i == id
    case UpdateRowTask(i, _) => i == id
    case _ => false
  }

  /** The tasks that can create the document with `_id` = `id`. */
  predicate Creates(t: RowTask, id: Value) {
    t.AddRowTask? && IdKey in t.doc && t.doc[IdKey] == id
  }

  function Apply(s: Store, t: RowTask): (r: Step)
    requires WellFormed(s)
    ensures WellFormed(r.store)
    ensures r.store.nextObjectId >= s.nextObjectId
    // a document is only changed by a task naming its id; an insert never overwrites
    ensures forall id :: id in s.rows && !Targets(t, id) ==> id in r.store.rows && r.store.rows[id] == s.rows[id]
    // an absent id, never generated, only appears by an insert that names it
    ensures forall id :: id !in s.rows && !Creates(t, id) && (id.ObjectId? ==> id.n < s.nextObjectId) ==>
      id !in r.store.rows
    ensures t.GetRowTask? ==> r.store == s
  {
    match t
    case AddRowTask(doc) => AddRowStep(s, doc)
    case DeleteRowTask(id) => DeleteRowStep(s, id)
    case UpdateRowTask(id, doc) => UpdateRowStep(s, id, doc)
    case GetRowTask(id) => Step(s, GetRowReply(s, id))
  }

  /** The collection after the worker has run a sequence of row tasks one
      after the other. */
  function Replay(s: Store, ts: seq<RowTask>): (r: Store)
    requires WellFormed(s)
    ensures WellFormed(r)
    ensures r.nextObjectId >= s.nextObjectId
    decreases |ts|
  {
    if ts == [] then s else Replay(Apply(s, ts[0]).store, ts[1..])
  }

  /** A row that no delete or update names comes through any run of tasks
      unchanged: in particular no insert overwrites it. */
  lemma {:induction false} ReplayKeepsUntargetedRow(s: Store, ts: seq<RowTask>, id: Value)
    requires WellFormed(s)
    requires id in s.rows
    requires forall i :: 0 <= i < |ts| ==> !Targets(ts[i], id)
    ensures id in Replay(s, ts).rows && Replay(s, ts).rows[id] == s.rows[id]
    decreases |ts|
  {
    if ts != [] {
      var s' := Apply(s, ts[0]).store;
      ReplayKeepsUntargetedRow(s', ts[1..], id);
    }
  }

  /** An absent row stays absent, and `get_row` keeps failing on it, until an
      insert names its id. */
  lemma {:induction false} ReplayKeepsAbsentRowAbsent(s: Store, ts: seq<RowTask>, id: Value)
    requires WellFormed(s)
    requires id !in s.rows
    requires id.ObjectId? ==> id.n < s.nextObjectId
    requires forall i :: 0 <= i < |ts| ==> !Creates(ts[i], id)
    ensures id !in Replay(s, ts).rows
    ensures GetRowReply(Replay(s, ts), id) == if BsonEncodable(id) then Raise(IndexError) else Raise(OverflowError)
    decreases |ts|
  {
    if ts != [] {
      var s' := Apply(s, ts[0]).store;
      ReplayKeepsAbsentRowAbsent(s', ts[1..], id);
    }
  }

  /** The gateway's `add_row` route puts the URL id into the body as `_id`:
      the body is then stored under that id, and `get_row` on the id shows it
      through the disclosure rule; a body or id too wide for BSON is refused. */
  lemma GatewayAddThenGet(s: Store, body: Doc, urlId: nat)
    requires WellFormed(s)
    requires Int(urlId) !in s.rows
    ensures var doc := body[IdKey := Int(urlId)];
      !BsonEncodable(Object(doc)) ==> AddRowStep(s, doc) == Step(s, Raise(OverflowError))
    ensures var doc := body[IdKey := Int(urlId)];
      var t := AddRowStep(s, doc);
      BsonEncodable(Object(doc)) ==>
      && t.reply == Return(Str(RowInserted))
      && t.store.rows[Int(urlId)] == doc
      && GetRowReply(t.store, Int(urlId)) ==
         if ModelKey in body then Return(Object(Disclose(doc))) else Return(Str(WrongId))
  {
  }

  /** After `update_row` the id reads as the replacement alone: a replacement
      without a `model` field reads as "Wrong id" whatever was there before.
      A replacement too wide for BSON leaves the row reading as before. */
  lemma UpdateThenGet(s: Store, id: Value, doc: Doc)
    requires WellFormed(s)
    requires id in s.rows
    requires !(IdKey in doc && doc[IdKey] != id)
    ensures GetRowReply(UpdateRowStep(s, id, doc).store, id) ==
            if !BsonEncodable(Object(doc)) then GetRowReply(s, id)
            else if ModelKey in doc then Return(Object(Disclose(doc[IdKey := id])))
            else Return(Str(WrongId))
  {
  }

  /** After `delete_row`, `get_row` on that id fails at the index (or, for an
      id too wide for BSON, in encoding the filter). */
  lemma DeleteThenGet(s: Store, id: Value)
    requires WellFormed(s)
    ensures GetRowReply(DeleteRowStep(s, id).store, id) ==
            if BsonEncodable(id) then Raise(IndexError) else Raise(OverflowError)
  {
  }

  /** The MongoDB collection the row tasks share. Each method is the task of
      the same name; its effect is the corresponding step function. */
  class Collection {
    var rows: map<Value, Doc>
    var nextObjectId: nat

    function State(): Store
      reads this
    {
      Store(rows, nextObjectId)
    }

    ghost predicate Valid()
      reads this
    {
      WellFormed(State())
    }

    constructor ()
      ensures Valid() && rows == map[]
    {
      rows := map[];
      nextObjectId := 0;
    }

    method AddRow(doc: Doc) returns (r: Reply)
      requires Valid()
      modifies this
      ensures Valid()
      ensures Step(State(), r) == AddRowStep(old(State()), doc)
    {
      if !BsonEncodable(Object(doc)) {
        return Raise(OverflowError);
      }
      if IdKey in doc {
        var id := doc[IdKey];
        if id in rows {
          return Raise(DuplicateKeyError(id));
        }
        rows := rows[id := doc];
        if id.ObjectId? && id.n >= nextObjectId {
          nextObjectId := id.n + 1;
        }
      } else {
        var id := ObjectId(nextObjectId);
        EncodableWith(doc, IdKey, id);
        rows := rows[id := doc[IdKey := id]];
        nextObjectId := nextObjectId + 1;
      }
      r := Return(Str(RowInserted));
    }

    method DeleteRow(id: Value) returns (r: Reply)
      requires Valid()
      modifies this
      ensures Valid()
      ensures Step(State(), r) == DeleteRowStep(old(State()), id)
    {
      if !BsonEncodable(id) {
        return Raise(OverflowError);
      }
      rows := rows - {id};
      r := Return(Str(RowDeleted));
    }

    method UpdateRow(id: Value, doc: Doc) returns (r: Reply)
      requires Valid()
      modifies this
      ensures Valid()
      ensures Step(State(), r) == UpdateRowStep(old(State()), id, doc)
    {
      if !(BsonEncodable(id) && BsonEncodable(Object(doc))) {
        return Raise(OverflowError);
      }
      if id in rows {
        if IdKey in doc && doc[IdKey] != id {
          return Raise(ImmutableIdError(id));
        }
        EncodableWith(doc, IdKey, id);
        rows := rows[id := doc[IdKey := id]];
      }
      r := Return(Str(RowUpdated));
    }

    /** Reads the document into a local copy and discloses the copy; the
        collection itself is left as it was. */
    method GetRow(id: Value) returns (r: Reply)
      ensures r == GetRowReply(State(), id)
    {
      if !BsonEncodable(id) {
        return Raise(OverflowError);
      }
      if id !in rows {
        return Raise(IndexError);
      }
      var data := rows[id];
      if ModelKey !in data {
        return Return(Str(WrongId));
      }
      if data[ModelKey] != Str(NotFitted) {
        data := data[ModelKey := Str(Fitted)];
      }
      r := Return(Object(data));
    }
  }
}
