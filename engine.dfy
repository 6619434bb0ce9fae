/**
 * The seeding engine as a state machine over the shared `settings` object:
 * the foreign-key cache `knownFK`, the label table `refs`, the two-level
 * defer table `defer[label][sid]`, the counter `nextId` and the creation
 * counts. The store's `create` is asynchronous, so creating an item is split
 * into `Attempt` (which may issue a create request) and `Complete` (the
 * request's callback, with the store's answer as a parameter).
 *
 * The item objects are shared: one object can sit in several defer buckets
 * and be rewritten in place. `items` holds every object taken in, by its
 * `_sid`, and a bucket holds sids, in the order they were added.
 */
module Engine {
  import opened Wrappers
  import opened Values
  import opened Schema
  import opened Resolve
  import opened Dispatch

  /** The store's schemas: `connection.base.models[model].schema.paths`. */
  type Schemas = map<string, Paths>

  /** An item taken in: its counter value (its `_sid` is `'ID-' + serial`), `_model` and its other properties. */
  datatype Item = Item(serial: nat, model: string, fields: Fields) {
    function Sid(): string { SidOf(serial) }
  }

  /** A `create` issued to the store: the model and the document. */
  datatype Request = Request(model: string, doc: Fields)

  /** What the store's create callback receives. */
  datatype StoreResult = Created(id: ObjectId) | Rejected(error: string)

  /** Calls of the `success`, `fail`, `finally` and `failCreate` hooks, with their arguments. */
  datatype Report =
    | Success(created: map<string, nat>)
    | Fail(created: map<string, nat>, waiting: map<string, seq<string>>)
    | Finally(created: map<string, nat>, waiting: map<string, seq<string>>)
    | CreateFailed(model: string, error: string)

  /** What `scenario` throws. */
  datatype Error =
    | LinkUndefined                               // `scenarioLink` is not defined
    | ArrayInvoke                                 // scenario(array) is not supported
    | InvalidInvoke(first: string, second: string)
    | UnknownModel(name: string)                  // `connection.base.models[name]` is undefined

  /** The `settings` object, less its options and hooks, plus the requests issued to the store. */
  datatype State = State(
    called: nat,
    wiped: seq<string>,
    created: map<string, nat>,
    createdTotal: nat,
    knownFK: map<string, FkTable>,
    refs: Refs,
    defer: map<string, seq<string>>,
    nextId: nat,
    items: map<string, Item>,
    outstanding: multiset<string>,
    requests: seq<Request>,
    reports: seq<Report>)

  const Initial := State(0, [], map[], 0, map[], map[], map[], 0, map[], multiset{}, [], [])

  /** A state and what was thrown, if anything. */
  datatype Run = Run(st: State, thrown: Option<Error>)

  // ---------------------------------------------------------------- the defer table

  predicate NoDup(b: seq<string>) {
    forall i, j :: 0 <= i < j < |b| ==> b[i] != b[j]
  }

  function Bucket(defer: map<string, seq<string>>, lbl: string): seq<string> {
    if lbl in defer then defer[lbl] else []
  }

  /** `defer[label][sid] = item`: a new key goes last, an existing one keeps its place. */
  function Enroll(b: seq<string>, sid: string): (r: seq<string>)
    ensures sid in r && r != []
    ensures forall s :: s in r <==> s in b || s == sid
    ensures NoDup(b) ==> NoDup(r)
  {
    if sid in b then b else b + [sid]
  }

  /** `scenarioDefer(lbl, item)` */
  function DeferOne(defer: map<string, seq<string>>, lbl: string, sid: string): (d: map<string, seq<string>>)
    ensures d.Keys == defer.Keys + {lbl}
    ensures sid in d[lbl]
    ensures Bucket(defer, lbl) <= d[lbl]
    ensures forall s :: s in d[lbl] <==> s in Bucket(defer, lbl) || s == sid
    ensures forall l :: l in defer && l != lbl ==> d[l] == defer[l]
  {
    defer[lbl := Enroll(Bucket(defer, lbl), sid)]
  }

  /** Deferring the same item on the same lbl twice is the same as once. */
  lemma DeferIdempotent(defer: map<string, seq<string>>, lbl: string, sid: string)
    ensures DeferOne(DeferOne(defer, lbl, sid), lbl, sid) == DeferOne(defer, lbl, sid)
  {
  }

  /** `scenarioDefer(l, item)` for every lbl in `labels`, in any order. */
  function DeferAll(defer: map<string, seq<string>>, labels: set<string>, sid: string): map<string, seq<string>> {
    map l | l in defer.Keys + labels :: if l in labels then Enroll(Bucket(defer, l), sid) else defer[l]
  }

  /** Deferring on the labels one at a time, in any order, builds `DeferAll`. */
  lemma DeferAllStep(defer: map<string, seq<string>>, labels: set<string>, lbl: string, sid: string)
    ensures DeferAll(defer, labels + {lbl}, sid) == DeferOne(DeferAll(defer, labels, sid), lbl, sid)
  {
  }

  /** The bucket with the key `sid` deleted. */
  function Without(b: seq<string>, sid: string): (r: seq<string>)
    ensures forall s :: s in r <==> s in b && s != sid
    ensures |r| <= |b|
    ensures NoDup(b) ==> NoDup(r)
  {
    if b == [] then []
    else
      var rest := Without(b[1..], sid);
      assert NoDup(b) ==> b[0] !in b[1..] && NoDup(b[1..]);
      (if b[0] == sid then [] else [b[0]]) + rest
  }

  /** The defer table once the buckets named in `done` have been cleaned of `sid`. */
  function WithdrawOn(defer: map<string, seq<string>>, sid: string, done: set<string>): map<string, seq<string>> {
    map l | l in defer && !(l in done && sid in defer[l] && Without(defer[l], sid) == []) ::
      if l in done && sid in defer[l] then Without(defer[l], sid) else defer[l]
  }

  /** Cleaning one more bucket: `sid` leaves it, and it goes when that empties it. */
  lemma WithdrawOnStep(defer: map<string, seq<string>>, sid: string, done: set<string>, lbl: string)
    requires lbl in defer && lbl !in done
    ensures var d := WithdrawOn(defer, sid, done);
      && lbl in d && d[lbl] == defer[lbl]
      && WithdrawOn(defer, sid, done + {lbl}) ==
           if sid !in defer[lbl] then d
           else if Without(defer[lbl], sid) == [] then d - {lbl}
           else d[lbl := Without(defer[lbl], sid)]
  {
  }

  /** The cleanup loop after a successful create: `sid` leaves every bucket, emptied buckets go. */
  function Withdraw(defer: map<string, seq<string>>, sid: string): map<string, seq<string>> {
    WithdrawOn(defer, sid, defer.Keys)
  }

  // ---------------------------------------------------------------- the state invariant

  /** The buckets are non-empty, duplicate-free, and name items whose model the store knows. */
  predicate BucketsOk(st: State, schemas: Schemas) {
    forall l :: l in st.defer ==>
      && st.defer[l] != []
      && NoDup(st.defer[l])
      && forall s :: s in st.defer[l] ==> s in st.items && st.items[s].model in schemas
  }

  /** Whether the buckets are sound depends on the buckets and the items alone. */
  lemma BucketsOkFrame(st: State, st': State, schemas: Schemas)
    requires BucketsOk(st, schemas) && st'.defer == st.defer && st'.items == st.items
    ensures BucketsOk(st', schemas)
  {
  }

  /** Every item is filed under its own sid and was numbered before `nextId`. */
  predicate ItemsOk(st: State) {
    forall s :: s in st.items ==> st.items[s].serial < st.nextId && st.items[s].Sid() == s
  }

  /** Each cached foreign-key table is the classification of the model's schema. */
  predicate CacheOk(st: State, schemas: Schemas) {
    forall m :: m in st.knownFK ==>
      st.knownFK[m] == if m in schemas then ForeignKeys(schemas[m]) else map[]
  }

  /** What holds of `settings` between two calls into the engine. */
  predicate Valid(st: State, schemas: Schemas) {
    && BucketsOk(st, schemas)
    && ItemsOk(st)
    && CacheOk(st, schemas)
    && st.created == map[] && st.createdTotal == 0
    && (forall s :: s in st.outstanding ==> s in st.items)
  }

  lemma InitialValid(schemas: Schemas)
    ensures Valid(Initial, schemas)
  {
  }

  // ---------------------------------------------------------------- scenarioFKs

  /** `scenarioFKs(model)`: fill `knownFK[model]` once; a model the store lacks throws after `knownFK[model] = {}`. */
  function CacheFKs(st: State, schemas: Schemas, model: string): Run {
    if model in st.knownFK then Run(st, None)
    else if model !in schemas then Run(st.(knownFK := st.knownFK[model := map[]]), Some(UnknownModel(model)))
    else Run(st.(knownFK := st.knownFK[model := ForeignKeys(schemas[model])]), None)
  }

  // ---------------------------------------------------------------- scenarioCreator

  /** `knownFK[item._model]`, which a `for ... in` over undefined sees as empty. */
  function FksOf(st: State, model: string): FkTable {
    if model in st.knownFK then st.knownFK[model] else map[]
  }

  /** The state after an attempt, and whether `create` threw (the store lacks the model). */
  datatype Attempted = Attempted(st: State, threw: bool)

  /**
   * `scenarioCreator(item)`: rewrite the item's resolvable foreign keys, defer
   * it on every lbl that is missing, and issue `create` with the item less
   * `_model`, `_sid` and `_ref` only when nothing was missing.
   */
  function Attempt(st: State, schemas: Schemas, sid: string): (a: Attempted)
    requires sid in st.items
    ensures a.threw ==> st.items[sid].model !in schemas
    ensures a.st.items.Keys == st.items.Keys && a.st.items[sid].model == st.items[sid].model
    ensures a.st.refs == st.refs && a.st.knownFK == st.knownFK && a.st.nextId == st.nextId && a.st.reports == st.reports
    ensures a.st.created == st.created && a.st.createdTotal == st.createdTotal
  {
    var item := st.items[sid];
    var fks := FksOf(st, item.model);
    var fields := Resolved(fks, item.fields, st.refs);
    var waits := Waits(fks, item.fields, st.refs);
    var st1 := st.(items := st.items[sid := item.(fields := fields)],
                   defer := DeferAll(st.defer, waits, sid));
    if waits != {} then Attempted(st1, false)
    else if item.model !in schemas then Attempted(st1, true)
    else Attempted(st1.(outstanding := st1.outstanding + multiset{sid},
                        requests := st1.requests + [Request(item.model, Payload(fields))]), false)
  }

  /** The state partway through `scenarioCreator`'s loop, once the foreign keys in `done` were visited. */
  function Partway(st: State, sid: string, fks: FkTable, done: set<string>): State
    requires sid in st.items
  {
    var item := st.items[sid];
    st.(items := st.items[sid := item.(fields := ResolvedOn(fks, item.fields, st.refs, done))],
        defer := DeferAll(st.defer, WaitsOn(fks, item.fields, st.refs, done), sid))
  }

  lemma PartwayStart(st: State, sid: string, fks: FkTable)
    requires sid in st.items
    ensures Partway(st, sid, fks, {}) == st
  {
    var item := st.items[sid];
    assert ResolvedOn(fks, item.fields, st.refs, {}) == item.fields;
    assert WaitsOn(fks, item.fields, st.refs, {}) == {};
    assert DeferAll(st.defer, {}, sid) == st.defer;
    assert st.items[sid := item] == st.items;
  }

  /** What one foreign key's effect does to the state: rewrite the field, defer the item, or nothing. */
  function Apply(st: State, sid: string, fk: string, e: Effect): State
    requires sid in st.items
  {
    match e
    case Skip => st
    case Replace(v) => st.(items := st.items[sid := st.items[sid].(fields := st.items[sid].fields[fk := v])])
    case Wait(lbl) => st.(defer := DeferOne(st.defer, lbl, sid))
  }

  /** Visiting the foreign key `fk` rewrites it, defers the item on one lbl, or does nothing. */
  lemma PartwayStep(st: State, sid: string, fks: FkTable, done: set<string>, fk: string)
    requires sid in st.items && fk in fks && fk !in done
    ensures var p := Partway(st, sid, fks, done);
      var fields := st.items[sid].fields;
      && sid in p.items
      && (fk in p.items[sid].fields <==> fk in fields)
      && (fk in fields ==> p.items[sid].fields[fk] == fields[fk])
      && Partway(st, sid, fks, done + {fk}) == Apply(p, sid, fk, FieldEffect(fks, fields, st.refs, fk))
  {
    var item := st.items[sid];
    var waits := WaitsOn(fks, item.fields, st.refs, done);
    var p := Partway(st, sid, fks, done);
    var q := Partway(st, sid, fks, done + {fk});
    ResolvedOnStep(fks, item.fields, st.refs, done, fk);
    WaitsOnStep(fks, item.fields, st.refs, done, fk);
    assert q == p.(items := q.items, defer := q.defer);
    match FieldEffect(fks, item.fields, st.refs, fk)
    case Skip =>
      assert q.items == p.items && q.defer == p.defer;
    case Replace(v) =>
      assert q.items == p.items[sid := p.items[sid].(fields := p.items[sid].fields[fk := v])];
      assert q.defer == p.defer;
    case Wait(lbl) =>
      DeferAllStep(st.defer, waits, lbl, sid);
      assert q.items == p.items;
      assert q.defer == DeferOne(p.defer, lbl, sid);
  }

  /** Once every foreign key was visited, the attempt issues `create` or not. */
  lemma PartwayEnd(st: State, schemas: Schemas, sid: string)
    requires sid in st.items
    ensures var item := st.items[sid];
      var fks := FksOf(st, item.model);
      var p := Partway(st, sid, fks, fks.Keys);
      Attempt(st, schemas, sid) ==
        if WaitsOn(fks, item.fields, st.refs, fks.Keys) != {} then Attempted(p, false)
        else if item.model !in schemas then Attempted(p, true)
        else Attempted(p.(outstanding := p.outstanding + multiset{sid},
                          requests := p.requests + [Request(item.model, Payload(p.items[sid].fields))]), false)
  {
  }

  // ---------------------------------------------------------------- scenarioRelink

  /** Attempt each of `kids` in turn. */
  function RetryAll(st: State, schemas: Schemas, kids: seq<string>): (r: State)
    requires forall s :: s in kids ==> s in st.items
    ensures r.items.Keys == st.items.Keys && r.refs == st.refs && r.reports == st.reports
    ensures r.nextId == st.nextId && r.knownFK == st.knownFK
    ensures r.created == st.created && r.createdTotal == st.createdTotal
    decreases |kids|
  {
    if kids == [] then st
    else
      var a := Attempt(st, schemas, kids[0]);
      RetryAll(a.st, schemas, kids[1..])
  }

  /** `scenarioRelink(lbl, id)`: re-attempt every item waiting on `lbl`. */
  function Relink(st: State, schemas: Schemas, lbl: string): State
    requires BucketsOk(st, schemas)
  {
    if lbl in st.defer then RetryAll(st, schemas, st.defer[lbl]) else st
  }

  // ---------------------------------------------------------------- the create callback

  /** `created[model]++`, starting from 1 when the count is absent (or zero). */
  function Bump(created: map<string, nat>, model: string): map<string, nat> {
    created[model := if model in created && created[model] != 0 then created[model] + 1 else 1]
  }

  /** `scenarioFinalize()`: report success exactly when nothing waits, then `finally`, then reset the counts. */
  function Finalize(st: State): (r: State)
    ensures |r.reports| == |st.reports| + 2 && r.reports[..|st.reports|] == st.reports
    ensures r.reports[|st.reports|] in {Success(st.created), Fail(st.created, st.defer)}
    ensures r.reports[|st.reports|].Success? <==> st.defer == map[]
    ensures r.reports[|st.reports| + 1] == Finally(st.created, st.defer)
    ensures r.created == map[] && r.createdTotal == 0
    ensures r == st.(reports := r.reports, created := map[], createdTotal := 0)
  {
    var verdict := if st.defer == map[] then Success(st.created) else Fail(st.created, st.defer);
    st.(reports := st.reports + [verdict, Finally(st.created, st.defer)],
        created := map[], createdTotal := 0)
  }

  /** The `_ref` of an item, when it has a truthy one. */
  function OwnLabel(item: Item): (r: Option<string>)
    ensures r.Some? <==> "_ref" in item.fields && Truthy(item.fields["_ref"])
    ensures r.Some? ==> r.value == KeyOf(item.fields["_ref"])
    ensures r.Some? && item.fields["_ref"].Str? ==> r.value == item.fields["_ref"].s
  {
    if "_ref" in item.fields && Truthy(item.fields["_ref"]) then Some(KeyOf(item.fields["_ref"])) else None
  }

  /** The success branch up to the counts: the item's label bound to the new id, the items waiting on it retried. */
  function Bound(st: State, schemas: Schemas, sid: string, id: ObjectId): (b: State)
    requires sid in st.items && BucketsOk(st, schemas)
    ensures b.items.Keys == st.items.Keys && b.nextId == st.nextId && b.knownFK == st.knownFK
    ensures b.reports == st.reports && b.created == st.created && b.createdTotal == st.createdTotal
    ensures b.refs == if OwnLabel(st.items[sid]).Some? then st.refs[OwnLabel(st.items[sid]).value := id] else st.refs
  {
    var st0 := st.(outstanding := st.outstanding - multiset{sid});
    match OwnLabel(st.items[sid])
    case Some(lbl) => Relink(st0.(refs := st0.refs[lbl := id]), schemas, lbl)
    case None => st0
  }

  /** The success branch before the cleanup loop: label bound, waiting items retried, counts bumped. */
  function Recorded(st: State, schemas: Schemas, sid: string, id: ObjectId): State
    requires sid in st.items && BucketsOk(st, schemas)
  {
    var st1 := Bound(st, schemas, sid, id);
    st1.(createdTotal := st1.createdTotal + 1, created := Bump(st1.created, st.items[sid].model))
  }

  /**
   * The callback of `create` for the item `sid`. On an error only
   * `failCreate` runs. On success the item's lbl (if any) is bound to the
   * new id and the items waiting on it are re-attempted; then the counts go
   * up, the item leaves every bucket and the run is finalized.
   */
  function Complete(st: State, schemas: Schemas, sid: string, result: StoreResult): (r: State)
    requires sid in st.items && BucketsOk(st, schemas)
    ensures r.items.Keys == st.items.Keys && r.nextId == st.nextId && r.knownFK == st.knownFK
    ensures result.Rejected? ==>
      r == st.(outstanding := st.outstanding - multiset{sid},
               reports := st.reports + [CreateFailed(st.items[sid].model, result.error)])
    ensures result.Created? ==>
      && |r.reports| == |st.reports| + 2 && r.reports[..|st.reports|] == st.reports
      && (r.reports[|st.reports|].Success? <==> r.defer == map[])
      && (r.reports[|st.reports|].Fail? <==> r.defer != map[])
      && r.reports[|st.reports| + 1].Finally?
      && r.created == map[] && r.createdTotal == 0
      && r.refs == if OwnLabel(st.items[sid]).Some? then st.refs[OwnLabel(st.items[sid]).value := result.id] else st.refs
  {
    var item := st.items[sid];
    var st0 := st.(outstanding := st.outstanding - multiset{sid});
    match result
    case Rejected(e) => st0.(reports := st0.reports + [CreateFailed(item.model, e)])
    case Created(id) =>
      var st2 := Recorded(st, schemas, sid, id);
      Finalize(st2.(defer := Withdraw(st2.defer, sid)))
  }

  // ---------------------------------------------------------------- scenarioArray

  /** An input row less the two properties the engine overwrites. */
  function Intake(row: Fields): (r: Fields)
    ensures r.Keys == row.Keys - {"_sid", "_model"}
    ensures forall k :: k in r ==> r[k] == row[k]
  {
    row - {"_sid", "_model"}
  }

  /** One turn of `scenarioArray`'s loop: `item._sid = 'ID-' + nextId++`, `item._model = model`, attempt it. */
  function TakeOne(st: State, schemas: Schemas, model: string, row: Fields): Attempted {
    Attempt(Numbered(st, model, row), schemas, SidOf(st.nextId))
  }

  /** The state once the row is numbered and filed under its sid. */
  function Numbered(st: State, model: string, row: Fields): (st': State)
    ensures SidOf(st.nextId) in st'.items
    ensures st'.items[SidOf(st.nextId)] == Item(st.nextId, model, Intake(row))
    ensures forall s :: s in st.items && s != SidOf(st.nextId) ==> s in st'.items && st'.items[s] == st.items[s]
    ensures st'.nextId == st.nextId + 1
  {
    st.(nextId := st.nextId + 1,
        items := st.items[SidOf(st.nextId) := Item(st.nextId, model, Intake(row))])
  }

  /** The loop of `scenarioArray`: take each row in turn, stop at the first throw. */
  function TakeIn(st: State, schemas: Schemas, model: string, rows: seq<Fields>): Run
    decreases |rows|
  {
    if rows == [] then Run(st, None)
    else
      var a := TakeOne(st, schemas, model, rows[0]);
      if a.threw then Run(a.st, Some(UnknownModel(model)))
      else TakeIn(a.st, schemas, model, rows[1..])
  }

  /** `scenarioArray(model, rows)` */
  function Load(st: State, schemas: Schemas, model: string, rows: seq<Fields>): Run {
    var r := CacheFKs(st, schemas, model);
    if r.thrown.Some? then r else TakeIn(r.st, schemas, model, rows)
  }

  /** The hash branch of `scenario`: load each model in turn, stop at the first throw. */
  function LoadAll(st: State, schemas: Schemas, entries: seq<(string, seq<Fields>)>): Run
    decreases |entries|
  {
    if entries == [] then Run(st, None)
    else
      var r := Load(st, schemas, entries[0].0, entries[0].1);
      if r.thrown.Some? then r else LoadAll(r.st, schemas, entries[1..])
  }

  // ---------------------------------------------------------------- scenario

  /** Wipe each of `names` in turn; a name the store lacks throws. */
  function Nuke(st: State, schemas: Schemas, names: seq<string>): Run
    decreases |names|
  {
    if names == [] then Run(st, None)
    else if names[0] !in schemas then Run(st, Some(UnknownModel(names[0])))
    else Nuke(st.(wiped := st.wiped + [names[0]]), schemas, names[1..])
  }

  /** The start of every `scenario` call: count it, and wipe the `nuke` models on the first one. */
  function Enter(st: State, schemas: Schemas, nuke: seq<string>): Run {
    var st1 := st.(called := st.called + 1);
    if st.called == 0 then Nuke(st1, schemas, nuke) else Run(st1, None)
  }

  /** `scenario(first, second)`: count the call, wipe on the first call, then dispatch on the call shape. */
  function Scenario(st: State, schemas: Schemas, nuke: seq<string>, first: ModelArg, second: DataArg): Run {
    var n := Enter(st, schemas, nuke);
    if n.thrown.Some? then n else Branch(n.st, schemas, first, second)
  }

  /** The branch `scenario` takes for the call shape, by the corrected dispatch `RouteOf`. */
  function Branch(st: State, schemas: Schemas, first: ModelArg, second: DataArg): Run {
    match RouteOf(first, second)
    case Link => Run(st, Some(LinkUndefined))
    case FromArray => Load(st, schemas, first.s, second.rows)
    case FromHash => LoadAll(st, schemas, first.entries)
    case FromRecord => Load(st, schemas, first.s, [second.fields])
    case RejectArray => Run(st, Some(ArrayInvoke))
    case Invalid(a, b) => Run(st, Some(InvalidInvoke(a, b)))
  }

  // ---------------------------------------------------------------- properties

  /**
   * With the corrected dispatch, an array first argument is rejected and
   * nothing else happens; index.js as written sends it to the hash branch
   * instead (see `Dispatch.ArrayTakenForHash`).
   */
  lemma ArrayFirstRejected(st: State, schemas: Schemas, elems: seq<Fields>, second: DataArg)
    ensures Branch(st, schemas, MArray(elems), second) == Run(st, Some(ArrayInvoke))
  {
  }

  /** Every item deferred in `d`, except `sid`, is still deferred on the same label in `d'`. */
  predicate DeferKept(d: map<string, seq<string>>, d': map<string, seq<string>>, sid: string) {
    forall l, s :: l in d && s in d[l] && s != sid ==> l in d' && s in d'[l]
  }

  /** The parts of the state an attempt leaves alone. */
  predicate AttemptFrame(st: State, st': State) {
    && st'.items.Keys == st.items.Keys
    && (forall s :: s in st.items ==> st'.items[s].serial == st.items[s].serial && st'.items[s].model == st.items[s].model)
    && st'.refs == st.refs && st'.knownFK == st.knownFK && st'.nextId == st.nextId
    && st'.created == st.created && st'.createdTotal == st.createdTotal
    && st'.reports == st.reports && st'.called == st.called && st'.wiped == st.wiped
    && (forall l :: l in st.defer ==> l in st'.defer && forall s :: s in st.defer[l] ==> s in st'.defer[l])
  }

  /** What `DeferAll` does to each bucket. */
  lemma DeferAllSpec(defer: map<string, seq<string>>, labels: set<string>, sid: string)
    ensures var d := DeferAll(defer, labels, sid);
      && d.Keys == defer.Keys + labels
      && (forall l :: l in d ==> forall s :: s in d[l] <==> s in Bucket(defer, l) || (l in labels && s == sid))
      && (forall l :: l in labels ==> d[l] != [])
      && (forall l :: l in d && l !in labels ==> d[l] == defer[l])
      && (forall l :: l in d && l in defer && NoDup(defer[l]) ==> NoDup(d[l]))
      && (forall l :: l in labels ==> NoDup(Bucket(defer, l)) ==> NoDup(d[l]))
  {
  }

  /** The parts of the state an attempt writes: its own item, the defer table, and the requests. */
  lemma AttemptShape(st: State, schemas: Schemas, sid: string)
    requires sid in st.items
    ensures var a := Attempt(st, schemas, sid);
      var item := st.items[sid];
      var fks := FksOf(st, item.model);
      && a.st.items == st.items[sid := item.(fields := Resolved(fks, item.fields, st.refs))]
      && a.st.defer == DeferAll(st.defer, Waits(fks, item.fields, st.refs), sid)
      && (a.st.outstanding == st.outstanding || a.st.outstanding == st.outstanding + multiset{sid})
      && a.st.(items := st.items, defer := st.defer, outstanding := st.outstanding, requests := st.requests) == st
  {
  }

  /** An item waits on some label only if its model has foreign keys, hence a schema. */
  lemma WaitsNeedSchema(st: State, schemas: Schemas, sid: string)
    requires CacheOk(st, schemas) && sid in st.items
    ensures var item := st.items[sid];
      Waits(FksOf(st, item.model), item.fields, st.refs) != {} ==> item.model in schemas
  {
    var item := st.items[sid];
    var fks := FksOf(st, item.model);
    if Waits(fks, item.fields, st.refs) != {} {
      var f :| f in fks && FieldEffect(fks, item.fields, st.refs, f).Wait?;
    }
  }

  lemma AttemptBuckets(st: State, schemas: Schemas, sid: string)
    requires Valid(st, schemas) && sid in st.items
    ensures BucketsOk(Attempt(st, schemas, sid).st, schemas)
  {
    var item := st.items[sid];
    var waits := Waits(FksOf(st, item.model), item.fields, st.refs);
    var a := Attempt(st, schemas, sid);
    AttemptShape(st, schemas, sid);
    WaitsNeedSchema(st, schemas, sid);
    DeferAllSpec(st.defer, waits, sid);
    forall l | l in a.st.defer
      ensures a.st.defer[l] != [] && NoDup(a.st.defer[l])
      ensures forall s :: s in a.st.defer[l] ==> s in a.st.items && a.st.items[s].model in schemas
    {
    }
  }

  /** An attempt keeps the invariant and touches no item but its own. */
  lemma AttemptValid(st: State, schemas: Schemas, sid: string)
    requires Valid(st, schemas) && sid in st.items
    ensures var a := Attempt(st, schemas, sid);
      && Valid(a.st, schemas)
      && AttemptFrame(st, a.st)
      && (forall s :: s in st.items && s != sid ==> a.st.items[s] == st.items[s])
      && (a.st.outstanding == st.outstanding || a.st.outstanding == st.outstanding + multiset{sid})
  {
    var item := st.items[sid];
    var a := Attempt(st, schemas, sid);
    AttemptShape(st, schemas, sid);
    AttemptBuckets(st, schemas, sid);
    AttemptKeepsItems(st, a.st, sid, item.(fields := Resolved(FksOf(st, item.model), item.fields, st.refs)));
    DeferAllSpec(st.defer, Waits(FksOf(st, item.model), item.fields, st.refs), sid);
  }

  lemma AttemptKeepsItems(st: State, st': State, sid: string, item': Item)
    requires ItemsOk(st) && sid in st.items
    requires item'.serial == st.items[sid].serial && item'.model == st.items[sid].model
    requires st'.items == st.items[sid := item'] && st'.nextId == st.nextId
    ensures ItemsOk(st')
    ensures forall s :: s in st.items && s != sid ==> st'.items[s] == st.items[s]
  {
  }

  /**
   * `create` is issued exactly when no foreign key made the item wait and
   * the store knows the model, and the document sent is the item with its
   * foreign keys resolved, less `_model`, `_sid` and `_ref`. The item is
   * deferred on exactly the labels it waits on.
   */
  lemma AttemptIssues(st: State, schemas: Schemas, sid: string)
    requires sid in st.items
    ensures var a := Attempt(st, schemas, sid);
      var item := st.items[sid];
      var waits := Waits(FksOf(st, item.model), item.fields, st.refs);
      && a.st.items[sid].fields == Resolved(FksOf(st, item.model), item.fields, st.refs)
      && (a.threw <==> waits == {} && item.model !in schemas)
      && (waits == {} && item.model in schemas ==>
            && a.st.requests == st.requests + [a.st.requests[|st.requests|]]
            && a.st.requests[|st.requests|].model == item.model
            && a.st.requests[|st.requests|].doc == Payload(a.st.items[sid].fields)
            && a.st.outstanding == st.outstanding + multiset{sid})
      && (waits != {} || item.model !in schemas ==>
            a.st.requests == st.requests && a.st.outstanding == st.outstanding)
      && (forall l :: sid in Bucket(a.st.defer, l) <==> sid in Bucket(st.defer, l) || l in waits)
  {
    var item := st.items[sid];
    var waits := Waits(FksOf(st, item.model), item.fields, st.refs);
    DeferAllSpec(st.defer, waits, sid);
  }

  /**
   * A single reference whose label is known is rewritten to the stored id
   * even when another field makes the item wait.
   */
  lemma KnownRefRewritten(st: State, schemas: Schemas, sid: string, f: string)
    requires sid in st.items
    requires var item := st.items[sid];
      var fks := FksOf(st, item.model);
      f in fks && fks[f] == Single && f in item.fields && KeyOf(item.fields[f]) in st.refs
    ensures var item := st.items[sid];
      Attempt(st, schemas, sid).st.items[sid].fields[f] == Oid(st.refs[KeyOf(item.fields[f])])
  {
    var item := st.items[sid];
    FieldOutcome(FksOf(st, item.model), item.fields, st.refs, f);
  }

  /** A known single reference reaches the created document as the id of its label. */
  lemma KnownRefSent(st: State, schemas: Schemas, sid: string, f: string)
    requires sid in st.items
    requires var item := st.items[sid];
      var fks := FksOf(st, item.model);
      && f in fks && fks[f] == Single && f in item.fields && f !in Omitted && KeyOf(item.fields[f]) in st.refs
      && Waits(fks, item.fields, st.refs) == {} && item.model in schemas
    ensures var a := Attempt(st, schemas, sid);
      var doc := a.st.requests[|st.requests|].doc;
      |a.st.requests| == |st.requests| + 1 && f in doc && doc[f] == Oid(st.refs[KeyOf(st.items[sid].fields[f])])
  {
    AttemptIssues(st, schemas, sid);
    KnownRefRewritten(st, schemas, sid, f);
  }

  /** An array of known labels reaches the created document as the ids of its labels, in order. */
  lemma KnownArraySent(st: State, schemas: Schemas, sid: string, f: string)
    requires sid in st.items
    requires var item := st.items[sid];
      var fks := FksOf(st, item.model);
      && f in fks && fks[f] == Many && f in item.fields && f !in Omitted
      && (forall x :: x in ArrayElems(item.fields[f]) ==> KeyOf(x) in st.refs)
      && Waits(fks, item.fields, st.refs) == {} && item.model in schemas
    ensures var a := Attempt(st, schemas, sid);
      var doc := a.st.requests[|st.requests|].doc;
      var es := ArrayElems(st.items[sid].fields[f]);
      && |a.st.requests| == |st.requests| + 1 && f in doc && doc[f].Arr? && |doc[f].elems| == |es|
      && forall i :: 0 <= i < |es| ==> doc[f].elems[i] == Oid(st.refs[KeyOf(es[i])])
  {
    var item := st.items[sid];
    AttemptIssues(st, schemas, sid);
    FieldOutcome(FksOf(st, item.model), item.fields, st.refs, f);
  }

  /**
   * When the item is attempted again, a single reference that already holds
   * an id is looked up by the id's hexadecimal text, which is not a label:
   * the item waits on that text and is not created.
   */
  lemma RetryWaitsOnOwnId(st: State, schemas: Schemas, sid: string, f: string)
    requires sid in st.items
    requires var item := st.items[sid];
      var fks := FksOf(st, item.model);
      f in fks && fks[f] == Single && f in item.fields && item.fields[f].Oid? &&
      Hex(item.fields[f].id, 24) !in st.refs
    ensures var a := Attempt(st, schemas, sid);
      var text := Hex(st.items[sid].fields[f].id, 24);
      && sid in Bucket(a.st.defer, text)
      && !a.threw && a.st.requests == st.requests
  {
    var item := st.items[sid];
    var fks := FksOf(st, item.model);
    FieldOutcome(fks, item.fields, st.refs, f);
    AttemptIssues(st, schemas, sid);
  }

  /** Re-attempting a run of items keeps the invariant and touches no other item. */
  lemma {:induction false} RetryAllSpec(st: State, schemas: Schemas, kids: seq<string>)
    requires Valid(st, schemas) && forall s :: s in kids ==> s in st.items
    ensures var st' := RetryAll(st, schemas, kids);
      && Valid(st', schemas)
      && AttemptFrame(st, st')
      && (forall s :: s in st.items && s !in kids ==> st'.items[s] == st.items[s])
      && (forall s :: s !in kids ==> st'.outstanding[s] == st.outstanding[s])
    decreases |kids|
  {
    if kids != [] {
      AttemptValid(st, schemas, kids[0]);
      var a := Attempt(st, schemas, kids[0]);
      var rest := RetryAll(a.st, schemas, kids[1..]);
      RetryAllSpec(a.st, schemas, kids[1..]);
      FrameTrans(st, a.st, rest);
      assert forall s :: s in kids[1..] ==> s in kids;
      forall s | s !in kids
        ensures rest.outstanding[s] == st.outstanding[s]
      {
        assert s != kids[0] && s !in kids[1..];
      }
    }
  }

  /** Frames compose: two attempts in a row keep what each keeps. */
  lemma FrameTrans(st1: State, st2: State, st3: State)
    requires AttemptFrame(st1, st2) && AttemptFrame(st2, st3)
    ensures AttemptFrame(st1, st3)
  { }

  /** Cleaning the defer table of `sid` leaves no empty bucket and no trace of `sid`. */
  lemma WithdrawSpec(defer: map<string, seq<string>>, sid: string)
    requires forall l :: l in defer ==> defer[l] != [] && NoDup(defer[l])
    ensures var d := Withdraw(defer, sid);
      && d.Keys <= defer.Keys
      && (forall l :: l in d ==> d[l] != [] && NoDup(d[l]) && sid !in d[l])
      && (forall l :: l in d ==> forall s :: s in d[l] <==> s in defer[l] && s != sid)
      && (forall l :: l in defer && sid !in defer[l] ==> l in d && d[l] == defer[l])
      && DeferKept(defer, d, sid)
  {
    var d := Withdraw(defer, sid);
    forall l | l in d
      ensures d[l] != [] && sid !in d[l]
    {
      if sid in defer[l] {
        assert d[l] == Without(defer[l], sid);
      }
    }
    forall l, s | l in defer && s in defer[l] && s != sid
      ensures l in d && s in d[l]
    {
      if sid in defer[l] {
        assert s in Without(defer[l], sid);
      }
    }
  }

  /** Relinking keeps the invariant and touches only the items that waited on the label. */
  lemma RelinkSpec(st: State, schemas: Schemas, lbl: string)
    requires Valid(st, schemas)
    ensures var st' := Relink(st, schemas, lbl);
      && Valid(st', schemas)
      && AttemptFrame(st, st')
      && (forall s :: s in st.items && s !in Bucket(st.defer, lbl) ==> st'.items[s] == st.items[s])
  {
    if lbl in st.defer {
      RetryAllSpec(st, schemas, st.defer[lbl]);
    }
  }

  /**
   * Each row that waited on `lbl` is re-attempted against the labels known
   * now: its foreign keys are resolved with the current `refs`, and `create`
   * is issued for it exactly when nothing makes it wait any more.
   */
  lemma RelinkResolves(st: State, schemas: Schemas, lbl: string, s: string)
    requires Valid(st, schemas) && lbl in st.defer && s in st.defer[lbl]
    ensures var st' := Relink(st, schemas, lbl);
      var it := st.items[s];
      var fks := FksOf(st, it.model);
      && st'.items[s].fields == Resolved(fks, it.fields, st.refs)
      && st'.outstanding[s] == st.outstanding[s] + (if Waits(fks, it.fields, st.refs) == {} then 1 else 0)
  {
    RetryAllResolves(st, schemas, st.defer[lbl], s);
  }

  /**
   * A forward reference is filled in: once the row carrying the label a
   * waiting row's single reference names is created, binding and relinking
   * rewrite that reference to the new id.
   */
  lemma WaitingRefBound(st: State, schemas: Schemas, sid: string, id: ObjectId, s: string, f: string)
    requires Valid(st, schemas) && sid in st.items && OwnLabel(st.items[sid]).Some?
    requires var lbl := OwnLabel(st.items[sid]).value;
      lbl in st.defer && s in st.defer[lbl]
    requires var it := st.items[s];
      var fks := FksOf(st, it.model);
      f in fks && fks[f] == Single && f in it.fields && KeyOf(it.fields[f]) == OwnLabel(st.items[sid]).value
    ensures var b := Bound(st, schemas, sid, id);
      s in b.items && f in b.items[s].fields && b.items[s].fields[f] == Oid(id)
  {
    var lbl := OwnLabel(st.items[sid]).value;
    var st1 := st.(outstanding := st.outstanding - multiset{sid}, refs := st.refs[lbl := id]);
    assert Valid(st1, schemas);
    RelinkResolves(st1, schemas, lbl, s);
    var it := st.items[s];
    FieldOutcome(FksOf(st1, it.model), it.fields, st1.refs, f);
  }

  /** Re-attempting distinct rows of known models resolves each of them once, against the labels known at the start. */
  lemma {:induction false} RetryAllResolves(st: State, schemas: Schemas, kids: seq<string>, s: string)
    requires Valid(st, schemas) && NoDup(kids) && s in kids
    requires forall k :: k in kids ==> k in st.items && st.items[k].model in schemas
    ensures var r := RetryAll(st, schemas, kids);
      var it := st.items[s];
      var fks := FksOf(st, it.model);
      && r.items[s].fields == Resolved(fks, it.fields, st.refs)
      && r.outstanding[s] == st.outstanding[s] + (if Waits(fks, it.fields, st.refs) == {} then 1 else 0)
    decreases |kids|
  {
    var a := Attempt(st, schemas, kids[0]);
    var tail := kids[1..];
    NoDupTail(kids);
    AttemptValid(st, schemas, kids[0]);
    if kids[0] == s {
      AttemptIssues(st, schemas, s);
      RetryAllSpec(a.st, schemas, tail);
    } else {
      assert s in tail;
      assert a.st.outstanding[s] == st.outstanding[s];
      RetryAllResolves(a.st, schemas, tail, s);
    }
  }

  /** The rest of a run without duplicates has none, and leaves out its head. */
  lemma NoDupTail(kids: seq<string>)
    requires NoDup(kids) && kids != []
    ensures NoDup(kids[1..])
    ensures forall k :: k in kids[1..] ==> k in kids && k != kids[0]
  {
    var tail := kids[1..];
    forall i, j | 0 <= i < j < |tail| ensures tail[i] != tail[j] {
      assert tail[i] == kids[i + 1] && tail[j] == kids[j + 1];
    }
  }

  /**
   * A row re-attempted by `scenarioRelink` never makes `create` throw: it
   * sits in a bucket, so the store knows its model. Relinking may therefore
   * ignore whether an attempt threw.
   */
  lemma RetryNeverThrows(st: State, schemas: Schemas, lbl: string, s: string)
    requires Valid(st, schemas) && lbl in st.defer && s in st.defer[lbl]
    ensures s in st.items && !Attempt(st, schemas, s).threw
  {
  }

  /**
   * The label table is not write-once: when a second row with the same
   * truthy `_ref` is created, the label is rebound to the newer id and the
   * older id is no longer reachable through it.
   */
  lemma LabelRebound(st: State, schemas: Schemas, sid: string, id: ObjectId)
    requires Valid(st, schemas) && sid in st.items
    requires OwnLabel(st.items[sid]).Some? && OwnLabel(st.items[sid]).value in st.refs
    ensures var lbl := OwnLabel(st.items[sid]).value;
      var st' := Complete(st, schemas, sid, Created(id));
      && st'.refs[lbl] == id
      && (st.refs[lbl] != id ==> st'.refs[lbl] != st.refs[lbl])
      && st'.refs.Keys == st.refs.Keys
  {
  }

  /** A store error calls `failCreate` and changes no label, count, item or bucket. */
  lemma CompleteRejected(st: State, schemas: Schemas, sid: string, error: string)
    requires Valid(st, schemas) && sid in st.items
    ensures var st' := Complete(st, schemas, sid, Rejected(error));
      && Valid(st', schemas)
      && st' == st.(outstanding := st'.outstanding, reports := st'.reports)
      && st'.reports == st.reports + [CreateFailed(st.items[sid].model, error)]
      && st'.outstanding == st.outstanding - multiset{sid}
  {
  }

  /** Binding the label and relinking keep the invariant and touch only the items that waited on the label. */
  lemma BoundSpec(st: State, schemas: Schemas, sid: string, id: ObjectId)
    requires Valid(st, schemas) && sid in st.items
    ensures var b := Bound(st, schemas, sid, id);
      var item := st.items[sid];
      && Valid(b, schemas)
      && b.items.Keys == st.items.Keys && b.nextId == st.nextId && b.knownFK == st.knownFK
      && b.reports == st.reports
      && DeferKept(st.defer, b.defer, sid)
      && b.refs == (if OwnLabel(item).Some? then st.refs[OwnLabel(item).value := id] else st.refs)
      && (forall s :: (s in st.items && (OwnLabel(item).None? || s !in Bucket(st.defer, OwnLabel(item).value))) ==>
            b.items[s] == st.items[s])
  {
    var item := st.items[sid];
    var st0 := st.(outstanding := st.outstanding - multiset{sid});
    assert Valid(st0, schemas);
    if OwnLabel(item).Some? {
      var lbl := OwnLabel(item).value;
      var stR := st0.(refs := st0.refs[lbl := id]);
      assert Valid(stR, schemas);
      RelinkSpec(stR, schemas, lbl);
    }
  }

  lemma RecordedSpec(st: State, schemas: Schemas, sid: string, id: ObjectId)
    requires Valid(st, schemas) && sid in st.items
    ensures var st2 := Recorded(st, schemas, sid, id);
      var item := st.items[sid];
      && Valid(st2.(created := map[], createdTotal := 0), schemas)
      && st2.created == map[item.model := 1]
      && Complete(st, schemas, sid, Created(id)) == Finalize(st2.(defer := Withdraw(st2.defer, sid)))
      && st2.items.Keys == st.items.Keys && st2.nextId == st.nextId && st2.knownFK == st.knownFK
      && st2.reports == st.reports
      && DeferKept(st.defer, st2.defer, sid)
      && st2.refs == (if OwnLabel(item).Some? then st.refs[OwnLabel(item).value := id] else st.refs)
      && (forall s :: (s in st.items && (OwnLabel(item).None? || s !in Bucket(st.defer, OwnLabel(item).value))) ==>
            st2.items[s] == st.items[s])
  {
    BoundSpec(st, schemas, sid, id);
    var b := Bound(st, schemas, sid, id);
    var st2 := Recorded(st, schemas, sid, id);
    assert st2.(created := map[], createdTotal := 0) == b;
  }

  /**
   * The create callback's success branch keeps the invariant. It binds the
   * item's label (if it has a truthy `_ref`) to the new id, re-attempts only
   * the items that waited on that label, takes the item out of every
   * bucket, and reports success exactly when the defer table is then empty,
   * with the counts `{model: 1}`, before resetting them.
   */
  lemma CompleteCreated(st: State, schemas: Schemas, sid: string, id: ObjectId)
    requires Valid(st, schemas) && sid in st.items
    ensures var st' := Complete(st, schemas, sid, Created(id));
      var item := st.items[sid];
      && Valid(st', schemas)
      && st'.items.Keys == st.items.Keys && st'.nextId == st.nextId && st'.knownFK == st.knownFK
      && st'.refs == (if OwnLabel(item).Some? then st.refs[OwnLabel(item).value := id] else st.refs)
      && (forall l :: l in st'.defer ==> sid !in st'.defer[l])
      && DeferKept(st.defer, st'.defer, sid)
      && (forall s :: (s in st.items && s != sid &&
            (OwnLabel(item).None? || s !in Bucket(st.defer, OwnLabel(item).value))) ==>
            st'.items[s] == st.items[s])
      && st'.reports == st.reports +
           [ if st'.defer == map[] then Success(map[item.model := 1]) else Fail(map[item.model := 1], st'.defer),
             Finally(map[item.model := 1], st'.defer) ]
  {
    var item := st.items[sid];
    RecordedSpec(st, schemas, sid, id);
    var st2 := Recorded(st, schemas, sid, id);
    WithdrawSpec(st2.defer, sid);
    var st3 := st2.(defer := Withdraw(st2.defer, sid));
    assert BucketsOk(st3, schemas);
    KeptTrans(st.defer, st2.defer, st3.defer, sid);
  }

  lemma KeptTrans(d1: map<string, seq<string>>, d2: map<string, seq<string>>, d3: map<string, seq<string>>, sid: string)
    requires DeferKept(d1, d2, sid) && DeferKept(d2, d3, sid)
    ensures DeferKept(d1, d3, sid)
  {
  }

  /** A counter value not yet reached names no item. */
  lemma FreshSid(st: State, k: nat)
    requires ItemsOk(st) && k >= st.nextId
    ensures SidOf(k) !in st.items
  {
    if SidOf(k) in st.items {
      SidInjective(st.items[SidOf(k)].serial, k);
      assert false;
    }
  }

  /** The state only grew: items kept their number and model; labels, cache and reports are untouched. */
  predicate Grows(st: State, st': State) {
    && st.items.Keys <= st'.items.Keys
    && (forall s :: s in st.items ==> st'.items[s].serial == st.items[s].serial && st'.items[s].model == st.items[s].model)
    && st'.refs == st.refs && st'.knownFK == st.knownFK && st'.reports == st.reports
    && st'.called == st.called && st'.wiped == st.wiped
  }

  lemma NumberedSpec(st: State, schemas: Schemas, model: string, row: Fields)
    requires Valid(st, schemas)
    ensures var st1 := Numbered(st, model, row);
      && Valid(st1, schemas)
      && SidOf(st.nextId) !in st.items
      && Grows(st, st1)
      && st1.items.Keys == st.items.Keys + {SidOf(st.nextId)}
      && st1.items[SidOf(st.nextId)].serial == st.nextId && st1.items[SidOf(st.nextId)].model == model
      && st1.nextId == st.nextId + 1
  {
    FreshSid(st, st.nextId);
    var st1 := Numbered(st, model, row);
    assert ItemsOk(st1);
    assert BucketsOk(st1, schemas);
  }

  /** One intake step keeps the invariant and files the row under the fresh sid `'ID-' + nextId`. */
  lemma TakeOneSpec(st: State, schemas: Schemas, model: string, row: Fields)
    requires Valid(st, schemas)
    ensures var a := TakeOne(st, schemas, model, row);
      var sid := SidOf(st.nextId);
      && Valid(a.st, schemas)
      && sid !in st.items
      && Grows(st, a.st)
      && a.st.items.Keys == st.items.Keys + {sid}
      && a.st.items[sid] == Item(st.nextId, model, Resolved(FksOf(st, model), Intake(row), st.refs))
      && (forall s :: s in st.items ==> a.st.items[s] == st.items[s])
      && a.st.nextId == st.nextId + 1
      && (a.threw ==> model !in schemas)
  {
    NumberedSpec(st, schemas, model, row);
    var st1 := Numbered(st, model, row);
    AttemptValid(st1, schemas, SidOf(st.nextId));
    TakeOneItems(st, schemas, model, row);
  }

  /** `items` once intake has filed `rows`, from counter `n` on, each with its foreign keys resolved against `refs`. */
  function FileRows(items: map<string, Item>, n: nat, model: string, fks: FkTable, refs: Refs, rows: seq<Fields>): map<string, Item>
    decreases |rows|
  {
    if rows == [] then items
    else FileRows(items[SidOf(n) := Item(n, model, Resolved(fks, Intake(rows[0]), refs))], n + 1, model, fks, refs, rows[1..])
  }

  /** Filing from counter `n` on leaves an item whose sid no such counter names as it was. */
  lemma {:induction false} FileRowsKeeps(items: map<string, Item>, n: nat, model: string, fks: FkTable, refs: Refs, rows: seq<Fields>, s: string)
    requires s in items && forall k: nat :: k >= n ==> SidOf(k) != s
    ensures var f := FileRows(items, n, model, fks, refs, rows);
      s in f && f[s] == items[s]
    decreases |rows|
  {
    if rows != [] {
      var items' := items[SidOf(n) := Item(n, model, Resolved(fks, Intake(rows[0]), refs))];
      FileRowsKeeps(items', n + 1, model, fks, refs, rows[1..], s);
    }
  }

  lemma LaterSidsDiffer(n: nat)
    ensures forall k: nat :: k >= n + 1 ==> SidOf(k) != SidOf(n)
  {
    forall k: nat | k >= n + 1
      ensures SidOf(k) != SidOf(n)
    {
      if SidOf(k) == SidOf(n) {
        SidInjective(k, n);
      }
    }
  }

  /** The first row stays filed under `'ID-' + n`: no later counter names it. */
  lemma FileRowsHead(items: map<string, Item>, n: nat, model: string, fks: FkTable, refs: Refs, rows: seq<Fields>)
    requires rows != []
    ensures var f := FileRows(items, n, model, fks, refs, rows);
      SidOf(n) in f && f[SidOf(n)] == Item(n, model, Resolved(fks, Intake(rows[0]), refs))
  {
    var items' := items[SidOf(n) := Item(n, model, Resolved(fks, Intake(rows[0]), refs))];
    LaterSidsDiffer(n);
    FileRowsKeeps(items', n + 1, model, fks, refs, rows[1..], SidOf(n));
  }

  /** The `i`-th row is filed under `'ID-' + k` for `k == n + i`, with counter `k`, its model and its resolved properties. */
  lemma {:induction false} FileRowsAt(items: map<string, Item>, n: nat, model: string, fks: FkTable, refs: Refs, rows: seq<Fields>, i: nat, k: nat)
    requires i < |rows| && k == n + i
    ensures var f := FileRows(items, n, model, fks, refs, rows);
      SidOf(k) in f && f[SidOf(k)] == Item(k, model, Resolved(fks, Intake(rows[i]), refs))
    decreases i
  {
    if i == 0 {
      FileRowsHead(items, n, model, fks, refs, rows);
    } else {
      var items' := items[SidOf(n) := Item(n, model, Resolved(fks, Intake(rows[0]), refs))];
      FileRowsAt(items', n + 1, model, fks, refs, rows[1..], i - 1, k);
      assert rows[1..][i - 1] == rows[i];
    }
  }

  /** `scenarioArray`'s loop leaves the items it did not add as they were. */
  lemma {:induction false} TakeInKeeps(st: State, schemas: Schemas, model: string, rows: seq<Fields>)
    requires Valid(st, schemas)
    ensures var r := TakeIn(st, schemas, model, rows);
      forall s :: s in st.items ==> s in r.st.items && r.st.items[s] == st.items[s]
    decreases |rows|
  {
    if rows != [] {
      TakeOneSpec(st, schemas, model, rows[0]);
      var a := TakeOne(st, schemas, model, rows[0]);
      if !a.threw {
        TakeInKeeps(a.st, schemas, model, rows[1..]);
      }
    }
  }

  /**
   * Unless it threw, `scenarioArray`'s loop leaves the items as `FileRows`
   * files them: each row, in order, under the next counter value, with its
   * foreign keys resolved against the labels known at intake.
   */
  lemma {:induction false} TakeInFiled(st: State, schemas: Schemas, model: string, rows: seq<Fields>)
    requires Valid(st, schemas)
    ensures var r := TakeIn(st, schemas, model, rows);
      r.thrown.None? ==> r.st.items == FileRows(st.items, st.nextId, model, FksOf(st, model), st.refs, rows)
    decreases |rows|
  {
    if rows != [] {
      TakeOneSpec(st, schemas, model, rows[0]);
      var a := TakeOne(st, schemas, model, rows[0]);
      if !a.threw {
        TakeInFiled(a.st, schemas, model, rows[1..]);
        TakeOneItems(st, schemas, model, rows[0]);
      }
    }
  }

  /** One intake turn files its row, resolved, under the fresh sid, and changes no other item. */
  lemma TakeOneItems(st: State, schemas: Schemas, model: string, row: Fields)
    ensures TakeOne(st, schemas, model, row).st.items ==
      st.items[SidOf(st.nextId) := Item(st.nextId, model, Resolved(FksOf(st, model), Intake(row), st.refs))]
  {
    var sid := SidOf(st.nextId);
    var st1 := Numbered(st, model, row);
    var filed := Item(st.nextId, model, Resolved(FksOf(st, model), Intake(row), st.refs));
    assert TakeOne(st, schemas, model, row).st.items == st1.items[sid := filed] by {
      AttemptShape(st1, schemas, sid);
      assert st1.items[sid] == Item(st.nextId, model, Intake(row));
      assert FksOf(st1, model) == FksOf(st, model) && st1.refs == st.refs;
    }
    UpdateTwice(st.items, sid, Item(st.nextId, model, Intake(row)), filed);
  }

  lemma UpdateTwice<K, V>(m: map<K, V>, k: K, v: V, v': V)
    ensures m[k := v][k := v'] == m[k := v']
  {
  }

  /** The counter values from `st.nextId` on, `n` of them, name fresh items of `model` in `st'`. */
  predicate Numbers(st: State, st': State, model: string, n: nat) {
    forall k :: st.nextId <= k < st.nextId + n ==>
      && SidOf(k) !in st.items && SidOf(k) in st'.items
      && st'.items[SidOf(k)].serial == k && st'.items[SidOf(k)].model == model
  }

  lemma NumbersStep(st: State, a: State, r: State, model: string, n: nat)
    requires ItemsOk(st) && Grows(a, r) && Numbers(a, r, model, n)
    requires a.nextId == st.nextId + 1 && SidOf(st.nextId) in a.items
    requires a.items[SidOf(st.nextId)].serial == st.nextId && a.items[SidOf(st.nextId)].model == model
    requires st.items.Keys <= a.items.Keys
    ensures Numbers(st, r, model, n + 1)
  {
    forall k | st.nextId <= k < st.nextId + n + 1
      ensures SidOf(k) !in st.items && SidOf(k) in r.items
      ensures r.items[SidOf(k)].serial == k && r.items[SidOf(k)].model == model
    {
      FreshSid(st, k);
      if k == st.nextId {
        var sid := SidOf(k);
        assert sid in a.items;
        assert r.items[sid].serial == a.items[sid].serial && r.items[sid].model == a.items[sid].model;
      } else {
        assert a.nextId <= k < a.nextId + n;
      }
    }
  }

  /**
   * `scenarioArray`'s loop keeps the invariant and gives the rows, in
   * order, the fresh sids `'ID-' + n` for n from the old `nextId` on, each
   * with its model; `nextId` grows by exactly the number of rows unless the
   * store lacks the model, which throws at the first row.
   */
  lemma {:induction false} TakeInSpec(st: State, schemas: Schemas, model: string, rows: seq<Fields>)
    requires Valid(st, schemas)
    ensures var r := TakeIn(st, schemas, model, rows);
      && Valid(r.st, schemas)
      && Grows(st, r.st)
      && (r.thrown.None? ==> r.st.nextId == st.nextId + |rows| && Numbers(st, r.st, model, |rows|))
      && (r.thrown.Some? ==>
            r.thrown == Some(UnknownModel(model)) && model !in schemas && st.nextId < r.st.nextId <= st.nextId + |rows|)
    decreases |rows|
  {
    if rows != [] {
      TakeOneSpec(st, schemas, model, rows[0]);
      var a := TakeOne(st, schemas, model, rows[0]);
      if !a.threw {
        TakeInSpec(a.st, schemas, model, rows[1..]);
        var r := TakeIn(a.st, schemas, model, rows[1..]);
        assert TakeIn(st, schemas, model, rows) == r;
        if r.thrown.None? {
          NumbersStep(st, a.st, r.st, model, |rows| - 1);
        }
      }
    }
  }

  /** All sids given out are distinct: different rows never share a defer slot. */
  lemma SidsDistinct(st: State, s1: string, s2: string)
    requires ItemsOk(st) && s1 in st.items && s2 in st.items && s1 != s2
    ensures st.items[s1].serial != st.items[s2].serial
  {
  }

  /** `scenarioFKs` fills the cache once; calling it again changes nothing. */
  lemma CacheFKsSpec(st: State, schemas: Schemas, model: string)
    requires Valid(st, schemas)
    ensures var r := CacheFKs(st, schemas, model);
      && Valid(r.st, schemas)
      && r.st.knownFK.Keys == st.knownFK.Keys + {model}
      && (forall m :: m in st.knownFK ==> r.st.knownFK[m] == st.knownFK[m])
      && r.st == st.(knownFK := r.st.knownFK)
      && (r.thrown.Some? <==> model !in st.knownFK && model !in schemas)
      && CacheFKs(r.st, schemas, model) == Run(r.st, None)
  {
    if model !in st.knownFK {
      var table := if model in schemas then ForeignKeys(schemas[model]) else map[];
      var st' := st.(knownFK := st.knownFK[model := table]);
      assert CacheFKs(st, schemas, model).st == st';
      assert CacheOk(st', schemas) by {
        forall m | m in st'.knownFK
          ensures st'.knownFK[m] == if m in schemas then ForeignKeys(schemas[m]) else map[]
        {
        }
      }
    }
  }

  lemma LoadSpec(st: State, schemas: Schemas, model: string, rows: seq<Fields>)
    requires Valid(st, schemas)
    ensures var r := Load(st, schemas, model, rows);
      Valid(r.st, schemas) && r.st.called == st.called && r.st.wiped == st.wiped
  {
    CacheFKsSpec(st, schemas, model);
    var r := CacheFKs(st, schemas, model);
    if r.thrown.None? {
      TakeInSpec(r.st, schemas, model, rows);
    }
  }

  lemma {:induction false} LoadAllSpec(st: State, schemas: Schemas, entries: seq<(string, seq<Fields>)>)
    requires Valid(st, schemas)
    ensures var r := LoadAll(st, schemas, entries);
      Valid(r.st, schemas) && r.st.called == st.called && r.st.wiped == st.wiped
    decreases |entries|
  {
    if entries != [] {
      LoadSpec(st, schemas, entries[0].0, entries[0].1);
      LoadAllSpec(Load(st, schemas, entries[0].0, entries[0].1).st, schemas, entries[1..]);
    }
  }

  /** Wiping changes nothing but the list of wiped models. */
  lemma {:induction false} NukeFrame(st: State, schemas: Schemas, names: seq<string>)
    ensures var r := Nuke(st, schemas, names);
      r.st == st.(wiped := r.st.wiped)
    decreases |names|
  {
    if names != [] && names[0] in schemas {
      NukeFrame(st.(wiped := st.wiped + [names[0]]), schemas, names[1..]);
    }
  }

  /** A wipe that does not throw wipes every model named, in the order given. */
  lemma {:induction false} NukeAll(st: State, schemas: Schemas, names: seq<string>)
    ensures var r := Nuke(st, schemas, names);
      r.thrown.None? ==> r.st.wiped == st.wiped + names && forall n :: n in names ==> n in schemas
    decreases |names|
  {
    if names != [] && names[0] in schemas {
      NukeAll(st.(wiped := st.wiped + [names[0]]), schemas, names[1..]);
      assert [names[0]] + names[1..] == names;
    }
  }

  /** A wipe that throws stops at the first model the store lacks, having wiped the ones before it. */
  lemma {:induction false} NukeStops(st: State, schemas: Schemas, names: seq<string>)
    ensures var r := Nuke(st, schemas, names);
      r.thrown.Some? ==>
        exists k :: 0 <= k < |names| && names[k] !in schemas &&
          r.thrown == Some(UnknownModel(names[k])) && r.st.wiped == st.wiped + names[..k]
    decreases |names|
  {
    if names != [] && names[0] in schemas {
      var st1 := st.(wiped := st.wiped + [names[0]]);
      NukeStops(st1, schemas, names[1..]);
      var r := Nuke(st1, schemas, names[1..]);
      if r.thrown.Some? {
        var k :| 0 <= k < |names[1..]| && names[1..][k] !in schemas &&
                 r.thrown == Some(UnknownModel(names[1..][k])) && r.st.wiped == st1.wiped + names[1..][..k];
        assert Nuke(st, schemas, names) == r;
        assert names[..k + 1] == [names[0]] + names[1..][..k];
        assert names[k + 1] == names[1..][k];
        assert r.thrown == Some(UnknownModel(names[k + 1])) && r.st.wiped == st.wiped + names[..k + 1];
      }
    } else if names != [] {
      assert names[..0] == [];
      assert Nuke(st, schemas, names).st.wiped == st.wiped + names[..0];
    }
  }

  /** Every call into the engine keeps the invariant. */
  lemma ScenarioSpec(st: State, schemas: Schemas, nuke: seq<string>, first: ModelArg, second: DataArg)
    requires Valid(st, schemas)
    ensures var r := Scenario(st, schemas, nuke, first, second);
      && Valid(r.st, schemas)
      && r.st.called == st.called + 1
      && (st.called != 0 ==> r.st.wiped == st.wiped)
  {
    var st1 := st.(called := st.called + 1);
    NukeFrame(st1, schemas, nuke);
    var n := Enter(st, schemas, nuke);
    assert n.st == st.(called := st.called + 1, wiped := n.st.wiped);
    CountsValid(st, n.st, schemas);
    if n.thrown.None? {
      BranchSpec(n.st, schemas, first, second);
      assert Scenario(st, schemas, nuke, first, second) == Branch(n.st, schemas, first, second);
    } else {
      assert Scenario(st, schemas, nuke, first, second) == n;
    }
  }

  /** Counting calls and wiping models leave the invariant alone. */
  lemma CountsValid(st: State, st': State, schemas: Schemas)
    requires Valid(st, schemas) && st' == st.(called := st'.called, wiped := st'.wiped)
    ensures Valid(st', schemas)
  {
  }

  lemma BranchSpec(st: State, schemas: Schemas, first: ModelArg, second: DataArg)
    requires Valid(st, schemas)
    ensures var r := Branch(st, schemas, first, second);
      Valid(r.st, schemas) && r.st.called == st.called && r.st.wiped == st.wiped
  {
    match RouteOf(first, second)
    case FromArray => LoadSpec(st, schemas, first.s, second.rows);
    case FromHash => LoadAllSpec(st, schemas, first.entries);
    case FromRecord => LoadSpec(st, schemas, first.s, [second.fields]);
    case _ =>
  }
}
