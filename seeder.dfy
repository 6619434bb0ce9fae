/**
 * The seeder as index.js writes it: one shared `settings` object whose
 * fields the functions update in place, loop by loop. Each method is proved
 * to leave the object in the state the matching function of `Engine`
 * computes, so every property proved there holds of this class. The one
 * departure is the dispatch, which follows the corrected `RouteOf`: an array
 * first argument is rejected, where index.js takes it for a hash of models.
 */
module Seeding {
  import opened Wrappers
  import opened Values
  import opened Schema
  import opened Resolve
  import opened Dispatch
  import opened Engine

  /** The loop of `scenarioFKs` over a schema's paths, classifying each one. */
  method Classify(paths: Paths) returns (table: FkTable)
    ensures table == ForeignKeys(paths)
  {
    table := map[];
    var todo := paths.Keys;
    while todo != {}
      invariant todo <= paths.Keys
      invariant table == ForeignKeysOf(paths, paths.Keys - todo)
      decreases todo
    {
      var id :| id in todo;
      ForeignKeysOfStep(paths, paths.Keys - todo, id);
      Drain(paths.Keys, todo, id);
      match KindOf(id, paths[id]) {
        case Some(kind) => table := table[id := kind];
        case None =>
      }
      todo := todo - {id};
    }
    assert paths.Keys - todo == paths.Keys;
  }

  class Seeder {
    /** The store's schemas, by model name. */
    const schemas: Schemas
    /** The models to wipe on the first call (the `nuke` option). */
    const nuke: seq<string>

    var called: nat
    var wiped: seq<string>
    var created: map<string, nat>
    var createdTotal: nat
    var knownFK: map<string, FkTable>
    var refs: Refs
    var defer: map<string, seq<string>>
    var nextId: nat
    var items: map<string, Item>
    var outstanding: multiset<string>
    var requests: seq<Request>
    var reports: seq<Report>

    /** The fields as one value. */
    function Model(): State
      reads this
    {
      State(called, wiped, created, createdTotal, knownFK, refs, defer, nextId, items, outstanding, requests, reports)
    }

    ghost predicate Valid()
      reads this
    {
      Engine.Valid(Model(), schemas)
    }

    /** The module's initial `settings`, with the store's schemas and the models to wipe. */
    constructor(schemas: Schemas, nuke: seq<string>)
      ensures this.schemas == schemas && this.nuke == nuke
      ensures Model() == Initial && Valid()
    {
      this.schemas := schemas;
      this.nuke := nuke;
      called, wiped, created, createdTotal := 0, [], map[], 0;
      knownFK, refs, defer, nextId := map[], map[], map[], 0;
      items, outstanding, requests, reports := map[], multiset{}, [], [];
      new;
      InitialValid(schemas);
    }

    /** `scenarioFKs(model)`: classify the schema's paths one by one into `knownFK[model]`. */
    method ScenarioFKs(model: string) returns (thrown: Option<Error>)
      modifies this
      ensures Run(Model(), thrown) == CacheFKs(old(Model()), schemas, model)
    {
      if model in knownFK {
        return None;
      }
      knownFK := knownFK[model := map[]];
      if model !in schemas {
        return Some(UnknownModel(model));
      }
      var table := Classify(schemas[model]);
      knownFK := knownFK[model := table];
      assert knownFK == old(knownFK)[model := ForeignKeys(schemas[model])];
      return None;
    }

    /** `scenarioDefer(lbl, item)`: file the item under `defer[lbl][sid]`. */
    method Defer(lbl: string, sid: string)
      modifies this
      ensures Model() == old(Model()).(defer := DeferOne(old(defer), lbl, sid))
    {
      if lbl !in defer {
        defer := defer[lbl := []];
      }
      if sid !in defer[lbl] {
        defer := defer[lbl := defer[lbl] + [sid]];
      }
    }

    /**
     * `scenarioCreator(item)`: visit the item's foreign keys one by one,
     * rewriting or deferring each, then issue `create` when none was missing.
     * Returns whether `create` threw.
     */
    method Attempt(sid: string) returns (threw: bool)
      requires sid in items
      modifies this
      ensures Attempted(Model(), threw) == Engine.Attempt(old(Model()), schemas, sid)
    {
      var item := items[sid];
      var fks := if item.model in knownFK then knownFK[item.model] else map[];
      ghost var st0 := Model();
      PartwayStart(st0, sid, fks);
      var canCreate := true;
      var todo := fks.Keys;
      assert fks.Keys - todo == {};
      while todo != {}
        invariant todo <= fks.Keys
        invariant Model() == Partway(st0, sid, fks, fks.Keys - todo)
        invariant canCreate <==> WaitsOn(fks, item.fields, st0.refs, fks.Keys - todo) == {}
        decreases todo
      {
        var fk :| fk in todo;
        ghost var done := fks.Keys - todo;
        PartwayStep(st0, sid, fks, done, fk);
        WaitsOnStep(fks, item.fields, st0.refs, done, fk);
        Drain(fks.Keys, todo, fk);
        var waited := Visit(sid, fk, fks[fk]);
        if waited {
          canCreate := false;
        }
        todo := todo - {fk};
      }
      assert fks.Keys - todo == fks.Keys;
      PartwayEnd(st0, schemas, sid);
      if canCreate {
        if item.model !in schemas {
          return true;
        }
        outstanding := outstanding + multiset{sid};
        requests := requests + [Request(item.model, Payload(items[sid].fields))];
      }
      return false;
    }

    /** One turn of `scenarioCreator`'s loop: the switch on the kind of the foreign key `fk`. */
    method Visit(sid: string, fk: string, kind: FkKind) returns (waited: bool)
      requires sid in items
      modifies this
      ensures var fields := old(items[sid].fields);
        var effect := if fk in fields then EffectOf(kind, fields[fk], old(refs)) else Skip;
        && waited == effect.Wait?
        && Model() == Apply(old(Model()), sid, fk, effect)
    {
      var fields := items[sid].fields;
      waited := false;
      if fk !in fields {
        return;
      }
      var ref := fields[fk];
      match kind {
        case Single =>
          if KeyOf(ref) in refs {
            items := items[sid := items[sid].(fields := fields[fk := Oid(refs[KeyOf(ref)])])];
          } else {
            Defer(KeyOf(ref), sid);
            waited := true;
          }
        case Many =>
          var scan := MapArray(refs, ArrayElems(ref));
          if scan.missing.None? || !Truthy(scan.missing.value) {
            items := items[sid := items[sid].(fields := fields[fk := Arr(Ids(scan.ids))])];
          } else {
            Defer(KeyOf(scan.missing.value), sid);
            waited := true;
          }
      }
    }

    /** `scenarioRelink(lbl)`: attempt every item in `defer[lbl]` again, in order. */
    method Relink(lbl: string)
      requires BucketsOk(Model(), schemas)
      modifies this
      ensures Model() == Engine.Relink(old(Model()), schemas, lbl)
    {
      if lbl in defer {
        var kids := defer[lbl];
        var i := 0;
        while i < |kids|
          invariant 0 <= i <= |kids|
          invariant forall s :: s in kids ==> s in items
          invariant RetryAll(Model(), schemas, kids[i..]) == RetryAll(old(Model()), schemas, kids)
        {
          assert kids[i..][0] == kids[i] && kids[i..][1..] == kids[i + 1..];
          AttemptShape(Model(), schemas, kids[i]);
          var _ := Attempt(kids[i]);
          i := i + 1;
        }
      }
    }

    /** The cleanup loop of the create callback: take `sid` out of every bucket, drop emptied buckets. */
    method Withdraw(sid: string)
      modifies this
      ensures Model() == old(Model()).(defer := Engine.Withdraw(old(defer), sid))
    {
      var table := defer;
      var todo := table.Keys;
      assert WithdrawOn(defer, sid, {}) == defer;
      assert defer.Keys - todo == {};
      while todo != {}
        invariant todo <= defer.Keys
        invariant table == WithdrawOn(defer, sid, defer.Keys - todo)
        invariant unchanged(this)
        decreases todo
      {
        var lbl :| lbl in todo;
        WithdrawOnStep(defer, sid, defer.Keys - todo, lbl);
        Drain(defer.Keys, todo, lbl);
        if sid in table[lbl] {
          table := table[lbl := Without(table[lbl], sid)];
          if table[lbl] == [] {
            table := table - {lbl};
          }
        }
        todo := todo - {lbl};
      }
      assert defer.Keys - todo == defer.Keys;
      defer := table;
    }

    /** `scenarioFinalize()` */
    method Finalize()
      modifies this
      ensures Model() == Engine.Finalize(old(Model()))
    {
      if defer == map[] {
        reports := reports + [Success(created)];
      } else {
        reports := reports + [Fail(created, defer)];
      }
      reports := reports + [Finally(created, defer)];
      created := map[];
      createdTotal := 0;
    }

    /** The callback of the `create` issued for `sid`, given the store's answer. */
    method Complete(sid: string, result: StoreResult)
      requires Valid() && sid in items
      modifies this
      ensures Model() == Engine.Complete(old(Model()), schemas, sid, result)
      ensures Valid()
    {
      ghost var st := Model();
      match result {
        case Rejected(e) =>
          var model := items[sid].model;
          outstanding := outstanding - multiset{sid};
          reports := reports + [CreateFailed(model, e)];
          CompleteRejected(st, schemas, sid, e);
        case Created(id) =>
          var model := items[sid].model;
          Bind(sid, id);
          Count(model);
          Withdraw(sid);
          Finalize();
          RecordedSpec(st, schemas, sid, id);
          CompleteCreated(st, schemas, sid, id);
      }
    }

    /** The success branch of the callback up to the counts: bind the item's `_ref`, relink on it. */
    method Bind(sid: string, id: ObjectId)
      requires sid in items && BucketsOk(Model(), schemas)
      modifies this
      ensures Model() == Bound(old(Model()), schemas, sid, id)
    {
      ghost var st := Model();
      var item := items[sid];
      outstanding := outstanding - multiset{sid};
      if "_ref" in item.fields && Truthy(item.fields["_ref"]) {
        var lbl := KeyOf(item.fields["_ref"]);
        refs := refs[lbl := id];
        BucketsOkFrame(st, Model(), schemas);
        Relink(lbl);
      }
    }

    /** `createdTotal++` and `created[model]++`, counting from 1 when the count is absent or zero. */
    method Count(model: string)
      modifies this
      ensures Model() == old(Model()).(createdTotal := old(createdTotal) + 1, created := Bump(old(created), model))
    {
      createdTotal := createdTotal + 1;
      if model !in created || created[model] == 0 {
        created := created[model := 1];
      } else {
        created := created[model := created[model] + 1];
      }
    }

    /** `scenarioArray(model, rows)`: number each row, file it, attempt it; stop at a throw. */
    method Load(model: string, rows: seq<Fields>) returns (thrown: Option<Error>)
      modifies this
      ensures Run(Model(), thrown) == Engine.Load(old(Model()), schemas, model, rows)
    {
      thrown := ScenarioFKs(model);
      if thrown.Some? {
        return;
      }
      ghost var st0 := Model();
      var i := 0;
      while i < |rows|
        invariant 0 <= i <= |rows|
        invariant TakeIn(Model(), schemas, model, rows[i..]) == TakeIn(st0, schemas, model, rows)
      {
        assert rows[i..][0] == rows[i] && rows[i..][1..] == rows[i + 1..];
        var threw := TakeOne(model, rows[i]);
        if threw {
          return Some(UnknownModel(model));
        }
        i := i + 1;
      }
      return None;
    }

    /** One turn of `scenarioArray`'s loop: `_sid = 'ID-' + nextId++`, `_model = model`, attempt. */
    method TakeOne(model: string, row: Fields) returns (threw: bool)
      modifies this
      ensures Attempted(Model(), threw) == Engine.TakeOne(old(Model()), schemas, model, row)
    {
      var sid := SidOf(nextId);
      items := items[sid := Item(nextId, model, Intake(row))];
      nextId := nextId + 1;
      threw := Attempt(sid);
    }

    /** The hash branch of `scenario`: load each model's rows in turn; stop at a throw. */
    method LoadAll(entries: seq<(string, seq<Fields>)>) returns (thrown: Option<Error>)
      modifies this
      ensures Run(Model(), thrown) == Engine.LoadAll(old(Model()), schemas, entries)
    {
      var i := 0;
      while i < |entries|
        invariant 0 <= i <= |entries|
        invariant Engine.LoadAll(Model(), schemas, entries[i..]) == Engine.LoadAll(old(Model()), schemas, entries)
      {
        assert entries[i..][0] == entries[i] && entries[i..][1..] == entries[i + 1..];
        thrown := Load(entries[i].0, entries[i].1);
        if thrown.Some? {
          return;
        }
        i := i + 1;
      }
      return None;
    }

    /** Wipe every model of the `nuke` option, in order; an unknown model throws. */
    method Wipe() returns (thrown: Option<Error>)
      modifies this
      ensures Run(Model(), thrown) == Nuke(old(Model()), schemas, nuke)
    {
      var i := 0;
      while i < |nuke|
        invariant 0 <= i <= |nuke|
        invariant Nuke(Model(), schemas, nuke[i..]) == Nuke(old(Model()), schemas, nuke)
      {
        assert nuke[i..][0] == nuke[i] && nuke[i..][1..] == nuke[i + 1..];
        if nuke[i] !in schemas {
          return Some(UnknownModel(nuke[i]));
        }
        wiped := wiped + [nuke[i]];
        i := i + 1;
      }
      return None;
    }

    /** `scenario(first, second)`: the exported entry point. */
    method Scenario(first: ModelArg, second: DataArg) returns (thrown: Option<Error>)
      requires Valid()
      modifies this
      ensures Run(Model(), thrown) == Engine.Scenario(old(Model()), schemas, nuke, first, second)
      ensures Valid()
    {
      ScenarioSpec(Model(), schemas, nuke, first, second);
      thrown := Enter();
      if thrown.Some? {
        return;
      }
      thrown := Dispatch(first, second);
    }

    /** `if (settings.called++ == 0 && settings.nuke)`: wipe every `nuke` model on the first call. */
    method Enter() returns (thrown: Option<Error>)
      modifies this
      ensures Run(Model(), thrown) == Engine.Enter(old(Model()), schemas, nuke)
    {
      var firstCall := called == 0;
      called := called + 1;
      thrown := None;
      if firstCall {
        thrown := Wipe();
      }
    }

    /**
     * The branch `scenario` takes for the shape of its arguments, by the
     * corrected `RouteOf`: an array first argument throws `ArrayInvoke`.
     */
    method Dispatch(first: ModelArg, second: DataArg) returns (thrown: Option<Error>)
      modifies this
      ensures Run(Model(), thrown) == Branch(old(Model()), schemas, first, second)
    {
      match RouteOf(first, second) {
        case Link => thrown := Some(LinkUndefined);
        case FromArray => thrown := Load(first.s, second.rows);
        case FromHash => thrown := LoadAll(first.entries);
        case FromRecord => thrown := Load(first.s, [second.fields]);
        case RejectArray => thrown := Some(ArrayInvoke);
        case Invalid(a, b) => thrown := Some(InvalidInvoke(a, b));
      }
    }
  }
}
