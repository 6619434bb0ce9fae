/**
 * What `scenarioCreator` does to one item, field by field: a foreign key whose
 * label is already in `refs` is replaced by the stored id, one whose label is
 * unknown makes the item wait on that label.
 */
module Resolve {
  import opened Wrappers
  import opened Values
  import opened Schema

  /** The label table `refs`: property key of a label to the id it was created as. */
  type Refs = map<string, ObjectId>

  /** The foreign keys of one model, as cached in `knownFK[model]`. */
  type FkTable = map<string, FkKind>

  /**
   * The result of the loop over an array field: the ids of the leading known
   * elements and, if the loop stopped early, the element it stopped at.
   */
  datatype Scan = Scan(ids: seq<ObjectId>, missing: Option<Value>)

  /** `s` maps the longest known prefix of `elems`, and names the element after it. */
  predicate IsScan(refs: Refs, elems: seq<Value>, s: Scan) {
    && |s.ids| <= |elems|
    && (forall i :: 0 <= i < |s.ids| ==> KeyOf(elems[i]) in refs && s.ids[i] == refs[KeyOf(elems[i])])
    && (s.missing.None? <==> |s.ids| == |elems|)
    && (s.missing.Some? ==> s.missing.value == elems[|s.ids|] && KeyOf(elems[|s.ids|]) !in refs)
  }

  function ScanArray(refs: Refs, elems: seq<Value>): (s: Scan)
    ensures IsScan(refs, elems, s)
  {
    if elems == [] then Scan([], None)
    else if KeyOf(elems[0]) in refs then
      var rest := ScanArray(refs, elems[1..]);
      Scan([refs[KeyOf(elems[0])]] + rest.ids, rest.missing)
    else Scan([], Some(elems[0]))
  }

  /** A scan is determined by the array and the label table. */
  lemma ScanUnique(refs: Refs, elems: seq<Value>, s1: Scan, s2: Scan)
    requires IsScan(refs, elems, s1) && IsScan(refs, elems, s2)
    ensures s1 == s2
  {
    assert s1.ids == s2.ids;
  }

  /**
   * The loop of index.js over an array field: collect the id of each element
   * until one is not in `refs`.
   */
  method MapArray(refs: Refs, elems: seq<Value>) returns (s: Scan)
    ensures IsScan(refs, elems, s)
    ensures s == ScanArray(refs, elems)
  {
    var mapped: seq<ObjectId> := [];
    var i := 0;
    while i < |elems|
      invariant i == |mapped| <= |elems|
      invariant forall j :: 0 <= j < i ==> KeyOf(elems[j]) in refs && mapped[j] == refs[KeyOf(elems[j])]
    {
      if KeyOf(elems[i]) !in refs {
        s := Scan(mapped, Some(elems[i]));
        ScanUnique(refs, elems, s, ScanArray(refs, elems));
        return;
      }
      mapped := mapped + [refs[KeyOf(elems[i])]];
      i := i + 1;
    }
    s := Scan(mapped, None);
    ScanUnique(refs, elems, s, ScanArray(refs, elems));
  }

  /** The ids as field values. */
  function Ids(ids: seq<ObjectId>): (vs: seq<Value>)
    ensures |vs| == |ids| && forall i :: 0 <= i < |ids| ==> vs[i] == Oid(ids[i])
  {
    seq(|ids|, i requires 0 <= i < |ids| => Oid(ids[i]))
  }

  /** What the loop does with one foreign-key field that is not undefined. */
  datatype Effect = Skip | Replace(value: Value) | Wait(on: string)

  /**
   * A single reference is replaced by its id when its label is known and
   * waits on the label otherwise. An array reference is replaced by the ids
   * of its elements, in order, when all are known; otherwise it waits on its
   * first unknown element, except that an unknown element that is falsy
   * (`if (!missing)`) lets the array be replaced by the ids before it.
   */
  function EffectOf(kind: FkKind, v: Value, refs: Refs): (e: Effect)
    ensures !e.Skip?
    ensures kind == Single ==>
      && (e.Replace? <==> KeyOf(v) in refs)
      && (e.Replace? ==> e.value == Oid(refs[KeyOf(v)]))
      && (e.Wait? ==> e.on == KeyOf(v))
    ensures kind == Many && (forall x :: x in ArrayElems(v) ==> KeyOf(x) in refs) ==>
      && e.Replace? && e.value.Arr? && |e.value.elems| == |ArrayElems(v)|
      && forall i :: 0 <= i < |ArrayElems(v)| ==> e.value.elems[i] == Oid(refs[KeyOf(ArrayElems(v)[i])])
    ensures kind == Many && e.Replace? ==>
      && e.value.Arr? && |e.value.elems| <= |ArrayElems(v)|
      && (forall i :: 0 <= i < |e.value.elems| ==>
            KeyOf(ArrayElems(v)[i]) in refs && e.value.elems[i] == Oid(refs[KeyOf(ArrayElems(v)[i])]))
      && (|e.value.elems| < |ArrayElems(v)| ==>
            KeyOf(ArrayElems(v)[|e.value.elems|]) !in refs && !Truthy(ArrayElems(v)[|e.value.elems|]))
    ensures kind == Many && e.Wait? ==>
      exists k :: 0 <= k < |ArrayElems(v)| && e.on == KeyOf(ArrayElems(v)[k]) &&
        Truthy(ArrayElems(v)[k]) && KeyOf(ArrayElems(v)[k]) !in refs &&
        forall j :: 0 <= j < k ==> KeyOf(ArrayElems(v)[j]) in refs
  {
    match kind
    case Single =>
      if KeyOf(v) in refs then Replace(Oid(refs[KeyOf(v)])) else Wait(KeyOf(v))
    case Many =>
      var s := ScanArray(refs, ArrayElems(v));
      if s.missing.None? || !Truthy(s.missing.value) then Replace(Arr(Ids(s.ids)))
      else Wait(KeyOf(s.missing.value))
  }

  /** What happens to the field `fk` of a row: `Skip` when it is undefined. */
  function FieldEffect(fks: FkTable, fields: Fields, refs: Refs, fk: string): Effect
    requires fk in fks
  {
    if fk in fields then EffectOf(fks[fk], fields[fk], refs) else Skip
  }

  /** The row once the foreign keys in `done` have been visited. */
  function ResolvedOn(fks: FkTable, fields: Fields, refs: Refs, done: set<string>): Fields {
    map f | f in fields ::
      if f in done && f in fks && FieldEffect(fks, fields, refs, f).Replace?
      then FieldEffect(fks, fields, refs, f).value
      else fields[f]
  }

  /** The labels the row is deferred on once the foreign keys in `done` have been visited. */
  function WaitsOn(fks: FkTable, fields: Fields, refs: Refs, done: set<string>): set<string> {
    set f | f in done && f in fks && FieldEffect(fks, fields, refs, f).Wait? :: FieldEffect(fks, fields, refs, f).on
  }

  /** The row after every foreign key has been visited. */
  function Resolved(fks: FkTable, fields: Fields, refs: Refs): (r: Fields)
    ensures r.Keys == fields.Keys
    ensures forall f :: f in fields && f !in fks ==> r[f] == fields[f]
  {
    ResolvedOn(fks, fields, refs, fks.Keys)
  }

  /** Every label the row waits on: empty exactly when no field waits. */
  function Waits(fks: FkTable, fields: Fields, refs: Refs): (w: set<string>)
    ensures w == {} <==> forall f :: f in fks ==> !FieldEffect(fks, fields, refs, f).Wait?
  {
    var w := WaitsOn(fks, fields, refs, fks.Keys);
    assert forall f :: f in fks && FieldEffect(fks, fields, refs, f).Wait? ==> FieldEffect(fks, fields, refs, f).on in w;
    w
  }

  /**
   * Each foreign key present in the row ends one of two ways: it is
   * rewritten to its effect's value, or it is left as it was and its label
   * is among the labels the row waits on.
   */
  lemma {:induction false} FieldOutcome(fks: FkTable, fields: Fields, refs: Refs, f: string)
    requires f in fks && f in fields
    ensures var e := FieldEffect(fks, fields, refs, f);
      && (e.Replace? ==> Resolved(fks, fields, refs)[f] == e.value)
      && (e.Wait? ==> Resolved(fks, fields, refs)[f] == fields[f] && e.on in Waits(fks, fields, refs))
  {
    var e := FieldEffect(fks, fields, refs, f);
    if e.Wait? {
      assert f in fks.Keys;
      assert e.on in WaitsOn(fks, fields, refs, fks.Keys);
    }
  }

  /** The fields left out of the document given to `create`. */
  const Omitted: set<string> := {"_model", "_sid", "_ref"}

  /** `_.omit(item, settings.omitFields)`. */
  function Payload(fields: Fields): (doc: Fields)
    ensures doc.Keys == fields.Keys - Omitted
    ensures forall f :: f in doc ==> doc[f] == fields[f]
  {
    fields - Omitted
  }

  /** Visiting one more foreign key rewrites at most that field. */
  lemma ResolvedOnStep(fks: FkTable, fields: Fields, refs: Refs, done: set<string>, fk: string)
    requires fk in fks && fk !in done
    ensures fk in fields ==> ResolvedOn(fks, fields, refs, done)[fk] == fields[fk]
    ensures ResolvedOn(fks, fields, refs, done + {fk}) ==
      if FieldEffect(fks, fields, refs, fk).Replace?
      then ResolvedOn(fks, fields, refs, done)[fk := FieldEffect(fks, fields, refs, fk).value]
      else ResolvedOn(fks, fields, refs, done)
  {
  }

  /** Visiting one more foreign key adds at most its label to the waits. */
  lemma WaitsOnStep(fks: FkTable, fields: Fields, refs: Refs, done: set<string>, fk: string)
    requires fk in fks && fk !in done
    ensures WaitsOn(fks, fields, refs, done + {fk}) ==
      if FieldEffect(fks, fields, refs, fk).Wait?
      then WaitsOn(fks, fields, refs, done) + {FieldEffect(fks, fields, refs, fk).on}
      else WaitsOn(fks, fields, refs, done)
  {
  }
}
