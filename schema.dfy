/**
 * The foreign-key classifier: which schema paths of a model hold the id of
 * another record (`FK_OBJECTID`) or an array of such ids (`FK_OBJECTID_ARRAY`).
 */
module Schema {
  import opened Wrappers

  /**
   * What the store's schema reports about one path: `path.instance` and
   * `path.caster.instance`. The empty text stands for a property that is
   * missing or empty (both are falsy in the source's tests).
   */
  datatype Path = Path(instance: string, casterInstance: string)

  /** A model's schema: its paths by name. */
  type Paths = map<string, Path>

  /** `FK_OBJECTID` (1): one id; `FK_OBJECTID_ARRAY` (2): an array of ids. */
  datatype FkKind = Single | Many

  /** The kind of one path, `None` for the identity paths and plain values. */
  function KindOf(id: string, p: Path): Option<FkKind> {
    if id == "id" || id == "_id" then None
    else if p.instance == "ObjectID" then Some(Single)
    else if p.casterInstance == "ObjectID" then Some(Many)
    else None
  }

  /** The entries the classifier writes for the paths named in `ids`. */
  function ForeignKeysOf(paths: Paths, ids: set<string>): map<string, FkKind> {
    map id | id in paths && id in ids && KindOf(id, paths[id]).Some? :: KindOf(id, paths[id]).value
  }

  /**
   * The table `knownFK[model]` built from a model's schema: every path except
   * `id` and `_id` whose instance is ObjectID is a single reference, every
   * other whose caster's instance is ObjectID an array reference, and no
   * other path has an entry.
   */
  function ForeignKeys(paths: Paths): (fks: map<string, FkKind>)
    ensures forall id :: id in fks <==>
      id in paths && id != "id" && id != "_id" &&
      (paths[id].instance == "ObjectID" || paths[id].casterInstance == "ObjectID")
    ensures forall id :: id in fks ==>
      (fks[id] == Single <==> paths[id].instance == "ObjectID")
  {
    ForeignKeysOf(paths, paths.Keys)
  }

  /** Classifying one more path adds at most that path's entry. */
  lemma ForeignKeysOfStep(paths: Paths, ids: set<string>, id: string)
    requires id in paths && id !in ids
    ensures ForeignKeysOf(paths, ids + {id}) ==
      match KindOf(id, paths[id])
      case Some(k) => ForeignKeysOf(paths, ids)[id := k]
      case None => ForeignKeysOf(paths, ids)
  {
  }
}
