/**
 * The call shapes `scenario(model, obj)` accepts, and the branch each one
 * takes. The test order of index.js lets every array reach the
 * hash-of-models branch, so its "scenario(array) is not supported" error can
 * never be thrown; `RouteAsWritten` keeps that order and `RouteOf`, which the
 * engine uses, tests for an array first.
 */
module Dispatch {
  import opened Values

  /** The first argument: the model name, or a hash from model name to rows. */
  datatype ModelArg =
    | MUndefined
    | MNull
    | MBool(b: bool)
    | MNumber(n: int)
    | MText(s: string)
    | MArray(elems: seq<Fields>)
    | MHash(entries: seq<(string, seq<Fields>)>)

  /** The second argument: the rows, or a single row. */
  datatype DataArg =
    | DUndefined
    | DNull
    | DBool(b: bool)
    | DNumber(n: int)
    | DText(s: string)
    | DArray(rows: seq<Fields>)
    | DRecord(fields: Fields)

  /** `!model` */
  predicate Falsy(m: ModelArg) {
    match m
    case MUndefined => true
    case MNull => true
    case MBool(b) => !b
    case MNumber(n) => n == 0
    case MText(s) => s == ""
    case _ => false
  }

  /** `_.isObject(model)`: true of arrays as well as of plain objects. */
  predicate IsObject(m: ModelArg) {
    m.MArray? || m.MHash?
  }

  /** `_.isObject(obj)` */
  predicate IsObjectData(d: DataArg) {
    d.DArray? || d.DRecord?
  }

  function TypeOfModel(m: ModelArg): string {
    match m
    case MUndefined => "undefined"
    case MBool(_) => "boolean"
    case MNumber(_) => "number"
    case MText(_) => "string"
    case _ => "object"
  }

  function TypeOfData(d: DataArg): string {
    match d
    case DUndefined => "undefined"
    case DBool(_) => "boolean"
    case DNumber(_) => "number"
    case DText(_) => "string"
    case _ => "object"
  }

  /** Where a call goes. */
  datatype Route =
    | Link           // `scenarioLink()`, which index.js never defines
    | FromArray      // `scenarioArray(model, obj)`
    | FromHash       // `scenarioArray(key, model[key])` for every key
    | FromRecord     // `scenarioArray(model, [obj])`
    | RejectArray    // "scenario(array) is not supported"
    | Invalid(first: string, second: string)  // "Invalid scenario invoke style"

  /** The tests of index.js in their written order. */
  function RouteAsWritten(m: ModelArg, d: DataArg): (r: Route)
    ensures r == Link <==> Falsy(m)
    ensures r != RejectArray
    ensures r == FromArray <==> m.MText? && m.s != "" && d.DArray?
    ensures r == FromHash <==> m.MArray? || m.MHash?
    ensures r == FromRecord <==> m.MText? && m.s != "" && d.DRecord?
    ensures r.Invalid? ==> r == Invalid(TypeOfModel(m), TypeOfData(d))
  {
    if Falsy(m) then Link
    else if m.MText? && d.DArray? then FromArray
    else if IsObject(m) then FromHash
    else if m.MText? && IsObjectData(d) then FromRecord
    else if m.MArray? then RejectArray
    else Invalid(TypeOfModel(m), TypeOfData(d))
  }

  /** As written, an array first argument is taken for a hash of models... */
  lemma ArrayTakenForHash(elems: seq<Fields>, d: DataArg)
    ensures RouteAsWritten(MArray(elems), d) == FromHash
  {
  }

  /** ...so no call at all is rejected as an array. */
  lemma ArrayRejectionUnreachable(m: ModelArg, d: DataArg)
    ensures RouteAsWritten(m, d) != RejectArray
  {
  }

  /** The dispatch with the array test moved before the object test. */
  function RouteOf(m: ModelArg, d: DataArg): (r: Route)
    ensures r == Link <==> Falsy(m)
    ensures r == RejectArray <==> m.MArray?
    ensures r == FromArray <==> m.MText? && m.s != "" && d.DArray?
    ensures r == FromHash <==> m.MHash?
    ensures r == FromRecord <==> m.MText? && m.s != "" && d.DRecord?
    ensures r.Invalid? ==> r == Invalid(TypeOfModel(m), TypeOfData(d))
  {
    if Falsy(m) then Link
    else if m.MArray? then RejectArray
    else if m.MText? && d.DArray? then FromArray
    else if IsObject(m) then FromHash
    else if m.MText? && IsObjectData(d) then FromRecord
    else Invalid(TypeOfModel(m), TypeOfData(d))
  }

  /** The correction changes the route of array first arguments and of nothing else. */
  lemma RouteAgreesExceptArrays(m: ModelArg, d: DataArg)
    ensures !m.MArray? ==> RouteOf(m, d) == RouteAsWritten(m, d)
    ensures m.MArray? ==> RouteOf(m, d) == RejectArray && RouteAsWritten(m, d) == FromHash
  {
  }
}
