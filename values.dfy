/**
 * The shapes of JavaScript values the seeding engine looks at, the two
 * coercions it relies on implicitly (truthiness in `if (x)` tests and the
 * conversion of a value to a property key in `refs[x]` / `defer[x]`), and the
 * sequential item ids `'ID-' + n`.
 */
module Values {

  /** A store-assigned identifier: the twelve bytes of an ObjectID. */
  type ObjectId = n: nat | n < 0x1_0000_0000_0000_0000_0000_0000

  /** A field value of an input row (JavaScript numbers are modelled as integers). */
  datatype Value =
    | Null
    | Bool(b: bool)
    | Num(n: int)
    | Str(s: string)
    | Oid(id: ObjectId)
    | Arr(elems: seq<Value>)
    | Doc(fields: map<string, Value>)

  /** A row: its own properties; a property that is absent is `undefined`. */
  type Fields = map<string, Value>

  /** JavaScript truthiness (NaN is not modelled). */
  predicate Truthy(v: Value): (b: bool)
    ensures !b <==> v in {Null, Bool(false), Num(0), Str("")}
  {
    match v
    case Null => false
    case Bool(b) => b
    case Num(n) => n != 0
    case Str(s) => s != ""
    case _ => true
  }

  /** A lower-case hexadecimal digit. */
  function Digit(d: nat): (c: char)
    requires d < 16
    ensures c in HexDigits
  {
    if d < 10 then ('0' as int + d) as char else ('a' as int + d - 10) as char
  }

  const HexDigits := "0123456789abcdef"

  /** The decimal text of a natural number, without leading zeros. */
  function Decimal(n: nat): (r: string)
    ensures |r| >= 1
    ensures |r| == 1 <==> n < 10
    decreases n
  {
    if n < 10 then [Digit(n)] else Decimal(n / 10) + [Digit(n % 10)]
  }

  /** `String(n)` for an integer. */
  function IntText(n: int): string {
    if n < 0 then "-" + Decimal(-n) else Decimal(n)
  }

  /** The last `width` hexadecimal digits of `n`, most significant first. */
  function Hex(n: nat, width: nat): (r: string)
    ensures |r| == width
    ensures forall i :: 0 <= i < |r| ==> r[i] in HexDigits
  {
    if width == 0 then "" else Hex(n / 16, width - 1) + [Digit(n % 16)]
  }

  /**
   * The property key a value is converted to when it indexes an object, as in
   * `settings.refs[ref]`: an ObjectID becomes its 24-digit hexadecimal text, an
   * array its elements' texts joined by commas (null elements as empty text).
   */
  function KeyOf(v: Value): (r: string)
    ensures v.Str? ==> r == v.s
    ensures v.Oid? ==> r == Hex(v.id, 24)
    ensures v.Num? ==> r == IntText(v.n)
    ensures v.Null? ==> r == "null"
    ensures v.Bool? ==> r == if v.b then "true" else "false"
    ensures v.Doc? ==> r == "[object Object]"
    ensures v.Arr? && v.elems == [] ==> r == ""
    decreases v, 1
  {
    match v
    case Null => "null"
    case Bool(b) => if b then "true" else "false"
    case Num(n) => IntText(n)
    case Str(s) => s
    case Oid(id) => Hex(id, 24)
    case Arr(es) => JoinKeys(es)
    case Doc(_) => "[object Object]"
  }

  function JoinKeys(es: seq<Value>): string
    decreases es, 0
  {
    if es == [] then ""
    else
      var head := if es[0].Null? then "" else KeyOf(es[0]);
      if |es| == 1 then head else head + "," + JoinKeys(es[1..])
  }

  /**
   * The values `item[fk][i]` visited by `for (var i in item[fk])`: the elements
   * of an array, the one-character strings of a string, and nothing for null,
   * booleans and numbers. Enumerable properties of objects are not modelled.
   */
  function ArrayElems(v: Value): (r: seq<Value>)
    ensures v.Arr? ==> r == v.elems
    ensures v.Str? ==> |r| == |v.s| && forall i :: 0 <= i < |r| ==> r[i] == Str([v.s[i]])
    ensures !v.Arr? && !v.Str? ==> r == []
  {
    match v
    case Arr(es) => es
    case Str(s) => seq(|s|, i requires 0 <= i < |s| => Str([s[i]]))
    case _ => []
  }

  /** The `_sid` given to the n-th item taken in: `'ID-' + n`. */
  function SidOf(n: nat): string {
    "ID-" + Decimal(n)
  }

  lemma {:induction false} DecimalInjective(a: nat, b: nat)
    requires Decimal(a) == Decimal(b)
    ensures a == b
    decreases a
  {
    if a < 10 || b < 10 {
      assert |Decimal(a)| == 1 && |Decimal(b)| == 1;
      assert Decimal(a)[0] == Digit(a) && Decimal(b)[0] == Digit(b);
    } else {
      var da, db := Decimal(a), Decimal(b);
      assert da == Decimal(a / 10) + [Digit(a % 10)];
      assert db == Decimal(b / 10) + [Digit(b % 10)];
      assert da[|da| - 1] == Digit(a % 10) && db[|db| - 1] == Digit(b % 10);
      assert da[..|da| - 1] == Decimal(a / 10);
      assert db[..|db| - 1] == Decimal(b / 10);
      DecimalInjective(a / 10, b / 10);
    }
  }

  /** `16^w`, the number of values `w` hexadecimal digits can write. */
  function Pow16(w: nat): (p: nat)
    ensures p >= 1
  {
    if w == 0 then 1 else 16 * Pow16(w - 1)
  }

  /** Below `16^w`, the `w`-digit hexadecimal text determines the number. */
  lemma {:induction false} HexInjective(a: nat, b: nat, w: nat)
    requires a < Pow16(w) && b < Pow16(w) && Hex(a, w) == Hex(b, w)
    ensures a == b
    decreases w
  {
    if w > 0 {
      var ha, hb := Hex(a, w), Hex(b, w);
      assert ha[w - 1] == Digit(a % 16) && hb[w - 1] == Digit(b % 16);
      assert ha[..w - 1] == Hex(a / 16, w - 1);
      assert hb[..w - 1] == Hex(b / 16, w - 1);
      HexInjective(a / 16, b / 16, w - 1);
    }
  }

  /** Distinct ObjectIDs convert to distinct property keys, so each id is its own label. */
  lemma OidKeysDistinct(a: ObjectId, b: ObjectId)
    requires KeyOf(Oid(a)) == KeyOf(Oid(b))
    ensures a == b
  {
    assert Pow16(6) == 0x100_0000;
    Pow16Add(6, 6);
    Pow16Add(12, 12);
    HexInjective(a, b, 24);
  }

  lemma {:induction false} Pow16Add(m: nat, n: nat)
    ensures Pow16(m + n) == Pow16(m) * Pow16(n)
    decreases m
  {
    if m > 0 {
      Pow16Add(m - 1, n);
    }
  }

  /** Distinct counter values give distinct sids. */
  lemma SidInjective(a: nat, b: nat)
    requires SidOf(a) == SidOf(b)
    ensures a == b
  {
    assert SidOf(a)[3..] == Decimal(a);
    assert SidOf(b)[3..] == Decimal(b);
    DecimalInjective(a, b);
  }
}
