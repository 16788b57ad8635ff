/**
  The values a stored document is made of: the BSON types the store hands back
  to the route handlers, seen as Python values. A dictionary keeps its keys in
  insertion order, as a Python `dict` does; lookups take the first entry with
  the key, which is the only one in a dictionary built by Python.
 */
module Values {
  import opened Wrappers

  datatype Value =
    | Null
    | Str(s: string)
    | Int(i: int)
    | Float(r: real)
    | Bool(b: bool)
    | Oid(hex: string)
    | DateTime(year: nat, month: nat, day: nat, hour: nat, minute: nat, second: nat, microsecond: nat)
    | List(items: seq<Value>)
    | Dict(entries: seq<(string, Value)>)

  /** The entries of a dictionary (a document), in key order. */
  type Entries = seq<(string, Value)>

  /** The keys of a dictionary, in order. */
  function Keys(es: Entries): (ks: seq<string>)
    ensures |ks| == |es|
    ensures forall i :: 0 <= i < |es| ==> ks[i] == es[i].0
  {
    seq(|es|, i requires 0 <= i < |es| => es[i].0)
  }

  predicate HasKey(es: Entries, k: string) {
    k in Keys(es)
  }

  /** `d.get(k)`: the value under the first entry with key `k`. */
  function Lookup(es: Entries, k: string): (r: Option<Value>)
    ensures r.Some? <==> HasKey(es, k)
    ensures r.Some? ==> (k, r.value) in es
  {
    if |es| == 0 then None
    else if es[0].0 == k then Some(es[0].1)
    else
      assert Keys(es) == [es[0].0] + Keys(es[1..]);
      Lookup(es[1..], k)
  }

  /** `doc.get(key)`: the value, or `None` when the key is absent. */
  function Field(doc: Entries, key: string): Value {
    Lookup(doc, key).GetOr(Null)
  }

  /** The entry `Lookup` finds is the first one with its key. */
  lemma {:induction false} LookupIsFirst(es: Entries, k: string)
    requires HasKey(es, k)
    ensures exists i :: 0 <= i < |es| && es[i] == (k, Lookup(es, k).value) && k !in Keys(es[..i])
  {
    if es[0].0 == k {
      assert Keys(es[..0]) == [];
    } else {
      assert Keys(es) == [es[0].0] + Keys(es[1..]);
      LookupIsFirst(es[1..], k);
      var i :| 0 <= i < |es[1..]| && es[1..][i] == (k, Lookup(es[1..], k).value) && k !in Keys(es[1..][..i]);
      assert Keys(es[..i + 1]) == [es[0].0] + Keys(es[1..][..i]);
    }
  }

  /** The entry at `i` is what `Lookup` reads when no earlier entry has its key. */
  lemma {:induction false} LookupAt(es: Entries, i: nat, k: string)
    requires i < |es| && es[i].0 == k
    requires forall j :: 0 <= j < i ==> es[j].0 != k
    ensures Lookup(es, k) == Some(es[i].1)
  {
    if i > 0 {
      LookupAt(es[1..], i - 1, k);
    }
  }

  /** In a document whose keys are distinct, every entry is what `Lookup` reads for its key. */
  lemma LookupDistinct(es: Entries)
    requires forall i, j :: 0 <= i < j < |es| ==> es[i].0 != es[j].0
    ensures forall i :: 0 <= i < |es| ==> Lookup(es, es[i].0) == Some(es[i].1)
  {
    forall i | 0 <= i < |es| ensures Lookup(es, es[i].0) == Some(es[i].1) {
      LookupAt(es, i, es[i].0);
    }
  }

  /**
    `d[k] = v` on a Python dictionary, and `$set` of one field on a stored
    document: an existing key keeps its place and takes the new value, a new
    key goes at the end.
   */
  function SetKey(es: Entries, k: string, v: Value): (r: Entries)
    ensures HasKey(es, k) ==> Keys(r) == Keys(es)
    ensures !HasKey(es, k) ==> Keys(r) == Keys(es) + [k]
  {
    if |es| == 0 then [(k, v)]
    else if es[0].0 == k then
      KeysCons(es[0], es[1..]);
      KeysCons((k, v), es[1..]);
      assert es == [es[0]] + es[1..];
      [(k, v)] + es[1..]
    else
      var rest := SetKey(es[1..], k, v);
      KeysCons(es[0], es[1..]);
      KeysCons(es[0], rest);
      assert es == [es[0]] + es[1..];
      [es[0]] + rest
  }

  lemma KeysCons(e: (string, Value), es: Entries)
    ensures Keys([e] + es) == [e.0] + Keys(es)
  {
  }

  /** After `d[k] = v`, `k` reads `v` and every other key reads what it read before. */
  lemma {:induction false} SetKeyLookup(es: Entries, k: string, v: Value, k': string)
    ensures Lookup(SetKey(es, k, v), k) == Some(v)
    ensures k' != k ==> Lookup(SetKey(es, k, v), k') == Lookup(es, k')
  {
    if |es| > 0 && es[0].0 != k {
      SetKeyLookup(es[1..], k, v, k');
    }
  }

  /** Python truthiness: `None`, empty strings, zero, `False` and empty containers are false. */
  predicate Truthy(v: Value) {
    match v
    case Null => false
    case Str(s) => s != ""
    case Int(i) => i != 0
    case Float(r) => r != 0.0
    case Bool(b) => b
    case Oid(_) => true
    case DateTime(_, _, _, _, _, _, _) => true
    case List(xs) => xs != []
    case Dict(es) => es != []
  }

  // ---------------------------------------------------------------------
  // Decimal text

  function DigitChar(d: nat): (c: char)
    requires d < 10
    ensures '0' <= c <= '9'
  {
    (d + '0' as int) as char
  }

  /** The decimal digits of `n`, most significant first, without leading zeros. */
  function NatText(n: nat): (s: string)
    ensures |s| >= 1
    ensures forall i :: 0 <= i < |s| ==> '0' <= s[i] <= '9'
  {
    if n < 10 then [DigitChar(n)] else NatText(n / 10) + [DigitChar(n % 10)]
  }

  /** Python's `str(i)` for an integer. */
  function IntText(i: int): string {
    if i < 0 then "-" + NatText(-i) else NatText(i)
  }

  /** `n` in decimal, padded on the left with zeros to at least `width` digits. */
  function Padded(n: nat, width: nat): (s: string)
    ensures |s| >= width
    ensures forall i :: 0 <= i < |s| ==> '0' <= s[i] <= '9'
  {
    var t := NatText(n);
    if |t| >= width then t else seq(width - |t|, _ => '0') + t
  }

  /** `strftime('%Y-%m-%d')`: the calendar date, the time of day dropped. */
  function DateText(year: nat, month: nat, day: nat): string {
    Padded(year, 4) + "-" + Padded(month, 2) + "-" + Padded(day, 2)
  }

  /**
    Python's `str()` of a naive `datetime`: `YYYY-MM-DD HH:MM:SS`, followed by
    `.ffffff` when the microsecond is not zero.
   */
  function DateTimeText(year: nat, month: nat, day: nat, hour: nat, minute: nat, second: nat, microsecond: nat): string {
    DateText(year, month, day) + " " + Padded(hour, 2) + ":" + Padded(minute, 2) + ":" + Padded(second, 2)
    + (if microsecond == 0 then "" else "." + Padded(microsecond, 6))
  }

  /** Up to `n` decimal digits of a fraction `0 <= f < 1`. */
  function FractionDigits(f: real, n: nat): string
    requires 0.0 <= f < 1.0
    decreases n
  {
    if n == 0 || f == 0.0 then ""
    else
      var d := (f * 10.0).Floor;
      [DigitChar(d)] + FractionDigits(f * 10.0 - d as real, n - 1)
  }

  /** The text of a float: its integer part, a point, then its fraction (at least one digit). */
  function FloatText(r: real): string {
    if r < 0.0 then "-" + UnsignedFloatText(-r) else UnsignedFloatText(r)
  }

  function UnsignedFloatText(r: real): string
    requires r >= 0.0
  {
      var whole := r.Floor;
      var f := r - whole as real;
      IntText(whole) + "." + (if f == 0.0 then "0" else FractionDigits(f, 17))
  }

  function JoinWith(parts: seq<string>, sep: string): string {
    if |parts| == 0 then ""
    else if |parts| == 1 then parts[0]
    else parts[0] + sep + JoinWith(parts[1..], sep)
  }

  /**
    Python's `str(v)` when `quoted` is false and `repr(v)` when it is true
    (containers render their elements with `repr`).
   */
  function Render(v: Value, quoted: bool): string {
    match v
    case Null => "None"
    case Str(s) => if quoted then "'" + s + "'" else s
    case Int(i) => IntText(i)
    case Float(r) => FloatText(r)
    case Bool(b) => if b then "True" else "False"
    case Oid(h) => if quoted then "ObjectId('" + h + "')" else h
    case DateTime(y, mo, d, h, mi, s, us) =>
      if !quoted then DateTimeText(y, mo, d, h, mi, s, us)
      else
        // trailing zero microsecond, then trailing zero second, are left out
        "datetime.datetime(" + IntText(y) + ", " + IntText(mo) + ", " + IntText(d) + ", "
        + IntText(h) + ", " + IntText(mi)
        + (if s == 0 && us == 0 then "" else ", " + IntText(s))
        + (if us == 0 then "" else ", " + IntText(us)) + ")"
    case List(xs) =>
      "[" + JoinWith(seq(|xs|, i requires 0 <= i < |xs| => Render(xs[i], true)), ", ") + "]"
    case Dict(es) =>
      "{" + JoinWith(seq(|es|, i requires 0 <= i < |es| => "'" + es[i].0 + "': " + Render(es[i].1, true)), ", ") + "}"
  }

  /** Python's `str(v)`. */
  function Text(v: Value): (t: string)
    ensures v.Str? ==> t == v.s
    ensures v.Oid? ==> t == v.hex
  {
    Render(v, false)
  }

  // ---------------------------------------------------------------------
  // Conversions that can fail

  predicate IsDecimalDigits(s: string) {
    |s| >= 1 && forall i :: 0 <= i < |s| ==> '0' <= s[i] <= '9'
  }

  function DigitsValue(s: string): nat
    requires forall i :: 0 <= i < |s| ==> '0' <= s[i] <= '9'
  {
    if |s| == 0 then 0 else DigitsValue(s[..|s| - 1]) * 10 + (s[|s| - 1] - '0') as nat
  }

  /** Python's `int(s)` on a string: an optional sign followed by decimal digits. */
  function ParseIntText(s: string): (r: Option<int>)
    ensures r.Some? ==> |s| >= 1
  {
    if |s| >= 1 && (s[0] == '-' || s[0] == '+') && IsDecimalDigits(s[1..]) then
      Some(if s[0] == '-' then -(DigitsValue(s[1..]) as int) else DigitsValue(s[1..]))
    else if IsDecimalDigits(s) then Some(DigitsValue(s))
    else None
  }

  /** Python's `int(v)`; `None` where Python raises. Floats are truncated toward zero. */
  function PyInt(v: Value): (r: Option<int>)
    ensures v.Int? ==> r == Some(v.i)
    ensures v.Null? || v.Oid? || v.DateTime? || v.List? || v.Dict? ==> r.None?
  {
    match v
    case Int(i) => Some(i)
    case Bool(b) => Some(if b then 1 else 0)
    case Float(r) => Some(if r >= 0.0 then r.Floor else -((-r).Floor))
    case Str(s) => ParseIntText(s)
    case _ => None
  }

  /** Reading the decimal text of `n` gives `n` back. */
  lemma {:induction false} NatTextValue(n: nat)
    ensures DigitsValue(NatText(n)) == n
  {
    var s := NatText(n);
    if n < 10 {
      assert s[..0] == [];
    } else {
      assert s[..|s| - 1] == NatText(n / 10);
      NatTextValue(n / 10);
    }
  }

  lemma NatTextParses(n: nat)
    ensures ParseIntText(NatText(n)) == Some(n)
  {
    var s := NatText(n);
    NatTextValue(n);
    assert s[0] != '-' && s[0] != '+';
    assert IsDecimalDigits(s);
  }

  lemma SignedTextParses(n: nat)
    ensures ParseIntText("-" + NatText(n)) == Some(-(n as int))
  {
    var s := "-" + NatText(n);
    assert s[1..] == NatText(n);
    assert IsDecimalDigits(s[1..]);
    NatTextValue(n);
  }

  /** `int(str(i)) == i`. */
  lemma IntTextParses(i: int)
    ensures ParseIntText(IntText(i)) == Some(i)
  {
    if i < 0 {
      SignedTextParses(-i);
    } else {
      NatTextParses(i);
    }
  }

  predicate IsHexDigit(c: char) {
    ('0' <= c <= '9') || ('a' <= c <= 'f') || ('A' <= c <= 'F')
  }

  function LowerHex(c: char): (d: char)
    requires IsHexDigit(c)
    ensures '0' <= d <= '9' || 'a' <= d <= 'f'
  {
    if 'A' <= c <= 'F' then (c - 'A' + 'a') as char else c
  }

  /** The canonical, lower-case text of a well-formed ObjectId. */
  predicate IsCanonicalOid(h: string) {
    |h| == 24 && forall i :: 0 <= i < |h| ==> '0' <= h[i] <= '9' || 'a' <= h[i] <= 'f'
  }

  /**
    `ObjectId(v)`: an ObjectId is taken as it is, a string of 24 hex digits is
    read in either case; everything else raises (`None`).
   */
  function ParseObjectId(v: Value): (r: Option<string>)
    ensures v.Str? ==> (r.Some? <==> |v.s| == 24 && forall i :: 0 <= i < |v.s| ==> IsHexDigit(v.s[i]))
    ensures v.Str? && r.Some? ==> IsCanonicalOid(r.value)
    ensures v.Oid? ==> r == Some(v.hex)
    ensures !v.Str? && !v.Oid? ==> r.None?
  {
    match v
    case Oid(h) => Some(h)
    case Str(s) =>
      if |s| == 24 && forall i :: 0 <= i < |s| ==> IsHexDigit(s[i]) then
        Some(seq(|s|, i requires 0 <= i < |s| => LowerHex(s[i])))
      else None
    case _ => None
  }

  /** A canonical ObjectId text parses to itself. */
  lemma CanonicalOidParses(h: string)
    requires IsCanonicalOid(h)
    ensures ParseObjectId(Str(h)) == Some(h)
  {
    assert forall i :: 0 <= i < |h| ==> IsHexDigit(h[i]);
    assert seq(|h|, i requires 0 <= i < |h| => LowerHex(h[i])) == h;
  }
}
