/**
  The document serializer (`serialize_doc`): turns stored values into values a
  template or a JSON response can carry. ObjectIds become their hex text,
  datetimes become `YYYY-MM-DD`, pre-serialized `{"$oid": ...}` and
  `{"$date": ...}` wrappers are unwrapped, and lists and dictionaries are
  serialized element by element, keeping their order.
 */
module Serializer {
  import opened Wrappers
  import opened Values

  /** `text.split('T')[0]`: the text before the first `'T'`, or all of it. */
  function DatePart(text: string): (r: string)
    ensures r <= text
    ensures 'T' !in r
    ensures |r| < |text| ==> text[|r|] == 'T'
  {
    if |text| == 0 || text[0] == 'T' then ""
    else [text[0]] + DatePart(text[1..])
  }

  /** The serializer applied to one value of a dictionary being rebuilt. */
  function SerializeField(v: Value): Value
    decreases v, 1
  {
    match v
    case Oid(h) => Str(h)
    case DateTime(y, m, d, _, _, _, _) => Str(DateText(y, m, d))
    case Dict(_) => Serialize(v)
    case List(_) => Serialize(v)
    case _ => v
  }

  /** `serialize_doc(doc)`. */
  function Serialize(v: Value): Value
    decreases v, 0
  {
    match v
    case Null => Null
    case List(xs) => List(seq(|xs|, i requires 0 <= i < |xs| => Serialize(xs[i])))
    case Dict(es) =>
      if HasKey(es, "$oid") then Lookup(es, "$oid").value
      else if HasKey(es, "$date") then
        var d := Lookup(es, "$date").value;
        if d.Str? then Str(DatePart(d.s)) else Str(DatePart(Text(d)))
      else Dict(seq(|es|, i requires 0 <= i < |es| => (es[i].0, SerializeField(es[i].1))))
    case Oid(h) => Str(h)
    case DateTime(y, m, d, _, _, _, _) => Str(DateText(y, m, d))
    case _ => v
  }

  /**
    The serializer as the source runs it: a recursive procedure whose list
    branch collects the serialized elements and whose dictionary branch builds
    a fresh result key by key.
   */
  method SerializeDoc(v: Value) returns (r: Value)
    ensures r == Serialize(v)
    decreases v
  {
    match v {
      case Null =>
        r := Null;
      case List(xs) =>
        var out: seq<Value> := [];
        for i := 0 to |xs|
          invariant |out| == i
          invariant forall j :: 0 <= j < i ==> out[j] == Serialize(xs[j])
        {
          var x := SerializeDoc(xs[i]);
          out := out + [x];
        }
        r := List(out);
      case Dict(es) =>
        if HasKey(es, "$oid") {
          r := Lookup(es, "$oid").value;
        } else if HasKey(es, "$date") {
          var d := Lookup(es, "$date").value;
          if d.Str? {
            r := Str(DatePart(d.s));
          } else {
            r := Str(DatePart(Text(d)));
          }
        } else {
          var result: Entries := [];
          for i := 0 to |es|
            invariant |result| == i
            invariant forall j :: 0 <= j < i ==> result[j] == (es[j].0, SerializeField(es[j].1))
          {
            var key, value := es[i].0, es[i].1;
            var field: Value;
            match value {
              case Oid(h) => field := Str(h);
              case DateTime(y, m, d, _, _, _, _) => field := Str(DateText(y, m, d));
              case Dict(_) => field := SerializeDoc(value);
              case List(_) => field := SerializeDoc(value);
              case _ => field := value;
            }
            result := result + [(key, field)];
          }
          r := Dict(result);
        }
      case Oid(h) =>
        r := Str(h);
      case DateTime(y, m, d, _, _, _, _) =>
        r := Str(DateText(y, m, d));
      case _ =>
        r := v;
    }
  }

  // ---------------------------------------------------------------------
  // Shape of the result

  /** The value inside a dictionary is serialized exactly as it would be at top level. */
  lemma FieldAgreesWithTopLevel(v: Value)
    ensures SerializeField(v) == Serialize(v)
  {
  }

  /** A list keeps its length and each element is serialized in place. */
  lemma SerializeList(xs: seq<Value>)
    ensures Serialize(List(xs)).List?
    ensures |Serialize(List(xs)).items| == |xs|
    ensures forall i :: 0 <= i < |xs| ==> Serialize(List(xs)).items[i] == Serialize(xs[i])
  {
  }

  /** `{"$oid": p, ...}` gives back `p` unchanged, whatever else the dictionary holds. */
  lemma SerializeOidWrapper(es: Entries)
    requires HasKey(es, "$oid")
    ensures Serialize(Dict(es)) == Lookup(es, "$oid").value
  {
  }

  /**
    `{"$date": p}` without `"$oid"` gives the text of `p` up to its first
    `'T'`: a prefix of that text with no `'T'` in it.
   */
  lemma SerializeDateWrapper(es: Entries)
    requires !HasKey(es, "$oid") && HasKey(es, "$date")
    ensures var p := Lookup(es, "$date").value;
      var text := Text(p);
      && Serialize(Dict(es)).Str?
      && Serialize(Dict(es)).s <= text
      && 'T' !in Serialize(Dict(es)).s
      && ('T' !in text ==> Serialize(Dict(es)).s == text)
  {
  }

  /**
    Any other dictionary stays a dictionary with the same keys in the same
    order; each value becomes its serialization.
   */
  lemma SerializeDict(es: Entries)
    requires !HasKey(es, "$oid") && !HasKey(es, "$date")
    ensures Serialize(Dict(es)).Dict?
    ensures Keys(Serialize(Dict(es)).entries) == Keys(es)
    ensures forall i :: 0 <= i < |es| ==> Serialize(Dict(es)).entries[i].1 == Serialize(es[i].1)
  {
    var r := Serialize(Dict(es)).entries;
    forall i | 0 <= i < |es| ensures r[i].1 == Serialize(es[i].1) {
      FieldAgreesWithTopLevel(es[i].1);
    }
  }

  /** A key of a serialized dictionary reads the serialized value it read before. */
  lemma SerializeDictLookup(es: Entries, k: string)
    requires !HasKey(es, "$oid") && !HasKey(es, "$date")
    ensures Lookup(Serialize(Dict(es)).entries, k) ==
      if HasKey(es, k) then Some(SerializeField(Lookup(es, k).value)) else None
  {
    var r := Serialize(Dict(es)).entries;
    assert Keys(r) == Keys(es);
    if HasKey(es, k) {
      LookupIsFirst(es, k);
      var i :| 0 <= i < |es| && es[i] == (k, Lookup(es, k).value) && k !in Keys(es[..i]);
      forall j | 0 <= j < i ensures r[j].0 != k {
        assert Keys(es[..i])[j] == es[j].0;
      }
      LookupAt(r, i, k);
    }
  }

  /** A plain dictionary stays one, and a key it reads as `x` reads as the serialized `x`. */
  lemma SerializedKey(es: Entries, k: string, x: Value)
    requires !HasKey(es, "$oid") && !HasKey(es, "$date")
    requires Lookup(es, k) == Some(x)
    ensures Serialize(Dict(es)).Dict?
    ensures Lookup(Serialize(Dict(es)).entries, k) == Some(SerializeField(x))
  {
    SerializeDictLookup(es, k);
  }

  /** Two datetimes on the same calendar day serialize to the same text. */
  lemma TimeOfDayDiscarded(a: Value, b: Value)
    requires a.DateTime? && b.DateTime?
    requires a.year == b.year && a.month == b.month && a.day == b.day
    ensures Serialize(a) == Serialize(b)
  {
  }

  // ---------------------------------------------------------------------
  // Idempotence

  /** No ObjectId, no datetime and no `$oid`/`$date` wrapper anywhere in `v`. */
  predicate Plain(v: Value) {
    match v
    case Oid(_) => false
    case DateTime(_, _, _, _, _, _, _) => false
    case List(xs) => forall i :: 0 <= i < |xs| ==> Plain(xs[i])
    case Dict(es) =>
      && !HasKey(es, "$oid") && !HasKey(es, "$date")
      && forall i :: 0 <= i < |es| ==> Plain(es[i].1)
    case _ => true
  }

  /** Every `$oid` payload the serializer returns is a string. */
  predicate OidPayloadsAreStrings(v: Value) {
    match v
    case List(xs) => forall i :: 0 <= i < |xs| ==> OidPayloadsAreStrings(xs[i])
    case Dict(es) =>
      if HasKey(es, "$oid") then Lookup(es, "$oid").value.Str?
      else HasKey(es, "$date") || forall i :: 0 <= i < |es| ==> OidPayloadsAreStrings(es[i].1)
    case _ => true
  }

  /** A plain value is left unchanged by the serializer. */
  lemma {:induction false} PlainIsFixed(v: Value)
    requires Plain(v)
    ensures Serialize(v) == v
  {
    match v {
      case List(xs) =>
        forall i | 0 <= i < |xs| ensures Serialize(xs[i]) == xs[i] {
          PlainIsFixed(xs[i]);
        }
        assert Serialize(v).items == xs;
      case Dict(es) =>
        forall i | 0 <= i < |es| ensures SerializeField(es[i].1) == es[i].1 {
          PlainIsFixed(es[i].1);
          FieldAgreesWithTopLevel(es[i].1);
        }
        assert Serialize(v).entries == es;
      case _ =>
    }
  }

  /** When every `$oid` payload is a string, the serializer's output is plain. */
  lemma {:induction false} SerializeIsPlain(v: Value)
    requires OidPayloadsAreStrings(v)
    ensures Plain(Serialize(v))
  {
    match v {
      case List(xs) =>
        forall i | 0 <= i < |xs| ensures Plain(Serialize(xs[i])) {
          SerializeIsPlain(xs[i]);
        }
      case Dict(es) =>
        if !HasKey(es, "$oid") && !HasKey(es, "$date") {
          SerializeDict(es);
          var r := Serialize(v).entries;
          assert !HasKey(r, "$oid") && !HasKey(r, "$date") by {
            assert Keys(r) == Keys(es);
          }
          forall i | 0 <= i < |es| ensures Plain(r[i].1) {
            SerializeIsPlain(es[i].1);
          }
        }
      case _ =>
    }
  }

  /**
    Serializing twice is serializing once, provided every `$oid` payload is a
    string.
   */
  lemma SerializeIdempotent(v: Value)
    requires OidPayloadsAreStrings(v)
    ensures Serialize(Serialize(v)) == Serialize(v)
  {
    SerializeIsPlain(v);
    PlainIsFixed(Serialize(v));
  }

  /** The values the serializer leaves unchanged are exactly the plain ones. */
  lemma {:induction false} FixedIffPlain(v: Value)
    ensures Serialize(v) == v <==> Plain(v)
  {
    if Plain(v) {
      PlainIsFixed(v);
    } else if Serialize(v) == v {
      match v {
        case List(xs) =>
          var i :| 0 <= i < |xs| && !Plain(xs[i]);
          assert Serialize(v).items[i] == Serialize(xs[i]);
          FixedIffPlain(xs[i]);
        case Dict(es) =>
          if !HasKey(es, "$oid") && !HasKey(es, "$date") {
            var i :| 0 <= i < |es| && !Plain(es[i].1);
            assert Serialize(v).entries[i].1 == SerializeField(es[i].1);
            FieldAgreesWithTopLevel(es[i].1);
            FixedIffPlain(es[i].1);
          }
        case _ =>
      }
    }
  }

  /**
    Without the hypothesis idempotence fails: an `$oid` wrapper whose payload
    is itself a wrapper is unwrapped one level per pass.
   */
  lemma NestedOidNotIdempotent()
    ensures var inner := Dict([("$oid", Str("abc"))]);
      var v := Dict([("$oid", inner)]);
      Serialize(v) == inner && Serialize(Serialize(v)) == Str("abc")
  {
    var inner := Dict([("$oid", Str("abc"))]);
    assert Keys([("$oid", inner)]) == ["$oid"];
    assert Keys([("$oid", Str("abc"))]) == ["$oid"];
  }
}
