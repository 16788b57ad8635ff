/**
  The supplier form's `fruitsSupplied` field: a comma-separated text is read
  into a list of fruit names (each piece stripped, empty pieces dropped), and a
  stored list is shown for editing joined with `", "`.
 */
module FruitList {
  import opened Values

  /**
    The characters `str.strip()` removes, i.e. those for which Python's
    `str.isspace()` holds: the ASCII whitespace, the information separators
    U+001C-U+001F, NEL, NBSP, the Ogham space mark, the spaces U+2000-U+200A,
    the line and paragraph separators, the narrow NBSP, the medium
    mathematical space and the ideographic space.
   */
  predicate IsSpace(c: char) {
    || c == ' ' || ('\t' <= c <= '\r') || ('\U{1C}' <= c <= '\U{1F}') || c == '\U{85}' || c == '\U{A0}'
    || c == '\U{1680}' || ('\U{2000}' <= c <= '\U{200A}') || c == '\U{2028}' || c == '\U{2029}'
    || c == '\U{202F}' || c == '\U{205F}' || c == '\U{3000}'
  }

  /** `text.lstrip()`. */
  function StripLeft(text: string): (r: string)
    ensures |r| <= |text| && r == text[|text| - |r|..]
    ensures forall i :: 0 <= i < |text| - |r| ==> IsSpace(text[i])
    ensures r == "" || !IsSpace(r[0])
  {
    if |text| > 0 && IsSpace(text[0]) then StripLeft(text[1..]) else text
  }

  /** `text.rstrip()`. */
  function StripRight(text: string): (r: string)
    ensures |r| <= |text| && r == text[..|r|]
    ensures forall i :: |r| <= i < |text| ==> IsSpace(text[i])
    ensures r == "" || !IsSpace(r[|r| - 1])
  {
    if |text| > 0 && IsSpace(text[|text| - 1]) then StripRight(text[..|text| - 1]) else text
  }

  /** `r` is `text[a..b]` and only whitespace lies outside that slice. */
  predicate TrimmedTo(text: string, a: int, b: int, r: string) {
    && 0 <= a <= b <= |text| && r == text[a..b]
    && (forall i :: 0 <= i < a ==> IsSpace(text[i]))
    && (forall i :: b <= i < |text| ==> IsSpace(text[i]))
  }

  /** `text.strip()`: neither starts nor ends with whitespace, and keeps only characters of `text`. */
  function Strip(text: string): (r: string)
    ensures r == "" || (!IsSpace(r[0]) && !IsSpace(r[|r| - 1]))
    ensures forall c :: c in r ==> c in text
  {
    var l := StripLeft(text);
    var r := StripRight(l);
    assert r != "" ==> r[0] == l[0] && !IsSpace(l[0]);
    assert forall c :: c in r ==> c in l;
    assert forall c :: c in l ==> c in text;
    r
  }

  /**
    What `strip()` computes: a slice of the text with only whitespace outside
    it; with the ends of the slice not being whitespace, this fixes the slice.
   */
  lemma StripIsTrimmedSlice(text: string)
    ensures exists a, b :: TrimmedTo(text, a, b, Strip(text))
  {
    var l := StripLeft(text);
    var r := StripRight(l);
    var a := |text| - |l|;
    assert r == Strip(text);
    SliceOfSuffix(text, l, r);
    assert TrimmedTo(text, a, a + |r|, r);
  }

  /** The shared steps of the slice proof: a prefix of a suffix is a slice, its tail is the suffix's. */
  lemma SliceOfSuffix(text: string, l: string, r: string)
    requires |l| <= |text| && l == text[|text| - |l|..]
    requires |r| <= |l| && r == l[..|r|]
    requires forall i :: |r| <= i < |l| ==> IsSpace(l[i])
    ensures r == text[|text| - |l|..|text| - |l| + |r|]
    ensures forall i :: |text| - |l| + |r| <= i < |text| ==> IsSpace(text[i])
  {
    var a := |text| - |l|;
    forall i | a + |r| <= i < |text|
      ensures IsSpace(text[i])
    {
      assert text[i] == l[i - a];
    }
  }

  /** The position of the first `c` in `text`. */
  function IndexOf(text: string, c: char): (i: nat)
    requires c in text
    ensures i < |text| && text[i] == c && c !in text[..i]
  {
    if text[0] == c then 0 else 1 + IndexOf(text[1..], c)
  }

  /** `text.split(sep)` for a one-character separator. */
  function Split(text: string, sep: char): (pieces: seq<string>)
    ensures |pieces| >= 1
    ensures forall i :: 0 <= i < |pieces| ==> sep !in pieces[i]
    decreases |text|
  {
    if sep !in text then [text]
    else
      var i := IndexOf(text, sep);
      [text[..i]] + Split(text[i + 1..], sep)
  }

  /** The pieces that are not blank, stripped, in order. */
  function KeepNames(pieces: seq<string>): seq<string> {
    if |pieces| == 0 then []
    else
      var name := Strip(pieces[0]);
      if name != "" then [name] + KeepNames(pieces[1..]) else KeepNames(pieces[1..])
  }

  /** `[fruit.strip() for fruit in text.split(",") if fruit.strip()]`. */
  function ParseFruits(text: string): seq<string> {
    KeepNames(Split(text, ','))
  }

  /** `", ".join(names)`. */
  function JoinFruits(names: seq<string>): string {
    JoinWith(names, ", ")
  }

  /** A name the parser can produce: non-empty, stripped, without a comma. */
  predicate IsCleanName(name: string) {
    name != "" && !IsSpace(name[0]) && !IsSpace(name[|name| - 1]) && ',' !in name
  }

  // ---------------------------------------------------------------------
  // Splitting

  /** Splitting loses nothing: the pieces joined with the separator are the text. */
  lemma {:induction false} SplitJoinsBack(text: string, sep: char)
    ensures JoinWith(Split(text, sep), [sep]) == text
    decreases |text|
  {
    if sep in text {
      var i := IndexOf(text, sep);
      var rest := Split(text[i + 1..], sep);
      SplitJoinsBack(text[i + 1..], sep);
      assert Split(text, sep) == [text[..i]] + rest;
      JoinCons(text[..i], rest, [sep]);
      assert text == text[..i] + [sep] + text[i + 1..];
    }
  }

  lemma JoinCons(first: string, rest: seq<string>, sep: string)
    requires |rest| >= 1
    ensures JoinWith([first] + rest, sep) == first + sep + JoinWith(rest, sep)
  {
    assert ([first] + rest)[1..] == rest;
  }

  lemma SplitAtFirst(head: string, sep: char, tail: string)
    requires sep !in head
    ensures Split(head + [sep] + tail, sep) == [head] + Split(tail, sep)
  {
    var text := head + [sep] + tail;
    var i := IndexOf(text, sep);
    assert text[..|head|] == head;
    assert text[|head|] == sep;
    assert i == |head|;
    assert text[i + 1..] == tail;
  }

  // ---------------------------------------------------------------------
  // What the parser produces

  lemma {:induction false} KeepNamesClean(pieces: seq<string>)
    requires forall i :: 0 <= i < |pieces| ==> ',' !in pieces[i]
    ensures forall i :: 0 <= i < |KeepNames(pieces)| ==> IsCleanName(KeepNames(pieces)[i])
  {
    if |pieces| > 0 {
      KeepNamesClean(pieces[1..]);
      var name := Strip(pieces[0]);
      if name != "" {
        assert ',' !in name by {
          assert ',' !in pieces[0];
        }
        assert IsCleanName(name);
        assert KeepNames(pieces) == [name] + KeepNames(pieces[1..]);
      }
    }
  }

  /** Every parsed name is non-empty, has no surrounding whitespace and no comma. */
  lemma ParsedNamesAreClean(text: string)
    ensures forall i :: 0 <= i < |ParseFruits(text)| ==> IsCleanName(ParseFruits(text)[i])
  {
    KeepNamesClean(Split(text, ','));
  }

  // ---------------------------------------------------------------------
  // Round trip

  lemma {:induction false} StripLeftSkipsSpaces(pad: string, name: string)
    requires forall i :: 0 <= i < |pad| ==> IsSpace(pad[i])
    ensures StripLeft(pad + name) == StripLeft(name)
  {
    if |pad| > 0 {
      var text := pad + name;
      assert text[0] == pad[0] && IsSpace(pad[0]);
      assert text[1..] == pad[1..] + name;
      assert StripLeft(text) == StripLeft(text[1..]);
      StripLeftSkipsSpaces(pad[1..], name);
    } else {
      assert pad + name == name;
    }
  }

  lemma StripOfPaddedClean(pad: string, name: string)
    requires forall i :: 0 <= i < |pad| ==> IsSpace(pad[i])
    requires IsCleanName(name)
    ensures Strip(pad + name) == name
  {
    StripLeftSkipsSpaces(pad, name);
    assert StripLeft(name) == name;
    assert StripRight(name) == name;
  }

  lemma StripOfBlank(pad: string)
    requires forall i :: 0 <= i < |pad| ==> IsSpace(pad[i])
    ensures Strip(pad) == ""
  {
    StripLeftSkipsSpaces(pad, "");
    assert pad + "" == pad;
  }

  lemma KeepNamesCons(piece: string, rest: seq<string>)
    requires Strip(piece) != ""
    ensures KeepNames([piece] + rest) == [Strip(piece)] + KeepNames(rest)
  {
    assert ([piece] + rest)[1..] == rest;
  }

  lemma ParseBlank(pad: string)
    requires forall i :: 0 <= i < |pad| ==> IsSpace(pad[i])
    ensures KeepNames(Split(pad, ',')) == []
  {
    NoCommaInBlank(pad);
    SplitWithoutSep(pad, ',');
    StripOfBlank(pad);
    KeepNamesOfBlank(pad);
  }

  lemma SplitWithoutSep(text: string, sep: char)
    requires sep !in text
    ensures Split(text, sep) == [text]
  {
  }

  lemma NoCommaInBlank(pad: string)
    requires forall i :: 0 <= i < |pad| ==> IsSpace(pad[i])
    ensures ',' !in pad
  {
    assert !IsSpace(',');
  }

  lemma KeepNamesOfBlank(piece: string)
    requires Strip(piece) == ""
    ensures KeepNames([piece]) == []
  {
    assert [piece][1..] == [];
  }

  lemma ParseSingle(pad: string, name: string)
    requires forall i :: 0 <= i < |pad| ==> IsSpace(pad[i])
    requires IsCleanName(name)
    ensures KeepNames(Split(pad + name, ',')) == [name]
  {
    NoCommaInBlank(pad);
    NoSepInConcat(pad, name, ',');
    SplitWithoutSep(pad + name, ',');
    StripOfPaddedClean(pad, name);
    KeepNamesCons(pad + name, []);
    assert [name] + KeepNames([]) == [name];
  }

  lemma NoSepInConcat(a: string, b: string, sep: char)
    requires sep !in a && sep !in b
    ensures sep !in a + b
  {
    assert forall c :: c in a + b ==> c in a || c in b;
  }

  lemma JoinFirstOfMany(pad: string, names: seq<string>)
    requires |names| >= 2
    ensures pad + JoinFruits(names) == (pad + names[0]) + [','] + (" " + JoinFruits(names[1..]))
  {
    assert JoinFruits(names) == names[0] + ", " + JoinFruits(names[1..]);
  }

  lemma ParseFirstOfMany(pad: string, names: seq<string>)
    requires forall i :: 0 <= i < |pad| ==> IsSpace(pad[i])
    requires |names| >= 2 && IsCleanName(names[0])
    ensures KeepNames(Split(pad + JoinFruits(names), ','))
         == [names[0]] + KeepNames(Split(" " + JoinFruits(names[1..]), ','))
  {
    var head := pad + names[0];
    var tail := " " + JoinFruits(names[1..]);
    JoinFirstOfMany(pad, names);
    NoCommaInBlank(pad);
    NoSepInConcat(pad, names[0], ',');
    SplitAtFirst(head, ',', tail);
    StripOfPaddedClean(pad, names[0]);
    KeepNamesCons(head, Split(tail, ','));
  }

  lemma {:induction false} ParseJoinedPadded(pad: string, names: seq<string>)
    requires forall i :: 0 <= i < |pad| ==> IsSpace(pad[i])
    requires forall i :: 0 <= i < |names| ==> IsCleanName(names[i])
    ensures KeepNames(Split(pad + JoinFruits(names), ',')) == names
    decreases |names|
  {
    if |names| == 0 {
      assert pad + JoinFruits(names) == pad;
      ParseBlank(pad);
    } else if |names| == 1 {
      assert JoinFruits(names) == names[0];
      ParseSingle(pad, names[0]);
    } else {
      assert forall i :: 0 <= i < |" "| ==> IsSpace(" "[i]);
      ParseJoinedPadded(" ", names[1..]);
      ParseJoinedStep(pad, names);
    }
  }

  lemma ParseJoinedStep(pad: string, names: seq<string>)
    requires forall i :: 0 <= i < |pad| ==> IsSpace(pad[i])
    requires |names| >= 2 && IsCleanName(names[0])
    requires KeepNames(Split(" " + JoinFruits(names[1..]), ',')) == names[1..]
    ensures KeepNames(Split(pad + JoinFruits(names), ',')) == names
  {
    ParseFirstOfMany(pad, names);
    FirstAndRest(names);
  }

  lemma FirstAndRest(names: seq<string>)
    requires |names| >= 1
    ensures [names[0]] + names[1..] == names
  {
  }

  /** Joining clean names with `", "` and parsing the text gives the names back. */
  lemma ParseJoinRoundTrip(names: seq<string>)
    requires forall i :: 0 <= i < |names| ==> IsCleanName(names[i])
    ensures ParseFruits(JoinFruits(names)) == names
  {
    ParseJoinedPadded("", names);
    assert "" + JoinFruits(names) == JoinFruits(names);
  }

  /** The edit form shows a parsed list joined; parsing what it shows gives the same list. */
  lemma ParseJoinParseIsParse(text: string)
    ensures ParseFruits(JoinFruits(ParseFruits(text))) == ParseFruits(text)
  {
    ParsedNamesAreClean(text);
    ParseJoinRoundTrip(ParseFruits(text));
  }
}
