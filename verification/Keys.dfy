/** Device-name normalisation and the `DEVICE#Source` text form of a key, over ASCII text. */
module Keys {
  import opened Types

  predicate IsSpace(c: char) {
    c == ' ' || '\t' <= c <= '\r'
  }

  function UpperChar(c: char): char {
    if 'a' <= c <= 'z' then (c as int - 32) as char else c
  }

  function Upper(s: string): (r: string)
    ensures |r| == |s|
    ensures forall i :: 0 <= i < |s| ==> r[i] == UpperChar(s[i])
  {
    seq(|s|, i requires 0 <= i < |s| => UpperChar(s[i]))
  }

  function TrimStart(s: string): string {
    if s != "" && IsSpace(s[0]) then TrimStart(s[1..]) else s
  }

  function TrimEnd(s: string): string {
    if s != "" && IsSpace(s[|s| - 1]) then TrimEnd(s[..|s| - 1]) else s
  }

  function Trim(s: string): string {
    TrimEnd(TrimStart(s))
  }

  /** The normal form of a device name: trimmed and uppercased. */
  function Normalize(s: string): string {
    Upper(Trim(s))
  }

  function KeyOf(status: Status): Key {
    Key(Normalize(status.device), status.source)
  }

  predicate Normal(k: Key) {
    Normalize(k.device) == k.device
  }

  /** Splits at the first `#`. */
  function SplitOnce(s: string): (r: Option<(string, string)>)
    ensures r.Some? ==> s == r.value.0 + "#" + r.value.1 && '#' !in r.value.0
    ensures r.None? ==> '#' !in s
  {
    if s == "" then None
    else if s[0] == '#' then Some(("", s[1..]))
    else
      match SplitOnce(s[1..])
      case None => None
      case Some((before, after)) => Some(([s[0]] + before, after))
  }

  function ParseSource(s: string): Option<Source> {
    var text := Normalize(s);
    if text == "ANALOG" then Some(Analog)
    else if text == "DIGITAL" then Some(Digital)
    else if text == "EPICS" then Some(Epics)
    else None
  }

  function Parse(s: string): Option<Key> {
    match SplitOnce(s)
    case None => None
    case Some((before, after)) =>
      match ParseSource(after)
      case None => None
      case Some(source) =>
        var device := Normalize(before);
        if device == "" then None else Some(Key(device, source))
  }

  function SourceName(source: Source): string {
    match source
    case UnknownSource => "Unknown"
    case Analog => "Analog"
    case Digital => "Digital"
    case Epics => "Epics"
  }

  function Print(k: Key): string {
    k.device + "#" + SourceName(k.source)
  }

  /** The printed form, source by source. */
  lemma PrintedForms(device: string)
    ensures Print(Key(device, Analog)) == device + "#Analog" && Print(Key(device, Digital)) == device + "#Digital"
    ensures Print(Key(device, Epics)) == device + "#Epics" && Print(Key(device, UnknownSource)) == device + "#Unknown"
  {
    assert "#" + "Analog" == "#Analog" && "#" + "Digital" == "#Digital";
    assert "#" + "Epics" == "#Epics" && "#" + "Unknown" == "#Unknown";
  }

  /** The keys whose printed form reads back. */
  predicate Canonical(k: Key) {
    Normal(k) && k.device != "" && '#' !in k.device && k.source != UnknownSource
  }

  predicate Tight(s: string) {
    s == "" || (!IsSpace(s[0]) && !IsSpace(s[|s| - 1]))
  }

  lemma {:induction false} TrimStartKeepsLast(s: string)
    ensures var r := TrimStart(s);
            |r| <= |s| && s[|s| - |r|..] == r && (r == "" || !IsSpace(r[0]))
  {
    if s != "" && IsSpace(s[0]) {
      TrimStartKeepsLast(s[1..]);
    }
  }

  lemma {:induction false} TrimEndKeepsFirst(s: string)
    ensures var r := TrimEnd(s);
            |r| <= |s| && s[..|r|] == r && (r == "" || !IsSpace(r[|r| - 1]))
  {
    if s != "" && IsSpace(s[|s| - 1]) {
      TrimEndKeepsFirst(s[..|s| - 1]);
    }
  }

  lemma TrimIsTight(s: string)
    ensures Tight(Trim(s))
    ensures forall c :: c in Trim(s) ==> c in s
  {
    TrimStartKeepsLast(s);
    TrimEndKeepsFirst(TrimStart(s));
  }

  const BLANKS := {' ', '\t', '\n', '\U{000B}', '\U{000C}', '\r'}

  /** `s` is `inner` between stretches of white space, and `inner` neither begins nor ends with any. */
  ghost predicate Surrounds(s: string, lead: string, inner: string, trail: string) {
    && s == lead + inner + trail
    && (forall c :: c in lead || c in trail ==> c in BLANKS)
    && (inner != "" ==> inner[0] !in BLANKS && inner[|inner| - 1] !in BLANKS)
  }

  lemma SpacesAreBlanks(c: char)
    ensures IsSpace(c) <==> c in BLANKS
  {
    assert '\t' as int == 9 && '\r' as int == 13;
    if 9 <= c as int <= 13 {
      assert c == '\t' || c == '\n' || c == '\U{000B}' || c == '\U{000C}' || c == '\r';
    }
  }

  lemma {:induction false} TrimStartLead(s: string) returns (lead: string)
    ensures s == lead + TrimStart(s) && forall c :: c in lead ==> c in BLANKS
  {
    lead := "";
    if s != "" && IsSpace(s[0]) {
      SpacesAreBlanks(s[0]);
      var rest := TrimStartLead(s[1..]);
      lead := [s[0]] + rest;
    }
  }

  lemma {:induction false} TrimEndTrail(s: string) returns (trail: string)
    ensures s == TrimEnd(s) + trail && forall c :: c in trail ==> c in BLANKS
  {
    trail := "";
    if s != "" && IsSpace(s[|s| - 1]) {
      SpacesAreBlanks(s[|s| - 1]);
      var rest := TrimEndTrail(s[..|s| - 1]);
      trail := rest + [s[|s| - 1]];
    }
  }

  /** Trimming takes off exactly the white space at both ends. */
  lemma TrimSurrounds(s: string) returns (lead: string, trail: string)
    ensures Surrounds(s, lead, Trim(s), trail)
  {
    lead := TrimStartLead(s);
    trail := TrimEndTrail(TrimStart(s));
    TrimIsTight(s);
    var inner := Trim(s);
    if inner != "" {
      SpacesAreBlanks(inner[0]);
      SpacesAreBlanks(inner[|inner| - 1]);
    }
  }

  lemma {:induction false} TrimStartDrops(lead: string, rest: string)
    requires forall c :: c in lead ==> c in BLANKS
    requires rest != "" ==> rest[0] !in BLANKS
    ensures TrimStart(lead + rest) == rest
  {
    if lead == "" {
      assert lead + rest == rest;
      if rest != "" {
        SpacesAreBlanks(rest[0]);
      }
    } else {
      SpacesAreBlanks(lead[0]);
      assert (lead + rest)[1..] == lead[1..] + rest;
      TrimStartDrops(lead[1..], rest);
    }
  }

  lemma {:induction false} TrimEndDrops(rest: string, trail: string)
    requires forall c :: c in trail ==> c in BLANKS
    requires rest != "" ==> rest[|rest| - 1] !in BLANKS
    ensures TrimEnd(rest + trail) == rest
  {
    if trail == "" {
      assert rest + trail == rest;
      if rest != "" {
        SpacesAreBlanks(rest[|rest| - 1]);
      }
    } else {
      SpacesAreBlanks(trail[|trail| - 1]);
      assert (rest + trail)[..|rest + trail| - 1] == rest + trail[..|trail| - 1];
      TrimEndDrops(rest, trail[..|trail| - 1]);
    }
  }

  /** And whatever text is surrounded by white space is what trimming leaves. */
  lemma SurroundedIsTrimmed(s: string, lead: string, inner: string, trail: string)
    requires Surrounds(s, lead, inner, trail)
    ensures Trim(s) == inner
  {
    if inner == "" {
      assert s == (lead + trail) + "";
      TrimStartDrops(lead + trail, "");
    } else {
      assert s == lead + (inner + trail);
      assert (inner + trail)[0] == inner[0];
      TrimStartDrops(lead, inner + trail);
      TrimEndDrops(inner, trail);
    }
  }

  const LOWER := "abcdefghijklmnopqrstuvwxyz"
  const UPPER := "ABCDEFGHIJKLMNOPQRSTUVWXYZ"

  /** `b` is the uppercase form of `a`. */
  predicate Uppercases(a: char, b: char) {
    if a in LOWER then exists i :: 0 <= i < 26 && LOWER[i] == a && UPPER[i] == b else b == a
  }

  lemma LowerAt(i: nat)
    requires i < 26
    ensures LOWER[i] as int == 97 + i && UPPER[i] as int == 65 + i
  {}

  lemma UpperCharIs(a: char)
    ensures Uppercases(a, UpperChar(a))
  {
    if 'a' <= a <= 'z' {
      var i := a as int - 97;
      LowerAt(i);
      assert LOWER[i] == a && UPPER[i] == UpperChar(a);
    } else if a in LOWER {
      var i :| 0 <= i < 26 && LOWER[i] == a;
      LowerAt(i);
      assert false;
    }
  }

  /** The key of a status: its own source, and its device name without the white space around it and in
      upper case. */
  lemma KeyOfSpec(status: Status) returns (lead: string, inner: string, trail: string)
    ensures Surrounds(status.device, lead, inner, trail)
    ensures KeyOf(status).source == status.source && |KeyOf(status).device| == |inner|
    ensures forall i :: 0 <= i < |inner| ==> Uppercases(inner[i], KeyOf(status).device[i])
  {
    inner := Trim(status.device);
    lead, trail := TrimSurrounds(status.device);
    forall i | 0 <= i < |inner|
      ensures Uppercases(inner[i], KeyOf(status).device[i])
    {
      UpperCharIs(inner[i]);
    }
  }

  lemma TightIsTrimmed(s: string)
    requires Tight(s)
    ensures Trim(s) == s
  {}

  lemma {:induction false} TrimKeepsVisible(s: string, c: char)
    requires c in s && !IsSpace(c)
    ensures c in Trim(s)
  {
    TrimStartKeepsVisible(s, c);
    TrimEndKeepsVisible(TrimStart(s), c);
  }

  lemma {:induction false} TrimStartKeepsVisible(s: string, c: char)
    requires c in s && !IsSpace(c)
    ensures c in TrimStart(s)
  {
    if IsSpace(s[0]) {
      TrimStartKeepsVisible(s[1..], c);
    }
  }

  lemma {:induction false} TrimEndKeepsVisible(s: string, c: char)
    requires c in s && !IsSpace(c)
    ensures c in TrimEnd(s)
  {
    if IsSpace(s[|s| - 1]) {
      TrimEndKeepsVisible(s[..|s| - 1], c);
    }
  }

  /** Normalising twice is normalising once. */
  lemma NormalizeIdempotent(s: string)
    ensures Normalize(Normalize(s)) == Normalize(s)
  {
    var t := Trim(s);
    TrimIsTight(s);
    TightIsTrimmed(Upper(t));
  }

  lemma KeyOfIsNormal(status: Status)
    ensures Normal(KeyOf(status))
  {
    NormalizeIdempotent(status.device);
  }

  /** Normalisation neither creates nor removes the delimiter. */
  lemma NormalizeKeepsHash(s: string)
    ensures '#' in Normalize(s) <==> '#' in s
  {
    TrimIsTight(s);
    if '#' in s {
      TrimKeepsVisible(s, '#');
      var i :| 0 <= i < |Trim(s)| && Trim(s)[i] == '#';
      assert Normalize(s)[i] == '#';
    }
    if '#' in Normalize(s) {
      var i :| 0 <= i < |Normalize(s)| && Normalize(s)[i] == '#';
      assert Trim(s)[i] == '#';
    }
  }

  lemma {:induction false} SplitAtFirstHash(before: string, after: string)
    requires '#' !in before
    ensures SplitOnce(before + "#" + after) == Some((before, after))
  {
    var s := before + "#" + after;
    if before == "" {
      assert s[1..] == after;
    } else {
      assert s[1..] == before[1..] + "#" + after;
      assert s[0] == before[0] && before[0] in before;
      SplitAtFirstHash(before[1..], after);
      assert [before[0]] + before[1..] == before;
    }
  }

  lemma SourceNameParses(source: Source)
    ensures ParseSource(SourceName(source)) == if source == UnknownSource then None else Some(source)
  {
    var name := SourceName(source);
    TightIsTrimmed(name);
    match source
    case UnknownSource => assert Upper(name) == "UNKNOWN";
    case Analog => assert Upper(name) == "ANALOG";
    case Digital => assert Upper(name) == "DIGITAL";
    case Epics => assert Upper(name) == "EPICS";
  }

  function SourceText(source: Source): string {
    match source
    case Analog => "ANALOG"
    case Digital => "DIGITAL"
    case Epics => "EPICS"
    case UnknownSource => ""
  }

  /** Exactly which texts parse, and to what: the part before the first `#`, normalized, must not be
      empty and is the device; the part after it, normalized, must be one of three names. */
  lemma ParseIff(before: string, after: string, k: Key)
    requires '#' !in before
    ensures Parse(before + "#" + after) == Some(k) <==>
            && k.source != UnknownSource && Normalize(after) == SourceText(k.source)
            && k.device == Normalize(before) && k.device != ""
  {
    SplitAtFirstHash(before, after);
  }

  /** Text without a `#` is no key. */
  lemma ParsedHasHash(s: string)
    requires Parse(s).Some?
    ensures '#' in s
  {
    var (before, after) := SplitOnce(s).value;
    assert s[|before|] == '#';
  }

  /** Every parsed key is canonical. */
  lemma ParsedIsCanonical(s: string)
    requires Parse(s).Some?
    ensures Canonical(Parse(s).value)
  {
    var (before, after) := SplitOnce(s).value;
    NormalizeIdempotent(before);
    NormalizeKeepsHash(before);
  }

  /** A normal key prints to text that reads back as that key, or as no key at all; the former
      exactly for the canonical keys. */
  lemma PrintParse(k: Key)
    requires Normal(k)
    ensures Parse(Print(k)) == if Canonical(k) then Some(k) else None
  {
    SourceNameParses(k.source);
    if '#' !in k.device {
      SplitAtFirstHash(k.device, SourceName(k.source));
    } else {
      var (a, b) := SplitOnce(k.device).value;
      var rest := b + "#" + SourceName(k.source);
      assert Print(k) == a + "#" + rest;
      SplitAtFirstHash(a, rest);
      assert rest[|b|] == '#';
      NormalizeKeepsHash(rest);
      assert '#' !in "ANALOG" && '#' !in "DIGITAL" && '#' !in "EPICS";
    }
  }

  /** Parsing, printing and parsing again returns the same key. */
  lemma ParsePrintParse(s: string)
    requires Parse(s).Some?
    ensures Parse(Print(Parse(s).value)) == Parse(s)
  {
    ParsedIsCanonical(s);
    PrintParse(Parse(s).value);
  }

  /** For any key whatever, normal or not: the printed form reads back as the key exactly when the
      key is canonical. */
  lemma RoundTripIffCanonical(k: Key)
    ensures Parse(Print(k)) == Some(k) <==> Canonical(k)
  {
    if Parse(Print(k)) == Some(k) {
      ParsedIsCanonical(Print(k));
    }
    if Canonical(k) {
      PrintParse(k);
    }
  }

  /** Distinct keys obtained by parsing never share a printed form. */
  lemma ParsedPrintInjective(s: string, t: string)
    requires Parse(s).Some? && Parse(t).Some?
    ensures Print(Parse(s).value) == Print(Parse(t).value) <==> Parse(s) == Parse(t)
  {
    ParsePrintParse(s);
    ParsePrintParse(t);
  }
}
