/** The canonical text of a JSON value is uniquely decodable: a strict parser for the text form of
    RFC 8259 (sections 2 to 7, without blanks) undoes `Print`.  Signatures are digests of this text, so
    everything Delta concludes from equal signatures rests on the theorems here. */
module JsonText {
  import opened Options
  import opened Ordering
  import opened Json

  // ----- a parser -----------------------------------------------------------------------

  function ParseValue(s: string): (r: Option<(Value, string)>)
    ensures r.Some? ==> |r.value.1| < |s|
    decreases |s|, 1
  {
    if s == [] then None
    else if s[0] == 'n' then if "null" <= s then Some((Null, s[4..])) else None
    else if s[0] == 't' then if "true" <= s then Some((Bool(true), s[4..])) else None
    else if s[0] == 'f' then if "false" <= s then Some((Bool(false), s[5..])) else None
    else if s[0] == '\"' then
      (match ParseText(s[1..]) case Some((t, rest)) => Some((Text(t), rest)) case None => None)
    else if s[0] == '[' then
      if |s| > 1 && s[1] == ']' then Some((List([]), s[2..])) else
      (match ParseItems(s[1..]) case Some((items, rest)) => Some((List(items), rest)) case None => None)
    else if s[0] == '{' then
      if |s| > 1 && s[1] == '}' then Some((Object(map[]), s[2..])) else
      (match ParseMembers(s[1..]) case Some((m, rest)) => Some((Object(m), rest)) case None => None)
    else ParseInt(s)
  }

  /** Elements up to and including the closing bracket. */
  function ParseItems(s: string): (r: Option<(seq<Value>, string)>)
    ensures r.Some? ==> |r.value.1| < |s|
    decreases |s|, 2
  {
    match ParseValue(s)
    case None => None
    case Some((v, rest)) =>
      if rest == [] then None
      else if rest[0] == ']' then Some(([v], rest[1..]))
      else if rest[0] != ',' then None
      else match ParseItems(rest[1..])
        case None => None
        case Some((vs, rest')) => Some(([v] + vs, rest'))
  }

  /** Members up to and including the closing brace. */
  function ParseMembers(s: string): (r: Option<(map<string, Value>, string)>)
    ensures r.Some? ==> |r.value.1| < |s|
    decreases |s|, 2
  {
    if s == [] || s[0] != '\"' then None else
    match ParseText(s[1..])
    case None => None
    case Some((k, afterKey)) =>
      if afterKey == [] || afterKey[0] != ':' then None else
      match ParseValue(afterKey[1..])
      case None => None
      case Some((v, rest)) =>
        if rest == [] then None
        else if rest[0] == '}' then Some((map[k := v], rest[1..]))
        else if rest[0] != ',' then None
        else match ParseMembers(rest[1..])
          case None => None
          case Some((m, rest')) => Some((map[k := v] + m, rest'))
  }

  /** Characters up to and including the closing quote. */
  function ParseText(s: string): (r: Option<(string, string)>)
    ensures r.Some? ==> |r.value.1| < |s|
  {
    match ParseChar(s)
    case None => if s != [] && s[0] == '\"' then Some(("", s[1..])) else None
    case Some((c, rest)) =>
      match ParseText(rest)
      case None => None
      case Some((t, rest')) => Some(([c] + t, rest'))
  }

  /** One possibly escaped character; a bare quote or control character is refused. */
  function ParseChar(s: string): (r: Option<(char, string)>)
    ensures r.Some? ==> |r.value.1| < |s|
  {
    if s == [] || s[0] == '\"' || s[0] as int < 32 then None
    else if s[0] != '\\' then Some((s[0], s[1..]))
    else if |s| < 2 then None
    else if s[1] == 'u' then
      if |s| < 6 then None else
      match Hex4(s[2..6])
      case None => None
      case Some(code) => if 0xD800 <= code < 0xE000 then None else Some((code as char, s[6..]))
    else match Unescape(s[1])
      case None => None
      case Some(c) => Some((c, s[2..]))
  }

  function Unescape(c: char): Option<char> {
    if c == '\"' || c == '\\' || c == '/' then Some(c)
    else if c == 'n' then Some('\n')
    else if c == 'r' then Some('\r')
    else if c == 't' then Some('\t')
    else if c == 'b' then Some(8 as char)
    else if c == 'f' then Some(12 as char)
    else None
  }

  function HexValue(c: char): (r: Option<nat>)
    ensures r.Some? ==> r.value < 16
  {
    if '0' <= c <= '9' then Some(c as int - '0' as int)
    else if 'a' <= c <= 'f' then Some(c as int - 'a' as int + 10)
    else if 'A' <= c <= 'F' then Some(c as int - 'A' as int + 10)
    else None
  }

  function Hex4(s: string): (r: Option<nat>)
    requires |s| == 4
    ensures r.Some? ==> r.value < 0x10000
  {
    match (HexValue(s[0]), HexValue(s[1]), HexValue(s[2]), HexValue(s[3]))
    case (Some(a), Some(b), Some(c), Some(d)) => Some(((a * 16 + b) * 16 + c) * 16 + d)
    case _ => None
  }

  function ParseInt(s: string): (r: Option<(Value, string)>)
    ensures r.Some? ==> |r.value.1| < |s|
  {
    if s != [] && s[0] == '-' then
      (match ParseNat(s[1..]) case Some((n, rest)) => Some((Int(0 - n), rest)) case None => None)
    else
      (match ParseNat(s) case Some((n, rest)) => Some((Int(n), rest)) case None => None)
  }

  function ParseNat(s: string): (r: Option<(nat, string)>)
    ensures r.Some? ==> |r.value.1| < |s|
  {
    var n := DigitRun(s);
    if n == 0 || (n > 1 && s[0] == '0') then None else Some((NatOf(s[..n]), s[n..]))
  }

  predicate IsDigit(c: char) { '0' <= c <= '9' }

  /** The length of the longest prefix of digits. */
  function DigitRun(s: string): (n: nat)
    ensures n <= |s| && forall i :: 0 <= i < n ==> IsDigit(s[i])
  {
    if s == [] || !IsDigit(s[0]) then 0 else 1 + DigitRun(s[1..])
  }

  function NatOf(digits: string): nat
    requires forall i :: 0 <= i < |digits| ==> IsDigit(digits[i])
  {
    if digits == [] then 0
    else
      assert IsDigit(digits[|digits| - 1]);
      NatOf(digits[..|digits| - 1]) * 10 + (digits[|digits| - 1] as int - '0' as int)
  }

  // ----- strings ------------------------------------------------------------------------

  lemma ParseEscapedChar(c: char, t: string)
    ensures ParseChar(EscapeChar(c) + t) == Some((c, t))
  {
    var e := EscapeChar(c);
    var s := e + t;
    assert s[|e|..] == t;
    if |e| == 6 {
      var code := c as int;
      assert s[2..6] == e[2..6] == ['0', '0', HexDigit(code / 16), HexDigit(code % 16)];
      assert Hex4(s[2..6]) == Some(code);
    }
  }

  lemma {:induction false} EscapeRoundTrip(s: string, rest: string)
    ensures ParseText(Escape(s) + "\"" + rest) == Some((s, rest))
  {
    hide EscapeChar;
    if s == [] {
      assert Escape(s) + "\"" + rest == "\"" + rest;
      assert ("\"" + rest)[1..] == rest;
    } else {
      var tail := Escape(s[1..]) + "\"" + rest;
      assert Escape(s) + "\"" + rest == EscapeChar(s[0]) + tail;
      ParseEscapedChar(s[0], tail);
      EscapeRoundTrip(s[1..], rest);
      assert s == [s[0]] + s[1..];
    }
  }

  // ----- integers -----------------------------------------------------------------------

  lemma {:induction false} PrintedDigits(n: nat)
    ensures |PrintNat(n)| > 0 && forall i :: 0 <= i < |PrintNat(n)| ==> IsDigit(PrintNat(n)[i])
    ensures NatOf(PrintNat(n)) == n
    ensures |PrintNat(n)| > 1 ==> PrintNat(n)[0] != '0'
    ensures n > 0 ==> PrintNat(n)[0] != '0'
  {
    if n >= 10 {
      PrintedDigits(n / 10);
      var p := PrintNat(n);
      assert p[..|p| - 1] == PrintNat(n / 10);
    }
  }

  ghost predicate NoDigit(rest: string) {
    rest == [] || !IsDigit(rest[0])
  }

  lemma {:induction false} DigitRunStops(digits: string, rest: string)
    requires (forall i :: 0 <= i < |digits| ==> IsDigit(digits[i])) && NoDigit(rest)
    ensures DigitRun(digits + rest) == |digits|
  {
    if digits == [] {
      assert digits + rest == rest;
    } else {
      assert (digits + rest)[1..] == digits[1..] + rest;
      DigitRunStops(digits[1..], rest);
    }
  }

  lemma NatRoundTrip(n: nat, rest: string)
    requires NoDigit(rest)
    ensures ParseNat(PrintNat(n) + rest) == Some((n, rest))
  {
    PrintedDigits(n);
    DigitRunStops(PrintNat(n), rest);
    var s := PrintNat(n) + rest;
    assert s[..|PrintNat(n)|] == PrintNat(n) && s[|PrintNat(n)|..] == rest;
  }

  lemma SignedStart(n: int)
    ensures PrintInt(n) != [] && (PrintInt(n)[0] == '-' || IsDigit(PrintInt(n)[0]))
  {
    if n >= 0 { PrintedDigits(n); }
  }

  lemma NegativeRoundTrip(s: string, n: nat, rest: string)
    requires ParseNat(s) == Some((n, rest))
    ensures ParseInt("-" + s) == Some((Int(0 - n), rest))
  {
    assert ("-" + s)[1..] == s;
  }

  lemma NonNegativeRoundTrip(s: string, n: nat, rest: string)
    requires s != [] && IsDigit(s[0]) && ParseNat(s) == Some((n, rest))
    ensures ParseInt(s) == Some((Int(n), rest))
  {
  }

  lemma SignedRoundTrip(n: int, rest: string)
    requires NoDigit(rest)
    ensures ParseInt(PrintInt(n) + rest) == Some((Int(n), rest))
  {
    hide ParseInt, ParseNat, PrintNat, NatOf, NoDigit;
    if n < 0 {
      NatRoundTrip(-n, rest);
      NegativeRoundTrip(PrintNat(-n) + rest, -n, rest);
      assert PrintInt(n) + rest == "-" + (PrintNat(-n) + rest);
    } else {
      PrintedDigits(n);
      NatRoundTrip(n, rest);
      NonNegativeRoundTrip(PrintNat(n) + rest, n, rest);
    }
  }

  // ----- values -------------------------------------------------------------------------
  // The first character decides which branch the parser takes.

  lemma DispatchInt(s: string)
    requires s != [] && (s[0] == '-' || IsDigit(s[0]))
    ensures ParseValue(s) == ParseInt(s)
  {
  }

  lemma DispatchText(t: string, after: string, rest: string)
    requires ParseText(after) == Some((t, rest))
    ensures ParseValue("\"" + after) == Some((Text(t), rest))
  {
    assert ("\"" + after)[1..] == after;
  }

  lemma DispatchItems(items: seq<Value>, after: string, rest: string)
    requires after != [] && after[0] != ']' && ParseItems(after) == Some((items, rest))
    ensures ParseValue("[" + after) == Some((List(items), rest))
  {
    assert ("[" + after)[1..] == after;
  }

  lemma DispatchMembers(m: map<string, Value>, after: string, rest: string)
    requires after != [] && after[0] != '}' && ParseMembers(after) == Some((m, rest))
    ensures ParseValue("{" + after) == Some((Object(m), rest))
  {
    assert ("{" + after)[1..] == after;
  }

  lemma ConstantRoundTrip(v: Value, rest: string)
    requires v.Null? || v.Bool? || v == List([]) || v == Object(map[])
    ensures ParseValue(Print(v) + rest) == Some((v, rest))
  {
    var s := Print(v) + rest;
    assert s[|Print(v)|..] == rest && Print(v) <= s;
  }

  lemma IntRoundTrip(v: Value, rest: string)
    requires v.Int? && NoDigit(rest)
    ensures ParseValue(Print(v) + rest) == Some((v, rest))
  {
    SignedRoundTrip(v.n, rest);
    SignedStart(v.n);
    DispatchInt(PrintInt(v.n) + rest);
  }

  lemma TextRoundTrip(v: Value, rest: string)
    requires v.Text?
    ensures ParseValue(Print(v) + rest) == Some((v, rest))
  {
    EscapeRoundTrip(v.s, rest);
    DispatchText(v.s, Escape(v.s) + "\"" + rest, rest);
    assert Print(v) + rest == "\"" + (Escape(v.s) + "\"" + rest);
  }

  /** One element: the parser reads the value, then decides on the character after it. */
  lemma StepItems(v: Value, s: string, end: string)
    requires ParseValue(s) == Some((v, end)) && end != []
    ensures end[0] == ']' ==> ParseItems(s) == Some(([v], end[1..]))
    ensures end[0] == ',' && ParseItems(end[1..]).Some? ==>
      ParseItems(s) == Some(([v] + ParseItems(end[1..]).value.0, ParseItems(end[1..]).value.1))
  {
  }

  /** One member: a quoted key, a colon, the value, then the character after it. */
  lemma StepMembers(k: string, v: Value, s: string, afterKey: string, end: string)
    requires s != [] && s[0] == '\"' && ParseText(s[1..]) == Some((k, afterKey))
    requires afterKey != [] && afterKey[0] == ':' && ParseValue(afterKey[1..]) == Some((v, end)) && end != []
    ensures end[0] == '}' ==> ParseMembers(s) == Some((map[k := v], end[1..]))
    ensures end[0] == ',' && ParseMembers(end[1..]).Some? ==>
      ParseMembers(s) == Some((map[k := v] + ParseMembers(end[1..]).value.0, ParseMembers(end[1..]).value.1))
  {
  }

  lemma PrintStarts(v: Value)
    ensures |Print(v)| > 0 && Print(v)[0] != ']'
  {
    if v.Int? { SignedStart(v.n); }
  }

  lemma {:induction false} RoundTripRest(v: Value, rest: string)
    requires NoDigit(rest)
    ensures ParseValue(Print(v) + rest) == Some((v, rest))
    decreases v, 1
  {
    match v
    case Int(n) => IntRoundTrip(v, rest);
    case Text(t) => TextRoundTrip(v, rest);
    case List(items) => if items == [] { ConstantRoundTrip(v, rest); } else { RoundTripList(v, rest); }
    case Object(members) => if members == map[] { ConstantRoundTrip(v, rest); } else { RoundTripObject(v, rest); }
    case _ => ConstantRoundTrip(v, rest);
  }

  lemma {:induction false} RoundTripList(v: Value, rest: string)
    requires v.List? && v.items != []
    ensures ParseValue(Print(v) + rest) == Some((v, rest))
    decreases v, 0
  {
    hide ParseValue, ParseItems, Print, PrintItems;
    RoundTripItems(v.items, rest);
    ListText(v, rest);
    DispatchItems(v.items, PrintItems(v.items) + "]" + rest, rest);
  }

  lemma ListText(v: Value, rest: string)
    requires v.List? && v.items != []
    ensures Print(v) + rest == "[" + (PrintItems(v.items) + "]" + rest)
    ensures PrintItems(v.items) != [] && (PrintItems(v.items) + "]" + rest)[0] != ']'
  {
    PrintStarts(v.items[0]);
  }

  lemma {:induction false} RoundTripItems(items: seq<Value>, rest: string)
    requires items != []
    ensures ParseItems(PrintItems(items) + "]" + rest) == Some((items, rest))
    decreases items, 0
  {
    var v := items[0];
    assert items == [v] + items[1..];
    if |items| == 1 {
      var end := "]" + rest;
      assert PrintItems(items) + "]" + rest == Print(v) + end;
      RoundTripRest(v, end);
      StepItems(v, Print(v) + end, end);
      assert end[1..] == rest && items == [v];
    } else {
      var tail := PrintItems(items[1..]) + "]" + rest;
      var end := "," + tail;
      assert PrintItems(items) + "]" + rest == Print(v) + end;
      RoundTripRest(v, end);
      RoundTripItems(items[1..], rest);
      StepItems(v, Print(v) + end, end);
      assert end[1..] == tail;
    }
  }

  lemma {:induction false} RoundTripObject(v: Value, rest: string)
    requires v.Object? && v.members != map[]
    ensures ParseValue(Print(v) + rest) == Some((v, rest))
    decreases v, 0
  {
    var keys := SortedKeys(v.members.Keys);
    var after := PrintMembers(v, keys) + "}" + rest;
    KeysCover(v.members);
    RoundTripMembers(v, keys, rest);
    DispatchMembers(v.members, after, rest);
    ObjectText(v, rest);
  }

  lemma ObjectText(v: Value, rest: string)
    requires v.Object?
    ensures Print(v) + rest == "{" + (PrintMembers(v, SortedKeys(v.members.Keys)) + "}" + rest)
  {
  }

  /** The sorted keys are all the keys. */
  lemma KeysCover(m: map<string, Value>)
    ensures m == map k | k in SortedKeys(m.Keys) :: m[k]
    ensures m != map[] ==> SortedKeys(m.Keys) != []
  {
    var keys := SortedKeys(m.Keys);
    assert m == map k | k in keys :: m[k];
    if keys == [] {
      assert m == map[];
    }
  }

  lemma {:induction false} RoundTripMembers(v: Value, keys: seq<string>, rest: string)
    requires v.Object? && keys != [] && forall k :: k in keys ==> k in v.members
    requires forall i, j :: 0 <= i < j < |keys| ==> keys[i] != keys[j]
    ensures ParseMembers(PrintMembers(v, keys) + "}" + rest) == Some((map k | k in keys :: v.members[k], rest))
    decreases v, 0, |keys|
  {
    var k, w := keys[0], v.members[keys[0]];
    JoinMembers(v.members, keys);
    MembersText(v, keys, rest);
    if |keys| == 1 {
      OneMember(k, w, "}" + rest);
      assert ("}" + rest)[1..] == rest;
    } else {
      var tail := PrintMembers(v, keys[1..]) + "}" + rest;
      RoundTripMembers(v, keys[1..], rest);
      OneMember(k, w, "," + tail);
      assert ("," + tail)[1..] == tail;
    }
  }

  lemma MembersText(v: Value, keys: seq<string>, rest: string)
    requires v.Object? && keys != [] && forall k :: k in keys ==> k in v.members
    ensures PrintMembers(v, keys) + "}" + rest == MemberText(keys[0], v.members[keys[0]],
      if |keys| == 1 then "}" + rest else "," + (PrintMembers(v, keys[1..]) + "}" + rest))
  {
    if |keys| == 1 {
      FlattenLast(Quote(keys[0]), Print(v.members[keys[0]]), rest);
    } else {
      FlattenMore(Quote(keys[0]), Print(v.members[keys[0]]), PrintMembers(v, keys[1..]), rest);
    }
  }

  lemma FlattenLast(key: string, value: string, rest: string)
    ensures key + ":" + value + "}" + rest == key + (":" + (value + ("}" + rest)))
  {
  }

  lemma FlattenMore(key: string, value: string, more: string, rest: string)
    ensures key + ":" + value + "," + more + "}" + rest == key + (":" + (value + ("," + (more + "}" + rest))))
  {
  }

  /** The keys printed first and the keys printed later make up all the keys. */
  lemma JoinMembers(m: map<string, Value>, keys: seq<string>)
    requires keys != [] && forall k :: k in keys ==> k in m
    ensures (map k | k in keys :: m[k]) == map[keys[0] := m[keys[0]]] + (map k | k in keys[1..] :: m[k])
    ensures |keys| == 1 ==> (map k | k in keys :: m[k]) == map[keys[0] := m[keys[0]]]
  {
    assert keys == [keys[0]] + keys[1..];
  }

  lemma {:induction false} OneMember(k: string, w: Value, end: string)
    requires NoDigit(end) && end != []
    ensures end[0] == '}' ==> ParseMembers(MemberText(k, w, end)) == Some((map[k := w], end[1..]))
    ensures end[0] == ',' && ParseMembers(end[1..]).Some? ==>
      ParseMembers(MemberText(k, w, end)) ==
        Some((map[k := w] + ParseMembers(end[1..]).value.0, ParseMembers(end[1..]).value.1))
    decreases w, 2
  {
    MemberRoundTrip(k, w, end);
    RoundTripRest(w, end);
    StepMembers(k, w, MemberText(k, w, end), ":" + (Print(w) + end), end);
  }

  function MemberText(k: string, w: Value, end: string): string {
    Quote(k) + (":" + (Print(w) + end))
  }

  lemma MemberRoundTrip(k: string, w: Value, end: string)
    ensures var s := MemberText(k, w, end);
      s[0] == '\"' && ParseText(s[1..]) == Some((k, ":" + (Print(w) + end)))
    ensures (":" + (Print(w) + end))[1..] == Print(w) + end
  {
    var afterKey := ":" + (Print(w) + end);
    assert MemberText(k, w, end)[1..] == Escape(k) + "\"" + afterKey;
    EscapeRoundTrip(k, afterKey);
  }

  // ----- main results -------------------------------------------------------------------

  function Parse(s: string): Option<Value> {
    match ParseValue(s)
    case Some((v, rest)) => if rest == [] then Some(v) else None
    case None => None
  }

  /** Parsing undoes printing. */
  lemma ParseInvertsPrint(v: Value)
    ensures Parse(Print(v)) == Some(v)
  {
    RoundTripRest(v, []);
    assert Print(v) + [] == Print(v);
  }

  /** A character is copied unless it is a quote, a backslash or a control character; an escape is the short one where
      there is one, else four hexadecimal digits in lower case. */
  lemma EscapesOnlyWhatMust(c: char)
    ensures var e, code := EscapeChar(c), c as int;
      if c == '\"' || c == '\\' || code in {8, 9, 10, 12, 13} then |e| == 2
      else if code < 32 then |e| == 6 && forall k :: 0 <= k < 6 ==> !('A' <= e[k] <= 'Z')
      else e == [c]
  {
  }

  /** Two Python values have the same canonical text exactly when they normalize to the same JSON value
      (objects compared without regard to key order) -- or are both rejected. */
  lemma CanonicalTextIdentifiesValue(a: Raw, b: Raw)
    ensures CanonicalJson(a) == CanonicalJson(b) <==> Normalize(a) == Normalize(b)
  {
    match (Normalize(a), Normalize(b))
    case (Some(v), Some(w)) =>
      ParseInvertsPrint(v);
      ParseInvertsPrint(w);
    case _ =>
  }

  lemma PrintInjective(v: Value, w: Value)
    requires Print(v) == Print(w)
    ensures v == w
  {
    ParseInvertsPrint(v);
    ParseInvertsPrint(w);
  }

  // ----- normalize_json leaves JSON alone -----------------------------------------------

  /** A JSON value seen as the Python value it is. */
  function Embed(v: Value): Raw
    decreases v, 0
  {
    match v
    case Null => RawNull
    case Bool(b) => RawBool(b)
    case Int(n) => RawInt(n)
    case Text(s) => RawText(s)
    case List(items) => RawList(EmbedItems(items))
    case Object(members) => RawDict(EmbedMembers(v, SortedKeys(members.Keys)))
  }

  function EmbedItems(items: seq<Value>): seq<Raw>
    decreases items, 0
  {
    if items == [] then [] else [Embed(items[0])] + EmbedItems(items[1..])
  }

  function EmbedMembers(v: Value, keys: seq<string>): seq<Entry>
    requires v.Object? && forall k :: k in keys ==> k in v.members
    decreases v, 0, |keys|
  {
    if keys == [] then []
    else [Entry(TextKey(keys[0]), Embed(v.members[keys[0]]))] + EmbedMembers(v, keys[1..])
  }

  /** Normalizing twice is normalizing once: the guards of the record types re-normalize stored values. */
  lemma {:induction false} NormalizeIsIdempotent(v: Value)
    ensures Normalize(Embed(v)) == Some(v)
    decreases v, 1
  {
    match v
    case List(items) =>
      NormalizeEmbeddedItems(items);
    case Object(members) =>
      NormalizeEmbeddedObject(v);
    case _ =>
  }

  lemma {:induction false} NormalizeEmbeddedObject(v: Value)
    requires v.Object?
    ensures Normalize(Embed(v)) == Some(v)
    decreases v, 0
  {
    var keys := SortedKeys(v.members.Keys);
    NormalizeEmbeddedMembers(v, keys);
    KeysCover(v.members);
    NormalizeDict(EmbedMembers(v, keys), v.members);
  }

  lemma NormalizeDict(entries: seq<Entry>, m: map<string, Value>)
    requires NormalizeEntries(entries) == Some(m)
    ensures Normalize(RawDict(entries)) == Some(Object(m))
  {
  }

  lemma {:induction false} NormalizeEmbeddedItems(items: seq<Value>)
    ensures NormalizeItems(EmbedItems(items)) == Some(items)
    decreases items, 0
  {
    if items != [] {
      NormalizeIsIdempotent(items[0]);
      NormalizeEmbeddedItems(items[1..]);
      assert EmbedItems(items)[1..] == EmbedItems(items[1..]);
      assert items == [items[0]] + items[1..];
    }
  }

  lemma {:induction false} NormalizeEmbeddedMembers(v: Value, keys: seq<string>)
    requires v.Object? && forall k :: k in keys ==> k in v.members
    requires forall i, j :: 0 <= i < j < |keys| ==> keys[i] != keys[j]
    ensures NormalizeEntries(EmbedMembers(v, keys)) == Some(map k | k in keys :: v.members[k])
    decreases v, 0, |keys|
  {
    if keys != [] {
      NormalizeIsIdempotent(v.members[keys[0]]);
      NormalizeEmbeddedMembers(v, keys[1..]);
      assert EmbedMembers(v, keys)[1..] == EmbedMembers(v, keys[1..]);
      JoinMembers(v.members, keys);
    }
  }
}
