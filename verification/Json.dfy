/** JSON values, `normalize_json`, and the canonical text that Delta hashes.

    `Raw` is what a caller hands in: Python values, dates and opaque objects included.
    `Value` is what survives normalization. A Python dict compares without regard to key order, so an
    object is a `map`; the canonical text sorts its keys.  Floats are not part of this model. */
module Json {
  import opened Options
  import opened Ordering

  datatype Value =
    | Null
    | Bool(b: bool)
    | Int(n: int)
    | Text(s: string)
    | List(items: seq<Value>)
    | Object(members: map<string, Value>)

  datatype DictKey = TextKey(name: string) | OtherKey

  datatype Raw =
    | RawNull
    | RawBool(b: bool)
    | RawInt(n: int)
    | RawText(s: string)
    | RawDate(iso: string)
    | RawOpaque
    | RawList(items: seq<Raw>)
    | RawDict(entries: seq<Entry>)

  datatype Entry = Entry(key: DictKey, value: Raw)

  // ----- normalize_json ---------------------------------------------------------------

  function Normalize(raw: Raw): Option<Value>
    decreases raw, 0
  {
    match raw
    case RawNull => Some(Null)
    case RawBool(b) => Some(Bool(b))
    case RawInt(n) => Some(Int(n))
    case RawText(s) => Some(Text(s))
    case RawDate(iso) => Some(Text(iso))
    case RawOpaque => None
    case RawList(items) => (match NormalizeItems(items) case Some(vs) => Some(List(vs)) case None => None)
    case RawDict(entries) => (match NormalizeEntries(entries) case Some(m) => Some(Object(m)) case None => None)
  }

  function NormalizeItems(items: seq<Raw>): Option<seq<Value>>
    decreases items, 0
  {
    if items == [] then Some([]) else
    match (Normalize(items[0]), NormalizeItems(items[1..]))
    case (Some(v), Some(vs)) => Some([v] + vs)
    case _ => None
  }

  /** The entries of a dict in insertion order; a later entry under the same key would win. */
  function NormalizeEntries(entries: seq<Entry>): Option<map<string, Value>>
    decreases entries, 0
  {
    if entries == [] then Some(map[]) else
    match (entries[0].key, NormalizeEntry(entries[0]), NormalizeEntries(entries[1..]))
    case (TextKey(k), Some(v), Some(rest)) => Some(map[k := v] + rest)
    case _ => None
  }

  function NormalizeEntry(entry: Entry): Option<Value>
    decreases entry, 0
  {
    Normalize(entry.value)
  }

  // ----- canonical_json ---------------------------------------------------------------

  /** The separators are `,` and `:` with no blanks, keys are sorted, non-ASCII is kept. */
  function Print(v: Value): string
    decreases v, 0
  {
    match v
    case Null => "null"
    case Bool(b) => if b then "true" else "false"
    case Int(n) => PrintInt(n)
    case Text(s) => Quote(s)
    case List(items) => "[" + PrintItems(items) + "]"
    case Object(members) => "{" + PrintMembers(v, SortedKeys(members.Keys)) + "}"
  }

  function PrintItems(items: seq<Value>): string
    decreases items, 0
  {
    if items == [] then ""
    else if |items| == 1 then Print(items[0])
    else Print(items[0]) + "," + PrintItems(items[1..])
  }

  function PrintMembers(v: Value, keys: seq<string>): string
    requires v.Object? && forall k :: k in keys ==> k in v.members
    decreases v, 0, |keys|
  {
    if keys == [] then ""
    else
      var first := Quote(keys[0]) + ":" + Print(v.members[keys[0]]);
      if |keys| == 1 then first else first + "," + PrintMembers(v, keys[1..])
  }

  function PrintInt(n: int): string {
    if n < 0 then "-" + PrintNat(-n) else PrintNat(n)
  }

  function PrintNat(n: nat): string {
    if n < 10 then [Digit(n)] else PrintNat(n / 10) + [Digit(n % 10)]
  }

  function Digit(d: nat): char
    requires d < 10
  {
    '0' + d as char
  }

  function Quote(s: string): string {
    "\"" + Escape(s) + "\""
  }

  function Escape(s: string): string {
    if s == [] then "" else EscapeChar(s[0]) + Escape(s[1..])
  }

  /** Backslash, quote and the 32 control characters are escaped; everything else is copied. */
  function EscapeChar(c: char): string {
    if c == '\"' then "\\\""
    else if c == '\\' then "\\\\"
    else if c == '\n' then "\\n"
    else if c == '\r' then "\\r"
    else if c == '\t' then "\\t"
    else if c as int == 8 then "\\b"
    else if c as int == 12 then "\\f"
    else if c as int < 32 then "\\u00" + [HexDigit(c as int / 16), HexDigit(c as int % 16)]
    else [c]
  }

  function HexDigit(d: nat): char
    requires d < 16
  {
    if d < 10 then '0' + d as char else 'a' + (d - 10) as char
  }

  /** `canonical_json` on an arbitrary Python value: `None` stands for the raised validation error. */
  function CanonicalJson(raw: Raw): Option<string> {
    match Normalize(raw)
    case Some(v) => Some(Print(v))
    case None => None
  }
}
