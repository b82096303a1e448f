/** The canonical text that identifies a webhook payload, and why it identifies it. Text is a list of UTF-16 code units,
    as in JavaScript. */
module CanonicalJson {
  import opened Wrappers

  type Unit = n: nat | n < 0x10000

  type Text = seq<Unit>

  // the units the printer writes itself
  const QUOTE: Unit := 0x22
  const COMMA: Unit := 0x2C
  const COLON: Unit := 0x3A
  const BACKSLASH: Unit := 0x5C
  const OPEN_BRACKET: Unit := 0x5B
  const CLOSE_BRACKET: Unit := 0x5D
  const OPEN_BRACE: Unit := 0x7B
  const CLOSE_BRACE: Unit := 0x7D

  const NULL_TEXT: Text := [0x6E, 0x75, 0x6C, 0x6C]
  const TRUE_TEXT: Text := [0x74, 0x72, 0x75, 0x65]
  const FALSE_TEXT: Text := [0x66, 0x61, 0x6C, 0x73, 0x65]

  // ----- values -----

  /** Digits, sign, point and exponent: all that the text of a finite number is made of. */
  predicate IsNumberUnit(u: Unit) { 0x30 <= u <= 0x39 || u == 0x2D || u == 0x2B || u == 0x2E || u == 0x65 }

  /** A finite number stands for its printed text; distinct finite numbers print differently, and -0 prints as 0. */
  predicate IsNumberText(t: Text) {
    t != [] && (0x30 <= t[0] <= 0x39 || t[0] == 0x2D) && forall i :: 0 <= i < |t| ==> IsNumberUnit(t[i])
  }

  type NumberText = t: Text | IsNumberText(t) witness [0x30]

  datatype Field = Field(key: Text, value: Json)

  /** Fields are listed in the order the object keeps them. */
  datatype Json =
    | Undefined
    | Null
    | NonFinite
    | Bool(b: bool)
    | Number(text: NumberText)
    | Str(s: Text)
    | Arr(items: seq<Json>)
    | Obj(fields: seq<Field>)

  predicate DistinctKeys(fields: seq<Field>) {
    forall i, j :: 0 <= i < j < |fields| ==> fields[i].key != fields[j].key
  }

  /** No object at any depth has two fields of one name. */
  predicate IsRecord(v: Json) {
    match v
    case Arr(items) => forall i :: 0 <= i < |items| ==> IsRecord(items[i])
    case Obj(fields) => DistinctKeys(fields) && forall i :: 0 <= i < |fields| ==> IsRecord(fields[i].value)
    case _ => true
  }

  /** What a payload means: its fields in no order, and one null for null, undefined and numbers out of range. */
  datatype Meaning =
    | MNull
    | MBool(b: bool)
    | MNumber(text: Text)
    | MStr(s: Text)
    | MArr(items: seq<Meaning>)
    | MObj(fields: map<Text, Meaning>)

  function Meant(v: Json): Meaning {
    match v
    case Undefined => MNull
    case Null => MNull
    case NonFinite => MNull
    case Bool(b) => MBool(b)
    case Number(text) => MNumber(text)
    case Str(s) => MStr(s)
    case Arr(items) => MArr(MeantItems(items))
    case Obj(fields) => MObj(MeantFields(fields))
  }

  function MeantItems(items: seq<Json>): (r: seq<Meaning>)
    ensures |r| == |items|
    ensures forall i :: 0 <= i < |items| ==> r[i] == Meant(items[i])
  {
    if items == [] then [] else [Meant(items[0])] + MeantItems(items[1..])
  }

  function MeantFields(fields: seq<Field>): (r: map<Text, Meaning>)
    ensures forall k :: k in r <==> exists i :: 0 <= i < |fields| && fields[i].key == k
    ensures DistinctKeys(fields) ==> forall i :: 0 <= i < |fields| ==> r[fields[i].key] == Meant(fields[i].value)
  {
    if fields == [] then map[]
    else MeantFields(fields[1..])[fields[0].key := Meant(fields[0].value)]
  }

  // ----- JSON.stringify of a string -----

  predicate IsHigh(u: Unit) { 0xD800 <= u <= 0xDBFF }

  predicate IsLow(u: Unit) { 0xDC00 <= u <= 0xDFFF }

  /** Lower-case hexadecimal digit. */
  function HexDigit(d: nat): (u: Unit)
    requires d < 16
    ensures 0x30 <= u <= 0x39 || 0x61 <= u <= 0x66
  {
    if d < 10 then 0x30 + d else 0x61 + d - 10
  }

  /** Backslash, u and four digits. */
  function UnicodeEscape(u: Unit): (t: Text)
    ensures |t| == 6
  {
    [BACKSLASH, 0x75, HexDigit(u / 4096), HexDigit(u / 256 % 16), HexDigit(u / 16 % 16), HexDigit(u % 16)]
  }

  /** The letter of a two-unit escape, if the unit has one. */
  function ShortEscape(u: Unit): Option<Unit> {
    if u == 0x08 then Some(0x62)
    else if u == 0x09 then Some(0x74)
    else if u == 0x0A then Some(0x6E)
    else if u == 0x0C then Some(0x66)
    else if u == 0x0D then Some(0x72)
    else if u == QUOTE then Some(QUOTE)
    else if u == BACKSLASH then Some(BACKSLASH)
    else None
  }

  /** One unit that is not the start of a surrogate pair. */
  function QuoteUnit(u: Unit): Text {
    if ShortEscape(u).Some? then [BACKSLASH, ShortEscape(u).value]
    else if u < 0x20 || IsHigh(u) || IsLow(u) then UnicodeEscape(u)
    else [u]
  }

  predicate StartsPair(s: Text) { |s| >= 2 && IsHigh(s[0]) && IsLow(s[1]) }

  /** The text between the quotation marks: surrogate pairs are kept, lone surrogates escaped. */
  function Escape(s: Text): Text {
    if s == [] then []
    else if StartsPair(s) then s[..2] + Escape(s[2..])
    else QuoteUnit(s[0]) + Escape(s[1..])
  }

  function Quote(s: Text): Text { [QUOTE] + Escape(s) + [QUOTE] }

  // ----- sorting keys -----

  /** The order of Array.prototype.sort on strings: by code units. */
  predicate Before(a: Text, b: Text) {
    if a == [] then true
    else if b == [] then false
    else if a[0] != b[0] then a[0] < b[0]
    else Before(a[1..], b[1..])
  }

  function Insert(k: Text, ks: seq<Text>): seq<Text> {
    if ks == [] then [k]
    else if Before(k, ks[0]) then [k] + ks
    else [ks[0]] + Insert(k, ks[1..])
  }

  function Sort(ks: seq<Text>): seq<Text> {
    if ks == [] then [] else Insert(ks[0], Sort(ks[1..]))
  }

  // ----- the printer -----

  function Join(parts: seq<Text>): Text {
    if parts == [] then []
    else if |parts| == 1 then parts[0]
    else parts[0] + [COMMA] + Join(parts[1..])
  }

  function Keys(fields: seq<Field>): (ks: seq<Text>)
    ensures |ks| == |fields|
    ensures forall i :: 0 <= i < |fields| ==> ks[i] == fields[i].key
  {
    if fields == [] then [] else [fields[0].key] + Keys(fields[1..])
  }

  function StableStringify(v: Json): Text {
    match v
    case Undefined => NULL_TEXT
    case Null => NULL_TEXT
    case NonFinite => NULL_TEXT
    case Bool(b) => if b then TRUE_TEXT else FALSE_TEXT
    case Number(text) => text
    case Str(s) => Quote(s)
    case Arr(items) => [OPEN_BRACKET] + Join(PrintItems(items)) + [CLOSE_BRACKET]
    case Obj(fields) => [OPEN_BRACE] + Join(Pairs(Sort(Keys(fields)), PrintFields(fields))) + [CLOSE_BRACE]
  }

  function PrintItems(items: seq<Json>): (r: seq<Text>)
    ensures |r| == |items|
    ensures forall i :: 0 <= i < |items| ==> r[i] == StableStringify(items[i])
  {
    if items == [] then [] else [StableStringify(items[0])] + PrintItems(items[1..])
  }

  /** The printed value of every field, by key. */
  function PrintFields(fields: seq<Field>): (r: map<Text, Text>)
    ensures forall k :: k in r <==> exists i :: 0 <= i < |fields| && fields[i].key == k
    ensures DistinctKeys(fields) ==>
      forall i :: 0 <= i < |fields| ==> r[fields[i].key] == StableStringify(fields[i].value)
  {
    if fields == [] then map[]
    else PrintFields(fields[1..])[fields[0].key := StableStringify(fields[0].value)]
  }

  function Pair(k: Text, value: Text): Text { Quote(k) + [COLON] + value }

  function Pairs(ks: seq<Text>, values: map<Text, Text>): (r: seq<Text>)
    ensures |r| == |ks|
    ensures forall i :: 0 <= i < |ks| ==> r[i] == Pair(ks[i], if ks[i] in values then values[ks[i]] else NULL_TEXT)
  {
    if ks == [] then []
    else [Pair(ks[0], if ks[0] in values then values[ks[0]] else NULL_TEXT)] + Pairs(ks[1..], values)
  }
}
