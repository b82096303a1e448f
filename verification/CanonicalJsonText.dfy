/** The canonical text is JSON text of the payload, read by the grammar of RFC 8259. */
module CanonicalJsonText {
  import opened Wrappers
  import opened CanonicalJson
  import opened CanonicalJsonProofs

  // ----- the grammar: strings (section 7) -----

  function HexValue(u: Unit): Option<nat> {
    if 0x30 <= u <= 0x39 then Some(u - 0x30)
    else if 0x41 <= u <= 0x46 then Some(u - 0x41 + 10)
    else if 0x61 <= u <= 0x66 then Some(u - 0x61 + 10)
    else None
  }

  /** What a letter after a backslash stands for. */
  function LetterMeans(u: Unit): Option<Unit> {
    match u
    case 0x22 => Some(0x22)
    case 0x5C => Some(0x5C)
    case 0x2F => Some(0x2F)
    case 0x62 => Some(8)
    case 0x66 => Some(12)
    case 0x6E => Some(10)
    case 0x72 => Some(13)
    case 0x74 => Some(9)
    case _ => None
  }

  function Code(t: Text): Option<Unit>
    requires |t| == 4
  {
    var a, b, c, d := HexValue(t[0]), HexValue(t[1]), HexValue(t[2]), HexValue(t[3]);
    if a.Some? && b.Some? && c.Some? && d.Some? && a.value < 16 && b.value < 16 && c.value < 16 && d.value < 16
    then Some(((a.value * 16 + b.value) * 16 + c.value) * 16 + d.value)
    else None
  }

  /** The string between two quotation marks, if it is one. */
  function Decode(t: Text): Option<Text> {
    if t == [] then Some([])
    else if t[0] == 0x5C then
      if |t| >= 6 && t[1] == 0x75 then Prepend(Code(t[2..6]), Decode(t[6..]))
      else if |t| >= 2 then Prepend(LetterMeans(t[1]), Decode(t[2..]))
      else None
    else if t[0] == 0x22 || t[0] < 0x20 then None
    else Prepend(Some(t[0]), Decode(t[1..]))
  }

  function Prepend(u: Option<Unit>, rest: Option<Text>): Option<Text> {
    if u.Some? && rest.Some? then Some([u.value] + rest.value) else None
  }

  predicate IsStringText(t: Text, s: Text) {
    |t| >= 2 && t[0] == 0x22 && t[|t| - 1] == 0x22 && Decode(t[1..|t| - 1]) == Some(s)
  }

  // ----- the grammar: values (sections 3 to 5) -----

  function Commas(parts: seq<Text>): Text {
    if parts == [] then []
    else if |parts| == 1 then parts[0]
    else Commas(parts[..|parts| - 1]) + [0x2C] + parts[|parts| - 1]
  }

  /** Names and values of an object's fields, in some order. */
  datatype Member = Member(key: Text, name: Text, value: Text)

  function MemberTexts(ms: seq<Member>): (r: seq<Text>)
    ensures |r| == |ms| && forall i :: 0 <= i < |ms| ==> r[i] == ms[i].name + [0x3A] + ms[i].value
  {
    seq(|ms|, i requires 0 <= i < |ms| => ms[i].name + [0x3A] + ms[i].value)
  }

  /** The members are the object's fields, each once, and come in the order of their names. */
  ghost predicate MembersOf(ms: seq<Member>, fields: seq<Field>) {
    && (forall i, j :: 0 <= i < j < |ms| ==> Before(ms[i].key, ms[j].key) && ms[i].key != ms[j].key)
    && (forall i :: 0 <= i < |ms| ==> IsStringText(ms[i].name, ms[i].key))
    && (forall i :: 0 <= i < |ms| ==> NamesField(fields, ms[i].key))
    && (forall j :: 0 <= j < |fields| ==> NamesMember(ms, fields[j].key))
  }

  predicate NamesField(fields: seq<Field>, k: Text) { exists j :: 0 <= j < |fields| && fields[j].key == k }

  predicate NamesMember(ms: seq<Member>, k: Text) { exists i :: 0 <= i < |ms| && ms[i].key == k }

  /** A text is JSON for a payload; what JSON cannot say is null. */
  ghost predicate IsTextOf(t: Text, v: Json)
    decreases v
  {
    match v
    case Undefined => t == [0x6E, 0x75, 0x6C, 0x6C]
    case Null => t == [0x6E, 0x75, 0x6C, 0x6C]
    case NonFinite => t == [0x6E, 0x75, 0x6C, 0x6C]
    case Bool(b) => t == if b then [0x74, 0x72, 0x75, 0x65] else [0x66, 0x61, 0x6C, 0x73, 0x65]
    case Number(text) => t == text
    case Str(s) => IsStringText(t, s)
    case Arr(items) =>
      exists parts: seq<Text> ::
        && |parts| == |items| && t == [0x5B] + Commas(parts) + [0x5D]
        && forall i :: 0 <= i < |items| ==> IsTextOf(parts[i], items[i])
    case Obj(fields) =>
      exists ms: seq<Member> ::
        && MembersOf(ms, fields) && t == [0x7B] + Commas(MemberTexts(ms)) + [0x7D]
        && forall i, j :: 0 <= i < |ms| && 0 <= j < |fields| && ms[i].key == fields[j].key ==>
             IsTextOf(ms[i].value, fields[j].value)
  }

  // ----- strings -----

  lemma HexRead(d: nat)
    requires d < 16
    ensures HexValue(HexDigit(d)) == Some(d)
  {
  }

  lemma CodeRead(u: Unit)
    ensures Code(UnicodeEscape(u)[2..6]) == Some(u)
  {
    HexRead(u / 4096);
    HexRead(u / 256 % 16);
    HexRead(u / 16 % 16);
    HexRead(u % 16);
    FourDigits(u);
    hide HexValue, HexDigit;
  }

  lemma UnicodeEscapeStart(u: Unit)
    ensures UnicodeEscape(u)[0] == 0x5C && UnicodeEscape(u)[1] == 0x75
  {
  }

  lemma UnitRead(u: Unit, rest: Text)
    requires Decode(rest).Some?
    ensures Decode(QuoteUnit(u) + rest) == Some([u] + Decode(rest).value)
  {
    hide Code, UnicodeEscape, HexDigit;
    var q := QuoteUnit(u);
    var t := q + rest;
    assert t[|q|..] == rest && forall i :: 0 <= i < |q| ==> t[i] == q[i];
    if |q| == 6 {
      CodeRead(u);
      UnicodeEscapeStart(u);
      assert t[2..6] == UnicodeEscape(u)[2..6];
    }
  }

  /** Reading what was written gives the string back. */
  lemma {:induction false} DecodeEscape(s: Text)
    ensures Decode(Escape(s)) == Some(s)
  {
    if s == [] {
    } else if StartsPair(s) {
      DecodeEscape(s[2..]);
      PairRead(s[0], s[1], Escape(s[2..]));
      assert s[..2] == [s[0], s[1]] && s == [s[0], s[1]] + s[2..];
    } else {
      DecodeEscape(s[1..]);
      UnitRead(s[0], Escape(s[1..]));
      assert s == [s[0]] + s[1..];
      hide QuoteUnit;
    }
  }

  lemma PairRead(high: Unit, low: Unit, rest: Text)
    requires IsHigh(high) && IsLow(low) && Decode(rest).Some?
    ensures Decode([high, low] + rest) == Some([high, low] + Decode(rest).value)
  {
    var t := [high, low] + rest;
    assert t[1..] == [low] + rest && t[1..][1..] == rest;
    assert Decode(t[1..]) == Some([low] + Decode(rest).value);
    assert [high] + ([low] + Decode(rest).value) == [high, low] + Decode(rest).value;
  }

  lemma QuoteIsString(s: Text)
    ensures IsStringText(Quote(s), s)
  {
    var t := Quote(s);
    assert t[1..|t| - 1] == Escape(s);
    DecodeEscape(s);
    hide Decode, Escape;
  }

  /** Nothing is escaped without need: other characters and surrogate pairs stand for themselves. */
  predicate IsPlain(u: Unit) { 0x20 <= u && u != 0x22 && u != 0x5C && !(0xD800 <= u <= 0xDFFF) }

  lemma {:induction false} PlainUnescaped(s: Text)
    requires forall i :: 0 <= i < |s| ==> IsPlain(s[i])
    ensures Escape(s) == s
  {
    if s != [] {
      PlainUnescaped(s[1..]);
      assert s == [s[0]] + s[1..];
    }
  }

  lemma PairUnescaped(high: Unit, low: Unit)
    requires 0xD800 <= high <= 0xDBFF && 0xDC00 <= low <= 0xDFFF
    ensures Escape([high, low]) == [high, low]
  {
    var s := [high, low];
    assert StartsPair(s) && s[..2] == s && |s[2..]| == 0;
  }

  /** The order of names: by code units, a name before those it begins. */
  lemma {:induction false} BeforeByCodeUnits(a: Text, b: Text)
    ensures Before(a, b) <==> a <= b || exists i :: 0 <= i < |a| && i < |b| && a[..i] == b[..i] && a[i] < b[i]
  {
    if a != [] && b != [] && a[0] == b[0] {
      BeforeByCodeUnits(a[1..], b[1..]);
      assert a == [a[0]] + a[1..] && b == [b[0]] + b[1..];
      if i :| 0 <= i < |a[1..]| && i < |b[1..]| && a[1..][..i] == b[1..][..i] && a[1..][i] < b[1..][i] {
        assert a[..i + 1] == [a[0]] + a[1..][..i] && b[..i + 1] == [b[0]] + b[1..][..i];
        assert a[i + 1] < b[i + 1];
      }
      if i :| 0 <= i < |a| && i < |b| && a[..i] == b[..i] && a[i] < b[i] {
        assert i > 0 && a[1..][..i - 1] == a[..i][1..] && b[1..][..i - 1] == b[..i][1..];
        assert a[1..][i - 1] < b[1..][i - 1];
      }
    } else if a != [] && b != [] && a[0] < b[0] {
      assert a[..0] == b[..0];
    }
  }

  // ----- values -----

  lemma {:induction false} JoinIsCommas(parts: seq<Text>)
    ensures Join(parts) == Commas(parts)
  {
    if |parts| > 1 {
      var rest, last := parts[1..], |parts| - 1;
      JoinIsCommas(rest);
      if |parts| == 2 {
        assert rest == [parts[1]] && parts[..1] == [parts[0]];
      } else {
        JoinIsCommas(parts[..last]);
        JoinInit(parts);
      }
    }
  }

  lemma {:induction false} JoinInit(parts: seq<Text>)
    requires |parts| > 1
    ensures Join(parts) == Join(parts[..|parts| - 1]) + [COMMA] + parts[|parts| - 1]
  {
    var last := |parts| - 1;
    if |parts| == 2 {
      assert parts[1..] == [parts[1]] && parts[..1] == [parts[0]];
    } else {
      JoinInit(parts[1..]);
      assert parts[..last][1..] == parts[1..][..last - 1];
      Regroup(parts[0], [COMMA], Join(parts[1..][..last - 1]), [COMMA]);
      hide Join;
    }
  }

  lemma {:induction false} CountsDistinct(ks: seq<Text>)
    requires forall k :: multiset(ks)[k] <= 1
    ensures Distinct(ks)
  {
    if ks != [] {
      assert ks == [ks[0]] + ks[1..];
      forall k ensures multiset(ks[1..])[k] <= 1 {
        assert multiset(ks)[k] <= 1;
      }
      CountsDistinct(ks[1..]);
      assert multiset(ks)[ks[0]] == 1 + multiset(ks[1..])[ks[0]];
      assert ks[0] !in multiset(ks[1..]);
      forall j | 0 < j < |ks| ensures ks[0] != ks[j] {
        assert ks[j] == ks[1..][j - 1] && ks[j] in multiset(ks[1..]);
      }
    }
  }

  lemma SortedDistinct(ks: seq<Text>)
    requires Distinct(ks)
    ensures Sorted(Sort(ks)) && Distinct(Sort(ks))
  {
    SortSorts(ks);
    DistinctCounts(ks);
    CountsDistinct(Sort(ks));
  }

  function MembersWritten(ks: seq<Text>, values: map<Text, Text>): (ms: seq<Member>)
    requires forall k :: k in ks ==> k in values
    ensures |ms| == |ks|
    ensures forall i :: 0 <= i < |ks| ==> ms[i] == Member(ks[i], Quote(ks[i]), values[ks[i]])
  {
    seq(|ks|, i requires 0 <= i < |ks| => Member(ks[i], Quote(ks[i]), values[ks[i]]))
  }

  lemma SameTexts(ks: seq<Text>, values: map<Text, Text>)
    requires forall k :: k in ks ==> k in values
    ensures MemberTexts(MembersWritten(ks, values)) == Pairs(ks, values)
  {
    hide Quote, Pairs;
    var ms := MembersWritten(ks, values);
    forall i | 0 <= i < |ks| ensures MemberTexts(ms)[i] == Pairs(ks, values)[i] {
      assert ks[i] in ks;
    }
  }

  lemma InOrder(ks: seq<Text>, values: map<Text, Text>, fields: seq<Field>)
    requires Sorted(ks) && Distinct(ks)
    requires forall k :: k in ks ==> k in values && NamesField(fields, k)
    requires forall j :: 0 <= j < |fields| ==> fields[j].key in ks
    ensures MembersOf(MembersWritten(ks, values), fields)
  {
    hide Quote, IsStringText, Before, NamesField;
    var ms := MembersWritten(ks, values);
    forall i | 0 <= i < |ms| ensures IsStringText(ms[i].name, ms[i].key) && NamesField(fields, ms[i].key) {
      QuoteIsString(ks[i]);
      assert ks[i] in ks;
    }
    forall i, j | 0 <= i < j < |ms| ensures Before(ms[i].key, ms[j].key) && ms[i].key != ms[j].key {
      assert Before(ks[i], ks[j]) && ks[i] != ks[j];
    }
    forall j | 0 <= j < |fields| ensures NamesMember(ms, fields[j].key) {
      var i :| 0 <= i < |ks| && ks[i] == fields[j].key;
      assert ms[i].key == fields[j].key;
    }
  }

  lemma SortedKeysAreTheFields(fields: seq<Field>)
    ensures var ks := Sort(Keys(fields));
            && (forall k :: k in ks ==> k in PrintFields(fields) && NamesField(fields, k))
            && (forall j :: 0 <= j < |fields| ==> fields[j].key in ks)
  {
    hide Keys, Sort, PrintFields, MeantFields, StableStringify, Meant;
    SortedKeys(fields);
    var ks := Sort(Keys(fields));
    forall k | k in ks ensures k in PrintFields(fields) && NamesField(fields, k) {
      assert k in MeantFields(fields);
    }
    forall j | 0 <= j < |fields| ensures fields[j].key in ks {
      assert fields[j].key in MeantFields(fields);
    }
  }

  lemma WrittenAreMembers(fields: seq<Field>)
    requires DistinctKeys(fields)
    ensures forall k :: k in Sort(Keys(fields)) ==> k in PrintFields(fields)
    ensures var ms := MembersWritten(Sort(Keys(fields)), PrintFields(fields));
            MembersOf(ms, fields) && MemberTexts(ms) == Pairs(Sort(Keys(fields)), PrintFields(fields))
  {
    hide Keys, Sort, PrintFields, StableStringify, Pairs, MemberTexts, MembersOf, Sorted, Distinct, NamesField;
    KeysDistinct(fields);
    SortedDistinct(Keys(fields));
    SortedKeysAreTheFields(fields);
    InOrder(Sort(Keys(fields)), PrintFields(fields), fields);
    SameTexts(Sort(Keys(fields)), PrintFields(fields));
  }

  /** What the printer writes is JSON for the payload: the grammar's punctuation, the items in their order, the fields in
      the order of their names, and every string readable. */
  lemma {:induction false} CanonicalTextIsJson(v: Json)
    requires IsRecord(v)
    ensures IsTextOf(StableStringify(v), v)
    decreases v
  {
    hide PrintItems, PrintFields, Keys, Sort, Join, Pairs, Quote, IsStringText, DistinctKeys, MembersOf;
    match v
    case Str(s) => QuoteIsString(s);
    case Arr(items) =>
      var parts := PrintItems(items);
      JoinIsCommas(parts);
      forall i | 0 <= i < |items| ensures IsTextOf(parts[i], items[i]) {
        CanonicalTextIsJson(items[i]);
      }
    case Obj(fields) =>
      WrittenAreMembers(fields);
      var ms := MembersWritten(Sort(Keys(fields)), PrintFields(fields));
      JoinIsCommas(MemberTexts(ms));
      forall i, j | 0 <= i < |ms| && 0 <= j < |fields| && ms[i].key == fields[j].key
        ensures IsTextOf(ms[i].value, fields[j].value)
      {
        CanonicalTextIsJson(fields[j].value);
      }
    case _ =>
  }
}
