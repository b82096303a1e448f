/** Two payloads have one canonical text exactly when they mean the same. */
module CanonicalJsonProofs {
  import opened CanonicalJson

  // ----- strings -----

  /** How many units the first printed chunk of a non-empty string stands for. */
  function HeadLength(s: Text): nat
    requires s != []
  {
    if StartsPair(s) then 2 else 1
  }

  function Chunk(s: Text): Text
    requires s != []
  {
    if StartsPair(s) then s[..2] else QuoteUnit(s[0])
  }

  lemma EscapeHead(s: Text)
    requires s != []
    ensures HeadLength(s) <= |s| && Escape(s) == Chunk(s) + Escape(s[HeadLength(s)..])
  {
    hide QuoteUnit, IsHigh, IsLow;
  }

  lemma ChunkHead(s: Text)
    requires s != []
    ensures Chunk(s) != [] && Chunk(s)[0] != QUOTE
  {
    hide Escape;
  }

  lemma EscapeParts(s: Text, x: Text)
    requires s != []
    ensures 0 < HeadLength(s) <= |s|
    ensures Escape(s) + [QUOTE] + x == Chunk(s) + (Escape(s[HeadLength(s)..]) + [QUOTE] + x)
  {
    hide Chunk, Escape, StartsPair;
    EscapeHead(s);
    Regroup(Chunk(s), Escape(s[HeadLength(s)..]), [QUOTE], x);
  }

  lemma Regroup(a: Text, b: Text, c: Text, d: Text)
    ensures a + b + c + d == a + (b + c + d)
  {
  }

  lemma EscapeStart(t: Text, y: Text)
    requires t != []
    ensures Escape(t) + [QUOTE] + y != [] && (Escape(t) + [QUOTE] + y)[0] != QUOTE
  {
    hide Chunk, HeadLength, Escape;
    EscapeHead(t);
    ChunkHead(t);
    assert (Escape(t) + [QUOTE] + y)[0] == Chunk(t)[0];
  }

  lemma NothingLeft(t: Text, x: Text, y: Text)
    requires [QUOTE] + x == Escape(t) + [QUOTE] + y
    ensures t == [] && x == y
  {
    if t != [] {
      EscapeStart(t, y);
    } else {
      assert x == ([QUOTE] + x)[1..] && y == ([QUOTE] + y)[1..];
    }
  }

  lemma HexUnique(u: Unit, v: Unit)
    requires UnicodeEscape(u) == UnicodeEscape(v)
    ensures u == v
  {
    var a, b := UnicodeEscape(u), UnicodeEscape(v);
    assert a[2] == b[2] && a[3] == b[3] && a[4] == b[4] && a[5] == b[5];
    HexDigitUnique(u / 4096, v / 4096);
    HexDigitUnique(u / 256 % 16, v / 256 % 16);
    HexDigitUnique(u / 16 % 16, v / 16 % 16);
    HexDigitUnique(u % 16, v % 16);
    FourDigits(u);
    FourDigits(v);
  }

  lemma HexDigitUnique(d: nat, e: nat)
    requires d < 16 && e < 16 && HexDigit(d) == HexDigit(e)
    ensures d == e
  {
  }

  lemma FourDigits(u: Unit)
    ensures u == u / 4096 * 4096 + u / 256 % 16 * 256 + u / 16 % 16 * 16 + u % 16
  {
    assert u / 16 / 16 == u / 256;
    assert u / 256 / 16 == u / 4096;
  }

  /** Text of one unit followed by anything can be read back in one way only. */
  lemma UnitUnique(u: Unit, v: Unit, x: Text, y: Text)
    requires QuoteUnit(u) + x == QuoteUnit(v) + y
    ensures u == v && x == y
  {
    var a, b := QuoteUnit(u), QuoteUnit(v);
    assert (a + x)[0] == a[0] && (b + y)[0] == b[0];
    if a[0] == BACKSLASH {
      assert (a + x)[1] == a[1] && (b + y)[1] == b[1];
      if a[1] == 0x75 {
        assert a == (a + x)[..6] && b == (b + y)[..6];
        HexUnique(u, v);
      }
    }
    assert |a| == |b|;
    assert x == (a + x)[|a|..] && y == (b + y)[|b|..];
  }

  lemma ChunkUnique(s: Text, t: Text, x: Text, y: Text)
    requires s != [] && t != [] && Chunk(s) + x == Chunk(t) + y
    ensures HeadLength(s) == HeadLength(t) && s[..HeadLength(s)] == t[..HeadLength(t)] && x == y
  {
    var a, b := Chunk(s), Chunk(t);
    assert (a + x)[0] == a[0] && (b + y)[0] == b[0];
    if StartsPair(s) && StartsPair(t) {
      assert a == (a + x)[..2] && b == (b + y)[..2];
      assert x == (a + x)[2..] && y == (b + y)[2..];
    } else if !StartsPair(s) && !StartsPair(t) {
      UnitUnique(s[0], t[0], x, y);
    }
  }

  /** The closing quotation mark is never mistaken: the string and what follows it are both determined. */
  lemma {:induction false} EscapeUnique(s: Text, t: Text, x: Text, y: Text)
    requires Escape(s) + [QUOTE] + x == Escape(t) + [QUOTE] + y
    ensures s == t && x == y
  {
    if s == [] {
      assert Escape(s) + [QUOTE] + x == [QUOTE] + x;
      NothingLeft(t, x, y);
    } else if t == [] {
      assert Escape(t) + [QUOTE] + y == [QUOTE] + y;
      NothingLeft(s, y, x);
    } else {
      hide Escape, Chunk, HeadLength, StartsPair;
      EscapeParts(s, x);
      EscapeParts(t, y);
      var s', t' := s[HeadLength(s)..], t[HeadLength(t)..];
      ChunkUnique(s, t, Escape(s') + [QUOTE] + x, Escape(t') + [QUOTE] + y);
      EscapeUnique(s', t', x, y);
      assert s == s[..HeadLength(s)] + s' && t == t[..HeadLength(t)] + t';
    }
  }

  lemma QuoteUnique(s: Text, t: Text, x: Text, y: Text)
    requires Quote(s) + x == Quote(t) + y
    ensures s == t && x == y
  {
    assert Quote(s) + x == [QUOTE] + (Escape(s) + [QUOTE] + x);
    assert Quote(t) + y == [QUOTE] + (Escape(t) + [QUOTE] + y);
    assert (Quote(s) + x)[1..] == Escape(s) + [QUOTE] + x;
    assert (Quote(t) + y)[1..] == Escape(t) + [QUOTE] + y;
    EscapeUnique(s, t, x, y);
  }

  // ----- key order -----

  predicate Sorted(ks: seq<Text>) { forall i, j :: 0 <= i < j < |ks| ==> Before(ks[i], ks[j]) }

  lemma {:induction false} BeforeTotal(a: Text, b: Text)
    ensures Before(a, b) || Before(b, a)
  {
    if a != [] && b != [] && a[0] == b[0] {
      BeforeTotal(a[1..], b[1..]);
    }
  }

  lemma {:induction false} BeforeAntisymmetric(a: Text, b: Text)
    requires Before(a, b) && Before(b, a)
    ensures a == b
  {
    if a != [] && b != [] {
      BeforeAntisymmetric(a[1..], b[1..]);
      assert a == [a[0]] + a[1..] && b == [b[0]] + b[1..];
    }
  }

  lemma {:induction false} BeforeTransitive(a: Text, b: Text, c: Text)
    requires Before(a, b) && Before(b, c)
    ensures Before(a, c)
  {
    if a != [] && b != [] && c != [] && a[0] == b[0] == c[0] {
      BeforeTransitive(a[1..], b[1..], c[1..]);
    }
  }

  lemma {:induction false} InsertSorts(k: Text, ks: seq<Text>)
    requires Sorted(ks)
    ensures Sorted(Insert(k, ks)) && multiset(Insert(k, ks)) == multiset(ks) + multiset{k}
  {
    if ks == [] {
    } else if Before(k, ks[0]) {
      forall i | 0 <= i < |ks| ensures Before(k, ks[i]) {
        if i > 0 {
          BeforeTransitive(k, ks[0], ks[i]);
        }
      }
    } else {
      BeforeTotal(k, ks[0]);
      InsertSorts(k, ks[1..]);
      assert ks == [ks[0]] + ks[1..];
      forall x | x in Insert(k, ks[1..]) ensures Before(ks[0], x) {
        assert x in multiset(Insert(k, ks[1..]));
        assert x == k || x in ks[1..];
      }
    }
  }

  /** Sorting puts the keys in order and neither drops nor repeats one. */
  lemma {:induction false} SortSorts(ks: seq<Text>)
    ensures Sorted(Sort(ks)) && multiset(Sort(ks)) == multiset(ks)
  {
    if ks != [] {
      SortSorts(ks[1..]);
      InsertSorts(ks[0], Sort(ks[1..]));
      assert ks == [ks[0]] + ks[1..];
    }
  }

  lemma {:induction false} SortedUnique(a: seq<Text>, b: seq<Text>)
    requires Sorted(a) && Sorted(b) && multiset(a) == multiset(b)
    ensures a == b
  {
    if a == [] {
      assert |multiset(b)| == 0;
    } else {
      assert a[0] in multiset(b) && |multiset(a)| == |multiset(b)|;
      assert b[0] in multiset(a);
      if a[0] != b[0] {
        assert Before(a[0], b[0]) && Before(b[0], a[0]);
        BeforeAntisymmetric(a[0], b[0]);
      }
      assert a == [a[0]] + a[1..] && b == [b[0]] + b[1..];
      assert multiset(a[1..]) == multiset(a) - multiset{a[0]};
      assert multiset(b[1..]) == multiset(b) - multiset{b[0]};
      SortedUnique(a[1..], b[1..]);
    }
  }

  predicate Distinct(ks: seq<Text>) { forall i, j :: 0 <= i < j < |ks| ==> ks[i] != ks[j] }

  lemma {:induction false} DistinctCounts(ks: seq<Text>)
    requires Distinct(ks)
    ensures forall k :: multiset(ks)[k] == if k in ks then 1 else 0
  {
    if ks != [] {
      DistinctCounts(ks[1..]);
      assert ks == [ks[0]] + ks[1..];
    }
  }

  /** The sorted keys depend only on which keys there are. */
  lemma SortOfSameKeys(a: seq<Text>, b: seq<Text>)
    requires Distinct(a) && Distinct(b) && forall k :: k in a <==> k in b
    ensures Sort(a) == Sort(b)
  {
    DistinctCounts(a);
    DistinctCounts(b);
    assert multiset(a) == multiset(b);
    SortSorts(a);
    SortSorts(b);
    SortedUnique(Sort(a), Sort(b));
  }

  lemma SortedKeys(fields: seq<Field>)
    ensures forall k :: k in Sort(Keys(fields)) <==> k in MeantFields(fields)
    ensures forall k :: k in MeantFields(fields) <==> k in PrintFields(fields)
  {
    hide Keys, Sort, MeantFields, PrintFields, Meant, StableStringify;
    SortSorts(Keys(fields));
    forall k ensures k in Sort(Keys(fields)) <==> k in Keys(fields) {
      assert k in multiset(Sort(Keys(fields))) <==> k in multiset(Keys(fields));
    }
    forall k ensures k in Keys(fields) <==> k in MeantFields(fields) {
      if k in MeantFields(fields) {
        var i :| 0 <= i < |fields| && fields[i].key == k;
        assert Keys(fields)[i] == k;
      }
    }
  }

  // ----- same meaning, same text -----

  /** Payloads that differ only in the order of fields, at any depth, have the same text. */
  lemma {:induction false} SameMeaningSameText(a: Json, b: Json)
    requires IsRecord(a) && IsRecord(b) && Meant(a) == Meant(b)
    ensures StableStringify(a) == StableStringify(b)
    decreases a, 1
  {
    hide PrintItems, PrintFields, MeantItems, MeantFields, Keys, Sort, Join, Pairs, Quote, DistinctKeys;
    match a
    case Arr(items) =>
      SameItems(items, b.items);
    case Obj(fields) =>
      SameFields(fields, b.fields);
    case _ =>
  }

  lemma {:induction false} SameItems(a: seq<Json>, b: seq<Json>)
    requires (forall i :: 0 <= i < |a| ==> IsRecord(a[i])) && (forall i :: 0 <= i < |b| ==> IsRecord(b[i]))
    requires MeantItems(a) == MeantItems(b)
    ensures PrintItems(a) == PrintItems(b)
    decreases a
  {
    hide StableStringify, PrintItems, MeantItems, Meant, IsRecord;
    forall i | 0 <= i < |a| ensures StableStringify(a[i]) == StableStringify(b[i]) {
      assert MeantItems(a)[i] == MeantItems(b)[i];
      SameMeaningSameText(a[i], b[i]);
    }
  }

  lemma {:induction false} SameFields(f: seq<Field>, g: seq<Field>)
    requires DistinctKeys(f) && DistinctKeys(g)
    requires (forall i :: 0 <= i < |f| ==> IsRecord(f[i].value)) && (forall i :: 0 <= i < |g| ==> IsRecord(g[i].value))
    requires MeantFields(f) == MeantFields(g)
    ensures Sort(Keys(f)) == Sort(Keys(g)) && PrintFields(f) == PrintFields(g)
    decreases f
  {
    hide StableStringify, PrintFields, MeantFields, Meant, IsRecord, Keys, Sort, DistinctKeys;
    SortedKeys(f);
    SortedKeys(g);
    SameKeys(f, g);
    forall i, j | 0 <= i < |f| && 0 <= j < |g| && f[i].key == g[j].key
      ensures StableStringify(f[i].value) == StableStringify(g[j].value)
    {
      assert MeantFields(f)[f[i].key] == MeantFields(g)[g[j].key];
      SameMeaningSameText(f[i].value, g[j].value);
    }
    SameFieldTexts(f, g);
  }

  lemma SameFieldTexts(f: seq<Field>, g: seq<Field>)
    requires DistinctKeys(f) && DistinctKeys(g) && PrintFields(f).Keys == PrintFields(g).Keys
    requires forall i, j :: 0 <= i < |f| && 0 <= j < |g| && f[i].key == g[j].key ==>
      StableStringify(f[i].value) == StableStringify(g[j].value)
    ensures PrintFields(f) == PrintFields(g)
  {
    hide StableStringify, PrintFields, DistinctKeys;
    forall k | k in PrintFields(f) ensures PrintFields(f)[k] == PrintFields(g)[k] {
      var i :| 0 <= i < |f| && f[i].key == k;
      assert k in PrintFields(g);
      var j :| 0 <= j < |g| && g[j].key == k;
    }
  }

  lemma KeysDistinct(f: seq<Field>)
    requires DistinctKeys(f)
    ensures Distinct(Keys(f))
  {
    hide Keys;
  }

  lemma SameKeys(f: seq<Field>, g: seq<Field>)
    requires DistinctKeys(f) && DistinctKeys(g) && MeantFields(f).Keys == MeantFields(g).Keys
    ensures Sort(Keys(f)) == Sort(Keys(g))
  {
    hide Keys, Sort, MeantFields, Meant, DistinctKeys;
    KeysDistinct(f);
    KeysDistinct(g);
    forall k ensures k in Keys(f) <==> k in Keys(g) {
      if k in Keys(f) {
        var i :| 0 <= i < |f| && Keys(f)[i] == k;
        assert k in MeantFields(g);
        var j :| 0 <= j < |g| && g[j].key == k;
        assert Keys(g)[j] == k;
      }
      if k in Keys(g) {
        var j :| 0 <= j < |g| && Keys(g)[j] == k;
        assert k in MeantFields(f);
        var i :| 0 <= i < |f| && f[i].key == k;
        assert Keys(f)[i] == k;
      }
    }
    SortOfSameKeys(Keys(f), Keys(g));
  }

  // ----- same text, same meaning -----

  /** What may follow a printed value: nothing that could still belong to a number. */
  predicate Ends(x: Text) { x == [] || !IsNumberUnit(x[0]) }

  lemma LongerNumber(s: NumberText, t: NumberText, x: Text, y: Text)
    requires s + x == t + y && |s| < |t|
    ensures !Ends(x)
  {
    assert (s + x)[|s|] == x[0] && (t + y)[|s|] == t[|s|];
  }

  lemma NumberUnique(s: NumberText, t: NumberText, x: Text, y: Text)
    requires s + x == t + y && Ends(x) && Ends(y)
    ensures s == t && x == y
  {
    if |s| < |t| {
      LongerNumber(s, t, x, y);
    } else if |t| < |s| {
      LongerNumber(t, s, y, x);
    }
    assert s == (s + x)[..|s|] && t == (t + y)[..|t|];
    assert x == (s + x)[|s|..] && y == (t + y)[|t|..];
  }

  lemma FirstUnit(v: Json)
    ensures StableStringify(v) != []
    ensures var u := StableStringify(v)[0];
            match v
            case Undefined => u == 0x6E
            case Null => u == 0x6E
            case NonFinite => u == 0x6E
            case Bool(b) => u == if b then 0x74 else 0x66
            case Number(_) => IsNumberUnit(u) && u != 0x65
            case Str(_) => u == QUOTE
            case Arr(_) => u == OPEN_BRACKET
            case Obj(_) => u == OPEN_BRACE
  {
  }

  /** The printer is injective up to meaning, and prefix-safe: a value and what follows it are both determined. */
  lemma {:induction false} SameTextSameMeaning(a: Json, b: Json, x: Text, y: Text)
    requires IsRecord(a) && IsRecord(b) && Ends(x) && Ends(y)
    requires StableStringify(a) + x == StableStringify(b) + y
    ensures Meant(a) == Meant(b) && x == y
    decreases a, 1
  {
    hide PrintItems, PrintFields, MeantItems, MeantFields, Keys, Sort, Join, Pairs, Quote, DistinctKeys, Ends;
    FirstUnit(a);
    FirstUnit(b);
    assert (StableStringify(a) + x)[0] == StableStringify(a)[0] && (StableStringify(b) + y)[0] == StableStringify(b)[0];
    match a
    case Number(_) =>
      NumberUnique(a.text, b.text, x, y);
    case Str(_) =>
      QuoteUnique(a.s, b.s, x, y);
    case Arr(_) =>
      ArrayUnique(a.items, b.items, x, y);
    case Obj(_) =>
      ObjectUnique(a.fields, b.fields, x, y);
    case _ =>
      WordUnique(a, b, x, y);
  }

  /** What follows the first item of a list. */
  function AfterFirst(parts: seq<Text>, close: Unit, x: Text): Text
    requires parts != []
  {
    if |parts| == 1 then [close] + x else [COMMA] + (Join(parts[1..]) + [close] + x)
  }

  lemma JoinHead(parts: seq<Text>, close: Unit, x: Text)
    requires parts != []
    ensures Join(parts) + [close] + x == parts[0] + AfterFirst(parts, close, x)
  {
  }

  predicate IsWord(v: Json) { v.Undefined? || v.Null? || v.NonFinite? || v.Bool? }

  lemma WordUnique(a: Json, b: Json, x: Text, y: Text)
    requires IsWord(a) && IsWord(b) && StableStringify(a) + x == StableStringify(b) + y
    requires StableStringify(a)[0] == StableStringify(b)[0]
    ensures Meant(a) == Meant(b) && x == y
  {
    var s, t := StableStringify(a), StableStringify(b);
    assert |s| == |t|;
    assert x == (s + x)[|s|..] && y == (t + y)[|t|..];
  }

  lemma {:induction false} ArrayUnique(a: seq<Json>, b: seq<Json>, x: Text, y: Text)
    requires (forall i :: 0 <= i < |a| ==> IsRecord(a[i])) && (forall i :: 0 <= i < |b| ==> IsRecord(b[i]))
    requires StableStringify(Arr(a)) + x == StableStringify(Arr(b)) + y
    ensures MeantItems(a) == MeantItems(b) && x == y
    decreases a, |a| + 1
  {
    hide PrintItems, MeantItems, Meant, Join, IsRecord;
    var p, q := Join(PrintItems(a)) + [CLOSE_BRACKET] + x, Join(PrintItems(b)) + [CLOSE_BRACKET] + y;
    assert StableStringify(Arr(a)) + x == [OPEN_BRACKET] + p && StableStringify(Arr(b)) + y == [OPEN_BRACKET] + q;
    assert p == ([OPEN_BRACKET] + p)[1..] && q == ([OPEN_BRACKET] + q)[1..];
    ItemsUnique(a, b, x, y);
  }

  lemma {:induction false} ObjectUnique(f: seq<Field>, g: seq<Field>, x: Text, y: Text)
    requires DistinctKeys(f) && DistinctKeys(g)
    requires (forall i :: 0 <= i < |f| ==> IsRecord(f[i].value)) && (forall i :: 0 <= i < |g| ==> IsRecord(g[i].value))
    requires StableStringify(Obj(f)) + x == StableStringify(Obj(g)) + y
    ensures MeantFields(f) == MeantFields(g) && x == y
    decreases f, |Sort(Keys(f))| + 1
  {
    hide PrintFields, MeantFields, Meant, Join, Pairs, Sort, Keys, IsRecord, DistinctKeys;
    var ks, ls := Sort(Keys(f)), Sort(Keys(g));
    var p, q := Join(Pairs(ks, PrintFields(f))) + [CLOSE_BRACE] + x, Join(Pairs(ls, PrintFields(g))) + [CLOSE_BRACE] + y;
    assert StableStringify(Obj(f)) + x == [OPEN_BRACE] + p && StableStringify(Obj(g)) + y == [OPEN_BRACE] + q;
    assert p == ([OPEN_BRACE] + p)[1..] && q == ([OPEN_BRACE] + q)[1..];
    SortedKeys(f);
    SortedKeys(g);
    FieldsUnique(f, ks, g, ls, x, y);
  }

  lemma ListStart(parts: seq<Text>, close: Unit, y: Text)
    requires parts != [] && parts[0] != [] && parts[0][0] != close
    ensures Join(parts) + [close] + y != [] && (Join(parts) + [close] + y)[0] != close
  {
    hide Join, AfterFirst;
    JoinHead(parts, close, y);
    assert (parts[0] + AfterFirst(parts, close, y))[0] == parts[0][0];
  }

  lemma EmptyList(parts: seq<Text>, close: Unit, x: Text, y: Text)
    requires forall i :: 0 <= i < |parts| ==> parts[i] != [] && parts[i][0] != close
    requires [close] + x == Join(parts) + [close] + y
    ensures parts == [] && x == y
  {
    if parts != [] {
      ListStart(parts, close, y);
    } else {
      assert x == ([close] + x)[1..] && y == ([close] + y)[1..];
    }
  }

  /** After equal first items, either both lists end or both go on. */
  lemma SameRest(p: seq<Text>, q: seq<Text>, close: Unit, x: Text, y: Text)
    requires p != [] && q != [] && close != COMMA
    requires AfterFirst(p, close, x) == AfterFirst(q, close, y)
    ensures |p| == 1 <==> |q| == 1
    ensures if |p| == 1 then x == y else Join(p[1..]) + [close] + x == Join(q[1..]) + [close] + y
  {
    hide Join;
    var u, v := AfterFirst(p, close, x), AfterFirst(q, close, y);
    assert u[0] == v[0] && u[1..] == v[1..];
  }

  lemma {:induction false} ItemsUnique(a: seq<Json>, b: seq<Json>, x: Text, y: Text)
    requires (forall i :: 0 <= i < |a| ==> IsRecord(a[i])) && (forall i :: 0 <= i < |b| ==> IsRecord(b[i]))
    requires Join(PrintItems(a)) + [CLOSE_BRACKET] + x == Join(PrintItems(b)) + [CLOSE_BRACKET] + y
    ensures MeantItems(a) == MeantItems(b) && x == y
    decreases a, |a|
  {
    hide StableStringify, Meant, IsRecord, Join, AfterFirst, MeantItems, PrintItems, Ends;
    var p, q := PrintItems(a), PrintItems(b);
    if a == [] || b == [] {
      NoItems(a, b, x, y);
    } else {
      JoinHead(p, CLOSE_BRACKET, x);
      JoinHead(q, CLOSE_BRACKET, y);
      AfterFirstEnds(p, CLOSE_BRACKET, x);
      AfterFirstEnds(q, CLOSE_BRACKET, y);
      SameTextSameMeaning(a[0], b[0], AfterFirst(p, CLOSE_BRACKET, x), AfterFirst(q, CLOSE_BRACKET, y));
      SameRest(p, q, CLOSE_BRACKET, x, y);
      if |a| > 1 {
        assert p[1..] == PrintItems(a[1..]) && q[1..] == PrintItems(b[1..]);
        ItemsUnique(a[1..], b[1..], x, y);
      }
      assert a == [a[0]] + a[1..] && b == [b[0]] + b[1..];
      forall i | 0 <= i < |a| ensures |a| == |b| && MeantItems(a)[i] == MeantItems(b)[i] {
        if i > 0 {
          assert MeantItems(a[1..])[i - 1] == MeantItems(b[1..])[i - 1];
        }
      }
    }
  }

  lemma AfterFirstEnds(parts: seq<Text>, close: Unit, x: Text)
    requires parts != [] && !IsNumberUnit(close)
    ensures Ends(AfterFirst(parts, close, x))
  {
    hide Join;
  }

  lemma NoItems(a: seq<Json>, b: seq<Json>, x: Text, y: Text)
    requires a == [] || b == []
    requires Join(PrintItems(a)) + [CLOSE_BRACKET] + x == Join(PrintItems(b)) + [CLOSE_BRACKET] + y
    ensures a == b && x == y
  {
    hide StableStringify;
    forall v ensures StableStringify(v) != [] && StableStringify(v)[0] != CLOSE_BRACKET {
      FirstUnit(v);
    }
    if a == [] {
      assert Join(PrintItems(a)) + [CLOSE_BRACKET] + x == [CLOSE_BRACKET] + x;
      EmptyList(PrintItems(b), CLOSE_BRACKET, x, y);
    } else {
      assert Join(PrintItems(b)) + [CLOSE_BRACKET] + y == [CLOSE_BRACKET] + y;
      EmptyList(PrintItems(a), CLOSE_BRACKET, y, x);
    }
  }

  lemma NoFields(ks: seq<Text>, s: map<Text, Text>, ls: seq<Text>, t: map<Text, Text>, x: Text, y: Text)
    requires ks == [] || ls == []
    requires Join(Pairs(ks, s)) + [CLOSE_BRACE] + x == Join(Pairs(ls, t)) + [CLOSE_BRACE] + y
    ensures ks == ls && x == y
  {
    hide Escape;
    if ks == [] {
      assert Join(Pairs(ks, s)) + [CLOSE_BRACE] + x == [CLOSE_BRACE] + x;
      EmptyList(Pairs(ls, t), CLOSE_BRACE, x, y);
    } else {
      assert Join(Pairs(ls, t)) + [CLOSE_BRACE] + y == [CLOSE_BRACE] + y;
      EmptyList(Pairs(ks, s), CLOSE_BRACE, y, x);
    }
  }

  lemma IndexOf(f: seq<Field>, k: Text) returns (i: nat)
    requires DistinctKeys(f) && k in MeantFields(f)
    ensures i < |f| && f[i].key == k
    ensures MeantFields(f)[k] == Meant(f[i].value) && k in PrintFields(f) && PrintFields(f)[k] == StableStringify(f[i].value)
  {
    i :| i < |f| && f[i].key == k;
  }

  lemma {:induction false} FieldsUnique(f: seq<Field>, ks: seq<Text>, g: seq<Field>, ls: seq<Text>, x: Text, y: Text)
    requires DistinctKeys(f) && DistinctKeys(g)
    requires (forall i :: 0 <= i < |f| ==> IsRecord(f[i].value)) && (forall i :: 0 <= i < |g| ==> IsRecord(g[i].value))
    requires (forall k :: k in ks ==> k in MeantFields(f)) && (forall k :: k in ls ==> k in MeantFields(g))
    requires Join(Pairs(ks, PrintFields(f))) + [CLOSE_BRACE] + x == Join(Pairs(ls, PrintFields(g))) + [CLOSE_BRACE] + y
    ensures ks == ls && x == y
    ensures forall k :: k in ks ==> MeantFields(f)[k] == MeantFields(g)[k]
    decreases f, |ks|
  {
    hide StableStringify, Meant, IsRecord, Join, AfterFirst, MeantFields, PrintFields, Pairs, Pair, Ends, DistinctKeys;
    var p, q := Pairs(ks, PrintFields(f)), Pairs(ls, PrintFields(g));
    if ks == [] || ls == [] {
      NoFields(ks, PrintFields(f), ls, PrintFields(g), x, y);
    } else {
      JoinHead(p, CLOSE_BRACE, x);
      JoinHead(q, CLOSE_BRACE, y);
      AfterFirstEnds(p, CLOSE_BRACE, x);
      AfterFirstEnds(q, CLOSE_BRACE, y);
      var i := IndexOf(f, ks[0]);
      var j := IndexOf(g, ls[0]);
      var u, v := AfterFirst(p, CLOSE_BRACE, x), AfterFirst(q, CLOSE_BRACE, y);
      PairUnique(ks[0], StableStringify(f[i].value), u, ls[0], StableStringify(g[j].value), v);
      SameTextSameMeaning(f[i].value, g[j].value, u, v);
      SameRest(p, q, CLOSE_BRACE, x, y);
      if |ks| > 1 {
        assert p[1..] == Pairs(ks[1..], PrintFields(f)) && q[1..] == Pairs(ls[1..], PrintFields(g));
        FieldsUnique(f, ks[1..], g, ls[1..], x, y);
      }
      assert ks == [ks[0]] + ks[1..] && ls == [ls[0]] + ls[1..];
    }
  }

  lemma PairUnique(k: Text, a: Text, u: Text, l: Text, b: Text, v: Text)
    requires Pair(k, a) + u == Pair(l, b) + v
    ensures k == l && a + u == b + v
  {
    hide Quote;
    assert Pair(k, a) + u == Quote(k) + ([COLON] + (a + u));
    assert Pair(l, b) + v == Quote(l) + ([COLON] + (b + v));
    QuoteUnique(k, l, [COLON] + (a + u), [COLON] + (b + v));
    assert a + u == ([COLON] + (a + u))[1..] && b + v == ([COLON] + (b + v))[1..];
  }

  /** The canonical text identifies a payload up to the order of its fields. */
  lemma CanonicalTextIffSameMeaning(a: Json, b: Json)
    requires IsRecord(a) && IsRecord(b)
    ensures StableStringify(a) == StableStringify(b) <==> Meant(a) == Meant(b)
  {
    if StableStringify(a) == StableStringify(b) {
      SameTextSameMeaning(a, b, [], []);
    }
    if Meant(a) == Meant(b) {
      SameMeaningSameText(a, b);
    }
  }

  /** In particular, listing the same fields in another order changes nothing. */
  lemma KeyOrderIsIrrelevant(f: seq<Field>, g: seq<Field>)
    requires IsRecord(Obj(f)) && IsRecord(Obj(g)) && multiset(f) == multiset(g)
    ensures StableStringify(Obj(f)) == StableStringify(Obj(g))
  {
    forall k ensures k in MeantFields(f) <==> k in MeantFields(g) {
      SameField(f, g, k);
      SameField(g, f, k);
    }
    forall k | k in MeantFields(f) ensures MeantFields(f)[k] == MeantFields(g)[k] {
      SameField(f, g, k);
    }
    assert MeantFields(f) == MeantFields(g);
    SameMeaningSameText(Obj(f), Obj(g));
  }

  lemma SameField(f: seq<Field>, g: seq<Field>, k: Text)
    requires DistinctKeys(f) && DistinctKeys(g) && multiset(f) == multiset(g)
    ensures k in MeantFields(f) ==> k in MeantFields(g) && MeantFields(f)[k] == MeantFields(g)[k]
  {
    if k in MeantFields(f) {
      var i := IndexOf(f, k);
      assert f[i] in multiset(g);
      var j :| 0 <= j < |g| && g[j] == f[i];
    }
  }
}
