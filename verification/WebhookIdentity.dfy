/** What a received payload is filed under: two payloads are one event exactly when they mean the same. */
module WebhookIdentity {
  import opened Wrappers
  import opened CanonicalJson
  import opened CanonicalJsonProofs

  predicate IsAscii(s: string) { forall i :: 0 <= i < |s| ==> s[i] < '\U{0080}' }

  function Units(s: string): Text
    requires IsAscii(s)
  {
    seq(|s|, i requires 0 <= i < |s| => s[i] as int)
  }

  /** Property access: what is not there is undefined, also on values that are not objects. */
  function Prop(v: Json, key: Text): Json { if v.Obj? then FieldOf(v.fields, key) else Undefined }

  function FieldOf(fields: seq<Field>, key: Text): Json {
    if fields == [] then Undefined
    else if fields[0].key == key then fields[0].value
    else FieldOf(fields[1..], key)
  }

  /** The operator ??, on parsed JSON. */
  function Else(v: Json, other: Json): Json { if v.Undefined? || v.Null? then other else v }

  function TextOf(v: Json): Option<Text> { if v.Str? then Some(v.s) else None }

  function PayloadId(v: Json): Option<Text> {
    TextOf(Else(Prop(v, Units("id")), Else(Prop(v, Units("eventId")),
      Else(Prop(v, Units("webhookId")), Prop(v, Units("endToEndId"))))))
  }

  function FirstPix(v: Json): Json {
    var pix := Prop(v, Units("pix"));
    if pix.Arr? && pix.items != [] then pix.items[0] else Undefined
  }

  /** The txid of the payload itself, of its first pix, or of its charge. */
  function TxidOf(v: Json): Option<Text> {
    var direct := TextOf(Prop(v, Units("txid")));
    var ofPix := TextOf(Prop(FirstPix(v), Units("txid")));
    if direct.Some? then direct
    else if ofPix.Some? then ofPix
    else TextOf(Prop(Prop(v, Units("cob")), Units("txid")))
  }

  /** The key of a stored event: its base id, and the canonical text that is hashed. */
  datatype EventKey = EventKey(base: Text, body: Text)

  /** In a JavaScript condition the empty string counts as absent. */
  predicate IsTruthy(t: Option<Text>) { t.Some? && t.value != [] }

  /** None where the request is rejected: not an object, or neither txid nor id. */
  function KeyOf(v: Json): Option<EventKey> {
    var id := PayloadId(v);
    if !v.Obj? || (!IsTruthy(TxidOf(v)) && !IsTruthy(id)) then None
    else Some(EventKey(if id.Some? then id.value else TxidOf(v).value, StableStringify(v)))
  }

  // ----- which payloads are accepted, and under which key -----

  /** The first of some properties that is neither missing nor null. */
  function FirstOf(v: Json, keys: seq<Text>): Json {
    if keys == [] then Undefined
    else
      var p := Prop(v, keys[0]);
      if p == Undefined || p == Null then FirstOf(v, keys[1..]) else p
  }

  const ID_KEYS: seq<Text> := [Units("id"), Units("eventId"), Units("webhookId"), Units("endToEndId")]

  /** A text at txid is the txid; failing that one at pix[0].txid; failing that one at cob.txid; and nothing else. */
  lemma TxidByPlace(v: Json, x: Text)
    ensures var txid, pix, cob := Prop(v, Units("txid")), Prop(v, Units("pix")), Prop(v, Units("cob"));
            var first := if pix.Arr? && |pix.items| > 0 then Prop(pix.items[0], Units("txid")) else Undefined;
            && (txid == Str(x) ==> TxidOf(v) == Some(x))
            && (!txid.Str? && first == Str(x) ==> TxidOf(v) == Some(x))
            && (!txid.Str? && !first.Str? && Prop(cob, Units("txid")) == Str(x) ==> TxidOf(v) == Some(x))
            && (!txid.Str? && !first.Str? && !Prop(cob, Units("txid")).Str? ==> TxidOf(v) == None)
  {
    hide FieldOf, Units;
  }

  lemma IdByPlace(v: Json)
    ensures PayloadId(v) == if FirstOf(v, ID_KEYS).Str? then Some(FirstOf(v, ID_KEYS).s) else None
  {
    hide Prop, Units, FirstOf;
    var b, c, d: seq<Text> := ID_KEYS[1..], ID_KEYS[2..], ID_KEYS[3..];
    assert b[1..] == c && c[1..] == d && |d[1..]| == 0;
    FirstOfStep(v, ID_KEYS);
    FirstOfStep(v, b);
    FirstOfStep(v, c);
    FirstOfStep(v, d);
    FirstOfStep(v, d[1..]);
  }

  lemma FirstOfStep(v: Json, keys: seq<Text>)
    ensures FirstOf(v, keys) ==
              if keys == [] then Undefined
              else if Prop(v, keys[0]) == Undefined || Prop(v, keys[0]) == Null then FirstOf(v, keys[1..])
              else Prop(v, keys[0])
  {
  }

  /** An object is accepted exactly when its txid or its id is a non-empty text; its base id is the id if that is a text,
      and else the txid. */
  lemma AcceptedIff(v: Json)
    ensures KeyOf(v).Some? <==> v.Obj? && ((exists x :: x != [] && TxidOf(v) == Some(x))
                                           || (FirstOf(v, ID_KEYS).Str? && FirstOf(v, ID_KEYS).s != []))
    ensures KeyOf(v).Some? ==>
              && KeyOf(v).value.body == StableStringify(v)
              && (FirstOf(v, ID_KEYS).Str? ==> KeyOf(v).value.base == FirstOf(v, ID_KEYS).s)
              && (!FirstOf(v, ID_KEYS).Str? ==> TxidOf(v) == Some(KeyOf(v).value.base))
  {
    hide FirstOf, TxidOf, PayloadId, StableStringify;
    IdByPlace(v);
    if IsTruthy(TxidOf(v)) {
      var x := TxidOf(v).value;
      assert x != [] && TxidOf(v) == Some(x);
    }
  }

  /** The provider's usual notice names its txid in the first pix only, and is accepted under it. */
  lemma PixNoticeAccepted(x: Text)
    requires x != []
    ensures var v := Obj([Field(Units("pix"), Arr([Obj([Field(Units("txid"), Str(x))])]))]);
            TxidOf(v) == Some(x) && KeyOf(v) == Some(EventKey(x, StableStringify(v)))
  {
    var inner := Obj([Field(Units("txid"), Str(x))]);
    var v := Obj([Field(Units("pix"), Arr([inner]))]);
    assert |Units("pix")| == 3 && |Units("txid")| == 4 && |Units("cob")| == 3 && |Units("id")| == 2;
    assert |Units("eventId")| == 7 && |Units("webhookId")| == 9 && |Units("endToEndId")| == 10;
    hide Units, StableStringify, Prop;
    forall k ensures Prop(v, k) == if k == Units("pix") then Arr([inner]) else Undefined {
      OneField(Units("pix"), Arr([inner]), k);
    }
    OneField(Units("txid"), Str(x), Units("txid"));
    TxidByPlace(v, x);
    assert PayloadId(v) == None;
  }

  lemma OneField(name: Text, value: Json, k: Text)
    ensures Prop(Obj([Field(name, value)]), k) == if k == name then value else Undefined
  {
    var fields: seq<Field> := [Field(name, value)];
    assert |fields[1..]| == 0;
    assert FieldOf(fields[1..], k) == Undefined;
  }

  /** No number too large to print: such a number prints as null, but is not skipped as null is. */
  predicate InRange(v: Json) {
    match v
    case NonFinite => false
    case Arr(items) => forall i :: 0 <= i < |items| ==> InRange(items[i])
    case Obj(fields) => forall i :: 0 <= i < |fields| ==> InRange(fields[i].value)
    case _ => true
  }

  predicate IsPayload(v: Json) { IsRecord(v) && InRange(v) }

  lemma {:induction false} FieldFound(fields: seq<Field>, key: Text)
    requires DistinctKeys(fields)
    ensures FieldOf(fields, key) == Undefined || exists i :: 0 <= i < |fields| && fields[i].key == key
    ensures forall i :: 0 <= i < |fields| && fields[i].key == key ==> FieldOf(fields, key) == fields[i].value
  {
    if fields != [] {
      FieldFound(fields[1..], key);
    }
  }

  lemma FieldMeans(fields: seq<Field>, key: Text)
    requires IsPayload(Obj(fields))
    ensures IsPayload(FieldOf(fields, key))
    ensures Meant(FieldOf(fields, key)) == if key in MeantFields(fields) then MeantFields(fields)[key] else MNull
  {
    hide MeantFields;
    FieldFound(fields, key);
    if key in MeantFields(fields) {
      var i := IndexOf(fields, key);
    }
  }

  /** Reading a property gives the same, up to meaning, from payloads that mean the same. */
  lemma PropMeans(a: Json, b: Json, key: Text)
    requires IsPayload(a) && IsPayload(b) && Meant(a) == Meant(b)
    ensures IsPayload(Prop(a, key)) && IsPayload(Prop(b, key))
    ensures Meant(Prop(a, key)) == Meant(Prop(b, key))
  {
    hide IsPayload, MeantFields, MeantItems;
    assert a.Obj? <==> b.Obj?;
    if a.Obj? {
      FieldMeans(a.fields, key);
      FieldMeans(b.fields, key);
    } else {
      assert IsPayload(Undefined) by { IsUndefinedPayload(); }
    }
  }

  lemma IsUndefinedPayload()
    ensures IsPayload(Undefined)
  {
  }

  lemma TextMeans(a: Json, b: Json)
    requires Meant(a) == Meant(b)
    ensures TextOf(a) == TextOf(b)
  {
  }

  lemma ElseMeans(a: Json, b: Json, x: Json, y: Json)
    requires IsPayload(a) && IsPayload(b) && Meant(a) == Meant(b) && Meant(x) == Meant(y)
    ensures Meant(Else(a, x)) == Meant(Else(b, y))
  {
  }

  lemma PayloadIdMeans(a: Json, b: Json)
    requires IsPayload(a) && IsPayload(b) && Meant(a) == Meant(b)
    ensures PayloadId(a) == PayloadId(b)
  {
    hide IsPayload, Meant, Prop, Else, TextOf;
    var id, event, webhook, endToEnd := Units("id"), Units("eventId"), Units("webhookId"), Units("endToEndId");
    PropMeans(a, b, id);
    PropMeans(a, b, event);
    PropMeans(a, b, webhook);
    PropMeans(a, b, endToEnd);
    var x, y := Else(Prop(a, webhook), Prop(a, endToEnd)), Else(Prop(b, webhook), Prop(b, endToEnd));
    ElseMeans(Prop(a, webhook), Prop(b, webhook), Prop(a, endToEnd), Prop(b, endToEnd));
    ElseMeans(Prop(a, event), Prop(b, event), x, y);
    ElseMeans(Prop(a, id), Prop(b, id), Else(Prop(a, event), x), Else(Prop(b, event), y));
    TextMeans(Else(Prop(a, id), Else(Prop(a, event), x)), Else(Prop(b, id), Else(Prop(b, event), y)));
  }

  lemma FirstItemMeans(a: Json, b: Json)
    requires IsPayload(a) && IsPayload(b) && Meant(a) == Meant(b) && a.Arr? && a.items != []
    ensures b.Arr? && b.items != [] && IsPayload(a.items[0]) && IsPayload(b.items[0])
    ensures Meant(a.items[0]) == Meant(b.items[0])
  {
    assert |MeantItems(a.items)| == |MeantItems(b.items)| && MeantItems(a.items)[0] == MeantItems(b.items)[0];
  }

  lemma TxidMeans(a: Json, b: Json)
    requires IsPayload(a) && IsPayload(b) && Meant(a) == Meant(b)
    ensures TxidOf(a) == TxidOf(b)
  {
    hide IsPayload, Meant, Prop, TextOf;
    var txid, pix, cob := Units("txid"), Units("pix"), Units("cob");
    PropMeans(a, b, txid);
    TextMeans(Prop(a, txid), Prop(b, txid));
    PropMeans(a, b, pix);
    FirstPixMeans(a, b);
    PropMeans(FirstPix(a), FirstPix(b), txid);
    TextMeans(Prop(FirstPix(a), txid), Prop(FirstPix(b), txid));
    PropMeans(a, b, cob);
    PropMeans(Prop(a, cob), Prop(b, cob), txid);
    TextMeans(Prop(Prop(a, cob), txid), Prop(Prop(b, cob), txid));
  }

  lemma FirstPixMeans(a: Json, b: Json)
    requires IsPayload(a) && IsPayload(b) && Meant(a) == Meant(b)
    ensures IsPayload(FirstPix(a)) && IsPayload(FirstPix(b)) && Meant(FirstPix(a)) == Meant(FirstPix(b))
  {
    hide IsPayload, Meant, Prop;
    IsUndefinedPayload();
    var x, y := Prop(a, Units("pix")), Prop(b, Units("pix"));
    PropMeans(a, b, Units("pix"));
    if x.Arr? && x.items != [] {
      FirstItemMeans(x, y);
    } else if y.Arr? && y.items != [] {
      FirstItemMeans(y, x);
    }
  }

  /** Two payloads are accepted under one event key exactly when they mean the same: a repeated delivery is recognised
      whatever the order of its fields, and nothing else is taken for one. */
  lemma SameEventIff(a: Json, b: Json)
    requires IsPayload(a) && IsPayload(b) && KeyOf(a).Some?
    ensures KeyOf(a) == KeyOf(b) <==> Meant(a) == Meant(b)
  {
    hide PayloadId, TxidOf;
    CanonicalTextIffSameMeaning(a, b);
    if Meant(a) == Meant(b) {
      PayloadIdMeans(a, b);
      TxidMeans(a, b);
    }
  }

  function WithId(id: Json, eventId: Text, txid: Text): Json {
    Obj([Field(Units("id"), id), Field(Units("eventId"), Str(eventId)), Field(Units("txid"), Str(txid))])
  }

  /** A number out of range in the place of an id is what can break this: the texts agree, the base ids do not. */
  lemma OutOfRangeId(eventId: Text, txid: Text)
    requires eventId != txid && txid != []
    ensures var a, b := WithId(Null, eventId, txid), WithId(NonFinite, eventId, txid);
            Meant(a) == Meant(b) && StableStringify(a) == StableStringify(b)
            && KeyOf(a) == Some(EventKey(eventId, StableStringify(a)))
            && KeyOf(b) == Some(EventKey(txid, StableStringify(a)))
  {
    var a, b := WithId(Null, eventId, txid), WithId(NonFinite, eventId, txid);
    WithIdFields(Null, eventId, txid);
    WithIdFields(NonFinite, eventId, txid);
    SameButForId(eventId, txid);
    SameMeaningSameText(a, b);
    KeyWithNull(a, eventId, txid);
    KeyWithNonFinite(b, txid);
  }

  lemma KeyWithNull(a: Json, eventId: Text, txid: Text)
    requires a.Obj? && Prop(a, Units("id")) == Null && Prop(a, Units("eventId")) == Str(eventId)
    requires Prop(a, Units("txid")) == Str(txid) && txid != []
    ensures KeyOf(a) == Some(EventKey(eventId, StableStringify(a)))
  {
    hide StableStringify, Prop, Units, FirstPix;
  }

  lemma KeyWithNonFinite(a: Json, txid: Text)
    requires a.Obj? && Prop(a, Units("id")) == NonFinite && Prop(a, Units("txid")) == Str(txid) && txid != []
    ensures KeyOf(a) == Some(EventKey(txid, StableStringify(a)))
  {
    hide StableStringify, Prop, Units, FirstPix;
  }

  lemma SameButForId(eventId: Text, txid: Text)
    ensures Meant(WithId(Null, eventId, txid)) == Meant(WithId(NonFinite, eventId, txid))
  {
    hide Units, MeantFields;
    var f, g := WithId(Null, eventId, txid).fields, WithId(NonFinite, eventId, txid).fields;
    assert f[1..] == g[1..];
    FirstField(f);
    FirstField(g);
  }

  lemma FirstField(fields: seq<Field>)
    requires fields != []
    ensures MeantFields(fields) == MeantFields(fields[1..])[fields[0].key := Meant(fields[0].value)]
  {
    hide Meant;
  }

  lemma WithIdFields(id: Json, eventId: Text, txid: Text)
    requires IsRecord(id)
    ensures var a := WithId(id, eventId, txid);
            && IsRecord(a) && Prop(a, Units("id")) == id && Prop(a, Units("eventId")) == Str(eventId)
            && Prop(a, Units("txid")) == Str(txid)
  {
    hide Units;
    var fields := WithId(id, eventId, txid).fields;
    NamesDiffer();
    assert IsRecord(Str(eventId)) && IsRecord(Str(txid));
    assert DistinctKeys(fields) && forall i :: 0 <= i < |fields| ==> IsRecord(fields[i].value);
    assert FieldOf(fields, Units("id")) == id;
    assert FieldOf(fields, Units("eventId")) == FieldOf(fields[1..], Units("eventId")) == Str(eventId);
    assert FieldOf(fields, Units("txid")) == FieldOf(fields[1..], Units("txid"))
      == FieldOf(fields[1..][1..], Units("txid")) == Str(txid);
  }

  lemma NamesDiffer()
    ensures Units("id") != Units("eventId") && Units("id") != Units("txid") && Units("eventId") != Units("txid")
  {
    assert |Units("id")| == 2 && |Units("eventId")| == 7 && |Units("txid")| == 4;
  }
}
