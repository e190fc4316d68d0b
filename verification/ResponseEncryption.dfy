/** The interceptor that encrypts annotated fields of a response on its way out. */
module ResponseEncryption {
  import opened Prelude
  import opened PrimaryKeys
  import Keys

  datatype JsValue =
    | Undefined
    | Null
    | Bool(b: bool)
    | Number(n: int)
    | Text(s: string)
    | Array(items: seq<JsValue>)
    | Object(ref: JsObject)

  /** An object on the heap: the name of its class and its own properties. */
  class JsObject {
    const className: string
    var props: map<string, JsValue>

    constructor (className: string, props: map<string, JsValue>)
      ensures this.className == className && this.props == props
    {
      this.className, this.props := className, props;
    }
  }

  predicate IsNullish(v: JsValue) {
    v.Undefined? || v.Null?
  }

  predicate IsFalsy(v: JsValue) {
    IsNullish(v) || v == Bool(false) || v == Number(0) || v == Text("")
  }

  /** `String(v)`. */
  function ToText(v: JsValue): string {
    match v
    case Undefined => "undefined"
    case Null => "null"
    case Bool(b) => if b then "true" else "false"
    case Number(n) => Keys.Decimal(n)
    case Text(s) => s
    case Array(items) => Joined(items)
    case Object(_) => "[object Object]"
  }

  function Joined(items: seq<JsValue>): string {
    if items == [] then ""
    else
      (if IsNullish(items[0]) then "" else ToText(items[0]))
      + if |items| == 1 then "" else "," + Joined(items[1..])
  }

  /** The properties of a spread array or text: one per index. */
  function Indexed(items: seq<JsValue>): map<string, JsValue> {
    if items == [] then map[]
    else Indexed(items[..|items| - 1])[Keys.Decimal(|items| - 1) := items[|items| - 1]]
  }

  /** A plain text encrypted once for each salt, the first salt innermost. */
  function Layered(c: Cipher, key: string, plain: string, salts: seq<nat>): string {
    if salts == [] then plain
    else EncryptPrimaryKey(c, Layered(c, key, plain, salts[..|salts| - 1]), key, salts[|salts| - 1])
  }

  /** A plain text encrypted so many times over, whatever the salts. */
  ghost predicate IsLayered(c: Cipher, key: string, times: nat, plain: string, w: JsValue) {
    exists salts: seq<nat> :: |salts| == times && w == Text(Layered(c, key, plain, salts))
  }

  /** A value that is set takes as many layers as its field has annotations. */
  ghost predicate IsField(c: Cipher, key: string, times: nat, v: JsValue, w: JsValue) {
    if times > 0 && !IsNullish(v) then IsLayered(c, key, times, ToText(v), w) else w == v
  }

  /** `after` is `before` with exactly the set annotated fields encrypted, each as often
      as it is annotated. */
  ghost predicate FieldsEncrypted(c: Cipher, key: string, fields: seq<string>,
                                  before: map<string, JsValue>, after: map<string, JsValue>)
  {
    after.Keys == before.Keys
    && forall f | f in before :: IsField(c, key, multiset(fields)[f], before[f], after[f])
  }

  lemma LayerUp(c: Cipher, key: string, times: nat, plain: string, w: JsValue, salt: nat)
    requires IsLayered(c, key, times, plain, w)
    ensures w.Text? && IsLayered(c, key, times + 1, plain, Text(EncryptPrimaryKey(c, w.s, key, salt)))
  {
    var salts: seq<nat> :| |salts| == times && w == Text(Layered(c, key, plain, salts));
    assert (salts + [salt])[..times] == salts;
    assert Text(EncryptPrimaryKey(c, w.s, key, salt)) == Text(Layered(c, key, plain, salts + [salt]));
  }

  /** One more annotation, one more layer. */
  lemma OneMoreLayer(c: Cipher, key: string, times: nat, v: JsValue, w: JsValue, salt: nat)
    requires IsField(c, key, times, v, w)
    ensures IsNullish(w) ==> IsField(c, key, times + 1, v, w)
    ensures !IsNullish(w) ==> IsField(c, key, times + 1, v, Text(EncryptPrimaryKey(c, ToText(w), key, salt)))
  {
    if times > 0 && !IsNullish(v) {
      LayerUp(c, key, times, ToText(v), w, salt);
    } else {
      assert Text(ToText(v)) == Text(Layered(c, key, ToText(v), []));
      LayerUp(c, key, 0, ToText(v), Text(ToText(v)), salt);
    }
  }

  function WithField(c: Cipher, key: string, props: map<string, JsValue>, field: string, salt: nat)
    : map<string, JsValue>
  {
    if field !in props || IsNullish(props[field]) then props
    else props[field := Text(EncryptPrimaryKey(c, ToText(props[field]), key, salt))]
  }

  /** The step of the loop over the annotations. */
  lemma OneMoreField(c: Cipher, key: string, fields: seq<string>, field: string, salt: nat,
                     before: map<string, JsValue>, after: map<string, JsValue>)
    requires FieldsEncrypted(c, key, fields, before, after)
    ensures FieldsEncrypted(c, key, fields + [field], before, WithField(c, key, after, field, salt))
  {
    forall f | f in before
      ensures multiset(fields + [field])[f] == multiset(fields)[f] + if f == field then 1 else 0
    {
    }
    if field in before { OneMoreLayer(c, key, multiset(fields)[field], before[field], after[field], salt); }
  }

  /** The own properties of a value, as the spread operator copies them. */
  function Spread(v: JsValue): map<string, JsValue>
    reads if v.Object? then {v.ref} else {}
  {
    match v
    case Object(ref) => ref.props
    case Array(items) => Indexed(items)
    case Text(s) => Indexed(seq(|s|, i requires 0 <= i < |s| => Text([s[i]])))
    case _ => map[]
  }

  /** `typeof v === 'object'`, null apart. */
  predicate IsObject(v: JsValue) {
    v.Object? || v.Array?
  }

  function Refs(items: seq<JsValue>): set<JsObject> {
    set v | v in items && v.Object? :: v.ref
  }

  /** The object does not occur in the arrays among these properties. */
  ghost predicate IsApart(o: JsObject, props: map<string, JsValue>) {
    forall k | k in props && props[k].Array? :: o !in Refs(props[k].items)
  }

  class EncryptPrimaryKeyInterceptor {
    const cipher: Cipher
    const key: string
    const annotated: map<string, seq<string>>

    /** `annotated` lists the encrypted fields of each class that has some.  A field that
        a subclass annotates again is listed, and encrypted, twice. */
    constructor (cipher: Cipher, key: string, annotated: map<string, seq<string>>)
      ensures this.cipher == cipher && this.key == key && this.annotated == annotated
    {
      this.cipher, this.key, this.annotated := cipher, key, annotated;
    }

    function FieldsOf(v: JsValue): seq<string> {
      if v.Object? && v.ref.className in annotated then annotated[v.ref.className] else []
    }

    /** `w` is a copy of `v` with exactly the annotated fields of its class encrypted. */
    ghost predicate IsEncryptedCopy(v: JsValue, w: JsValue)
      reads if v.Object? then {v.ref} else {}, if w.Object? then {w.ref} else {}
    {
      w.Object? && FieldsEncrypted(cipher, key, FieldsOf(v), Spread(v), w.ref.props)
    }

    ghost predicate ItemsEncrypted(items: seq<JsValue>, after: seq<JsValue>)
      reads Refs(items), Refs(after)
    {
      && |after| == |items|
      && forall i | 0 <= i < |items| ::
           if IsObject(items[i]) then IsEncryptedCopy(items[i], after[i]) else after[i] == items[i]
    }

    method Copy(props: map<string, JsValue>) returns (o: JsObject)
      ensures fresh(o) && o.props == props && IsApart(o, props)
    {
      o := new JsObject("Object", props);
    }

    /** Objects and arrays become new objects; what they held is left as it was. */
    method EncryptObject(v: JsValue) returns (w: JsValue)
      ensures if IsFalsy(v) then w == v else IsEncryptedCopy(v, w) && fresh(w.ref) && IsApart(w.ref, w.ref.props)
    {
      if IsFalsy(v) {
        return v;
      }
      var result := Copy(Spread(v));
      EncryptFields(result, FieldsOf(v));
      w := Object(result);
    }

    /** The loop over the annotations of a copy. */
    method EncryptFields(result: JsObject, fields: seq<string>)
      requires IsApart(result, result.props)
      modifies result
      ensures FieldsEncrypted(cipher, key, fields, old(result.props), result.props)
      ensures IsApart(result, result.props)
    {
      ghost var before := result.props;
      assert FieldsEncrypted(cipher, key, [], before, result.props);
      for i := 0 to |fields|
        invariant IsApart(result, result.props)
        invariant FieldsEncrypted(cipher, key, fields[..i], before, result.props)
      {
        ghost var now := result.props;
        var salt := EncryptField(result, fields[i]);
        assert fields[..i + 1] == fields[..i] + [fields[i]];
        OneMoreField(cipher, key, fields[..i], fields[i], salt, before, now);
      }
      assert fields[..|fields|] == fields;
    }

    method EncryptField(result: JsObject, field: string) returns (salt: nat)
      requires IsApart(result, result.props)
      modifies result
      ensures IsApart(result, result.props)
      ensures result.props == WithField(cipher, key, old(result.props), field, salt)
    {
      salt := *;
      if field in result.props && !IsNullish(result.props[field]) {
        var text := EncryptPrimaryKey(cipher, ToText(result.props[field]), key, salt);
        result.props := result.props[field := Text(text)];
      }
    }

    method EncryptItems(items: seq<JsValue>) returns (after: seq<JsValue>)
      ensures ItemsEncrypted(items, after)
      ensures forall i | 0 <= i < |after| && after[i].Object? :: fresh(after[i].ref)
    {
      after := [];
      for i := 0 to |items|
        invariant ItemsEncrypted(items[..i], after)
        invariant forall j | 0 <= j < |after| && after[j].Object? :: fresh(after[j].ref)
      {
        var item := items[i];
        if IsObject(item) {
          item := EncryptObject(item);
        }
        after := after + [item];
      }
      assert items[..|items|] == items;
    }

    /** What the client gets for a value: the value itself if it is falsy, else a new
        object.  Of its properties the annotated ones are encrypted, arrays have their
        object items encrypted in turn, and the rest is as it was. */
    ghost predicate IsResponse(v: JsValue, w: JsValue)
      reads *
    {
      if IsFalsy(v) then w == v
      else
        && w.Object? && w.ref.props.Keys == Spread(v).Keys
        && forall k | k in Spread(v) ::
             IsProperty(multiset(FieldsOf(v))[k], Spread(v)[k], w.ref.props[k])
    }

    ghost predicate IsProperty(times: nat, v: JsValue, w: JsValue)
      reads if v.Array? then Refs(v.items) else {}, if w.Array? then Refs(w.items) else {}
    {
      if times > 0 && !IsNullish(v) then IsLayered(cipher, key, times, ToText(v), w)
      else if v.Array? then w.Array? && ItemsEncrypted(v.items, w.items)
      else w == v
    }

    method EncryptResponse(data: JsValue) returns (w: JsValue)
      ensures IsResponse(data, w)
      ensures !IsFalsy(data) ==> fresh(w.ref)
      ensures data.Object? ==> data.ref.props == old(data.ref.props)
    {
      if IsFalsy(data) {
        return data;
      }
      w := EncryptObject(data);
      ghost var copied := w.ref.props;
      EncryptArrays(w.ref);
      forall k | k in Spread(data)
        ensures IsProperty(multiset(FieldsOf(data))[k], Spread(data)[k], w.ref.props[k])
      {
        assert IsProperty(0, copied[k], w.ref.props[k]);
      }
    }

    /** The second pass: arrays among the properties get new items. */
    method EncryptArrays(result: JsObject)
      requires IsApart(result, result.props)
      modifies result
      ensures result.props.Keys == old(result.props).Keys
      ensures forall k | k in result.props :: IsProperty(0, old(result.props)[k], result.props[k])
    {
      ghost var copied := result.props;
      var todo := result.props.Keys;
      while todo != {}
        invariant todo <= result.props.Keys == copied.Keys
        invariant forall k | k in todo :: result.props[k] == copied[k]
        invariant forall k | k in copied && k !in todo :: IsProperty(0, copied[k], result.props[k])
        invariant IsApart(result, result.props)
        decreases |todo|
      {
        var k :| k in todo;
        todo := todo - {k};
        EncryptArray(result, k);
      }
    }

    method EncryptArray(result: JsObject, k: string)
      requires k in result.props && IsApart(result, result.props)
      modifies result
      ensures k in result.props && result.props == old(result.props)[k := result.props[k]]
      ensures IsProperty(0, old(result.props)[k], result.props[k]) && IsApart(result, result.props)
    {
      if result.props[k].Array? {
        var items := EncryptItems(result.props[k].items);
        result.props := result.props[k := Array(items)];
      }
    }
  }

  /** What was encrypted once comes back: sent in a URL and decoded on the way as often as
      may be, it passes the decrypting pipe as the original text, unless that is empty. */
  lemma ClientsRecover(c: Cipher, key: string, plain: string, w: JsValue, times: nat)
    requires Sound(c) && IsLayered(c, key, 1, plain, w)
    ensures w.Text?
    ensures var arrived := DecodedTimes(w.s, times);
            arrived.Some? && (Transform(c, arrived.value, key) == Ok(plain) <==> plain != "")
  {
    var salts: seq<nat> :| |salts| == 1 && w == Text(Layered(c, key, plain, salts));
    assert salts[..0] == [] && Layered(c, key, plain, salts[..0]) == plain;
    assert w == Text(EncryptPrimaryKey(c, plain, key, salts[0]));
    PipeRecoversIff(c, plain, key, salts[0], times);
  }

  function DecryptedTimes(c: Cipher, s: string, key: string, times: nat): Option<string>
    decreases times
  {
    if times == 0 then Some(s)
    else
      var once := DecryptPrimaryKey(c, s, key);
      if once.None? then None else DecryptedTimes(c, once.value, key, times - 1)
  }

  lemma {:induction false} SaltsPeel(c: Cipher, key: string, plain: string, salts: seq<nat>)
    requires Sound(c)
    ensures DecryptedTimes(c, Layered(c, key, plain, salts), key, |salts|) == Some(plain)
    decreases |salts|
  {
    if salts != [] {
      var rest := salts[..|salts| - 1];
      SaltsPeel(c, key, plain, rest);
      PrimaryKeyRoundTrip(c, Layered(c, key, plain, rest), key, salts[|salts| - 1], 0);
    }
  }

  /** A field annotated several times comes back after as many decryptions. */
  lemma LayersPeel(c: Cipher, key: string, times: nat, plain: string, w: JsValue)
    requires Sound(c) && IsLayered(c, key, times, plain, w)
    ensures w.Text? && DecryptedTimes(c, w.s, key, times) == Some(plain)
  {
    var salts: seq<nat> :| |salts| == times && w == Text(Layered(c, key, plain, salts));
    SaltsPeel(c, key, plain, salts);
  }

  lemma {:induction false} IndexedAt(items: seq<JsValue>, i: nat)
    requires i < |items|
    ensures Keys.Decimal(i) in Indexed(items) && Indexed(items)[Keys.Decimal(i)] == items[i]
    decreases |items|
  {
    var n := |items| - 1;
    if i < n {
      IndexedAt(items[..n], i);
      if Keys.Decimal(i) == Keys.Decimal(n) { Keys.DecimalIsInjective(i, n); }
    }
  }

  /** A response that is an array itself reaches the client as an object keyed by
      position, with nothing encrypted in the objects it holds. */
  lemma TopLevelArrayStaysPlain(e: EncryptPrimaryKeyInterceptor, items: seq<JsValue>, w: JsValue, i: nat)
    requires e.IsResponse(Array(items), w) && i < |items| && items[i].Object?
    ensures w.Object? && Keys.Decimal(i) in w.ref.props && w.ref.props[Keys.Decimal(i)] == items[i]
  {
    IndexedAt(items, i);
    var k := Keys.Decimal(i);
    assert e.IsProperty(multiset(e.FieldsOf(Array(items)))[k], Spread(Array(items))[k], w.ref.props[k]);
  }

  // ---- What the client can read ----

  /** How often a class lists a field. */
  function Listed(e: EncryptPrimaryKeyInterceptor, className: string, field: string): nat {
    if className !in e.annotated then 0 else multiset(e.annotated[className])[field]
  }

  /** The text a client should recover: the digits of a number, text as it is. */
  ghost predicate IsTextOf(v: JsValue, text: string) {
    match v
    case Number(n) => n >= 0 ==> Keys.ParseDigits(text) == n
    case Text(s) => text == s
    case Bool(b) => text == if b then "true" else "false"
    case _ => true
  }

  lemma ToTextIsText(v: JsValue)
    ensures IsTextOf(v, ToText(v))
  {
    if v.Number? && v.n >= 0 { Keys.DigitsRoundTrip(v.n); }
  }

  /** A set field that its class lists n times comes back after n decryptions as the text of
      its value; a field that is not listed or not set is the value itself. */
  ghost predicate IsRecoverable(e: EncryptPrimaryKeyInterceptor, className: string, f: string, v: JsValue, w: JsValue) {
    var n := Listed(e, className, f);
    if n > 0 && !IsNullish(v) then
      w.Text? && exists text :: IsTextOf(v, text) && DecryptedTimes(e.cipher, w.s, e.key, n) == Some(text)
    else w == v
  }

  lemma LayersAreRecoverable(e: EncryptPrimaryKeyInterceptor, className: string, f: string, v: JsValue, w: JsValue)
    requires Sound(e.cipher) && Listed(e, className, f) > 0 && !IsNullish(v)
    requires IsLayered(e.cipher, e.key, Listed(e, className, f), ToText(v), w)
    ensures IsRecoverable(e, className, f, v, w)
  {
    LayersPeel(e.cipher, e.key, Listed(e, className, f), ToText(v), w);
    ToTextIsText(v);
  }

  /** Field by field, what a response shows of an object: listed fields that are set can be
      recovered, arrays that are not listed have items of their own, and all else is as it
      was.  No field is lost and none is new. */
  lemma ResponseIsRecoverable(e: EncryptPrimaryKeyInterceptor, o: JsObject, w: JsValue, f: string)
    requires Sound(e.cipher) && e.IsResponse(Object(o), w)
    ensures w.Object? && w.ref.props.Keys == o.props.Keys
    ensures f in o.props && (Listed(e, o.className, f) > 0 || !o.props[f].Array?) ==>
              IsRecoverable(e, o.className, f, o.props[f], w.ref.props[f])
  {
    if f in o.props {
      assert e.IsProperty(multiset(e.FieldsOf(Object(o)))[f], Spread(Object(o))[f], w.ref.props[f]);
      if Listed(e, o.className, f) > 0 && !IsNullish(o.props[f]) {
        LayersAreRecoverable(e, o.className, f, o.props[f], w.ref.props[f]);
      }
    }
  }

  /** The same for an object among the items of an array that is not listed itself; items
      that are no objects stay. */
  lemma ItemsAreRecoverable(e: EncryptPrimaryKeyInterceptor, o: JsObject, w: JsValue, k: string, i: nat, f: string)
    requires Sound(e.cipher) && e.IsResponse(Object(o), w)
    requires k in o.props && Listed(e, o.className, k) == 0 && o.props[k].Array? && i < |o.props[k].items|
    ensures w.Object? && k in w.ref.props && w.ref.props[k].Array?
    ensures |w.ref.props[k].items| == |o.props[k].items|
    ensures var item, shown := o.props[k].items[i], w.ref.props[k].items[i];
            && (!IsObject(item) ==> shown == item)
            && (item.Object? ==>
                  && shown.Object? && shown.ref.props.Keys == item.ref.props.Keys
                  && (f in item.ref.props ==>
                        IsRecoverable(e, item.ref.className, f, item.ref.props[f], shown.ref.props[f])))
  {
    assert e.IsProperty(multiset(e.FieldsOf(Object(o)))[k], Spread(Object(o))[k], w.ref.props[k]);
    var item, shown := o.props[k].items[i], w.ref.props[k].items[i];
    if item.Object? && f in item.ref.props {
      assert e.IsEncryptedCopy(item, shown);
      var n := Listed(e, item.ref.className, f);
      assert IsField(e.cipher, e.key, n, item.ref.props[f], shown.ref.props[f]);
      if n > 0 && !IsNullish(item.ref.props[f]) {
        LayersAreRecoverable(e, item.ref.className, f, item.ref.props[f], shown.ref.props[f]);
      }
    }
  }

  /** Responses that are no objects: empty ones pass as they are, a text becomes an object of
      its characters, any other number and `true` an object without properties. */
  lemma OtherResponses(e: EncryptPrimaryKeyInterceptor, v: JsValue, w: JsValue, i: nat)
    requires e.IsResponse(v, w) && !v.Object? && !v.Array?
    ensures v.Undefined? || v.Null? || v == Bool(false) || v == Number(0) || v == Text("") ==> w == v
    ensures v == Bool(true) || (v.Number? && v.n != 0) ==> w.Object? && w.ref.props == map[]
    ensures v.Text? && i < |v.s| ==>
              w.Object? && Keys.Decimal(i) in w.ref.props && w.ref.props[Keys.Decimal(i)] == Text([v.s[i]])
  {
    if v.Text? && i < |v.s| {
      var items := seq(|v.s|, k requires 0 <= k < |v.s| => Text([v.s[k]]));
      IndexedAt(items, i);
      var k := Keys.Decimal(i);
      assert e.IsProperty(multiset(e.FieldsOf(v))[k], Spread(v)[k], w.ref.props[k]);
    } else if v == Bool(true) || (v.Number? && v.n != 0) {
      assert w.ref.props.Keys == {};
    }
  }
}
