/** Response bodies, and what survives a trip through JSON text. */
module Json {

  /** A handler's result before it is serialised.  `Timestamp` is a Date. */
  datatype Js =
    | Undefined
    | Null
    | Bool(b: bool)
    | Num(n: int)
    | Str(s: string)
    | Timestamp(iso: string)
    | Arr(items: seq<Js>)
    | Obj(fields: seq<Field>)

  datatype Field = Field(name: string, value: Js)

  /** `JSON.parse(JSON.stringify(v))`: dates become text, undefined properties
      disappear and undefined array items become null. */
  function Wire(v: Js): Js
    decreases v
  {
    match v
    case Timestamp(iso) => Str(iso)
    case Arr(items) => Arr(WireItems(items))
    case Obj(fields) => Obj(WireFields(fields))
    case _ => v
  }

  function WireItems(items: seq<Js>): seq<Js>
    decreases items
  {
    if items == [] then []
    else
      var w := Wire(items[0]);
      [if w.Undefined? then Null else w] + WireItems(items[1..])
  }

  function WireFields(fields: seq<Field>): seq<Field>
    decreases fields
  {
    if fields == [] then []
    else
      var f, rest := fields[0], WireFields(fields[1..]);
      if f.value.Undefined? then rest else [Field(f.name, Wire(f.value))] + rest
  }

  /** A second trip through JSON changes nothing: a stored body is sent again as
      the same text. */
  lemma {:induction false} WireIsIdempotent(v: Js)
    ensures Wire(Wire(v)) == Wire(v)
    decreases v
  {
    match v
    case Arr(items) => WireItemsIsIdempotent(items);
    case Obj(fields) => WireFieldsIsIdempotent(fields);
    case _ =>
  }

  lemma {:induction false} WireItemsIsIdempotent(items: seq<Js>)
    ensures WireItems(WireItems(items)) == WireItems(items)
    decreases items
  {
    if items != [] {
      WireIsIdempotent(items[0]);
      WireItemsIsIdempotent(items[1..]);
      assert WireItems(items)[1..] == WireItems(items[1..]);
    }
  }

  lemma {:induction false} WireFieldsIsIdempotent(fields: seq<Field>)
    ensures WireFields(WireFields(fields)) == WireFields(fields)
    decreases fields
  {
    if fields != [] {
      WireFieldsIsIdempotent(fields[1..]);
      var f := fields[0];
      if !f.value.Undefined? {
        WireIsIdempotent(f.value);
        assert WireFields(fields)[1..] == WireFields(fields[1..]);
      }
    }
  }

  // ---- What survives ----

  /** Nothing in it is a date or undefined. */
  predicate IsPlain(v: Js)
    decreases v
  {
    match v
    case Undefined => false
    case Timestamp(_) => false
    case Arr(items) => forall i | 0 <= i < |items| :: IsPlain(items[i])
    case Obj(fields) => forall i | 0 <= i < |fields| :: IsPlain(fields[i].value)
    case _ => true
  }

  /** A plain body arrives as it was sent. */
  lemma {:induction false} PlainSurvives(v: Js)
    requires IsPlain(v)
    ensures Wire(v) == v
    decreases v
  {
    match v
    case Arr(items) => PlainItemsSurvive(items);
    case Obj(fields) => PlainFieldsSurvive(fields);
    case _ =>
  }

  lemma {:induction false} PlainItemsSurvive(items: seq<Js>)
    requires forall i | 0 <= i < |items| :: IsPlain(items[i])
    ensures WireItems(items) == items
    decreases items
  {
    if items != [] {
      PlainSurvives(items[0]);
      PlainItemsSurvive(items[1..]);
    }
  }

  lemma {:induction false} PlainFieldsSurvive(fields: seq<Field>)
    requires forall i | 0 <= i < |fields| :: IsPlain(fields[i].value)
    ensures WireFields(fields) == fields
    decreases fields
  {
    if fields != [] {
      PlainSurvives(fields[0].value);
      PlainFieldsSurvive(fields[1..]);
    }
  }

  /** Item by item: what is undefined becomes null, everything else its own text. */
  lemma {:induction false} ItemsSurvive(items: seq<Js>, i: nat)
    requires i < |items|
    ensures |WireItems(items)| == |items|
    ensures WireItems(items)[i] == if items[i] == Undefined then Null else Wire(items[i])
    decreases |items|
  {
    if |items| > 1 { ItemsSurvive(items[1..], if i == 0 then 0 else i - 1); }
  }

  /** The names of the fields that are set. */
  function SetNames(fields: seq<Field>): seq<string> {
    if fields == [] then []
    else (if fields[0].value == Undefined then [] else [fields[0].name]) + SetNames(fields[1..])
  }

  function Names(fields: seq<Field>): seq<string> {
    seq(|fields|, i requires 0 <= i < |fields| => fields[i].name)
  }

  lemma {:induction false} NamesSurvive(fields: seq<Field>)
    ensures Names(WireFields(fields)) == SetNames(fields)
    decreases |fields|
  {
    if fields != [] { NamesSurvive(fields[1..]); }
  }

  lemma {:induction false} ValuesSurvive(fields: seq<Field>, name: string, value: Js)
    ensures Field(name, value) in WireFields(fields)
            <==> exists i :: 0 <= i < |fields| && fields[i].value != Undefined && fields[i].name == name
                             && Wire(fields[i].value) == value
    decreases |fields|
  {
    if fields != [] {
      var rest := fields[1..];
      ValuesSurvive(rest, name, value);
      if i :| 0 <= i < |rest| && rest[i].value != Undefined && rest[i].name == name && Wire(rest[i].value) == value {
        assert fields[i + 1] == rest[i];
      }
      assert forall i | 0 < i < |fields| :: fields[i] == rest[i - 1];
    }
  }

  /** Exactly the set fields arrive, in their order, each with its own value. */
  lemma FieldsSurvive(fields: seq<Field>, name: string, value: Js)
    ensures Names(WireFields(fields)) == SetNames(fields)
    ensures Field(name, value) in WireFields(fields)
            <==> exists i :: 0 <= i < |fields| && fields[i].value != Undefined && fields[i].name == name
                             && Wire(fields[i].value) == value
  {
    NamesSurvive(fields);
    ValuesSurvive(fields, name, value);
  }

  /** Dates arrive as their ISO text, and text, numbers and booleans as they are. */
  lemma ScalarsSurvive(iso: string, s: string, n: int, b: bool)
    ensures Wire(Timestamp(iso)) == Str(iso)
    ensures Wire(Str(s)) == Str(s) && Wire(Num(n)) == Num(n) && Wire(Bool(b)) == Bool(b) && Wire(Null) == Null
  {
  }
}
