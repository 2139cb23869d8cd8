/** The validator codec (src/validation/index.ts): `validatorFromJSON` rebuilds a Convex
    validator from its tagged JSON form, with `recordKeyFromJSON` and
    `recordValueFromJSON` for the parts of a record.

    Convex's `v.*` constructors are mirrored by the `Validator` datatype. Literal values
    are opaque: the JSON side carries an `L`, the Convex side a `C`, and `jsonToConvex` is
    the parameter `toConvex`. A thrown error is `Err(message)`. */
module Validation {
  import opened Wrappers
  import OrderedMap

  /** `ValidatorJSON`; `OtherJ` is a value whose `type` is none of the known tags. */
  datatype ValidatorJson<L> =
    | NullJ | NumberJ | BigintJ | BooleanJ | StringJ | BytesJ | AnyJ
    | LiteralJ(value: L)
    | IdJ(tableName: string)
    | ArrayJ(element: ValidatorJson<L>)
    | UnionJ(members: seq<ValidatorJson<L>>)
    | ObjectJ(fields: seq<FieldEntry<L>>)
    | RecordJ(keys: RecordKeyJson, values: FieldJson<L>)
    | OtherJ(tag: string)

  /** `ObjectFieldType` / `RecordValueValidatorJSON`. */
  datatype FieldJson<L> = FieldJson(fieldType: ValidatorJson<L>, optional: bool)

  /** One `[name, field]` pair of `Object.entries(json.value)`. */
  datatype FieldEntry<L> = FieldEntry(name: string, field: FieldJson<L>)

  /** `RecordKeyValidatorJSON`; `OtherKey` is a key whose `type` is not string, id or union. */
  datatype RecordKeyJson =
    | StringKey
    | IdKey(tableName: string)
    | UnionKey(members: seq<RecordKeyJson>)
    | OtherKey(tag: string)

  /** A Convex validator as built by `v.null()`, `v.number()`, `v.int64()`, ... */
  datatype Validator<C> =
    | VNull | VNumber | VInt64 | VBoolean | VString | VBytes | VAny
    | VLiteral(value: C)
    | VId(tableName: string)
    | VArray(element: Validator<C>)
    | VUnion(members: seq<Validator<C>>)
    | VObject(fields: seq<FieldValidator<C>>)
    | VRecord(keys: Validator<C>, values: Validator<C>)
    | VOptional(inner: Validator<C>)

  /** One property of the shape passed to `v.object`. */
  datatype FieldValidator<C> = FieldValidator(name: string, validator: Validator<C>)

  /** The shape record, in property order. */
  function AsShape<C>(m: seq<(string, Validator<C>)>): (r: seq<FieldValidator<C>>)
    ensures |r| == |m| && forall i :: 0 <= i < |m| ==> r[i] == FieldValidator(m[i].0, m[i].1)
  {
    seq(|m|, i requires 0 <= i < |m| => FieldValidator(m[i].0, m[i].1))
  }

  const UnknownTypePrefix := "Unknown validator JSON type: "
  const UnknownKeyTypePrefix := "Unknown record key validator JSON type: "

  /** The error messages the decoders throw. */
  predicate IsDecodeError(m: string)
  {
    UnknownTypePrefix <= m || UnknownKeyTypePrefix <= m
  }

  /** The `type` field of a validator JSON value. */
  function JsonTag<L>(j: ValidatorJson<L>): string
  {
    match j
    case NullJ => "null"
    case NumberJ => "number"
    case BigintJ => "bigint"
    case BooleanJ => "boolean"
    case StringJ => "string"
    case BytesJ => "bytes"
    case AnyJ => "any"
    case LiteralJ(_) => "literal"
    case IdJ(_) => "id"
    case ArrayJ(_) => "array"
    case UnionJ(_) => "union"
    case ObjectJ(_) => "object"
    case RecordJ(_, _) => "record"
    case OtherJ(t) => t
  }

  // ---------------------------------------------------------------------------------
  // The decoders as functions

  /** `validatorFromJSON`. The only errors are the unknown-tag errors, and a decoded
      validator is never an optional one (optionality lives on fields). */
  function Decode<L, C>(toConvex: L -> C, j: ValidatorJson<L>): (r: Result<Validator<C>, string>)
    ensures r.Err? ==> IsDecodeError(r.error)
    ensures r.Ok? ==> !r.value.VOptional?
    decreases j, 1
  {
    match j
    case NullJ => Ok(VNull)
    case NumberJ => Ok(VNumber)
    case BigintJ => Ok(VInt64)
    case BooleanJ => Ok(VBoolean)
    case StringJ => Ok(VString)
    case BytesJ => Ok(VBytes)
    case AnyJ => Ok(VAny)
    case LiteralJ(l) => Ok(VLiteral(toConvex(l)))
    case IdJ(t) => Ok(VId(t))
    case ArrayJ(e) =>
      (match Decode(toConvex, e)
       case Ok(x) => Ok(VArray(x))
       case Err(m) => Err(m))
    case UnionJ(ms) =>
      (match DecodeMembers(toConvex, ms, |ms|)
       case Ok(xs) => Ok(VUnion(xs))
       case Err(m) => Err(m))
    case ObjectJ(fs) =>
      (match DecodeFields(toConvex, fs, |fs|)
       case Ok(xs) => Ok(VObject(AsShape(xs)))
       case Err(m) => Err(m))
    case RecordJ(k, f) =>
      (match DecodeRecordKey(k)
       case Err(m) => Err(m)
       case Ok(kv) =>
         (match DecodeField(toConvex, f)
          case Err(m) => Err(m)
          case Ok(fv) => Ok(VRecord(kv, fv))))
    case OtherJ(t) => Err(UnknownTypePrefix + t)
  }

  /** `json.value.map(validatorFromJSON)` over the first n members: the first failing
      member's error, or one decoded validator per member, in order. */
  function DecodeMembers<L, C>(toConvex: L -> C, ms: seq<ValidatorJson<L>>, n: nat): (r: Result<seq<Validator<C>>, string>)
    requires n <= |ms|
    ensures r.Err? ==> IsDecodeError(r.error)
    ensures r.Ok? ==> |r.value| == n && forall i :: 0 <= i < n ==> Decode(toConvex, ms[i]) == Ok(r.value[i])
    decreases ms, n
  {
    if n == 0 then Ok([])
    else
      match DecodeMembers(toConvex, ms, n - 1)
      case Err(m) => Err(m)
      case Ok(xs) =>
        (match Decode(toConvex, ms[n - 1])
         case Err(m) => Err(m)
         case Ok(x) => Ok(xs + [x]))
  }

  /** One object field or a record value: the decoded `fieldType`, wrapped in
      `v.optional` exactly when the field is flagged optional. */
  function DecodeField<L, C>(toConvex: L -> C, f: FieldJson<L>): (r: Result<Validator<C>, string>)
    ensures r.Err? ==> IsDecodeError(r.error)
    ensures r.Ok? ==> (r.value.VOptional? <==> f.optional)
    ensures r.Ok? ==> Decode(toConvex, f.fieldType) == Ok(if f.optional then r.value.inner else r.value)
    decreases f, 0
  {
    match Decode(toConvex, f.fieldType)
    case Err(m) => Err(m)
    case Ok(base) => Ok(if f.optional then VOptional(base) else base)
  }

  /** The `for` loop of the object case over the first n entries: each field is assigned
      into the record being built, so a repeated name keeps its first position and takes
      its last value. */
  function DecodeFields<L, C>(toConvex: L -> C, fs: seq<FieldEntry<L>>, n: nat): (r: Result<seq<(string, Validator<C>)>, string>)
    requires n <= |fs|
    ensures r.Err? ==> IsDecodeError(r.error)
    decreases fs, n
  {
    if n == 0 then Ok([])
    else
      match DecodeFields(toConvex, fs, n - 1)
      case Err(m) => Err(m)
      case Ok(acc) =>
        (match DecodeField(toConvex, fs[n - 1].field)
         case Err(m) => Err(m)
         case Ok(x) => Ok(OrderedMap.Put(acc, fs[n - 1].name, x)))
  }

  /** `recordKeyFromJSON`: only string, id and unions of record keys are accepted. */
  function DecodeRecordKey<C>(k: RecordKeyJson): (r: Result<Validator<C>, string>)
    ensures r.Err? ==> IsDecodeError(r.error)
    ensures r.Ok? ==> KeyShaped(r.value)
    decreases k, 1
  {
    match k
    case StringKey => Ok(VString)
    case IdKey(t) => Ok(VId(t))
    case UnionKey(ms) =>
      (match DecodeKeyMembers(ms, |ms|)
       case Ok(xs) => Ok(VUnion(xs))
       case Err(m) => Err(m))
    case OtherKey(t) => Err(UnknownKeyTypePrefix + t)
  }

  function DecodeKeyMembers<C>(ms: seq<RecordKeyJson>, n: nat): (r: Result<seq<Validator<C>>, string>)
    requires n <= |ms|
    ensures r.Err? ==> IsDecodeError(r.error)
    ensures r.Ok? ==> |r.value| == n && forall i :: 0 <= i < n ==> DecodeRecordKey(ms[i]) == Ok(r.value[i])
    decreases ms, n
  {
    if n == 0 then Ok([])
    else
      match DecodeKeyMembers(ms, n - 1)
      case Err(m) => Err(m)
      case Ok(xs) =>
        (match DecodeRecordKey(ms[n - 1])
         case Err(m) => Err(m)
         case Ok(x) => Ok(xs + [x]))
  }

  /** A validator usable as a record key: string, id, or a union of such. */
  predicate KeyShaped<C>(k: Validator<C>)
  {
    match k
    case VString => true
    case VId(_) => true
    case VUnion(ms) => forall i :: 0 <= i < |ms| ==> KeyShaped(ms[i])
    case _ => false
  }

  // ---------------------------------------------------------------------------------
  // The decoders as the source writes them: recursion, with loops for the union
  // `map` and the object `for`

  method ValidatorFromJson<L, C>(toConvex: L -> C, j: ValidatorJson<L>) returns (r: Result<Validator<C>, string>)
    ensures r == Decode(toConvex, j)
    decreases j, 1
  {
    match j
    case NullJ => r := Ok(VNull);
    case NumberJ => r := Ok(VNumber);
    case BigintJ => r := Ok(VInt64);
    case BooleanJ => r := Ok(VBoolean);
    case StringJ => r := Ok(VString);
    case BytesJ => r := Ok(VBytes);
    case AnyJ => r := Ok(VAny);
    case LiteralJ(l) => r := Ok(VLiteral(toConvex(l)));
    case IdJ(t) => r := Ok(VId(t));
    case ArrayJ(e) =>
      var x := ValidatorFromJson(toConvex, e);
      r := if x.Ok? then Ok(VArray(x.value)) else Err(x.error);
    case UnionJ(ms) =>
      var members: seq<Validator<C>> := [];
      for i := 0 to |ms|
        invariant DecodeMembers(toConvex, ms, i) == Ok(members)
      {
        var x := ValidatorFromJson(toConvex, ms[i]);
        if x.Err? {
          MembersErrSticks(toConvex, ms, i + 1, |ms|);
          return Err(x.error);
        }
        members := members + [x.value];
      }
      r := Ok(VUnion(members));
    case ObjectJ(fs) =>
      var fields: seq<(string, Validator<C>)> := [];
      for i := 0 to |fs|
        invariant DecodeFields(toConvex, fs, i) == Ok(fields)
      {
        var name := fs[i].name;
        var field := fs[i].field;
        var base := ValidatorFromJson(toConvex, field.fieldType);
        if base.Err? {
          FieldsErrSticks(toConvex, fs, i + 1, |fs|);
          return Err(base.error);
        }
        var maybeOptional := if field.optional then VOptional(base.value) else base.value;
        fields := OrderedMap.Put(fields, name, maybeOptional);
      }
      r := Ok(VObject(AsShape(fields)));
    case RecordJ(k, f) =>
      var keyValidator := RecordKeyFromJson<C>(k);
      if keyValidator.Err? {
        return Err(keyValidator.error);
      }
      var valueValidator := RecordValueFromJson(toConvex, f);
      r := if valueValidator.Ok? then Ok(VRecord(keyValidator.value, valueValidator.value)) else Err(valueValidator.error);
    case OtherJ(t) => r := Err(UnknownTypePrefix + t);
  }

  method RecordKeyFromJson<C>(k: RecordKeyJson) returns (r: Result<Validator<C>, string>)
    ensures r == DecodeRecordKey(k)
    decreases k
  {
    match k
    case StringKey => r := Ok(VString);
    case IdKey(t) => r := Ok(VId(t));
    case UnionKey(ms) =>
      var members: seq<Validator<C>> := [];
      for i := 0 to |ms|
        invariant DecodeKeyMembers(ms, i) == Ok(members)
      {
        var x := RecordKeyFromJson<C>(ms[i]);
        if x.Err? {
          KeyMembersErrSticks<C>(ms, i + 1, |ms|);
          return Err(x.error);
        }
        members := members + [x.value];
      }
      r := Ok(VUnion(members));
    case OtherKey(t) => r := Err(UnknownKeyTypePrefix + t);
  }

  method RecordValueFromJson<L, C>(toConvex: L -> C, f: FieldJson<L>) returns (r: Result<Validator<C>, string>)
    ensures r == DecodeField(toConvex, f)
    decreases f, 0
  {
    var base := ValidatorFromJson(toConvex, f.fieldType);
    if base.Err? {
      return Err(base.error);
    }
    r := Ok(if f.optional then VOptional(base.value) else base.value);
  }

  /** Once a prefix fails, every longer prefix fails with the same error. */
  lemma {:induction false} MembersErrSticks<L, C>(toConvex: L -> C, ms: seq<ValidatorJson<L>>, i: nat, n: nat)
    requires i <= n <= |ms| && DecodeMembers(toConvex, ms, i).Err?
    ensures DecodeMembers(toConvex, ms, n) == DecodeMembers(toConvex, ms, i)
    decreases n
  {
    if n > i {
      MembersErrSticks(toConvex, ms, i, n - 1);
    }
  }

  lemma {:induction false} FieldsErrSticks<L, C>(toConvex: L -> C, fs: seq<FieldEntry<L>>, i: nat, n: nat)
    requires i <= n <= |fs| && DecodeFields(toConvex, fs, i).Err?
    ensures DecodeFields(toConvex, fs, n) == DecodeFields(toConvex, fs, i)
    decreases n
  {
    if n > i {
      FieldsErrSticks(toConvex, fs, i, n - 1);
    }
  }

  lemma {:induction false} KeyMembersErrSticks<C>(ms: seq<RecordKeyJson>, i: nat, n: nat)
    requires i <= n <= |ms| && DecodeKeyMembers<C>(ms, i).Err?
    ensures DecodeKeyMembers<C>(ms, n) == DecodeKeyMembers<C>(ms, i)
    decreases n
  {
    if n > i {
      KeyMembersErrSticks<C>(ms, i, n - 1);
    }
  }

  // ---------------------------------------------------------------------------------
  // Which inputs fail

  /** Some node of the tree carries a tag the decoders do not know. */
  predicate HasUnknown<L>(j: ValidatorJson<L>)
    decreases j
  {
    match j
    case ArrayJ(e) => HasUnknown(e)
    case UnionJ(ms) => exists i :: 0 <= i < |ms| && HasUnknown(ms[i])
    case ObjectJ(fs) => exists i :: 0 <= i < |fs| && HasUnknown(fs[i].field.fieldType)
    case RecordJ(k, f) => KeyHasUnknown(k) || HasUnknown(f.fieldType)
    case OtherJ(_) => true
    case _ => false
  }

  predicate KeyHasUnknown(k: RecordKeyJson)
  {
    match k
    case UnionKey(ms) => exists i :: 0 <= i < |ms| && KeyHasUnknown(ms[i])
    case OtherKey(_) => true
    case _ => false
  }

  /** `validatorFromJSON` throws exactly when an unknown tag occurs anywhere, including
      inside a record key. */
  lemma {:induction false} DecodeFailsIffUnknown<L, C>(toConvex: L -> C, j: ValidatorJson<L>)
    ensures Decode(toConvex, j).Err? <==> HasUnknown(j)
    decreases j, 1
  {
    match j
    case ArrayJ(e) => DecodeFailsIffUnknown(toConvex, e);
    case UnionJ(ms) => MembersFailIffUnknown(toConvex, ms, |ms|);
    case ObjectJ(fs) => FieldsFailIffUnknown(toConvex, fs, |fs|);
    case RecordJ(k, f) =>
      RecordKeyFailsIffUnknown<C>(k);
      DecodeFailsIffUnknown(toConvex, f.fieldType);
    case _ =>
  }

  lemma {:induction false} MembersFailIffUnknown<L, C>(toConvex: L -> C, ms: seq<ValidatorJson<L>>, n: nat)
    requires n <= |ms|
    ensures DecodeMembers(toConvex, ms, n).Err? <==> exists i :: 0 <= i < n && HasUnknown(ms[i])
    decreases ms, n
  {
    if n > 0 {
      MembersFailIffUnknown(toConvex, ms, n - 1);
      DecodeFailsIffUnknown(toConvex, ms[n - 1]);
    }
  }

  lemma {:induction false} FieldsFailIffUnknown<L, C>(toConvex: L -> C, fs: seq<FieldEntry<L>>, n: nat)
    requires n <= |fs|
    ensures DecodeFields(toConvex, fs, n).Err? <==> exists i :: 0 <= i < n && HasUnknown(fs[i].field.fieldType)
    decreases fs, n
  {
    if n > 0 {
      FieldsFailIffUnknown(toConvex, fs, n - 1);
      DecodeFailsIffUnknown(toConvex, fs[n - 1].field.fieldType);
    }
  }

  /** `recordKeyFromJSON` accepts only string, id and unions of these, at any depth. */
  lemma {:induction false} RecordKeyFailsIffUnknown<C>(k: RecordKeyJson)
    ensures DecodeRecordKey<C>(k).Err? <==> KeyHasUnknown(k)
    decreases k, 1
  {
    match k
    case UnionKey(ms) => KeyMembersFailIffUnknown<C>(ms, |ms|);
    case _ =>
  }

  lemma {:induction false} KeyMembersFailIffUnknown<C>(ms: seq<RecordKeyJson>, n: nat)
    requires n <= |ms|
    ensures DecodeKeyMembers<C>(ms, n).Err? <==> exists i :: 0 <= i < n && KeyHasUnknown(ms[i])
    decreases ms, n
  {
    if n > 0 {
      KeyMembersFailIffUnknown<C>(ms, n - 1);
      RecordKeyFailsIffUnknown<C>(ms[n - 1]);
    }
  }

  // ---------------------------------------------------------------------------------
  // Objects keep their fields

  /** The entries of a JavaScript object never repeat a name. */
  ghost predicate DistinctNames<L>(fs: seq<FieldEntry<L>>)
  {
    forall i, k :: 0 <= i < k < |fs| ==> fs[i].name != fs[k].name
  }

  lemma {:induction false} DecodeFieldsInOrder<L, C>(toConvex: L -> C, fs: seq<FieldEntry<L>>, n: nat)
    requires n <= |fs| && DistinctNames(fs) && DecodeFields(toConvex, fs, n).Ok?
    ensures var m := DecodeFields(toConvex, fs, n).value;
      |m| == n && forall i :: 0 <= i < n ==> m[i].0 == fs[i].name && DecodeField(toConvex, fs[i].field) == Ok(m[i].1)
    decreases n
  {
    if n > 0 {
      var prev := DecodeFields(toConvex, fs, n - 1);
      assert prev.Ok?;
      DecodeFieldsInOrder(toConvex, fs, n - 1);
      var m := prev.value;
      var x := DecodeField(toConvex, fs[n - 1].field);
      assert x.Ok?;
      assert !OrderedMap.Has(m, fs[n - 1].name) by {
        forall i | 0 <= i < |m| ensures m[i].0 != fs[n - 1].name {
          assert m[i].0 == fs[i].name;
        }
      }
      OrderedMap.PutAbsent(m, fs[n - 1].name, x.value);
      assert DecodeFields(toConvex, fs, n).value == m + [(fs[n - 1].name, x.value)];
    }
  }

  /** The object case keeps exactly the field names, in order, and wraps a field in
      `v.optional` if and only if it is flagged optional. */
  lemma ObjectKeepsFields<L, C>(toConvex: L -> C, fs: seq<FieldEntry<L>>)
    requires DistinctNames(fs) && Decode(toConvex, ObjectJ(fs)).Ok?
    ensures var v := Decode(toConvex, ObjectJ(fs)).value;
      v.VObject? && |v.fields| == |fs| &&
      forall i :: 0 <= i < |fs| ==>
        v.fields[i].name == fs[i].name &&
        (v.fields[i].validator.VOptional? <==> fs[i].field.optional) &&
        Decode(toConvex, fs[i].field.fieldType) ==
          Ok(if fs[i].field.optional then v.fields[i].validator.inner else v.fields[i].validator)
  {
    DecodeFieldsInOrder(toConvex, fs, |fs|);
  }

  // ---------------------------------------------------------------------------------
  // The reference encoder: a validator's `.json`, as `validatorToJSON` reads it

  function ToJson<L, C>(fromConvex: C -> L, v: Validator<C>): ValidatorJson<L>
    decreases v, 0
  {
    match v
    case VNull => NullJ
    case VNumber => NumberJ
    case VInt64 => BigintJ
    case VBoolean => BooleanJ
    case VString => StringJ
    case VBytes => BytesJ
    case VAny => AnyJ
    case VLiteral(c) => LiteralJ(fromConvex(c))
    case VId(t) => IdJ(t)
    case VArray(e) => ArrayJ(ToJson(fromConvex, e))
    case VUnion(ms) => UnionJ(ToJsonMembers(fromConvex, ms))
    case VObject(fs) => ObjectJ(ToJsonFields(fromConvex, fs))
    case VRecord(k, x) => RecordJ(KeyToJson(fromConvex, k), ToField(fromConvex, x))
    case VOptional(x) => ToJson(fromConvex, x)
  }

  function ToJsonMembers<L, C>(fromConvex: C -> L, ms: seq<Validator<C>>): (r: seq<ValidatorJson<L>>)
    ensures |r| == |ms| && forall i :: 0 <= i < |ms| ==> r[i] == ToJson(fromConvex, ms[i])
    decreases ms
  {
    seq(|ms|, i requires 0 <= i < |ms| => ToJson(fromConvex, ms[i]))
  }

  function ToJsonFields<L, C>(fromConvex: C -> L, fs: seq<FieldValidator<C>>): (r: seq<FieldEntry<L>>)
    ensures |r| == |fs| && forall i :: 0 <= i < |fs| ==> r[i] == FieldEntry(fs[i].name, ToField(fromConvex, fs[i].validator))
    decreases fs
  {
    seq(|fs|, i requires 0 <= i < |fs| => FieldEntry(fs[i].name, ToField(fromConvex, fs[i].validator)))
  }

  /** A field's JSON: an optional validator contributes `optional: true` and its inner type. */
  function ToField<L, C>(fromConvex: C -> L, v: Validator<C>): FieldJson<L>
    decreases v, 1
  {
    if v.VOptional? then FieldJson(ToJson(fromConvex, v.inner), true) else FieldJson(ToJson(fromConvex, v), false)
  }

  function KeyToJson<L, C>(fromConvex: C -> L, k: Validator<C>): RecordKeyJson
    decreases k, 1
  {
    match k
    case VString => StringKey
    case VId(t) => IdKey(t)
    case VUnion(ms) => UnionKey(KeyToJsonMembers(fromConvex, ms))
    case _ => OtherKey(JsonTag(ToJson(fromConvex, k)))
  }

  function KeyToJsonMembers<L, C>(fromConvex: C -> L, ms: seq<Validator<C>>): (r: seq<RecordKeyJson>)
    ensures |r| == |ms| && forall i :: 0 <= i < |ms| ==> r[i] == KeyToJson(fromConvex, ms[i])
    decreases ms
  {
    seq(|ms|, i requires 0 <= i < |ms| => KeyToJson(fromConvex, ms[i]))
  }

  /** Validators the `v.*` builders produce: `v.optional` only as an object field or a
      record value, record keys key-shaped, object field names distinct. */
  predicate WellFormed<C>(v: Validator<C>)
    decreases v, 0
  {
    match v
    case VArray(e) => WellFormed(e)
    case VUnion(ms) => forall i :: 0 <= i < |ms| ==> WellFormed(ms[i])
    case VObject(fs) =>
      (forall i, k :: 0 <= i < k < |fs| ==> fs[i].name != fs[k].name) &&
      forall i :: 0 <= i < |fs| ==> FieldWellFormed(fs[i].validator)
    case VRecord(k, x) => KeyShaped(k) && FieldWellFormed(x)
    case VOptional(_) => false
    case _ => true
  }

  predicate FieldWellFormed<C>(v: Validator<C>)
    decreases v, 1
  {
    if v.VOptional? then WellFormed(v.inner) else WellFormed(v)
  }

  /** Decoding the JSON of a well-formed validator gives that validator back. */
  lemma {:induction false} DecodeToJson<L, C>(toConvex: L -> C, fromConvex: C -> L, v: Validator<C>)
    requires forall c :: toConvex(fromConvex(c)) == c
    requires WellFormed(v)
    ensures Decode(toConvex, ToJson(fromConvex, v)) == Ok(v)
    decreases v, 1
  {
    match v
    case VArray(e) => DecodeToJson(toConvex, fromConvex, e);
    case VUnion(ms) => UnionRoundTrip(toConvex, fromConvex, v);
    case VObject(fs) => ObjectRoundTrip(toConvex, fromConvex, v);
    case VRecord(k, x) =>
      KeyRoundTrip(fromConvex, k);
      FieldRoundTrip(toConvex, fromConvex, x);
    case _ =>
  }

  lemma {:induction false} UnionRoundTrip<L, C>(toConvex: L -> C, fromConvex: C -> L, v: Validator<C>)
    requires forall c :: toConvex(fromConvex(c)) == c
    requires v.VUnion? && WellFormed(v)
    ensures Decode(toConvex, ToJson(fromConvex, v)) == Ok(v)
    decreases v, 0
  {
    var ms := v.members;
    MembersRoundTrip(toConvex, fromConvex, ms, |ms|);
    assert ms[..|ms|] == ms;
  }

  lemma {:induction false} ObjectRoundTrip<L, C>(toConvex: L -> C, fromConvex: C -> L, v: Validator<C>)
    requires forall c :: toConvex(fromConvex(c)) == c
    requires v.VObject? && WellFormed(v)
    ensures Decode(toConvex, ToJson(fromConvex, v)) == Ok(v)
    decreases v, 0
  {
    var fs := v.fields;
    FieldsRoundTrip(toConvex, fromConvex, fs, |fs|);
    assert fs[..|fs|] == fs;
  }

  lemma {:induction false} MembersRoundTrip<L, C>(toConvex: L -> C, fromConvex: C -> L, ms: seq<Validator<C>>, n: nat)
    requires forall c :: toConvex(fromConvex(c)) == c
    requires n <= |ms| && forall i :: 0 <= i < |ms| ==> WellFormed(ms[i])
    ensures DecodeMembers(toConvex, ToJsonMembers(fromConvex, ms), n) == Ok(ms[..n])
    decreases ms, n
  {
    if n > 0 {
      MembersRoundTrip(toConvex, fromConvex, ms, n - 1);
      DecodeToJson(toConvex, fromConvex, ms[n - 1]);
      assert ms[..n - 1] + [ms[n - 1]] == ms[..n];
    }
  }

  /** The (name, validator) pairs of a shape, as the decoder's record holds them. */
  function Pairs<C>(fs: seq<FieldValidator<C>>): (r: seq<(string, Validator<C>)>)
    ensures |r| == |fs| && forall i :: 0 <= i < |fs| ==> r[i] == (fs[i].name, fs[i].validator)
  {
    seq(|fs|, i requires 0 <= i < |fs| => (fs[i].name, fs[i].validator))
  }

  lemma {:induction false} FieldsRoundTrip<L, C>(toConvex: L -> C, fromConvex: C -> L, fs: seq<FieldValidator<C>>, n: nat)
    requires forall c :: toConvex(fromConvex(c)) == c
    requires n <= |fs| && forall i :: 0 <= i < |fs| ==> FieldWellFormed(fs[i].validator)
    requires forall i, k :: 0 <= i < k < |fs| ==> fs[i].name != fs[k].name
    ensures DecodeFields(toConvex, ToJsonFields(fromConvex, fs), n) == Ok(Pairs(fs[..n]))
    ensures AsShape(Pairs(fs[..n])) == fs[..n]
    decreases fs, n
  {
    if n > 0 {
      FieldsRoundTrip(toConvex, fromConvex, fs, n - 1);
      FieldRoundTrip(toConvex, fromConvex, fs[n - 1].validator);
      var m := Pairs(fs[..n - 1]);
      assert !OrderedMap.Has(m, fs[n - 1].name) by {
        forall i | 0 <= i < |m| ensures m[i].0 != fs[n - 1].name {
          assert m[i].0 == fs[i].name;
        }
      }
      OrderedMap.PutAbsent(m, fs[n - 1].name, fs[n - 1].validator);
      PairsSnoc(fs, n);
    }
  }

  lemma PairsSnoc<C>(fs: seq<FieldValidator<C>>, n: nat)
    requires 0 < n <= |fs|
    ensures Pairs(fs[..n]) == Pairs(fs[..n - 1]) + [(fs[n - 1].name, fs[n - 1].validator)]
  {
    var a := Pairs(fs[..n]);
    var b := Pairs(fs[..n - 1]) + [(fs[n - 1].name, fs[n - 1].validator)];
    assert |a| == |b|;
    forall i | 0 <= i < |a| ensures a[i] == b[i] {
      if i < n - 1 {
        assert fs[..n][i] == fs[..n - 1][i];
      }
    }
  }

  lemma {:induction false} FieldRoundTrip<L, C>(toConvex: L -> C, fromConvex: C -> L, x: Validator<C>)
    requires forall c :: toConvex(fromConvex(c)) == c
    requires FieldWellFormed(x)
    ensures DecodeField(toConvex, ToField(fromConvex, x)) == Ok(x)
    decreases x, 2
  {
    if x.VOptional? {
      DecodeToJson(toConvex, fromConvex, x.inner);
    } else {
      DecodeToJson(toConvex, fromConvex, x);
    }
  }

  lemma {:induction false} KeyRoundTrip<L, C>(fromConvex: C -> L, k: Validator<C>)
    requires KeyShaped(k)
    ensures DecodeRecordKey<C>(KeyToJson(fromConvex, k)) == Ok(k)
    decreases k, 1
  {
    match k
    case VUnion(ms) =>
      KeyMembersRoundTrip(fromConvex, ms, |ms|);
      assert ms[..|ms|] == ms;
    case _ =>
  }

  lemma {:induction false} KeyMembersRoundTrip<L, C>(fromConvex: C -> L, ms: seq<Validator<C>>, n: nat)
    requires n <= |ms| && forall i :: 0 <= i < |ms| ==> KeyShaped(ms[i])
    ensures DecodeKeyMembers<C>(KeyToJsonMembers(fromConvex, ms), n) == Ok(ms[..n])
    decreases ms, n
  {
    if n > 0 {
      KeyMembersRoundTrip(fromConvex, ms, n - 1);
      KeyRoundTrip(fromConvex, ms[n - 1]);
      assert ms[..n - 1] + [ms[n - 1]] == ms[..n];
    }
  }

  /** Every object in the tree has distinct field names (true of any JavaScript value). */
  ghost predicate JsonDistinctNames<L>(j: ValidatorJson<L>)
    decreases j
  {
    match j
    case ArrayJ(e) => JsonDistinctNames(e)
    case UnionJ(ms) => forall i :: 0 <= i < |ms| ==> JsonDistinctNames(ms[i])
    case ObjectJ(fs) => DistinctNames(fs) && forall i :: 0 <= i < |fs| ==> JsonDistinctNames(fs[i].field.fieldType)
    case RecordJ(_, f) => JsonDistinctNames(f.fieldType)
    case _ => true
  }

  /** The other direction: whatever decodes is well-formed, and its JSON is the input. */
  lemma {:induction false} ToJsonDecode<L, C>(toConvex: L -> C, fromConvex: C -> L, j: ValidatorJson<L>)
    requires forall l :: fromConvex(toConvex(l)) == l
    requires JsonDistinctNames(j) && Decode(toConvex, j).Ok?
    ensures WellFormed(Decode(toConvex, j).value) && ToJson(fromConvex, Decode(toConvex, j).value) == j
    decreases j, 1
  {
    match j
    case ArrayJ(e) => ToJsonDecode(toConvex, fromConvex, e);
    case UnionJ(ms) => UnionInverse(toConvex, fromConvex, j);
    case ObjectJ(fs) => ObjectInverse(toConvex, fromConvex, j);
    case RecordJ(k, f) =>
      var kv := DecodeRecordKey<C>(k).value;
      KeyInverse(fromConvex, k, kv);
      FieldInverse(toConvex, fromConvex, f, DecodeField(toConvex, f).value);
    case _ =>
  }

  lemma {:induction false} UnionInverse<L, C>(toConvex: L -> C, fromConvex: C -> L, j: ValidatorJson<L>)
    requires forall l :: fromConvex(toConvex(l)) == l
    requires j.UnionJ? && JsonDistinctNames(j) && Decode(toConvex, j).Ok?
    ensures WellFormed(Decode(toConvex, j).value) && ToJson(fromConvex, Decode(toConvex, j).value) == j
    decreases j, 0
  {
    var ms := j.members;
    var xs := DecodeMembers(toConvex, ms, |ms|).value;
    forall i | 0 <= i < |ms| ensures WellFormed(xs[i]) && ToJson(fromConvex, xs[i]) == ms[i] {
      ToJsonDecode(toConvex, fromConvex, ms[i]);
    }
    assert ToJsonMembers(fromConvex, xs) == ms;
  }

  lemma {:induction false} ObjectInverse<L, C>(toConvex: L -> C, fromConvex: C -> L, j: ValidatorJson<L>)
    requires forall l :: fromConvex(toConvex(l)) == l
    requires j.ObjectJ? && JsonDistinctNames(j) && Decode(toConvex, j).Ok?
    ensures WellFormed(Decode(toConvex, j).value) && ToJson(fromConvex, Decode(toConvex, j).value) == j
    decreases j, 0
  {
    var fs := j.fields;
    DecodeFieldsInOrder(toConvex, fs, |fs|);
    var m := DecodeFields(toConvex, fs, |fs|).value;
    var shape := AsShape(m);
    forall i | 0 <= i < |fs| ensures FieldWellFormed(shape[i].validator) && ToField(fromConvex, shape[i].validator) == fs[i].field {
      FieldInverse(toConvex, fromConvex, fs[i].field, m[i].1);
    }
    assert ToJsonFields(fromConvex, shape) == fs;
  }

  lemma {:induction false} FieldInverse<L, C>(toConvex: L -> C, fromConvex: C -> L, f: FieldJson<L>, x: Validator<C>)
    requires forall l :: fromConvex(toConvex(l)) == l
    requires JsonDistinctNames(f.fieldType) && DecodeField(toConvex, f) == Ok(x)
    ensures FieldWellFormed(x) && ToField(fromConvex, x) == f
    decreases f, 0
  {
    ToJsonDecode(toConvex, fromConvex, f.fieldType);
  }

  lemma {:induction false} KeyInverse<L, C>(fromConvex: C -> L, k: RecordKeyJson, kv: Validator<C>)
    requires DecodeRecordKey<C>(k) == Ok(kv)
    ensures KeyToJson(fromConvex, kv) == k
    decreases k
  {
    match k
    case UnionKey(ms) =>
      forall i | 0 <= i < |ms| ensures KeyToJson(fromConvex, kv.members[i]) == ms[i] {
        KeyInverse(fromConvex, ms[i], kv.members[i]);
      }
      assert KeyToJsonMembers(fromConvex, kv.members) == ms;
    case _ =>
  }
}
