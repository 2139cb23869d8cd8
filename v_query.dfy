/** `vQueryImpl` (src/convex/queries/v-query.ts): wraps a Convex query builder so that
    the function it builds carries `__returnsJson`, the JSON form of the validator its
    `returns` describes, and refuses definitions whose `returns` is not one.

    `v.object` and `validatorToJSON` are parameters: the validator JSON codec is
    modelled on the validator tree in the Validation module. */
module VQuery {
  import opened Wrappers
  import opened JsValues
  import opened QueryFunctions
  import GenerateZSchema
  import ExtractSchema

  const InvalidReturns := "Invalid returns schema"

  /** `isConvexValidator`: a non-null object whose `isConvexValidator` is exactly `true`. */
  predicate IsConvexValidator(value: JsValue)
  {
    TypeOf(value) == "object" && value != Null && GetProp(value, "isConvexValidator") == Bool(true)
  }

  /** Only plain objects can pass: arrays have no own named properties here, and
      functions are not of type "object". */
  lemma IsConvexValidatorExactly(value: JsValue)
    ensures IsConvexValidator(value) <==>
              value.Obj? && "isConvexValidator" in value.props && value.props["isConvexValidator"] == Bool(true)
  {
  }

  /** `toConvexValidator`: a falsy `returns` gives nothing, a validator is used as it
      is, an object or array all of whose values are validators becomes
      `v.object(shape)`, and anything else gives nothing. */
  function ToConvexValidator(maybeReturns: JsValue, vObject: JsValue -> JsValue): Option<JsValue>
  {
    if !Truthy(maybeReturns) then None
    else if IsConvexValidator(maybeReturns) then Some(maybeReturns)
    else if TypeOf(maybeReturns) == "object" && maybeReturns != Null && EveryValue(maybeReturns, IsConvexValidator) then
      Some(vObject(maybeReturns))
    else None
  }

  /** The cases of `toConvexValidator`, in both directions: a result exists exactly for a
      validator or a shape of validators (an empty object or array included), a validator
      wins over reading it as a shape, and a shape goes through `v.object`. */
  lemma ToConvexValidatorCases(maybeReturns: JsValue, vObject: JsValue -> JsValue)
    ensures ToConvexValidator(maybeReturns, vObject).Some? <==>
              IsConvexValidator(maybeReturns) || ((maybeReturns.Obj? || maybeReturns.Arr?) && EveryValue(maybeReturns, IsConvexValidator))
    ensures IsConvexValidator(maybeReturns) ==> ToConvexValidator(maybeReturns, vObject) == Some(maybeReturns)
    ensures !IsConvexValidator(maybeReturns) && ToConvexValidator(maybeReturns, vObject).Some? ==>
              ToConvexValidator(maybeReturns, vObject) == Some(vObject(maybeReturns))
    ensures ToConvexValidator(Obj(map[], false), vObject) == Some(vObject(Obj(map[], false)))
    ensures ToConvexValidator(Arr([]), vObject) == Some(vObject(Arr([])))
  {
  }

  /** When `v.object` builds validators, whatever comes back is a single validator. */
  lemma ToConvexValidatorGivesValidator(maybeReturns: JsValue, vObject: JsValue -> JsValue)
    requires forall shape :: IsConvexValidator(vObject(shape))
    ensures ToConvexValidator(maybeReturns, vObject).Some? ==> IsConvexValidator(ToConvexValidator(maybeReturns, vObject).value)
  {
  }

  /** The built function's properties after the wrapper ran, or the error it threw. */
  function Attached(props: map<string, JsValue>, maybeReturns: JsValue, validatorToJson: JsValue -> JsValue,
                    vObject: JsValue -> JsValue): Result<map<string, JsValue>, string>
  {
    var convexValidator := ToConvexValidator(maybeReturns, vObject);
    if convexValidator.None? || !Truthy(convexValidator.value) then Err(InvalidReturns)
    else Ok(props["__returnsJson" := validatorToJson(convexValidator.value)])
  }

  /** With `v.object` building objects, the wrapper throws exactly when `returns`
      describes no validator; otherwise it adds
      `__returnsJson` holding the validator's JSON and leaves every other property as
      it was. */
  lemma AttachedExactly(props: map<string, JsValue>, call: CallResult, maybeReturns: JsValue,
                        validatorToJson: JsValue -> JsValue, vObject: JsValue -> JsValue)
    requires forall shape :: Truthy(vObject(shape))
    ensures Attached(props, maybeReturns, validatorToJson, vObject).Err? <==> ToConvexValidator(maybeReturns, vObject).None?
    ensures Attached(props, maybeReturns, validatorToJson, vObject).Err? ==>
              Attached(props, maybeReturns, validatorToJson, vObject).error == InvalidReturns
    ensures Attached(props, maybeReturns, validatorToJson, vObject).Ok? ==>
              var m := Attached(props, maybeReturns, validatorToJson, vObject).value;
              && m.Keys == props.Keys + {"__returnsJson"}
              && m["__returnsJson"] == validatorToJson(ToConvexValidator(maybeReturns, vObject).value)
              && (forall k :: k in props && k != "__returnsJson" ==> m[k] == props[k])
  {
    var convexValidator := ToConvexValidator(maybeReturns, vObject);
    if convexValidator.Some? {
      assert Truthy(convexValidator.value) by {
        if IsConvexValidator(maybeReturns) {
          assert convexValidator.value == maybeReturns;
        } else {
          assert convexValidator.value == vObject(maybeReturns);
        }
      }
    }
  }

  /** Attaching `__returnsJson` leaves the flags both schema extractors read as they
      were. */
  lemma ReturnsJsonKeepsFlags(props: map<string, JsValue>, call: CallResult, json: JsValue)
    ensures var m := props["__returnsJson" := json];
            && (GenerateZSchema.IsConvexFn(Fun(m, call)) <==> GenerateZSchema.IsConvexFn(Fun(props, call)))
            && (ExtractSchema.IsConvexFn(Fun(m, call)) <==> ExtractSchema.IsConvexFn(Fun(props, call)))
  {
  }

  /** `vQueryImpl(baseQuery)(def)`: builds the function, then throws "Invalid returns
      schema" or attaches the returns JSON and hands the function back. */
  method VQueryImpl(baseQuery: BaseQuery, def: JsValue, validatorToJson: JsValue -> JsValue,
                    vObject: JsValue -> JsValue)
    returns (r: Result<QueryFunction, string>)
    ensures r.Err? <==> Attached(baseQuery(def).0, GetProp(def, "returns"), validatorToJson, vObject).Err?
    ensures r.Err? ==> r.error == InvalidReturns
    ensures r.Ok? ==> fresh(r.value) && r.value.call == baseQuery(def).1
    ensures r.Ok? ==> Attached(baseQuery(def).0, GetProp(def, "returns"), validatorToJson, vObject) == Ok(r.value.props)
  {
    var built := baseQuery(def);
    var fn := new QueryFunction(built.0, built.1);
    var maybeReturns := GetProp(def, "returns");
    var convexValidator := ToConvexValidator(maybeReturns, vObject);
    if convexValidator.None? || !Truthy(convexValidator.value) {
      return Err(InvalidReturns);
    }
    var returnsJson := validatorToJson(convexValidator.value);
    fn.DefineProperty("__returnsJson", returnsJson);
    return Ok(fn);
  }
}
