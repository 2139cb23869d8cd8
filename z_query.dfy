/** `zQueryImpl` (src/convex/queries/z-query.ts): wraps a Convex-zod query builder so
    that the function it builds carries `__zReturn`, the Zod schema its `returns`
    describes, when there is one. That property is what the schema generator looks
    for among a module's exports.

    `z.object` is a parameter. */
module ZQuery {
  import opened Wrappers
  import opened JsValues
  import opened QueryFunctions
  import GenerateZSchema

  /** `value instanceof ZodType`. */
  predicate IsZodType(value: JsValue)
  {
    value.Obj? && value.zodType
  }

  /** `isZodShape`: a truthy object or array all of whose values are Zod types. */
  predicate IsZodShape(value: JsValue)
  {
    Truthy(value) && TypeOf(value) == "object" && EveryValue(value, IsZodType)
  }

  /** Only objects and arrays are shapes (null is falsy and functions are not of type
      "object"), the empty ones included; a Zod schema is checked value by value too. */
  lemma IsZodShapeExactly(value: JsValue)
    ensures IsZodShape(value) <==> (value.Obj? || value.Arr?) && EveryValue(value, IsZodType)
    ensures IsZodShape(Obj(map[], false)) && IsZodShape(Arr([]))
    ensures !IsZodType(Null) && !IsZodShape(Null)
  {
  }

  /** `toZodReturnSchema`: a falsy `returns` gives nothing, a Zod type is used as it is,
      a shape of Zod types becomes `z.object(shape)`, anything else gives nothing. */
  function ToZodReturnSchema(maybeReturns: JsValue, zObject: JsValue -> JsValue): Option<JsValue>
  {
    if !Truthy(maybeReturns) then None
    else if IsZodType(maybeReturns) then Some(maybeReturns)
    else if IsZodShape(maybeReturns) then Some(zObject(maybeReturns))
    else None
  }

  /** The cases of `toZodReturnSchema`, in both directions. */
  lemma ToZodReturnSchemaCases(maybeReturns: JsValue, zObject: JsValue -> JsValue)
    ensures ToZodReturnSchema(maybeReturns, zObject).Some? <==>
              IsZodType(maybeReturns) || ((maybeReturns.Obj? || maybeReturns.Arr?) && EveryValue(maybeReturns, IsZodType))
    ensures IsZodType(maybeReturns) ==> ToZodReturnSchema(maybeReturns, zObject) == Some(maybeReturns)
    ensures !IsZodType(maybeReturns) && ToZodReturnSchema(maybeReturns, zObject).Some? ==>
              ToZodReturnSchema(maybeReturns, zObject) == Some(zObject(maybeReturns))
    ensures ToZodReturnSchema(Obj(map[], false), zObject) == Some(zObject(Obj(map[], false)))
  {
  }

  /** The built function's properties after the wrapper ran: `__zReturn` is attached
      only for a truthy schema, and nothing is thrown. */
  function WithZReturn(props: map<string, JsValue>, maybeReturns: JsValue, zObject: JsValue -> JsValue): map<string, JsValue>
  {
    var zReturn := ToZodReturnSchema(maybeReturns, zObject);
    if zReturn.Some? && Truthy(zReturn.value) then props["__zReturn" := zReturn.value] else props
  }

  /** What the generator then sees: on a function built without `__zReturn`, and with
      `z.object` building Zod objects, `hasZReturn` holds exactly when `returns` yields
      a schema, reading back that schema; `isQuery` and `isPublic` are untouched. */
  lemma ZReturnSeenByGenerator(props: map<string, JsValue>, call: CallResult, maybeReturns: JsValue,
                               zObject: JsValue -> JsValue)
    requires "__zReturn" !in props
    requires forall shape :: IsZodType(zObject(shape))
    ensures var fn := Fun(WithZReturn(props, maybeReturns, zObject), call);
            && (GenerateZSchema.HasZReturn(fn) <==> ToZodReturnSchema(maybeReturns, zObject).Some?)
            && (GenerateZSchema.HasZReturn(fn) ==> GetProp(fn, "__zReturn") == ToZodReturnSchema(maybeReturns, zObject).value)
            && (GenerateZSchema.IsConvexFn(fn) <==> GenerateZSchema.IsConvexFn(Fun(props, call)))
  {
    var zReturn := ToZodReturnSchema(maybeReturns, zObject);
    if zReturn.Some? {
      assert IsZodType(zReturn.value) by {
        if !IsZodType(maybeReturns) {
          assert zReturn.value == zObject(maybeReturns);
        }
      }
      assert Truthy(zReturn.value);
    }
  }

  /** `zQueryImpl(baseQuery)(def)`: builds the function, attaches `__zReturn` when
      `returns` yields a schema, and always hands the function back. */
  method ZQueryImpl(baseQuery: BaseQuery, def: JsValue, zObject: JsValue -> JsValue)
    returns (fn: QueryFunction)
    ensures fresh(fn) && fn.call == baseQuery(def).1
    ensures fn.props == WithZReturn(baseQuery(def).0, GetProp(def, "returns"), zObject)
  {
    var built := baseQuery(def);
    fn := new QueryFunction(built.0, built.1);
    var maybeReturns := GetProp(def, "returns");
    var zReturn := ToZodReturnSchema(maybeReturns, zObject);
    if zReturn.Some? && Truthy(zReturn.value) {
      fn.DefineProperty("__zReturn", zReturn.value);
    }
  }
}
