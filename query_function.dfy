/** The query function a Convex query builder returns, shared by the `vQuery` and
    `zQuery` wrappers (src/convex/queries/v-query.ts, src/convex/queries/z-query.ts):
    a JavaScript function object whose own properties `Object.defineProperty` extends in
    place. */
module QueryFunctions {
  import opened JsValues

  /** What `baseQuery(def)` builds: the new function's own properties and what calling
      it does. The builder is a parameter of the wrappers. */
  type BaseQuery = JsValue -> (map<string, JsValue>, CallResult)

  class QueryFunction {
    var props: map<string, JsValue>
    const call: CallResult

    constructor (props0: map<string, JsValue>, call0: CallResult)
      ensures props == props0 && call == call0
    {
      props := props0;
      call := call0;
    }

    /** The function as a value, as the schema generator later sees it among a
        module's exports. */
    function AsValue(): (v: JsValue)
      reads this
      ensures v.Fun? && v.props == props && v.call == call
    {
      Fun(props, call)
    }

    /** `Object.defineProperty(fn, key, { value, ... })` on a fresh key. */
    method DefineProperty(key: string, value: JsValue)
      modifies this
      ensures props == old(props)[key := value]
    {
      props := props[key := value];
    }
  }
}
