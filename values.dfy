/** The JavaScript values that flow through the gateway: parsed JSON response
    bodies, request variables and values stored in the cache. */
module Values {
  import opened Wrappers

  /** A JavaScript value as far as the gateway inspects it. Numbers are
      modelled as integers. */
  datatype Value =
    | Undefined
    | Null
    | Bool(b: bool)
    | Num(n: int)
    | Str(s: string)
    | Arr(items: seq<Value>)
    | Obj(fields: map<string, Value>)

  /** JavaScript truthiness: `undefined`, `null`, `false`, `0` and `""` are
      falsy; arrays and objects are always truthy. */
  predicate Truthy(v: Value) {
    match v
    case Undefined => false
    case Null => false
    case Bool(b) => b
    case Num(n) => n != 0
    case Str(s) => s != ""
    case Arr(_) => true
    case Obj(_) => true
  }

  /** Property access `v.name`. Reading a property of `undefined` or `null`
      throws a TypeError (its message is the failure value); a missing
      property of an object, and any property of a primitive or an array
      that the gateway reads, is `undefined`. */
  function Member(v: Value, name: string): Result<Value, string> {
    match v
    case Undefined => Failure("Cannot read properties of undefined (reading '" + name + "')")
    case Null => Failure("Cannot read properties of null (reading '" + name + "')")
    case Obj(fields) => if name in fields then Success(fields[name]) else Success(Undefined)
    case _ => Success(Undefined)
  }

  /** Only `undefined` and `null` make property access throw; an object
      gives the property's value, or `undefined` when it has none. */
  lemma MemberSpec(v: Value, name: string)
    ensures var r := Member(v, name);
            && (r.Failure? <==> v.Undefined? || v.Null?)
            && (v.Obj? && name in v.fields ==> r == Success(v.fields[name]))
            && (v.Obj? && name !in v.fields ==> r == Success(Undefined))
            && (!v.Obj? && r.Success? ==> r.value == Undefined)
  {
  }
}
