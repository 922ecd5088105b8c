/**
 * JavaScript values as the generated payload classes see them: what
 * `JSON.parse` produces, plus `undefined` and instances of those classes.
 */
module JsValue {

  datatype Value =
    | Undefined
    | Null
    | Bool(b: bool)
    | Num(n: real)
    | Str(s: string)
    | Arr(elems: seq<Value>)
    | Obj(props: map<string, Value>)
    /** An instance of the generated class `className`; `props` are its own fields. */
    | Instance(className: string, props: map<string, Value>)
    /** A built-in function, such as the `Array.prototype` method `name` an array inherits. */
    | Builtin(name: string)

  /** How an expression ends: with a value, or by throwing (the exception's kind is not modelled). */
  datatype Outcome = Returned(value: Value) | Threw

  /** JavaScript truthiness: `undefined`, `null`, `false`, `0` and `""` are falsy (JSON has no NaN). */
  predicate Truthy(v: Value) {
    match v
    case Undefined => false
    case Null => false
    case Bool(b) => b
    case Num(n) => n != 0.0
    case Str(s) => s != ""
    case _ => true
  }

  /** `typeof v === "object"`, which also holds of `null`. */
  predicate IsObjectType(v: Value) {
    v.Null? || v.Arr? || v.Obj? || v.Instance?
  }

  /** Property access `v[key]` does not throw: `v` is neither `null` nor `undefined`. */
  predicate Readable(v: Value) {
    !v.Null? && !v.Undefined?
  }

  /** The methods every array inherits from `Array.prototype`. */
  const ArrayMethods: set<string> := {
    "at", "concat", "constructor", "copyWithin", "entries", "every", "fill", "filter", "find",
    "findIndex", "findLast", "findLastIndex", "flat", "flatMap", "forEach", "includes", "indexOf",
    "join", "keys", "lastIndexOf", "map", "pop", "push", "reduce", "reduceRight", "reverse",
    "shift", "slice", "some", "sort", "splice", "toLocaleString", "toReversed", "toSorted",
    "toSpliced", "toString", "unshift", "values", "with"}

  /**
   * `v[key]`: an object's own property, or an array's `length` or inherited
   * method. Index keys, and keys inherited by objects, strings, numbers and
   * booleans from their prototypes, read as `undefined`.
   */
  function Get(v: Value, key: string): (r: Value)
    requires Readable(v)
    ensures (v.Obj? || v.Instance?) && key in v.props ==> r == v.props[key]
    ensures v.Arr? && key in ArrayMethods ==> r == Builtin(key) && Truthy(r)
    ensures v.Arr? && key == "length" ==> r == Num(|v.elems| as real)
    ensures !((v.Obj? || v.Instance?) && key in v.props) ==>
              (r == Undefined <==> !(v.Arr? && (key in ArrayMethods || key == "length")))
  {
    match v
    case Obj(props) => if key in props then props[key] else Undefined
    case Instance(_, props) => if key in props then props[key] else Undefined
    case Arr(elems) =>
      if key in ArrayMethods then Builtin(key)
      else if key == "length" then Num(|elems| as real)
      else Undefined
    case _ => Undefined
  }

  /** The duck test `a.slice && a.map` on a truthy value: arrays pass, and so do objects carrying both keys. */
  predicate HasSliceAndMap(a: Value)
    requires Truthy(a)
  {
    a.Arr? || ((a.Obj? || a.Instance?) && Truthy(Get(a, "slice")) && Truthy(Get(a, "map")))
  }
}
