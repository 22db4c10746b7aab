/** The few JavaScript value semantics the two forms depend on: truthiness of
    a value in a condition, and reading the property `isValid` off a value. */
module Js {

  /** A JavaScript value, as far as the forms' conditions can observe it. */
  datatype Value =
    | Undefined
    | Bool(b: bool)
    | Str(s: string)
    | Object(fields: map<string, Value>)

  /** ToBoolean: `undefined` and the empty string are falsy, every object is truthy. */
  predicate Truthy(v: Value)
  {
    match v
    case Undefined => false
    case Bool(b) => b
    case Str(s) => s != ""
    case Object(_) => true
  }

  /** The expression `v.isValid`. A primitive boolean or string is boxed for the
      read, and neither Boolean.prototype nor String.prototype has a property
      `isValid`, so the read yields `undefined`; an object yields its own field. */
  function ReadIsValid(v: Value): (r: Value)
    ensures v.Object? && "isValid" in v.fields ==> r == v.fields["isValid"]
    ensures !v.Object? || "isValid" !in v.fields ==> r == Undefined
    ensures !v.Object? ==> !Truthy(r)
  {
    match v
    case Object(fields) => if "isValid" in fields then fields["isValid"] else Undefined
    case _ => Undefined
  }
}
