/** The parts of the JavaScript runtime the services lean on: the names
    every plain object inherits, and `Math.round`. */
module JsRuntime {

  /** The properties every object literal inherits from `Object.prototype`
      (ECMAScript 2023 section 20.1.3, with the Annex B accessors). A
      property lookup and the operator `in` find them on any plain object
      that has no own property of that name. */
  const ObjectPrototypeNames := ["constructor", "hasOwnProperty", "isPrototypeOf",
                                 "propertyIsEnumerable", "toLocaleString", "toString",
                                 "valueOf", "__proto__", "__defineGetter__",
                                 "__defineSetter__", "__lookupGetter__", "__lookupSetter__"]

  /** `Math.round` on a finite number: the nearest integer, halves rounded
      up. */
  function Round(x: real): (n: int)
    ensures n as real - 0.5 <= x < n as real + 0.5
  {
    (x + 0.5).Floor
  }

  /** Rounding keeps integers, and is monotone. */
  lemma {:induction false} RoundProperties(x: real, y: real, n: int)
    ensures Round(n as real) == n
    ensures x <= y ==> Round(x) <= Round(y)
  {
  }
}
