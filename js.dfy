/**
  The fragments of JavaScript's value semantics that the trial depends on:
  `null`, the Number values produced by coercion, the loose equality between a
  boolean and a string, logical negation of a string, and `+` with a left
  operand that may be `null`.
*/
module Js {

  /** A value that may be JavaScript's `null`. */
  datatype Nullable<T> = Null | Value(value: T)

  /** A JavaScript Number, as far as this model needs one: NaN or a finite value. */
  datatype Number = NaN | Finite(value: real)

  /** ToNumber of a boolean: `true` is 1 and `false` is 0. */
  function BoolToNumber(b: bool): (n: Number)
    ensures n.Finite?
    ensures b <==> n.value == 1.0
    ensures !b <==> n.value == 0.0
  {
    Finite(if b then 1.0 else 0.0)
  }

  /**
    A character that no string numeric literal can contain.  The literal
    grammar admits only white space, decimal digits, `+`, `-`, `.`, the
    exponent marks `e`/`E`, the radix prefixes `0x`/`0o`/`0b` (either case),
    hexadecimal digits and the word `Infinity`; every other letter, and `/`,
    is outside it.
  */
  predicate OutsideNumericLiterals(c: char)
  {
    c in "ghjklmpqrsuvwzGHJKLMNPQRSTUVWYZ/"
  }

  /** A string that holds at least one character no numeric literal can contain. */
  predicate NeverNumeric(s: string)
  {
    exists i :: 0 <= i < |s| && OutsideNumericLiterals(s[i])
  }

  /**
    ToNumber of a string, for the strings this model meets: a string that is
    not a numeric literal converts to NaN.
  */
  function StringToNumber(s: string): (n: Number)
    requires NeverNumeric(s)
  {
    NaN
  }

  /** `x == y` on two Numbers: NaN equals nothing, itself included. */
  predicate NumberEquals(x: Number, y: Number)
  {
    x.Finite? && y.Finite? && x.value == y.value
  }

  /**
    `b == s` with a boolean on the left and a string on the right: the boolean
    is converted to a Number, then the string is, then the Numbers are compared.
  */
  function LooselyEqualsBoolString(b: bool, s: string): (r: bool)
    requires NeverNumeric(s)
    ensures !r
  {
    NumberEquals(BoolToNumber(b), StringToNumber(s))
  }

  /** `!s` on a string: only the empty string is falsy. */
  function NotString(s: string): (r: bool)
    ensures r <==> |s| == 0
  {
    s == ""
  }

  /** ToNumber of a value that is either `null` or a number: `null` converts to 0. */
  function NullableToNumber(x: Nullable<int>): int
  {
    match x
    case Null => 0
    case Value(v) => v
  }

  /** `x + n` where `x` is `null` or a number and `n` is a number. */
  function PlusNullable(x: Nullable<int>, n: int): (r: int)
    ensures x.Null? ==> r == n
    ensures x.Value? ==> r == x.value + n
  {
    NullableToNumber(x) + n
  }
}
