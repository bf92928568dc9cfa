/**
 * The few pieces of JavaScript semantics the scrapers rely on: optional
 * properties, the truthiness of strings, the `||` operator as a left fold,
 * and `${...}` interpolation of a possibly missing value.
 */
module Js {

  /** A string or object property that may be missing: `None` stands for `undefined` or `null`. */
  datatype Option<+T> = None | Some(value: T)

  /**
   * A number-valued property as JSON delivers it: missing (`undefined`),
   * an explicit `null`, or a number. Unlike a string property, a count keeps
   * `null` apart from `undefined`, because the view tests `!== undefined`.
   */
  datatype Number = Undefined | Null | Num(value: int)

  /** A string-valued property is truthy when it is present and not the empty string. */
  predicate Truthy(s: Option<string>)
  {
    s.Some? && s.value != ""
  }

  /** `a || b`: the left operand when it is truthy, otherwise the right operand. */
  function Or(a: Option<string>, b: Option<string>): Option<string>
  {
    if Truthy(a) then a else b
  }

  /** `operands[0] || operands[1] || ...`, evaluated left to right as JavaScript does. */
  function OrAll(operands: seq<Option<string>>): Option<string>
  {
    if operands == [] then None
    else Or(OrAll(operands[..|operands| - 1]), operands[|operands| - 1])
  }

  /**
   * Reference reading of a chain of `||` ending in a string literal: the first
   * truthy operand, or `last` when every operand is falsy.
   */
  function FirstTruthy(operands: seq<Option<string>>, last: string): (r: string)
    ensures last != "" ==> r != ""
  {
    if operands == [] then last
    else if Truthy(operands[0]) then operands[0].value
    else FirstTruthy(operands[1..], last)
  }

  /** Appending an operand on the right only changes what an all-falsy prefix falls back to. */
  lemma {:induction false} FirstTruthyAppend(init: seq<Option<string>>, x: Option<string>, last: string)
    ensures FirstTruthy(init + [x], last) == FirstTruthy(init, if Truthy(x) then x.value else last)
  {
    if init == [] {
      assert [x][1..] == [];
    } else {
      assert (init + [x])[1..] == init[1..] + [x];
      FirstTruthyAppend(init[1..], x, last);
    }
  }

  /** The left fold of `||` agrees with the reference reading. */
  lemma {:induction false} OrAllIsFirstTruthy(operands: seq<Option<string>>, last: string)
    ensures Or(OrAll(operands), Some(last)).Some?
    ensures Or(OrAll(operands), Some(last)).value == FirstTruthy(operands, last)
  {
    if operands != [] {
      var init, x := operands[..|operands| - 1], operands[|operands| - 1];
      assert operands == init + [x];
      var last' := if Truthy(x) then x.value else last;
      OrAllIsFirstTruthy(init, last');
      FirstTruthyAppend(init, x, last);
    }
  }

  /** `operands[0] || ... || last`, where `last` is a string literal, as JavaScript evaluates it. */
  function OrElse(operands: seq<Option<string>>, last: string): (r: string)
    ensures r == FirstTruthy(operands, last)
  {
    OrAllIsFirstTruthy(operands, last);
    Or(OrAll(operands), Some(last)).value
  }

  /** `${v}` inside a template literal: a missing value prints as "undefined". */
  function Interpolate(v: Option<string>): (r: string)
    ensures v.Some? ==> r == v.value
    ensures v.None? ==> r == "undefined"
  {
    match v
    case Some(s) => s
    case None => "undefined"
  }
}
