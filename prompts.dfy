/**
 * How index.js reads the answers to its prompts: `askYesNo` and the index
 * clamp of `askChoice`. The terminal I/O is left out; the functions take the
 * raw answer, or for `askChoice` the value `Number(answer.trim())` produced.
 */
module Prompts {
  import opened Common
  import opened Text

  /** `askYesNo`: a blank answer gives the default, otherwise only `y` or `yes` (any case) is yes. */
  function AskYesNo(raw: string, def: bool): bool {
    var ans := Lower(Trim(raw));
    if ans == "" then def else ans == "y" || ans == "yes"
  }

  /**
   * The default matters exactly for blank answers (empty or only white
   * space): any other answer decides on its own.
   */
  lemma AskYesNoDefaultOnlyWhenBlank(raw: string)
    ensures AskYesNo(raw, true) == AskYesNo(raw, false) <==>
      exists i :: 0 <= i < |raw| && !IsJsWhitespace(raw[i])
  {
    TrimEmptyIff(raw);
  }

  /** Surrounding white space and letter case do not change the answer. */
  lemma AskYesNoNormalised(raw: string, def: bool)
    ensures AskYesNo(raw, def) <==>
      (Trim(raw) == "" && def) || Lower(Trim(raw)) == "y" || Lower(Trim(raw)) == "yes"
    ensures AskYesNo(raw, def) == AskYesNo(Lower(Trim(raw)), def)
  {
    NormaliseTwice(raw);
  }

  /** Trimming and lower-casing an answer a second time changes nothing. */
  lemma NormaliseTwice(raw: string)
    ensures Lower(Trim(Lower(Trim(raw)))) == Lower(Trim(raw))
    ensures Lower(Trim(raw)) == "" <==> Trim(raw) == ""
  {
    var t := Trim(raw);
    var l := Lower(t);
    assert |l| == |t|;
    assert Trim(l) == l by {
      if |l| > 0 {
        assert !IsJsWhitespace(t[0]) && !IsJsWhitespace(t[|t| - 1]);
        LowerKeepsSpacing(t[0]);
        LowerKeepsSpacing(t[|t| - 1]);
      }
      TrimOfTrimmed(l);
    }
    LowerIdempotent(l);
  }

  lemma LowerKeepsSpacing(c: char)
    ensures IsJsWhitespace(LowerChar(c)) == IsJsWhitespace(c)
  {
  }

  /** Text that starts and ends with non-space characters is its own trim. */
  lemma TrimOfTrimmed(s: string)
    requires |s| > 0 ==> !IsJsWhitespace(s[0]) && !IsJsWhitespace(s[|s| - 1])
    ensures Trim(s) == s
  {
    TrimIsSlice(s);
  }

  lemma LowerIdempotent(s: string)
    ensures Lower(Lower(s)) == Lower(s)
  {
  }

  // ---------------- askChoice ----------------

  /** A JavaScript number as `Number(...)` may produce it. */
  datatype NumValue = NaN | Finite(r: real) | PosInfinity | NegInfinity

  /** Only `0` and `NaN` are falsy. */
  predicate Truthy(n: NumValue) {
    !(n.NaN? || n == Finite(0.0))
  }

  function MaxReal(a: real, b: real): real { if a < b then b else a }

  function MinReal(a: real, b: real): real { if a < b then a else b }

  /** `Math.max(1, Math.min(len, x))` for a number `x` that is not `NaN`. */
  function Clamp(len: nat, x: NumValue): (k: real)
    requires !x.NaN?
    ensures k >= 1.0 && (len >= 1 ==> k <= len as real)
  {
    match x
    case PosInfinity => MaxReal(1.0, len as real)
    case NegInfinity => 1.0
    case Finite(r) => MaxReal(1.0, MinReal(len as real, r))
  }

  /** `choices[i]` for a JavaScript number `i`: `undefined` unless `i` is a whole index in range. */
  function Pick(choices: seq<string>, i: real): Option<string> {
    if i == i.Floor as real && 0 <= i.Floor < |choices| then Some(choices[i.Floor]) else None
  }

  /**
   * `askChoice` of index.js as written: `n` is `Number(answer)`; a falsy
   * number selects `defIndex`, and `None` is the `undefined` a
   * non-whole index reads.
   */
  function AskChoice(choices: seq<string>, defIndex: nat, n: NumValue): Option<string> {
    var x := if Truthy(n) then n else Finite((defIndex + 1) as real);
    Pick(choices, Clamp(|choices|, x) - 1.0)
  }

  /**
   * A blank, non-numeric or `0` answer selects `defIndex`; any whole-number
   * answer (or an infinite one) is clamped into `1 .. choices.length`, so the
   * result is always one of the choices.
   */
  lemma AskChoiceWholeAnswers(choices: seq<string>, defIndex: nat, n: NumValue)
    requires |choices| >= 1 && defIndex < |choices|
    requires n.Finite? ==> n.r == n.r.Floor as real
    ensures AskChoice(choices, defIndex, n).Some?
    ensures AskChoice(choices, defIndex, n).value in choices
    ensures !Truthy(n) ==> AskChoice(choices, defIndex, n) == Some(choices[defIndex])
    ensures n.Finite? && 1.0 <= n.r <= |choices| as real ==>
      AskChoice(choices, defIndex, n) == Some(choices[n.r.Floor - 1])
    ensures n.Finite? && n.r < 1.0 && n.r != 0.0 ==> AskChoice(choices, defIndex, n) == Some(choices[0])
    ensures n.Finite? && n.r > |choices| as real ==> AskChoice(choices, defIndex, n) == Some(choices[|choices| - 1])
  {
    var x := if Truthy(n) then n else Finite((defIndex + 1) as real);
    var k := Clamp(|choices|, x);
    assert k == k.Floor as real;
  }

  /** A fractional answer between two choices reads past the list: `"2.5"` of three choices gives `undefined`. */
  lemma AskChoiceFractionalAnswer()
    ensures AskChoice(["a", "b", "c"], 0, Finite(2.5)) == None
  {
    assert Clamp(3, Finite(2.5)) - 1.0 == 1.5;
    assert (1.5).Floor == 1;
  }

  /** `askChoice` as intended: a fractional answer counts as no number, like a blank one. */
  function AskChoiceFixed(choices: seq<string>, defIndex: nat, n: NumValue): Option<string> {
    var whole := if n.Finite? && n.r != n.r.Floor as real then NaN else n;
    AskChoice(choices, defIndex, whole)
  }

  /** The corrected version always returns one of the choices, and agrees with the original on whole answers. */
  lemma AskChoiceFixedPicks(choices: seq<string>, defIndex: nat, n: NumValue)
    requires |choices| >= 1 && defIndex < |choices|
    ensures AskChoiceFixed(choices, defIndex, n).Some?
    ensures AskChoiceFixed(choices, defIndex, n).value in choices
    ensures (n.Finite? ==> n.r == n.r.Floor as real) ==>
      AskChoiceFixed(choices, defIndex, n) == AskChoice(choices, defIndex, n)
  {
    var whole := if n.Finite? && n.r != n.r.Floor as real then NaN else n;
    AskChoiceWholeAnswers(choices, defIndex, whole);
  }
}
