/**
  The few JavaScript value rules the tracker's logic leans on: `null`/`undefined`
  as an absent value, truthiness of strings and numbers, and upper-casing of
  ticker symbols.
 */
module JsValues {

  /** An optional value: `None` stands for JavaScript's `null` or `undefined`. */
  datatype Option<+T> = None | Some(value: T)

  /** Truthiness of an optional string: `null`, `undefined` and `""` are falsy. */
  predicate TruthyString(s: Option<string>)
  {
    s.Some? && s.value != ""
  }

  /**
    Truthiness of an optional number decoded from JSON: `null`, `undefined` and
    `0` are falsy (JSON cannot carry `NaN`, the only other falsy number).
   */
  predicate TruthyNumber(x: Option<real>)
  {
    x.Some? && x.value != 0.0
  }

  /** `a || b` on optional strings, the fallback idiom used for labels and links. */
  function OrElse(a: Option<string>, b: string): (r: string)
    ensures TruthyString(a) ==> r == a.value
    ensures !TruthyString(a) ==> r == b
  {
    if TruthyString(a) then a.value else b
  }

  predicate IsLowerAscii(c: char)
  {
    'a' <= c <= 'z'
  }

  /** `toUpperCase` on one character, for the ASCII letters. */
  function UpperChar(c: char): (u: char)
    ensures IsLowerAscii(c) ==> 'A' <= u <= 'Z' && u as int == c as int - 32
    ensures !IsLowerAscii(c) ==> u == c
  {
    if IsLowerAscii(c) then (c as int - 32) as char else c
  }

  /** `String.prototype.toUpperCase`, restricted to ASCII letters. */
  function ToUpperCase(s: string): (r: string)
    ensures |r| == |s|
    ensures forall i :: 0 <= i < |s| ==> r[i] == UpperChar(s[i])
  {
    if s == [] then [] else [UpperChar(s[0])] + ToUpperCase(s[1..])
  }

  /** A string with no lower-case ASCII letter. */
  predicate IsUpperCase(s: string)
  {
    forall i :: 0 <= i < |s| ==> !IsLowerAscii(s[i])
  }

  /** Upper-casing leaves no lower-case letter and changes nothing that is already upper case. */
  lemma UpperCaseIsNormal(s: string)
    ensures IsUpperCase(ToUpperCase(s))
    ensures IsUpperCase(s) ==> ToUpperCase(s) == s
  {
  }

  /** Upper-casing twice is upper-casing once. */
  lemma UpperCaseIdempotent(s: string)
    ensures ToUpperCase(ToUpperCase(s)) == ToUpperCase(s)
  {
  }

  /** Upper-casing keeps a string empty exactly when it was empty. */
  lemma UpperCaseKeepsEmptiness(s: string)
    ensures ToUpperCase(s) == "" <==> s == ""
  {
  }
}
