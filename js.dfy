/** An optional value: JavaScript's `undefined` versus a present value. */
module Wrappers {

  datatype Option<+T> = None | Some(value: T)
}

/**
 * The few pieces of JavaScript semantics the generator and the gulp
 * templates rely on: truthiness, string conversion, `String.prototype.slice`
 * with one argument, `String.prototype.indexOf`, and the evaluation of the
 * literals that the `<%= %>` placeholders paste into `gulp/config.js`.
 */
module Js {
  import opened Wrappers

  /** The JavaScript values the model needs: strings and booleans. */
  datatype JsVal = Str(s: string) | Bool(b: bool)

  /** JavaScript truthiness: the empty string and `false` are falsy. */
  predicate Truthy(v: JsVal) {
    match v
    case Str(s) => s != ""
    case Bool(b) => b
  }

  /** `String(v)`: what string concatenation and `<%= v %>` paste. */
  function ToStr(v: JsVal): string {
    match v
    case Str(s) => s
    case Bool(b) => if b then "true" else "false"
  }

  function Min(a: int, b: int): int {
    if a <= b then a else b
  }

  /** Where `s.slice(start)` begins: a negative start counts back from the end, and both ends clamp. */
  function SliceStart(len: nat, start: int): (k: nat)
    ensures k <= len
  {
    if start < 0 then (if len + start < 0 then 0 else len + start)
    else if start > len then len
    else start
  }

  /** `s.slice(start)`. */
  function Slice(s: string, start: int): (r: string)
    ensures |r| <= |s| && r == s[|s| - |r|..]
    ensures 0 <= start <= |s| ==> s[..start] + r == s
    ensures start >= |s| ==> r == ""
    ensures start < 0 ==> |r| == Min(|s|, -start)
  {
    s[SliceStart(|s|, start)..]
  }

  /** `sub` occurs in `s` starting at index `k`. */
  predicate OccursAt(s: string, sub: string, k: int) {
    0 <= k && k + |sub| <= |s| && s[k..k + |sub|] == sub
  }

  /** The first occurrence of `sub` in `s` at or after `from`, or -1. */
  function IndexFrom(s: string, sub: string, from: nat): (k: int)
    ensures k == -1 || (from <= k && OccursAt(s, sub, k))
    ensures forall j | from <= j && (k == -1 || j < k) :: !OccursAt(s, sub, j)
    decreases |s| - from
  {
    if from + |sub| > |s| then -1
    else if s[from..from + |sub|] == sub then from
    else IndexFrom(s, sub, from + 1)
  }

  /** `s.indexOf(sub)`: the first index at which `sub` occurs, or -1 when it does not occur. */
  function IndexOf(s: string, sub: string): (k: int)
    ensures k == -1 || OccursAt(s, sub, k)
    ensures k == -1 <==> forall j :: !OccursAt(s, sub, j)
    ensures forall j | 0 <= j < k :: !OccursAt(s, sub, j)
  {
    IndexFrom(s, sub, 0)
  }

  /** For a one-character needle, `indexOf` is the position of the first `c`, and -1 exactly when `c` is absent. */
  lemma IndexOfChar(s: string, c: char)
    ensures IndexOf(s, [c]) == -1 <==> c !in s
    ensures IndexOf(s, [c]) != -1 ==>
      0 <= IndexOf(s, [c]) < |s| && s[IndexOf(s, [c])] == c && c !in s[..IndexOf(s, [c])]
  {
    var k := IndexOf(s, [c]);
    if c in s {
      var j :| 0 <= j < |s| && s[j] == c;
      assert s[j..j + 1] == [c];
      assert OccursAt(s, [c], j);
    }
    if k != -1 {
      assert s[k..k + 1] == [c];
      assert s[k] == c;
      forall j | 0 <= j < k ensures s[j] != c {
        if s[j] == c {
          assert s[j..j + 1] == [c];
          assert OccursAt(s, [c], j);
        }
      }
    }
  }

  /**
   * A string that can sit between single quotes in JavaScript source
   * without escaping: no quote, no backslash, and no line terminator
   * (line feed, carriage return, and the line and paragraph separators,
   * which engines before ES2019 also reject inside a string literal).
   */
  predicate Plain(s: string) {
    forall i | 0 <= i < |s| ::
      && s[i] != '\'' && s[i] != '\\'
      && s[i] != '\n' && s[i] != '\r' && s[i] != '\U{2028}' && s[i] != '\U{2029}'
  }

  /** The source text `'s'`. */
  function Quote(s: string): string {
    "'" + s + "'"
  }

  /**
   * The value of a boolean literal or a single-quoted string literal
   * without escapes; None for any other source text (which would not
   * be a literal, or would not parse).
   */
  function EvalLiteral(text: string): (r: Option<JsVal>)
    ensures r.Some? && r.value.Bool? ==> text == ToStr(r.value)
    ensures r.Some? && r.value.Str? ==> text == Quote(r.value.s) && Plain(r.value.s)
  {
    if text == "true" then Some(Bool(true))
    else if text == "false" then Some(Bool(false))
    else if 2 <= |text| && text[0] == '\'' && text[|text| - 1] == '\'' && Plain(text[1..|text| - 1]) then
      assert text == Quote(text[1..|text| - 1]);
      Some(Str(text[1..|text| - 1]))
    else None
  }

  /** Quoting a plain string and evaluating the result gives the string back. */
  lemma EvalQuote(s: string)
    requires Plain(s)
    ensures EvalLiteral(Quote(s)) == Some(Str(s))
  {
    var text := Quote(s);
    assert text[0] == '\'';
    assert text != "true" && text != "false";
    assert text[1..|text| - 1] == s;
  }

  /** A quoted text that holds a line terminator is no string literal: it does not evaluate. */
  lemma LineTerminatorRejected(s: string, i: nat)
    requires i < |s| && s[i] in "\n\r\U{2028}\U{2029}"
    ensures EvalLiteral(Quote(s)) == None
  {
    var text := Quote(s);
    assert text[0] == '\'';
    assert text[1..|text| - 1] == s;
    assert !Plain(s);
  }

  /** Pasting a boolean with `<%= %>` and evaluating the result gives the boolean back. */
  lemma EvalBool(b: bool)
    ensures EvalLiteral(ToStr(Bool(b))) == Some(Bool(b))
  {
  }
}
