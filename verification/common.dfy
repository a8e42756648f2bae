/** Small definitions shared by the front-end and back-end models. */
module Common {

  datatype Option<T> = None | Some(value: T)

  /** The characters matched by the JavaScript regular-expression class `\s`, which are
      also the characters `String.prototype.trim` strips: the ECMAScript WhiteSpace and
      LineTerminator code points. */
  predicate IsWs(c: char)
  {
    || ('\t' <= c <= '\r')       // tab, line feed, vertical tab, form feed, carriage return
    || c == ' '
    || c == '\U{A0}'
    || c == '\U{1680}'
    || ('\U{2000}' <= c <= '\U{200A}')
    || c == '\U{2028}' || c == '\U{2029}'
    || c == '\U{202F}' || c == '\U{205F}'
    || c == '\U{3000}' || c == '\U{FEFF}'
  }

  /** `!question.trim()`: the question is empty once surrounding whitespace is removed,
      that is, every character of it is whitespace. */
  predicate IsBlank(s: string)
  {
    forall i :: 0 <= i < |s| ==> IsWs(s[i])
  }

  /** The characters of `s` that are not whitespace, in their original order. */
  function NonWs(s: string): (r: string)
    ensures |r| <= |s|
    ensures forall i :: 0 <= i < |r| ==> !IsWs(r[i])
  {
    if s == [] then []
    else if IsWs(s[0]) then NonWs(s[1..])
    else [s[0]] + NonWs(s[1..])
  }

  /** `n` copies of `x`. */
  function Repeat<T>(x: T, n: nat): (r: seq<T>)
    ensures |r| == n && forall i :: 0 <= i < n ==> r[i] == x
  {
    if n == 0 then [] else [x] + Repeat(x, n - 1)
  }

  lemma {:induction false} NonWsAppend(a: string, b: string)
    ensures NonWs(a + b) == NonWs(a) + NonWs(b)
  {
    if a == [] {
      assert a + b == b;
    } else {
      assert (a + b)[1..] == a[1..] + b;
      NonWsAppend(a[1..], b);
    }
  }

  /** A string is blank exactly when it has no non-whitespace character. */
  lemma {:induction false} BlankIffNoNonWs(s: string)
    ensures IsBlank(s) <==> NonWs(s) == []
  {
    if s != [] {
      BlankIffNoNonWs(s[1..]);
      if IsWs(s[0]) {
        assert IsBlank(s) <==> IsBlank(s[1..]) by {
          if IsBlank(s[1..]) {
            forall i | 0 <= i < |s| ensures IsWs(s[i]) {
              if i > 0 { assert s[i] == s[1..][i - 1]; }
            }
          }
        }
      }
    }
  }
}
