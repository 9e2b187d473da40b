/** Character classes of JavaScript regular expressions and of String.prototype.trim,
    and maximal runs of one class inside a string. */
module Chars {

  /** JavaScript's `\s`: WhiteSpace and LineTerminator code points. `trim()` removes
      exactly the same set from both ends of a string. */
  predicate IsSpace(c: char) {
    c == '\t' || c == '\n' || c == '\U{000B}' || c == '\U{000C}' || c == '\r' || c == ' '
    || c == '\U{00A0}' || c == '\U{1680}' || ('\U{2000}' <= c <= '\U{200A}')
    || c == '\U{2028}' || c == '\U{2029}' || c == '\U{202F}' || c == '\U{205F}'
    || c == '\U{3000}' || c == '\U{FEFF}'
  }

  /** The characters that `.` does not match (no `s` flag). */
  predicate IsLineTerminator(c: char) {
    c == '\n' || c == '\r' || c == '\U{2028}' || c == '\U{2029}'
  }

  /** JavaScript's `\d`. */
  predicate IsDigit(c: char) {
    '0' <= c <= '9'
  }

  /** The four classes the two patterns quantify over: `\s`, `[^\s]`, `\d` and `.`. */
  datatype CharClass = Space | NonSpace | Digit | Dot

  predicate In(c: char, cls: CharClass) {
    match cls
    case Space => IsSpace(c)
    case NonSpace => !IsSpace(c)
    case Digit => IsDigit(c)
    case Dot => !IsLineTerminator(c)
  }

  /** Every character of s[i..j] belongs to cls. */
  predicate AllIn(s: string, i: nat, j: nat, cls: CharClass)
    requires i <= j <= |s|
  {
    forall m :: i <= m < j ==> In(s[m], cls)
  }

  /** The end of the maximal run of cls starting at k: what a greedy `cls*` consumes. */
  function RunEnd(s: string, k: nat, cls: CharClass): (r: nat)
    requires k <= |s|
    ensures k <= r <= |s|
    ensures AllIn(s, k, r, cls)
    ensures r == |s| || !In(s[r], cls)
    decreases |s| - k
  {
    if k == |s| || !In(s[k], cls) then k else RunEnd(s, k + 1, cls)
  }

  /** A run of cls that stops before a character outside cls is the maximal run. */
  lemma RunEndUnique(s: string, k: nat, j: nat, cls: CharClass)
    requires k <= j <= |s| && AllIn(s, k, j, cls) && (j == |s| || !In(s[j], cls))
    ensures RunEnd(s, k, cls) == j
  {
  }

  /** No run of cls from k reaches past the maximal one. */
  lemma RunEndBound(s: string, k: nat, j: nat, cls: CharClass)
    requires k <= j <= |s| && AllIn(s, k, j, cls)
    ensures j <= RunEnd(s, k, cls)
  {
  }
}
