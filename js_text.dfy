/**
 * The JavaScript string primitives the recipe application relies on, on
 * strings of Unicode scalar values: `\d` and `\s` of regular expressions,
 * `String.prototype.trim` (as a truthiness test), `toLowerCase`, `includes`
 * and `split` on a one-character separator.
 */
module JsText {

  /** `\d`: an ASCII decimal digit. */
  predicate IsDigit(c: char) {
    '0' <= c <= '9'
  }

  /**
   * `\s`, which is also the set of characters `trim` removes: the
   * ECMAScript WhiteSpace and LineTerminator characters.
   */
  predicate IsSpace(c: char) {
    || '\t' <= c <= '\r'            // tab, line feed, vertical tab, form feed, carriage return
    || c == ' ' || c == '\U{A0}' || c == '\U{1680}'
    || '\U{2000}' <= c <= '\U{200A}'
    || c == '\U{2028}' || c == '\U{2029}' || c == '\U{202F}' || c == '\U{205F}'
    || c == '\U{3000}' || c == '\U{FEFF}'
  }

  predicate AllDigits(t: string) {
    forall i :: 0 <= i < |t| ==> IsDigit(t[i])
  }

  predicate AllSpaces(t: string) {
    forall i :: 0 <= i < |t| ==> IsSpace(t[i])
  }

  /** `!t.trim()`: nothing but white space is left, so the trimmed string is falsy. */
  predicate IsBlank(t: string) {
    AllSpaces(t)
  }

  /**
   * The capitals `toLowerCase` is modelled on: the ASCII letters A-Z and the
   * Latin-1 capitals U+00C0-U+00DE except U+00D7, the multiplication sign,
   * which covers every accented capital of Portuguese.
   */
  predicate IsCapital(c: char) {
    'A' <= c <= 'Z' || ('\U{C0}' <= c <= '\U{DE}' && c != '\U{D7}')
  }

  predicate NoCapitals(s: string) {
    forall i :: 0 <= i < |s| ==> !IsCapital(s[i])
  }

  /**
   * `toLowerCase` on one character: a capital becomes its own small letter,
   * which in both blocks lies 32 code points higher; every other character
   * is left as it is.
   */
  function LowerChar(c: char): (r: char)
    ensures !IsCapital(r)
    ensures IsCapital(c) ==> r as int == c as int + 32
    ensures !IsCapital(c) ==> r == c
    ensures 'A' <= c <= 'Z' ==> 'a' <= r <= 'z'
    ensures IsDigit(r) <==> IsDigit(c)
    ensures IsSpace(r) <==> IsSpace(c)
  {
    if IsCapital(c) then (c as int + 32) as char else c
  }

  /**
   * `toLowerCase` on a string, character by character: no capital is left,
   * and a string without capitals comes back unchanged.
   */
  function Lower(s: string): (r: string)
    ensures |r| == |s|
    ensures forall i :: 0 <= i < |s| ==> r[i] == LowerChar(s[i])
    ensures NoCapitals(r)
    ensures NoCapitals(s) ==> r == s
  {
    seq(|s|, i requires 0 <= i < |s| => LowerChar(s[i]))
  }

  /** Lowercasing twice is lowercasing once. */
  lemma LowerIdempotent(s: string)
    ensures Lower(Lower(s)) == Lower(s)
  {
  }

  /** `k` occurs in `s` starting at index `i`. */
  predicate OccursAt(s: string, k: string, i: int) {
    0 <= i && i + |k| <= |s| && s[i..i + |k|] == k
  }

  /** `s.includes(k)`: some occurrence of `k` as a contiguous substring of `s`. */
  function Includes(s: string, k: string): (r: bool)
    ensures r <==> exists i :: OccursAt(s, k, i)
    decreases |s|
  {
    if |k| > |s| then
      false
    else if s[..|k|] == k then
      assert OccursAt(s, k, 0);
      true
    else
      var r := Includes(s[1..], k);
      ShiftOccurrence(s, k);
      r
  }

  /** An occurrence in `s[1..]` is an occurrence in `s` one place later, and conversely. */
  lemma ShiftOccurrence(s: string, k: string)
    requires |s| > 0
    ensures (exists i :: OccursAt(s[1..], k, i)) <==> (exists i :: 1 <= i && OccursAt(s, k, i))
  {
    if i :| OccursAt(s[1..], k, i) {
      assert s[1..][i..i + |k|] == s[i + 1..i + 1 + |k|];
      assert OccursAt(s, k, i + 1);
    }
    if i :| 1 <= i && OccursAt(s, k, i) {
      assert s[1..][i - 1..i - 1 + |k|] == s[i..i + |k|];
      assert OccursAt(s[1..], k, i - 1);
    }
  }

  /** A one-character needle is found exactly when that character occurs. */
  lemma {:induction false} IncludesChar(s: string, c: char)
    ensures Includes(s, [c]) <==> c in s
  {
    if c in s {
      var i :| 0 <= i < |s| && s[i] == c;
      assert s[i..i + 1] == [c];
      assert OccursAt(s, [c], i);
    }
    if Includes(s, [c]) {
      var i :| OccursAt(s, [c], i);
      assert s[i] == s[i..i + 1][0];
    }
  }

  /** A needle holding a character that `s` lacks is not found in `s`. */
  lemma MissingChar(s: string, k: string, c: char)
    requires c in k && c !in s
    ensures !Includes(s, k)
  {
    forall i | 0 <= i && i + |k| <= |s|
      ensures !OccursAt(s, k, i)
    {
      var j :| 0 <= j < |k| && k[j] == c;
      assert s[i..i + |k|][j] == s[i + j] != c;
    }
  }

  /** A needle holding two adjacent characters that never stand side by side in `s` is not found in `s`. */
  lemma MissingPair(s: string, k: string, j: nat)
    requires j + 1 < |k|
    requires forall i :: 0 <= i < |s| - 1 ==> !(s[i] == k[j] && s[i + 1] == k[j + 1])
    ensures !Includes(s, k)
  {
    forall i | 0 <= i && i + |k| <= |s|
      ensures !OccursAt(s, k, i)
    {
      assert s[i..i + |k|][j] == s[i + j];
      assert s[i..i + |k|][j + 1] == s[i + j + 1];
    }
  }

  /** An occurrence of `k` inside `m` is found wherever `m` is: substring search is transitive. */
  lemma IncludesTransitive(s: string, m: string, k: string)
    requires Includes(s, m) && Includes(m, k)
    ensures Includes(s, k)
  {
    var i :| OccursAt(s, m, i);
    var j :| OccursAt(m, k, j);
    forall n | 0 <= n < |k|
      ensures s[i + j + n] == k[n]
    {
      assert s[i + j + n] == s[i..i + |m|][j + n] == m[j..j + |k|][n];
    }
    assert s[i + j..i + j + |k|] == k;
    assert OccursAt(s, k, i + j);
  }

  /** Index of the first `sep` in `s`. */
  function IndexOf(s: string, sep: char): (i: nat)
    requires sep in s
    ensures i < |s| && s[i] == sep && sep !in s[..i]
  {
    if s[0] == sep then 0 else
      assert sep in s[1..] by { var j :| 0 <= j < |s| && s[j] == sep; assert s[1..][j - 1] == sep; }
      var i := IndexOf(s[1..], sep);
      assert s[..i + 1] == [s[0]] + s[1..][..i];
      i + 1
  }

  /** `parts.join(sep)`. */
  function Join(parts: seq<string>, sep: char): string
    requires |parts| >= 1
  {
    if |parts| == 1 then parts[0] else parts[0] + [sep] + Join(parts[1..], sep)
  }

  /** `s.split(sep)` for a one-character separator: the pieces between separators. */
  function Split(s: string, sep: char): (parts: seq<string>)
    ensures |parts| >= 1
    ensures forall p :: p in parts ==> sep !in p
    ensures Join(parts, sep) == s
    decreases |s|
  {
    if sep !in s then
      [s]
    else
      var i := IndexOf(s, sep);
      var rest := Split(s[i + 1..], sep);
      assert s == s[..i] + [sep] + s[i + 1..];
      assert ([s[..i]] + rest)[1..] == rest;
      [s[..i]] + rest
  }

  /** The first separator after a separator-free piece is the one right after it. */
  lemma IndexAfterPiece(a: string, sep: char, b: string)
    requires sep !in a
    ensures sep in a + [sep] + b && IndexOf(a + [sep] + b, sep) == |a|
  {
    var s := a + [sep] + b;
    assert s[|a|] == sep;
  }

  /** Splitting undoes joining when no piece holds the separator. */
  lemma {:induction false} SplitJoin(parts: seq<string>, sep: char)
    requires |parts| >= 1
    requires forall p :: p in parts ==> sep !in p
    ensures Split(Join(parts, sep), sep) == parts
  {
    if |parts| == 1 {
    } else {
      var s := Join(parts, sep);
      var rest := parts[1..];
      assert parts[0] in parts;
      assert forall p :: p in rest ==> p in parts;
      SplitJoin(rest, sep);
      assert s == parts[0] + [sep] + Join(rest, sep);
      IndexAfterPiece(parts[0], sep, Join(rest, sep));
      assert s[..|parts[0]|] == parts[0];
      assert s[|parts[0]| + 1..] == Join(rest, sep);
    }
  }
}
