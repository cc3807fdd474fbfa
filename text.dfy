/**
  * Character classes and string helpers used by the recommender and the renderers:
  * Java's String.isBlank, Locale.ROOT lower-casing restricted to ASCII, the two character
  * classes of the term pattern, String.compareTo, and substring containment.
  */
module Text {

  /** Character.isWhitespace: the Unicode space, line and paragraph separators other than the
      non-breaking ones, plus the ASCII control characters TAB..CR and FS..US. */
  predicate IsWhitespace(c: char) {
    || ('\t' <= c <= '\r')
    || ('\U{1C}' <= c <= ' ')
    || c == '\U{1680}'
    || ('\U{2000}' <= c <= '\U{2006}')
    || ('\U{2008}' <= c <= '\U{200A}')
    || c == '\U{2028}' || c == '\U{2029}'
    || c == '\U{205F}' || c == '\U{3000}'
  }

  /** String.isBlank: empty, or whitespace only. */
  predicate IsBlank(s: string) {
    forall i | 0 <= i < |s| :: IsWhitespace(s[i])
  }

  /** The first class of the term pattern, `(?i)[a-z0-9]`: ASCII letters of either case and digits. */
  predicate IsAsciiAlnum(c: char) {
    ('a' <= c <= 'z') || ('A' <= c <= 'Z') || ('0' <= c <= '9')
  }

  /** The second class of the term pattern, `\p{IsHan}`, restricted to the blocks of the
      Han script listed here. */
  predicate IsHan(c: char) {
    || ('\U{2E80}' <= c <= '\U{2E99}')
    || ('\U{2E9B}' <= c <= '\U{2EF3}')
    || ('\U{2F00}' <= c <= '\U{2FD5}')
    || c == '\U{3005}' || c == '\U{3007}'
    || ('\U{3021}' <= c <= '\U{3029}')
    || ('\U{3038}' <= c <= '\U{303B}')
    || ('\U{3400}' <= c <= '\U{4DBF}')
    || ('\U{4E00}' <= c <= '\U{9FFF}')
    || ('\U{F900}' <= c <= '\U{FA6D}')
    || ('\U{FA70}' <= c <= '\U{FAD9}')
    || ('\U{20000}' <= c <= '\U{2A6DF}')
    || ('\U{2A700}' <= c <= '\U{2EBE0}')
    || ('\U{2F800}' <= c <= '\U{2FA1D}')
    || ('\U{30000}' <= c <= '\U{3134A}')
  }

  /** No character separates and belongs to a term at the same time. */
  lemma WhitespaceIsNoTermChar(c: char)
    requires IsWhitespace(c)
    ensures !IsAsciiAlnum(c) && !IsHan(c)
  {
  }

  /** Lower-casing of one character under Locale.ROOT, for ASCII letters. */
  function LowerChar(c: char): (r: char)
    ensures 'A' <= c <= 'Z' ==> 'a' <= r <= 'z' && r as int - c as int == 32
    ensures !('A' <= c <= 'Z') ==> r == c
  {
    if 'A' <= c <= 'Z' then (c as int + 32) as char else c
  }

  /** String.toLowerCase(Locale.ROOT), for ASCII letters. */
  function Lower(s: string): (r: string)
    ensures |r| == |s|
    ensures forall i :: 0 <= i < |s| ==> r[i] == LowerChar(s[i])
  {
    seq(|s|, i requires 0 <= i < |s| => LowerChar(s[i]))
  }

  /** Lower-casing twice is lower-casing once. */
  lemma LowerIdempotent(s: string)
    ensures Lower(Lower(s)) == Lower(s)
  {
    assert forall i :: 0 <= i < |s| ==> LowerChar(LowerChar(s[i])) == LowerChar(s[i]);
  }

  /** Lower-casing keeps every character's class and keeps blankness. */
  lemma LowerKeepsClasses(s: string)
    ensures forall i :: 0 <= i < |s| ==>
      (IsAsciiAlnum(Lower(s)[i]) <==> IsAsciiAlnum(s[i])) &&
      (IsHan(Lower(s)[i]) <==> IsHan(s[i])) &&
      (IsWhitespace(Lower(s)[i]) <==> IsWhitespace(s[i]))
    ensures IsBlank(Lower(s)) <==> IsBlank(s)
  {
  }

  /** String.compareTo(a, b) < 0: lexicographic order by character, a proper prefix first. */
  predicate LexLess(a: string, b: string)
  {
    if a == [] then b != []
    else if b == [] then false
    else if a[0] != b[0] then a[0] < b[0]
    else LexLess(a[1..], b[1..])
  }

  lemma {:induction false} LexLessIrreflexive(a: string)
    ensures !LexLess(a, a)
  {
    if a != [] {
      LexLessIrreflexive(a[1..]);
    }
  }

  lemma {:induction false} LexLessTransitive(a: string, b: string, c: string)
    requires LexLess(a, b) && LexLess(b, c)
    ensures LexLess(a, c)
  {
    if a != [] && b != [] && c != [] && a[0] == b[0] && b[0] == c[0] {
      LexLessTransitive(a[1..], b[1..], c[1..]);
    }
  }

  /** Two different strings are always ordered one way or the other. */
  lemma {:induction false} LexLessTotal(a: string, b: string)
    requires a != b
    ensures LexLess(a, b) || LexLess(b, a)
  {
    if a != [] && b != [] && a[0] == b[0] {
      assert a == [a[0]] + a[1..] && b == [b[0]] + b[1..];
      LexLessTotal(a[1..], b[1..]);
    }
  }

  /** `t` occurs in `s` starting at index `i`. */
  predicate OccursAt(s: string, t: string, i: int) {
    0 <= i <= |s| - |t| && s[i..i + |t|] == t
  }

  /** `t` occurs in `s` as a contiguous substring (String.contains). */
  predicate Contains(s: string, t: string) {
    exists i | 0 <= i <= |s| - |t| :: OccursAt(s, t, i)
  }

  /** What occurs in a part of a concatenation occurs in the whole. */
  lemma ContainsInConcat(p: string, s: string, q: string, t: string)
    requires Contains(s, t)
    ensures Contains(p + s + q, t)
  {
    var i :| 0 <= i <= |s| - |t| && OccursAt(s, t, i);
    var w := p + s + q;
    assert w[|p| + i..|p| + i + |t|] == s[i..i + |t|] == t;
    assert OccursAt(w, t, |p| + i);
  }

  lemma ContainsSelf(s: string)
    ensures Contains(s, s)
  {
    assert s[0..|s|] == s;
    assert OccursAt(s, s, 0);
  }

  /** Containment is transitive. */
  lemma ContainsTransitive(s: string, t: string, u: string)
    requires Contains(s, t) && Contains(t, u)
    ensures Contains(s, u)
  {
    var i :| 0 <= i <= |s| - |t| && OccursAt(s, t, i);
    var j :| 0 <= j <= |t| - |u| && OccursAt(t, u, j);
    forall k | 0 <= k < |u| ensures s[i + j + k] == u[k] {
      assert s[i..i + |t|][j + k] == t[j + k];
      assert t[j..j + |u|][k] == u[k];
    }
    assert s[i + j..i + j + |u|] == u;
    assert OccursAt(s, u, i + j);
  }
}
