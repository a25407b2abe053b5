/**
 * The string primitives the bot relies on: `str.lower()`, the first token of
 * `str.split()`, and the `x in s` substring and character tests behind
 * Python's `any(...)` scans.
 */
module Text {

  /**
   * Python's `str.isspace()`: the characters `str.split()` with no argument
   * splits on. Space, tab and the line breaks are among them; no capital and
   * no `/` is.
   */
  function IsSpace(c: char): (b: bool)
    ensures c == ' ' || c == '\t' || c == '\n' || c == '\r' ==> b
    ensures b ==> !IsUpper(c) && c != '/'
  {
    var n := c as int;
    n == 0x20 || 0x09 <= n <= 0x0D || 0x1C <= n <= 0x1F || n == 0x85 || n == 0xA0
    || n == 0x1680 || 0x2000 <= n <= 0x200A || n == 0x2028 || n == 0x2029
    || n == 0x202F || n == 0x205F || n == 0x3000
  }

  /** True for the upper-case letters `LowerChar` maps: ASCII A-Z and the Latin-1 capitals. */
  predicate IsUpper(c: char) {
    'A' <= c <= 'Z' || ('\U{00C0}' <= c <= '\U{00DE}' && c != '\U{00D7}')
  }

  /** One character of `str.lower()`, restricted to ASCII and Latin-1 (both shift by 32). */
  function LowerChar(c: char): (r: char)
    ensures IsUpper(c) ==> r as int == c as int + 32
    ensures !IsUpper(c) ==> r == c
    ensures r as int < 0x100 || r == c
  {
    if IsUpper(c) then (c as int + 32) as char else c
  }

  /** Lower-casing a character never turns it into, or out of, whitespace. */
  lemma LowerCharKeepsSpace(c: char)
    ensures IsSpace(LowerChar(c)) <==> IsSpace(c)
  {
  }

  /** Lower-casing is idempotent on the characters it handles. */
  lemma LowerCharIdempotent(c: char)
    ensures LowerChar(LowerChar(c)) == LowerChar(c)
  {
  }

  /** `str.lower()`, character by character. */
  function Lower(s: string): (r: string)
    ensures |r| == |s|
    ensures forall i :: 0 <= i < |s| ==> r[i] == LowerChar(s[i])
  {
    seq(|s|, i requires 0 <= i < |s| => LowerChar(s[i]))
  }

  /** No character of `s` is one `LowerChar` changes. */
  ghost predicate NoUpper(s: string)
    decreases |s|
  {
    s == [] || (!IsUpper(s[0]) && NoUpper(s[1..]))
  }

  /** A string without upper-case letters is its own lower-case form. */
  lemma {:induction false} LowerOfNoUpper(s: string)
    requires NoUpper(s)
    ensures Lower(s) == s
    decreases |s|
  {
    if s != [] {
      LowerOfNoUpper(s[1..]);
      assert Lower(s) == [LowerChar(s[0])] + Lower(s[1..]);
    }
  }

  /**
   * `s.split()[0]` for a string that starts with a non-space character:
   * the maximal run of non-space characters at the front of `s`.
   */
  function FirstToken(s: string): (r: string)
    ensures r <= s
    ensures forall i :: 0 <= i < |r| ==> !IsSpace(r[i])
    ensures |r| == |s| || IsSpace(s[|r|])
  {
    if s == [] || IsSpace(s[0]) then [] else [s[0]] + FirstToken(s[1..])
  }

  /** The token of `w + rest` is `w` when `w` has no space and `rest` is empty or starts with one. */
  lemma {:induction false} FirstTokenOf(w: string, rest: string)
    requires forall i :: 0 <= i < |w| ==> !IsSpace(w[i])
    requires rest == [] || IsSpace(rest[0])
    ensures FirstToken(w + rest) == w
  {
    if w != [] {
      assert (w + rest)[1..] == w[1..] + rest;
      FirstTokenOf(w[1..], rest);
    } else {
      assert w + rest == rest;
    }
  }

  /** `k` occurs in `t` starting at index `i`. */
  ghost predicate OccursAt(k: string, t: string, i: int) {
    0 <= i && i + |k| <= |t| && t[i..i + |k|] == k
  }

  /** `t.startswith(k)`. */
  function StartsWith(t: string, k: string): (b: bool)
    ensures b <==> OccursAt(k, t, 0)
  {
    if k == [] then true
    else if t == [] then false
    else t[0] == k[0] && StartsWith(t[1..], k[1..])
  }

  /** Python's `k in t` for strings: `k` is a substring of `t`, scanning left to right. */
  function Contains(t: string, k: string): (b: bool)
    ensures b <==> exists i | 0 <= i <= |t| - |k| :: OccursAt(k, t, i)
    decreases |t|
  {
    if StartsWith(t, k) then true
    else if t == [] then false
    else
      var b := Contains(t[1..], k);
      assert b <==> exists i | 1 <= i <= |t| - |k| :: OccursAt(k, t, i) by {
        forall i | 1 <= i <= |t| - |k|
          ensures OccursAt(k, t, i) <==> OccursAt(k, t[1..], i - 1)
        {
          assert t[1..][i - 1..i - 1 + |k|] == t[i..i + |k|];
        }
        if b {
          var j :| 0 <= j <= |t[1..]| - |k| && OccursAt(k, t[1..], j);
          assert OccursAt(k, t, j + 1);
        }
      }
      b
  }

  /** `any(k in t for k in ks)`. */
  function ContainsAny(t: string, ks: seq<string>): (b: bool)
    ensures b <==> exists j | 0 <= j < |ks| :: Contains(t, ks[j])
  {
    if ks == [] then false
    else Contains(t, ks[0]) || ContainsAny(t, ks[1..])
  }

  /** Some keyword of `words` is a substring of the lower-cased `text`. */
  ghost predicate Mentions(text: string, words: seq<string>) {
    exists j | 0 <= j < |words| :: Contains(Lower(text), words[j])
  }

  /** `any(ch in letters for ch in t)`. */
  function AnyCharIn(t: string, letters: set<char>): (b: bool)
    ensures b <==> exists i | 0 <= i < |t| :: t[i] in letters
  {
    if t == [] then false
    else t[0] in letters || AnyCharIn(t[1..], letters)
  }

  /** No two adjacent characters of `t` are `a` followed by `b`. */
  ghost predicate PairFree(t: string, a: char, b: char)
    decreases |t|
  {
    |t| < 2 || (!(t[0] == a && t[1] == b) && PairFree(t[1..], a, b))
  }

  /** A text in which the first two characters of `k` never appear side by side does not contain `k`. */
  lemma {:induction false} PairFreeExcludes(t: string, k: string)
    requires |k| >= 2 && PairFree(t, k[0], k[1])
    ensures !Contains(t, k)
    decreases |t|
  {
    if |t| >= 2 {
      PairFreeExcludes(t[1..], k);
    }
  }

  /**
   * Every keyword of `words` is ruled out of `t` cheaply: it is longer
   * than `t`, or its first two characters are never adjacent in `t`.
   */
  ghost predicate RuledOut(t: string, words: seq<string>)
    decreases |words|
  {
    words == []
    || ((|words[0]| > |t| || (|words[0]| >= 2 && PairFree(t, words[0][0], words[0][1]))) && RuledOut(t, words[1..]))
  }

  /** Such a text contains none of the keywords. */
  lemma {:induction false} RuledOutExcludes(t: string, words: seq<string>)
    requires RuledOut(t, words)
    ensures forall j | 0 <= j < |words| :: !Contains(t, words[j])
    decreases |words|
  {
    if words != [] {
      if |words[0]| <= |t| {
        PairFreeExcludes(t, words[0]);
      }
      RuledOutExcludes(t, words[1..]);
      assert forall j | 1 <= j < |words| :: words[j] == words[1..][j - 1];
    }
  }

  /** Containment is transitive: a text holding `a` holds every substring of `a`. */
  lemma ContainsTransitive(t: string, a: string, b: string)
    requires Contains(t, a) && Contains(a, b)
    ensures Contains(t, b)
  {
    var i :| 0 <= i <= |t| - |a| && OccursAt(a, t, i);
    var j :| 0 <= j <= |a| - |b| && OccursAt(b, a, j);
    forall m | 0 <= m < |b| ensures t[i + j + m] == b[m] {
      assert a[j + m] == b[m];
      assert t[i..i + |a|][j + m] == t[i + j + m];
    }
    assert t[i + j..i + j + |b|] == b;
    assert OccursAt(b, t, i + j);
  }
}
