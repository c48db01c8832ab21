/**
 * The Python `str` operations the scorer relies on, over ASCII:
 * `isspace`, `strip`, `split()` (no separator), `lower`, `isupper` on one
 * character, the substring test `needle in hay`, and `sep.join(parts)`.
 * Characters outside ASCII are never whitespace, never upper-case and are
 * left unchanged by `Lower`.
 *
 * What `strip`, `split()`, `lower` and `in` mean character by character is
 * stated in the lemmas below the functions.
 */
module PyStr {

  /** `c.isspace()` for ASCII: space, \t \n \v \f \r and the separators 0x1C-0x1F. */
  predicate IsSpace(c: char) {
    c == ' ' || ('\t' <= c <= '\r') || ('\U{1C}' <= c <= '\U{1F}')
  }

  /** `c.isupper()` for one ASCII character. */
  predicate IsUpper(c: char) {
    'A' <= c <= 'Z'
  }

  /** `c.lower()` for one character: A-Z become a-z, all else is kept. */
  function LowerChar(c: char): (d: char)
    ensures IsSpace(d) == IsSpace(c)
    ensures !IsUpper(d)
    ensures !IsUpper(c) ==> d == c
  {
    if IsUpper(c) then (c as int + 32) as char else c
  }

  /** `s.lower()`. */
  function Lower(s: string): (r: string)
    ensures |r| == |s|
  {
    if s == [] then [] else [LowerChar(s[0])] + Lower(s[1..])
  }

  predicate NoSpace(s: string) {
    forall k :: 0 <= k < |s| ==> !IsSpace(s[k])
  }

  predicate AllSpace(s: string) {
    forall k :: 0 <= k < |s| ==> IsSpace(s[k])
  }

  /** `s.lstrip()`: what is left after the leading whitespace. */
  function TrimStart(s: string): (r: string)
    ensures |r| <= |s| && r == s[|s| - |r|..]
    ensures r == [] || !IsSpace(r[0])
  {
    if s != [] && IsSpace(s[0]) then TrimStart(s[1..]) else s
  }

  /** `s.rstrip()`: what is left before the trailing whitespace. */
  function TrimEnd(s: string): (r: string)
    ensures |r| <= |s| && r == s[..|r|]
    ensures r == [] || !IsSpace(r[|r| - 1])
  {
    if s != [] && IsSpace(s[|s| - 1]) then TrimEnd(s[..|s| - 1]) else s
  }

  /** `s.strip()`. */
  function Strip(s: string): string {
    TrimEnd(TrimStart(s))
  }

  /** Length of the leading run of non-whitespace characters of `s`. */
  function WordLength(s: string): (n: nat)
    ensures n <= |s|
    ensures n == |s| || IsSpace(s[n])
  {
    if s == [] || IsSpace(s[0]) then 0 else 1 + WordLength(s[1..])
  }

  /** `s.split()`: the maximal runs of non-whitespace characters, in order. */
  function Split(s: string): (tokens: seq<string>)
    decreases |s|
  {
    if s == [] then []
    else if IsSpace(s[0]) then Split(s[1..])
    else
      var n := WordLength(s);
      [s[..n]] + Split(s[n..])
  }

  /** `needle in hay` on two strings. */
  function Contains(hay: string, needle: string): bool {
    if needle <= hay then true
    else if hay == [] then false
    else Contains(hay[1..], needle)
  }

  /** `sep.join(parts)`. */
  function Join(sep: string, parts: seq<string>): string {
    if parts == [] then ""
    else if |parts| == 1 then parts[0]
    else parts[0] + sep + Join(sep, parts[1..])
  }

  /** `[t.lower() for t in tokens]`. */
  function LowerAll(tokens: seq<string>): (r: seq<string>)
    ensures |r| == |tokens|
    ensures forall i :: 0 <= i < |tokens| ==> r[i] == Lower(tokens[i])
  {
    if tokens == [] then [] else [Lower(tokens[0])] + LowerAll(tokens[1..])
  }

  /** The tokens glued back together, with nothing between them. */
  function Concat(parts: seq<string>): string {
    if parts == [] then [] else parts[0] + Concat(parts[1..])
  }

  /** `s` with every whitespace character removed. */
  function RemoveSpace(s: string): string {
    if s == [] then [] else (if IsSpace(s[0]) then [] else [s[0]]) + RemoveSpace(s[1..])
  }

  // ---------------------------------------------------------------------
  // What the functions mean, character by character

  /** Each character of `s.lower()` is the lower-cased character of `s`. */
  lemma {:induction false} LowerIndex(s: string, k: nat)
    requires k < |s|
    ensures Lower(s)[k] == LowerChar(s[k])
    decreases k
  {
    if k > 0 {
      LowerIndex(s[1..], k - 1);
    }
  }

  /** `lstrip` removes exactly a run of whitespace. */
  lemma {:induction false} TrimStartRemovesSpace(s: string)
    ensures AllSpace(s[..|s| - |TrimStart(s)|])
    decreases |s|
  {
    if s != [] && IsSpace(s[0]) {
      TrimStartRemovesSpace(s[1..]);
      var d := |s| - |TrimStart(s)|;
      assert s[..d] == [s[0]] + s[1..][..d - 1];
    }
  }

  /** `rstrip` removes exactly a run of whitespace. */
  lemma {:induction false} TrimEndRemovesSpace(s: string)
    ensures AllSpace(s[|TrimEnd(s)|..])
    decreases |s|
  {
    if s != [] && IsSpace(s[|s| - 1]) {
      var r := TrimEnd(s[..|s| - 1]);
      TrimEndRemovesSpace(s[..|s| - 1]);
      assert s[|r|..] == s[..|s| - 1][|r|..] + [s[|s| - 1]];
    }
  }

  /** The leading run measured by `WordLength` holds no whitespace. */
  lemma {:induction false} WordLengthNoSpace(s: string)
    ensures NoSpace(s[..WordLength(s)])
    decreases |s|
  {
    if s != [] && !IsSpace(s[0]) {
      WordLengthNoSpace(s[1..]);
      assert s[..WordLength(s)] == [s[0]] + s[1..][..WordLength(s[1..])];
    }
  }

  /** Every token of `s.split()` is a non-empty run without whitespace. */
  lemma {:induction false} SplitTokensAreWords(s: string)
    ensures forall t :: t in Split(s) ==> t != [] && NoSpace(t)
    decreases |s|
  {
    if s == [] {
    } else if IsSpace(s[0]) {
      SplitTokensAreWords(s[1..]);
    } else {
      WordLengthNoSpace(s);
      SplitTokensAreWords(s[WordLength(s)..]);
    }
  }

  /** `needle in hay` holds exactly when `needle` starts at some position of `hay`. */
  lemma {:induction false} ContainsAt(hay: string, needle: string)
    ensures Contains(hay, needle) <==> exists i :: 0 <= i <= |hay| && needle <= hay[i..]
    decreases |hay|
  {
    if needle <= hay {
      assert needle <= hay[0..];
    } else if hay == [] {
    } else {
      ContainsAt(hay[1..], needle);
      assert forall i :: 1 <= i <= |hay| ==> hay[i..] == hay[1..][i - 1..];
      assert !(needle <= hay[0..]);
    }
  }

  // ---------------------------------------------------------------------
  // Lower-casing

  /** Lower-casing works character by character, so it distributes over `+`. */
  lemma {:induction false} LowerAppend(a: string, b: string)
    ensures Lower(a + b) == Lower(a) + Lower(b)
    decreases |a|
  {
    if a == [] {
      assert a + b == b;
    } else {
      assert (a + b)[1..] == a[1..] + b;
      LowerAppend(a[1..], b);
    }
  }

  lemma LowerSlices(s: string, n: nat)
    requires n <= |s|
    ensures Lower(s)[..n] == Lower(s[..n])
    ensures Lower(s)[n..] == Lower(s[n..])
  {
    assert s == s[..n] + s[n..];
    LowerAppend(s[..n], s[n..]);
  }

  /** Lower-casing is idempotent: `w.lower().lower() == w.lower()`. */
  lemma {:induction false} LowerIdempotent(s: string)
    ensures Lower(Lower(s)) == Lower(s)
    decreases |s|
  {
    if s != [] {
      var l := Lower(s);
      assert l[0] == LowerChar(s[0]) && l[1..] == Lower(s[1..]);
      LowerIdempotent(s[1..]);
    }
  }

  /** Lower-casing keeps every whitespace position, so the leading run keeps its length. */
  lemma {:induction false} WordLengthLower(s: string)
    ensures WordLength(Lower(s)) == WordLength(s)
    decreases |s|
  {
    if s != [] {
      var l := Lower(s);
      assert l[0] == LowerChar(s[0]) && l[1..] == Lower(s[1..]);
      WordLengthLower(s[1..]);
    }
  }

  /** The tokens of `s.lower()` are the lower-cased tokens of `s`. */
  lemma {:induction false} SplitLower(s: string)
    ensures Split(Lower(s)) == LowerAll(Split(s))
    decreases |s|
  {
    if s == [] {
    } else if IsSpace(s[0]) {
      LowerSlices(s, 1);
      LowerIndex(s, 0);
      SplitLower(s[1..]);
    } else {
      var n := WordLength(s);
      LowerIndex(s, 0);
      WordLengthLower(s);
      LowerSlices(s, n);
      SplitLower(s[n..]);
      assert LowerAll([s[..n]] + Split(s[n..])) == [Lower(s[..n])] + LowerAll(Split(s[n..]));
    }
  }

  /** A lower-case infix survives lower-casing of the whole string. */
  lemma LowerKeepsInfix(p: string, w: string, q: string, s: string)
    requires Lower(w) == w
    ensures Contains(Lower(p + w + q + s), w)
  {
    assert p + w + q + s == p + (w + (q + s));
    LowerAppend(p, w + (q + s));
    LowerAppend(w, q + s);
    var l := Lower(p) + (w + Lower(q + s));
    assert l[|p|..] == w + Lower(q + s);
    assert w <= l[|p|..];
    ContainsAt(l, w);
  }

  // ---------------------------------------------------------------------
  // Splitting and stripping

  lemma {:induction false} SplitAllSpace(w: string)
    requires AllSpace(w)
    ensures Split(w) == []
    decreases |w|
  {
    if w != [] {
      SplitAllSpace(w[1..]);
    }
  }

  /** Leading whitespace produces no token. */
  lemma {:induction false} SplitTrimStart(s: string)
    ensures Split(TrimStart(s)) == Split(s)
    decreases |s|
  {
    if s != [] && IsSpace(s[0]) {
      SplitTrimStart(s[1..]);
    }
  }

  lemma {:induction false} WordLengthAppendSpace(s: string, w: string)
    requires AllSpace(w)
    ensures WordLength(s + w) == WordLength(s)
    decreases |s|
  {
    if s != [] && !IsSpace(s[0]) {
      assert (s + w)[1..] == s[1..] + w;
      WordLengthAppendSpace(s[1..], w);
    } else if s == [] {
      assert s + w == w;
    }
  }

  /** Trailing whitespace produces no token. */
  lemma {:induction false} SplitAppendSpace(s: string, w: string)
    requires AllSpace(w)
    ensures Split(s + w) == Split(s)
    decreases |s|
  {
    if s == [] {
      assert s + w == w;
      SplitAllSpace(w);
    } else if IsSpace(s[0]) {
      assert (s + w)[1..] == s[1..] + w;
      SplitAppendSpace(s[1..], w);
    } else {
      var n := WordLength(s);
      WordLengthAppendSpace(s, w);
      assert (s + w)[..n] == s[..n];
      assert (s + w)[n..] == s[n..] + w;
      SplitAppendSpace(s[n..], w);
    }
  }

  /** `s.strip().split() == s.split()`. */
  lemma SplitStrip(s: string)
    ensures Split(Strip(s)) == Split(s)
  {
    var t := TrimStart(s);
    var r := TrimEnd(t);
    TrimEndRemovesSpace(t);
    assert t == r + t[|r|..];
    SplitAppendSpace(r, t[|r|..]);
    SplitTrimStart(s);
  }

  /** `s.strip()` is empty exactly when `s` is all whitespace. */
  lemma StripEmpty(s: string)
    ensures Strip(s) == [] <==> AllSpace(s)
  {
    var t := TrimStart(s);
    TrimStartRemovesSpace(s);
    TrimEndRemovesSpace(t);
    if Strip(s) == [] {
      assert t == t[0..];
      assert s == s[..|s| - |t|] + t;
    } else if t != [] {
      assert s[|s| - |t|] == t[0];
    }
  }

  lemma {:induction false} WordLengthOf(t: string, rest: string)
    requires NoSpace(t)
    requires rest == [] || IsSpace(rest[0])
    ensures WordLength(t + rest) == |t|
    decreases |t|
  {
    if t == [] {
      assert t + rest == rest;
    } else {
      assert (t + rest)[1..] == t[1..] + rest;
      WordLengthOf(t[1..], rest);
    }
  }

  /** A word followed by whitespace or the end of the text is one token. */
  lemma SplitWord(t: string, rest: string)
    requires t != [] && NoSpace(t)
    requires rest == [] || IsSpace(rest[0])
    ensures Split(t + rest) == [t] + Split(rest)
  {
    WordLengthOf(t, rest);
    assert (t + rest)[..|t|] == t && (t + rest)[|t|..] == rest;
  }

  /** A single word without whitespace is its own only token. */
  lemma SplitOneWord(t: string)
    requires t != [] && NoSpace(t)
    ensures Split(t) == [t]
  {
    SplitWord(t, []);
    assert t + [] == t;
  }

  lemma {:induction false} RemoveSpaceAppend(a: string, b: string)
    ensures RemoveSpace(a + b) == RemoveSpace(a) + RemoveSpace(b)
    decreases |a|
  {
    if a == [] {
      assert a + b == b;
    } else {
      assert (a + b)[0] == a[0] && (a + b)[1..] == a[1..] + b;
      RemoveSpaceAppend(a[1..], b);
      var head: string := if IsSpace(a[0]) then [] else [a[0]];
      assert RemoveSpace(a + b) == head + (RemoveSpace(a[1..]) + RemoveSpace(b));
      assert RemoveSpace(a) == head + RemoveSpace(a[1..]);
    }
  }

  lemma {:induction false} RemoveSpaceOfWord(w: string)
    requires NoSpace(w)
    ensures RemoveSpace(w) == w
    decreases |w|
  {
    if w != [] {
      assert NoSpace(w[1..]) by {
        forall k | 0 <= k < |w[1..]| ensures !IsSpace(w[1..][k]) {
          assert w[1..][k] == w[k + 1];
        }
      }
      RemoveSpaceOfWord(w[1..]);
      assert w == [w[0]] + w[1..];
    }
  }

  /**
   * `split()` drops whitespace and nothing else: the tokens, glued back
   * together, are the text with its whitespace removed.
   */
  lemma {:induction false} SplitKeepsNonSpace(s: string)
    ensures Concat(Split(s)) == RemoveSpace(s)
    decreases |s|
  {
    if s == [] {
    } else if IsSpace(s[0]) {
      SplitKeepsNonSpace(s[1..]);
    } else {
      var n := WordLength(s);
      var ts := Split(s[n..]);
      WordLengthNoSpace(s);
      SplitKeepsNonSpace(s[n..]);
      assert ([s[..n]] + ts)[0] == s[..n] && ([s[..n]] + ts)[1..] == ts;
      RemoveSpaceOfWord(s[..n]);
      assert s == s[..n] + s[n..];
      RemoveSpaceAppend(s[..n], s[n..]);
    }
  }
}
