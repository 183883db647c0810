/** JavaScript string primitives the interview page and the evaluate route rely on:
    `String.prototype.trim`, the `length` of a string (UTF-16 code units) and the
    word count `s.trim().split(/\s+/).filter(Boolean).length`. */
module Text {

  /** The WhiteSpace and LineTerminator code points of ECMA-262 (sections 12.2 and 12.3):
      exactly what `trim` strips and what the regular-expression class `\s` matches. */
  predicate IsWhitespace(c: char) {
    var n := c as int;
    n == 0x09 || n == 0x0A || n == 0x0B || n == 0x0C || n == 0x0D || n == 0x20 || n == 0xA0
    || n == 0x1680 || (0x2000 <= n <= 0x200A) || n == 0x2028 || n == 0x2029 || n == 0x202F
    || n == 0x205F || n == 0x3000 || n == 0xFEFF
  }

  predicate AllWhitespace(s: string) {
    forall i :: 0 <= i < |s| ==> IsWhitespace(s[i])
  }

  predicate NoWhitespace(s: string) {
    forall i :: 0 <= i < |s| ==> !IsWhitespace(s[i])
  }

  /** Strips leading whitespace: the result is the suffix of `s` that starts at its first
      non-whitespace character. */
  function TrimStart(s: string): (r: string)
    ensures |r| <= |s| && r == s[|s| - |r|..]
    ensures forall k :: 0 <= k < |s| - |r| ==> IsWhitespace(s[k])
    ensures r == [] || !IsWhitespace(r[0])
  {
    if s != [] && IsWhitespace(s[0]) then TrimStart(s[1..]) else s
  }

  /** Strips trailing whitespace: the result is the prefix of `s` that ends at its last
      non-whitespace character. */
  function TrimEnd(s: string): (r: string)
    ensures |r| <= |s| && r == s[..|r|]
    ensures forall k :: |r| <= k < |s| ==> IsWhitespace(s[k])
    ensures r == [] || !IsWhitespace(r[|r| - 1])
  {
    if s != [] && IsWhitespace(s[|s| - 1]) then TrimEnd(s[..|s| - 1]) else s
  }

  /** `s.trim()` */
  function Trim(s: string): (r: string)
    ensures |r| <= |s|
    ensures r == [] || (!IsWhitespace(r[0]) && !IsWhitespace(r[|r| - 1]))
  {
    TrimEnd(TrimStart(s))
  }

  /** `trim` removes a whitespace prefix and a whitespace suffix and nothing else: the
      result is the infix `s[i..j]`, everything outside it is whitespace, and it neither
      starts nor ends with whitespace. */
  lemma {:induction false} TrimIsInfix(s: string) returns (i: nat, j: nat)
    ensures i <= j <= |s| && Trim(s) == s[i..j]
    ensures forall k :: 0 <= k < i || j <= k < |s| ==> IsWhitespace(s[k])
    ensures i < j ==> !IsWhitespace(s[i]) && !IsWhitespace(s[j - 1])
  {
    i, j := TrimSlice(s);
    TrimOutsideBlank(s, i, j);
    TrimEndsNonBlank(s, i, j);
  }

  lemma TrimSlice(s: string) returns (i: nat, j: nat)
    ensures i == |s| - |TrimStart(s)| && j == i + |Trim(s)|
    ensures i <= j <= |s| && Trim(s) == s[i..j]
  {
    var t := TrimStart(s);
    i := |s| - |t|;
    j := i + |TrimEnd(t)|;
    SliceOfSuffix(s, i, j - i);
  }

  lemma TrimOutsideBlank(s: string, i: nat, j: nat)
    requires i == |s| - |TrimStart(s)| && j == i + |Trim(s)| && j <= |s|
    ensures forall k :: 0 <= k < i || j <= k < |s| ==> IsWhitespace(s[k])
  {
    var t := TrimStart(s);
    var e := TrimEnd(t);
    assert |e| == j - i && t == s[i..];
    forall k | j <= k < |s| ensures IsWhitespace(s[k]) {
      assert s[k] == t[k - i];
    }
  }

  lemma TrimEndsNonBlank(s: string, i: nat, j: nat)
    requires i <= j <= |s| && Trim(s) == s[i..j]
    ensures i < j ==> !IsWhitespace(s[i]) && !IsWhitespace(s[j - 1])
  {
    if i < j {
      assert Trim(s)[0] == s[i] && Trim(s)[j - i - 1] == s[j - 1];
    }
  }

  lemma SliceOfSuffix(s: string, i: nat, k: nat)
    requires i + k <= |s|
    ensures s[i..][..k] == s[i..i + k] && s[i..][k..] == s[i + k..]
  {
  }

  /** A string trims to nothing exactly when every character of it is whitespace. */
  lemma {:induction false} TrimEmptyIffBlank(s: string)
    ensures Trim(s) == [] <==> AllWhitespace(s)
  {
    var i, j := TrimIsInfix(s);
    if Trim(s) != [] {
      assert i < j && !IsWhitespace(s[i]);
    }
  }

  /** Trimming twice is trimming once. */
  lemma {:induction false} TrimIdempotent(s: string)
    ensures Trim(Trim(s)) == Trim(s)
  {
    var t := Trim(s);
    if t != [] {
      assert TrimStart(t) == t;
      assert TrimEnd(t) == t;
    }
  }

  /** The number of UTF-16 code units of `c`: two for a code point outside the Basic
      Multilingual Plane, one otherwise. */
  function CodeUnits(c: char): nat {
    if c as int >= 0x1_0000 then 2 else 1
  }

  /** `s.length` in JavaScript: a string's length counts UTF-16 code units. */
  function Utf16Length(s: string): (n: nat)
    ensures |s| <= n <= 2 * |s|
  {
    if s == [] then 0 else Utf16Length(s[..|s| - 1]) + CodeUnits(s[|s| - 1])
  }

  /** `s.trim().length`: between one and two units per remaining character, and never
      more than the untrimmed length. */
  function TrimmedLength(s: string): (n: nat)
    ensures |Trim(s)| <= n <= 2 * |Trim(s)|
    ensures n <= Utf16Length(s)
  {
    TrimShortens(s);
    Utf16Length(Trim(s))
  }

  lemma {:induction false} Utf16LengthAppend(a: string, b: string)
    ensures Utf16Length(a + b) == Utf16Length(a) + Utf16Length(b)
    decreases |b|
  {
    if b != [] {
      assert (a + b)[..|a + b| - 1] == a + b[..|b| - 1];
      Utf16LengthAppend(a, b[..|b| - 1]);
    } else {
      assert a + b == a;
    }
  }

  /** Trimming never adds code units. */
  lemma {:induction false} TrimShortens(s: string)
    ensures Utf16Length(Trim(s)) <= Utf16Length(s)
  {
    var i, j := TrimIsInfix(s);
    ThreeParts(s, i, j);
    Utf16LengthAppend(s[..i], s[i..j] + s[j..]);
    Utf16LengthAppend(s[i..j], s[j..]);
  }

  /** The trimmed length is zero exactly for blank strings. */
  lemma {:induction false} TrimmedLengthZeroIffBlank(s: string)
    ensures TrimmedLength(s) == 0 <==> AllWhitespace(s)
  {
    TrimEmptyIffBlank(s);
  }

  /** The length of the run of non-whitespace characters that `s` starts with. */
  function NonWhitespacePrefix(s: string): (k: nat)
    ensures k <= |s| && NoWhitespace(s[..k])
    ensures k < |s| ==> IsWhitespace(s[k])
  {
    if s == [] || IsWhitespace(s[0]) then 0
    else
      var k := 1 + NonWhitespacePrefix(s[1..]);
      assert forall i :: 1 <= i < k ==> s[..k][i] == s[1..][..k - 1][i - 1];
      k
  }

  /** `s.split(/\s+/)`: the pieces between maximal runs of whitespace. A leading run
      yields an empty first piece and a trailing run an empty last piece. */
  function SplitWhitespace(s: string): (pieces: seq<string>)
    ensures |pieces| >= 1
    ensures forall i :: 0 <= i < |pieces| ==> NoWhitespace(pieces[i])
    decreases |s|
  {
    var k := NonWhitespacePrefix(s);
    if k == |s| then
      assert s[..k] == s;
      [s]
    else
      var head, rest := s[..k], SplitWhitespace(TrimStart(s[k..]));
      PrependPieces(head, rest);
      [head] + rest
  }

  lemma PrependPieces(head: string, rest: seq<string>)
    requires NoWhitespace(head)
    requires forall i :: 0 <= i < |rest| ==> NoWhitespace(rest[i])
    ensures forall i :: 0 <= i < |[head] + rest| ==> NoWhitespace(([head] + rest)[i])
  {
    forall i | 0 <= i < |[head] + rest|
      ensures NoWhitespace(([head] + rest)[i])
    {
      if i > 0 {
        assert ([head] + rest)[i] == rest[i - 1];
      }
    }
  }

  /** `.filter(Boolean)` on strings: drops the empty ones. */
  function NonEmpty(pieces: seq<string>): (r: seq<string>)
    ensures |r| <= |pieces|
    ensures forall i :: 0 <= i < |r| ==> r[i] != []
    ensures forall p :: p in r <==> p in pieces && p != []
    ensures multiset(r) == multiset(pieces)[[] := 0]
  {
    if pieces == [] then []
    else
      assert pieces == [pieces[0]] + pieces[1..];
      assert forall p :: p in pieces <==> p == pieces[0] || p in pieces[1..];
      (if pieces[0] == [] then [] else [pieces[0]]) + NonEmpty(pieces[1..])
  }

  /** `s.trim().split(/\s+/).filter(Boolean).length`, the page's word count: the number
      of word starts of the untrimmed string. */
  function WordCount(s: string): (n: nat)
    ensures n == WordStarts(s, true)
  {
    SplitCountsWordStarts(Trim(s));
    TrimKeepsWordStarts(s);
    |NonEmpty(SplitWhitespace(Trim(s)))|
  }

  /** Reference definition: the number of positions where a word starts, that is a
      non-whitespace character at the start of `s` (when `afterBlank` holds) or right
      after a whitespace character. */
  function WordStarts(s: string, afterBlank: bool): nat {
    if s == [] then 0
    else (if afterBlank && !IsWhitespace(s[0]) then 1 else 0) + WordStarts(s[1..], IsWhitespace(s[0]))
  }

  /** Whether the character before the position just past `p` is blank. */
  function EndsBlank(p: string, afterBlank: bool): bool {
    if p == [] then afterBlank else IsWhitespace(p[|p| - 1])
  }

  lemma {:induction false} WordStartsAppend(p: string, q: string, afterBlank: bool)
    ensures WordStarts(p + q, afterBlank) == WordStarts(p, afterBlank) + WordStarts(q, EndsBlank(p, afterBlank))
  {
    if p != [] {
      assert (p + q)[1..] == p[1..] + q;
      WordStartsAppend(p[1..], q, IsWhitespace(p[0]));
      assert p[1..] == [] || p[1..][|p[1..]| - 1] == p[|p| - 1];
    } else {
      assert p + q == q;
    }
  }

  lemma {:induction false} WordStartsBlank(w: string, afterBlank: bool)
    requires AllWhitespace(w)
    ensures WordStarts(w, afterBlank) == 0
  {
    if w != [] {
      WordStartsBlank(w[1..], true);
    }
  }

  lemma {:induction false} WordStartsWord(p: string, afterBlank: bool)
    requires NoWhitespace(p)
    ensures WordStarts(p, afterBlank) == if p != [] && afterBlank then 1 else 0
  {
    if p != [] {
      WordStartsWord(p[1..], false);
    }
  }

  lemma {:induction false} NonEmptyCons(a: string, rest: seq<string>)
    ensures |NonEmpty([a] + rest)| == (if a == [] then 0 else 1) + |NonEmpty(rest)|
  {
    assert ([a] + rest)[0] == a;
    assert ([a] + rest)[1..] == rest;
  }

  /** A word followed by a non-empty blank run and then `u` has one more word start than `u`
      (none more when the word is empty). */
  lemma {:induction false} WordStartsWordThenBlank(p: string, w: string, u: string)
    requires NoWhitespace(p) && AllWhitespace(w) && w != []
    ensures WordStarts(p + (w + u), true) == (if p != [] then 1 else 0) + WordStarts(u, true)
  {
    WordStartsAppend(p, w + u, true);
    WordStartsWord(p, true);
    WordStartsAppend(w, u, EndsBlank(p, true));
    WordStartsBlank(w, EndsBlank(p, true));
    assert EndsBlank(w, EndsBlank(p, true));
  }

  /** When `t` does not consist of one word, it is its first piece, a non-empty blank run
      and the rest `u`, and the split continues on `u`. */
  lemma SplitFirstPiece(t: string) returns (w: string, u: string)
    requires NonWhitespacePrefix(t) < |t|
    ensures var k := NonWhitespacePrefix(t);
      w != [] && AllWhitespace(w) && t == t[..k] + (w + u)
      && SplitWhitespace(t) == [t[..k]] + SplitWhitespace(u) && |u| < |t|
  {
    var k := NonWhitespacePrefix(t);
    var rest := t[k..];
    u := TrimStart(rest);
    w := LeadingBlankRun(rest);
    assert t == t[..k] + rest;
  }

  /** A string that starts with whitespace is a non-empty blank run followed by its
      `TrimStart`. */
  lemma LeadingBlankRun(rest: string) returns (w: string)
    requires rest != [] && IsWhitespace(rest[0])
    ensures w != [] && AllWhitespace(w) && rest == w + TrimStart(rest)
  {
    var u := TrimStart(rest);
    w := rest[..|rest| - |u|];
    assert forall i :: 0 <= i < |w| ==> w[i] == rest[i];
    assert rest == w + u;
  }

  /** Splitting on whitespace runs and dropping empty pieces leaves one piece per word start. */
  lemma {:induction false} SplitCountsWordStarts(t: string)
    ensures |NonEmpty(SplitWhitespace(t))| == WordStarts(t, true)
    decreases |t|
  {
    var k := NonWhitespacePrefix(t);
    if k == |t| {
      assert t[..k] == t;
      WordStartsWord(t, true);
      assert SplitWhitespace(t) == [t];
      NonEmptyCons(t, []);
    } else {
      var w, u := SplitFirstPiece(t);
      NonEmptyCons(t[..k], SplitWhitespace(u));
      SplitCountsWordStarts(u);
      WordStartsWordThenBlank(t[..k], w, u);
    }
  }

  /** Blank runs around a text add no word starts. */
  lemma {:induction false} WordStartsBlankAround(lead: string, core: string, trail: string)
    requires AllWhitespace(lead) && AllWhitespace(trail)
    ensures WordStarts(lead + (core + trail), true) == WordStarts(core, true)
  {
    WordStartsAppend(lead, core + trail, true);
    WordStartsBlank(lead, true);
    assert EndsBlank(lead, true);
    WordStartsAppend(core, trail, true);
    WordStartsBlank(trail, EndsBlank(core, true));
  }

  /** Trimming removes no word start. */
  lemma {:induction false} TrimKeepsWordStarts(s: string)
    ensures WordStarts(Trim(s), true) == WordStarts(s, true)
  {
    var i, j := TrimIsInfix(s);
    assert AllWhitespace(s[..i]) && AllWhitespace(s[j..]);
    ThreeParts(s, i, j);
    WordStartsBlankAround(s[..i], s[i..j], s[j..]);
  }

  lemma ThreeParts(s: string, i: nat, j: nat)
    requires i <= j <= |s|
    ensures s[..i] + (s[i..j] + s[j..]) == s
  {
    assert s[i..j] + s[j..] == s[i..];
  }

  /** No words exactly when the answer is blank. */
  lemma {:induction false} WordCountZeroIffBlank(s: string)
    ensures WordCount(s) == 0 <==> AllWhitespace(s)
  {
  }
}
