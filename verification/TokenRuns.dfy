/** Runs of token characters in ASCII text, and what the regular expression
    `\b[A-Za-z0-9_-]{32,}\b` matches in it. */
module TokenRuns {
  const MIN_LENGTH := 32

  predicate IsWord(c: char) {
    'A' <= c <= 'Z' || 'a' <= c <= 'z' || '0' <= c <= '9' || c == '_'
  }

  predicate IsToken(c: char) {
    IsWord(c) || c == '-'
  }

  predicate AllToken(s: string) {
    forall c :: c in s ==> IsToken(c)
  }

  /** The pattern's characters, by their codes, and its length. */
  lemma TokenCharacters(c: char)
    ensures MIN_LENGTH == 32
    ensures IsWord(c) <==> 65 <= c as int <= 90 || 97 <= c as int <= 122 || 48 <= c as int <= 57 || c as int == 95
    ensures IsToken(c) <==> IsWord(c) || c as int == 45
  {
  }

  /** Any character that is neither a word nor a token character: what stands before the text. */
  const START: char := ' '

  // ---- the regular expression --------------------------------------------------------------------
  // The scan looks at the rest of the text and at the one character before it, which is all that a
  // word boundary or a one-character look-behind can see.

  /** The length of the longest prefix of token characters. */
  function TokenPrefix(s: string): (n: nat)
    ensures n <= |s| && forall k :: 0 <= k < n ==> IsToken(s[k])
  {
    if s == [] || !IsToken(s[0]) then 0 else 1 + TokenPrefix(s[1..])
  }

  /** A word boundary after the first `j` characters. */
  predicate BoundaryAfter(s: string, j: nat)
    requires 0 < j <= |s|
  {
    IsWord(s[j - 1]) != (j < |s| && IsWord(s[j]))
  }

  /** Backtracking from the greedy end `j`: the longest admissible match, or 0. */
  function Backtrack(s: string, j: nat): nat
    requires j <= |s|
  {
    if j < MIN_LENGTH then 0 else if BoundaryAfter(s, j) then j else Backtrack(s, j - 1)
  }

  /** The length of the match that starts here, or 0. */
  function MatchLength(before: char, s: string): (n: nat)
    ensures n <= |s|
  {
    if s == [] || IsWord(before) == IsWord(s[0]) then 0 else BacktrackBound(s, TokenPrefix(s)); Backtrack(s, TokenPrefix(s))
  }

  lemma {:induction false} BacktrackBound(s: string, j: nat)
    requires j <= |s|
    ensures Backtrack(s, j) <= j
  {
    if j >= MIN_LENGTH && !BoundaryAfter(s, j) { BacktrackBound(s, j - 1); }
  }

  /** A matcher tells how long the match is that starts here; 0 means there is none. */
  type Matcher = (char, string) -> nat

  /** The matches of a pattern from left to right, without overlap, as finditer yields them. */
  function FindAll(find: Matcher, before: char, s: string): seq<string>
    decreases |s|
  {
    if s == [] then [] else
      var n := find(before, s);
      if 0 < n <= |s| then [s[..n]] + FindAll(find, s[n - 1], s[n..]) else FindAll(find, s[0], s[1..])
  }

  /** Replacing every match of a pattern by one and the same text. */
  function Substitute(find: Matcher, mark: string, before: char, s: string): string
    decreases |s|
  {
    if s == [] then [] else
      var n := find(before, s);
      if 0 < n <= |s| then mark + Substitute(find, mark, s[n - 1], s[n..]) else [s[0]] + Substitute(find, mark, s[0], s[1..])
  }

  const MARK := "[REDACTED]"

  const OPAQUE: Matcher := (before, s) => MatchLength(before, s)

  /** The character before position `k`. */
  function Previous(before: char, s: string, k: nat): char
    requires k <= |s|
  {
    if k == 0 then before else s[k - 1]
  }

  /** While nothing matches the scan copies. */
  lemma {:induction false} Copies(find: Matcher, mark: string, before: char, r: string, rest: string)
    requires forall k :: 0 <= k < |r| ==> find(Previous(before, r, k), r[k..] + rest) == 0
    ensures Substitute(find, mark, before, r + rest) == r + Substitute(find, mark, Previous(before, r, |r|), rest)
    ensures FindAll(find, before, r + rest) == FindAll(find, Previous(before, r, |r|), rest)
    decreases |r|
  {
    if r == [] {
      assert r + rest == rest;
    } else {
      var t := r[1..];
      assert r[0..] == r && find(Previous(before, r, 0), r[0..] + rest) == 0;
      forall k | 0 <= k < |t| ensures find(Previous(r[0], t, k), t[k..] + rest) == 0 {
        assert r[k + 1..] == t[k..] && find(Previous(before, r, k + 1), r[k + 1..] + rest) == 0;
      }
      Copies(find, mark, r[0], t, rest);
      assert r == [r[0]] + t && r + rest == [r[0]] + (t + rest);
      CopiesOne(find, mark, before, r[0], t + rest);
    }
  }

  lemma CopiesOne(find: Matcher, mark: string, before: char, c: char, rest: string)
    requires find(before, [c] + rest) == 0
    ensures Substitute(find, mark, before, [c] + rest) == [c] + Substitute(find, mark, c, rest)
    ensures FindAll(find, before, [c] + rest) == FindAll(find, c, rest)
  {
    assert ([c] + rest)[1..] == rest;
  }

  /** A match is replaced, and the scan goes on behind it. */
  lemma Replaces(find: Matcher, mark: string, before: char, r: string, rest: string)
    requires r != [] && find(before, r + rest) == |r|
    ensures Substitute(find, mark, before, r + rest) == mark + Substitute(find, mark, r[|r| - 1], rest)
    ensures FindAll(find, before, r + rest) == [r] + FindAll(find, r[|r| - 1], rest)
  {
    assert (r + rest)[..|r|] == r && (r + rest)[|r|..] == rest && (r + rest)[|r| - 1] == r[|r| - 1];
  }

  /** The pattern matches nowhere in `r[a..b]`, whatever follows `r`. */
  ghost predicate Silent(find: Matcher, before: char, r: string, rest: string, a: nat, b: nat)
    requires a <= b <= |r|
  {
    forall k :: a <= k < b ==> find(Previous(before, r, k), r[k..] + rest) == 0
  }

  lemma CopiesPart(find: Matcher, mark: string, before: char, r: string, rest: string, a: nat, b: nat)
    requires a <= b <= |r| && Silent(find, before, r, rest, a, b)
    ensures var p, q := Previous(before, r, a), Previous(before, r, b);
            && Substitute(find, mark, p, r[a..] + rest) == r[a..b] + Substitute(find, mark, q, r[b..] + rest)
            && FindAll(find, p, r[a..] + rest) == FindAll(find, q, r[b..] + rest)
  {
    var p, m, t := Previous(before, r, a), r[a..b], r[b..] + rest;
    assert r[a..] + rest == m + t;
    forall k | 0 <= k < |m| ensures find(Previous(p, m, k), m[k..] + t) == 0 {
      assert m[k..] + t == r[a + k..] + rest;
      assert find(Previous(before, r, a + k), r[a + k..] + rest) == 0;
    }
    Copies(find, mark, p, m, t);
  }

  lemma ReplacesPart(find: Matcher, mark: string, before: char, r: string, rest: string, a: nat, b: nat)
    requires a < b <= |r| && find(Previous(before, r, a), r[a..] + rest) == b - a
    ensures var p, q := Previous(before, r, a), Previous(before, r, b);
            && Substitute(find, mark, p, r[a..] + rest) == mark + Substitute(find, mark, q, r[b..] + rest)
            && FindAll(find, p, r[a..] + rest) == [r[a..b]] + FindAll(find, q, r[b..] + rest)
  {
    var m, t := r[a..b], r[b..] + rest;
    RestOf(r, rest, a, b);
    Replaces(find, mark, Previous(before, r, a), m, t);
    assert m[|m| - 1] == Previous(before, r, b);
  }

  lemma RestOf(r: string, rest: string, a: nat, b: nat)
    requires a <= b <= |r|
    ensures r[a..] + rest == r[a..b] + (r[b..] + rest)
  {
  }

  lemma Assemble(x: string, y: string, z: string, t: string)
    ensures x + (y + (z + t)) == x + y + z + t
  {
  }

  /** The scan of a stretch in which the pattern matches exactly `r[a..b]`. */
  lemma ScanStretch(find: Matcher, mark: string, before: char, r: string, rest: string, a: nat, b: nat)
    requires a < b <= |r| && Silent(find, before, r, rest, 0, a) && Silent(find, before, r, rest, b, |r|)
    requires find(Previous(before, r, a), r[a..] + rest) == b - a
    ensures var q := Previous(before, r, |r|);
            && Substitute(find, mark, before, r + rest) == r[..a] + mark + r[b..] + Substitute(find, mark, q, rest)
            && FindAll(find, before, r + rest) == [r[a..b]] + FindAll(find, q, rest)
  {
    CopiesPart(find, mark, before, r, rest, 0, a);
    ReplacesPart(find, mark, before, r, rest, a, b);
    CopiesPart(find, mark, before, r, rest, b, |r|);
    assert r[0..] == r && r[0..a] == r[..a] && r[b..|r|] == r[b..] && r[|r|..] + rest == rest;
    Assemble(r[..a], mark, r[b..], Substitute(find, mark, Previous(before, r, |r|), rest));
  }

  // ---- runs ------------------------------------------------------------------------------------------

  /** Text as it falls apart: maximal runs of token characters, and the other characters singly. */
  datatype Piece = Sep(c: char) | Run(text: string)

  predicate WellFormed(p: seq<Piece>) {
    && (forall i :: 0 <= i < |p| ==> match p[i] case Sep(c) => !IsToken(c) case Run(r) => r != [] && AllToken(r))
    && (forall i :: 0 < i < |p| ==> p[i - 1].Sep? || p[i].Sep?)
  }

  function Text(x: Piece): string {
    match x case Sep(c) => [c] case Run(r) => r
  }

  function Join(p: seq<Piece>): string {
    if p == [] then [] else Text(p[0]) + Join(p[1..])
  }

  function Split(s: string): (p: seq<Piece>)
    decreases |s|
  {
    if s == [] then []
    else if !IsToken(s[0]) then [Sep(s[0])] + Split(s[1..])
    else [Run(s[..TokenPrefix(s)])] + Split(s[TokenPrefix(s)..])
  }

  lemma TokenPrefixEnds(s: string)
    ensures TokenPrefix(s) < |s| ==> !IsToken(s[TokenPrefix(s)])
    ensures s != [] && IsToken(s[0]) ==> TokenPrefix(s) > 0
  {
  }

  /** Splitting loses nothing, and the runs it finds are maximal. */
  lemma {:induction false} SplitIsFaithful(s: string)
    ensures WellFormed(Split(s)) && Join(Split(s)) == s
    ensures Split(s) != [] && Split(s)[0].Run? ==> s != [] && IsToken(s[0])
    decreases |s|
  {
    if s != [] {
      if !IsToken(s[0]) {
        SplitIsFaithful(s[1..]);
      } else {
        var n := TokenPrefix(s);
        TokenPrefixEnds(s);
        SplitIsFaithful(s[n..]);
        assert s == s[..n] + s[n..];
      }
    }
  }

  /** There is only one such way to take a text apart. */
  lemma {:induction false} SplitJoin(p: seq<Piece>)
    requires WellFormed(p)
    ensures Split(Join(p)) == p
    decreases |p|
  {
    if p != [] {
      SplitJoin(p[1..]);
      var rest := Join(p[1..]);
      match p[0]
      case Sep(c) => assert Join(p)[1..] == rest;
      case Run(r) =>
        RunHead(p);
        TokenPrefixOfRun(r, rest);
        assert Join(p)[..|r|] == r && Join(p)[|r|..] == rest;
    }
  }

  /** After a run comes the end of the text or a character that is not a token character. */
  predicate Ends(rest: string) {
    rest == [] || !IsToken(rest[0])
  }

  lemma RunHead(p: seq<Piece>)
    requires WellFormed(p) && p != []
    ensures p[0].Run? ==> Ends(Join(p[1..]))
    ensures WellFormed(p[1..])
  {
    if |p| > 1 { assert p[1..][0] == p[1] && (p[0].Sep? || p[1].Sep?); }
  }

  lemma {:induction false} TokenPrefixOfRun(r: string, rest: string)
    requires AllToken(r) && Ends(rest)
    ensures TokenPrefix(r + rest) == |r|
    decreases |r|
  {
    if r == [] {
      assert r + rest == rest;
    } else {
      assert (r + rest)[1..] == r[1..] + rest;
      TokenPrefixOfRun(r[1..], rest);
    }
  }

  // ---- a run, trimmed of its outer hyphens ---------------------------------------------------------------

  function Leading(r: string): (n: nat)
    ensures n <= |r|
  {
    if r == [] || r[0] != '-' then 0 else 1 + Leading(r[1..])
  }

  /** Where the last word character ends; 0 if there is none. */
  function WordEnd(r: string): (n: nat)
    ensures n <= |r|
  {
    if r == [] then 0 else if IsWord(r[|r| - 1]) then |r| else WordEnd(r[..|r| - 1])
  }

  predicate Long(r: string) {
    WordEnd(r) >= Leading(r) + MIN_LENGTH
  }

  function Trim(r: string): string {
    if Leading(r) <= WordEnd(r) then r[Leading(r)..WordEnd(r)] else []
  }

  function RedactRun(r: string): string {
    if Long(r) then r[..Leading(r)] + MARK + r[WordEnd(r)..] else r
  }

  lemma {:induction false} WordEndIsLast(r: string, k: nat)
    requires AllToken(r) && WordEnd(r) <= k < |r|
    ensures r[k] == '-'
  {
    assert r[|r| - 1] in r;
    if k < |r| - 1 {
      assert r[..|r| - 1][k] == r[k];
      assert AllToken(r[..|r| - 1]);
      WordEndIsLast(r[..|r| - 1], k);
    }
  }

  lemma {:induction false} WordEndIsWord(r: string)
    ensures WordEnd(r) > 0 ==> IsWord(r[WordEnd(r) - 1])
  {
    if r != [] && !IsWord(r[|r| - 1]) { WordEndIsWord(r[..|r| - 1]); }
  }

  lemma {:induction false} WordEndTail(r: string)
    requires r != []
    ensures WordEnd(r) == if WordEnd(r[1..]) > 0 then WordEnd(r[1..]) + 1 else if IsWord(r[0]) then 1 else 0
    decreases |r|
  {
    if |r| > 1 && !IsWord(r[|r| - 1]) {
      WordEndTail(r[..|r| - 1]);
      assert r[..|r| - 1][1..] == r[1..][..|r[1..]| - 1];
    }
  }

  /** Backtracking over a run stops after its last word character. */
  lemma {:induction false} BacktrackInRun(r: string, rest: string, j: nat)
    requires AllToken(r) && Ends(rest) && WordEnd(r) <= j <= |r|
    ensures Backtrack(r + rest, j) == if WordEnd(r) >= MIN_LENGTH then WordEnd(r) else 0
  {
    var s := r + rest;
    WordEndIsWord(r);
    if j > WordEnd(r) {
      WordEndIsLast(r, j - 1);
      assert s[j - 1] == '-';
      if j < |r| { WordEndIsLast(r, j); assert s[j] == '-'; }
      BacktrackInRun(r, rest, j - 1);
    } else if j >= MIN_LENGTH {
      assert s[j - 1] == r[j - 1];
      if j < |r| { WordEndIsLast(r, j); assert s[j] == r[j]; }
    } else {
    }
  }

  lemma MatchInRun(before: char, r: string, rest: string)
    requires r != [] && AllToken(r) && Ends(rest)
    ensures MatchLength(before, r + rest) ==
            if IsWord(before) != IsWord(r[0]) && WordEnd(r) >= MIN_LENGTH then WordEnd(r) else 0
  {
    TokenPrefixOfRun(r, rest);
    BacktrackInRun(r, rest, |r|);
  }

  lemma {:induction false} WordEndSuffix(r: string, k: nat)
    requires k <= |r|
    ensures WordEnd(r[k..]) == if WordEnd(r) > k then WordEnd(r) - k else 0
    decreases k
  {
    if k > 0 {
      WordEndSuffix(r, k - 1);
      WordEndTail(r[k - 1..]);
      assert r[k - 1..][1..] == r[k..];
    } else {
      assert r[0..] == r;
    }
  }

  /** Where no run starts, what came before does not matter. */
  lemma AnyBefore(before: char, rest: string)
    requires Ends(rest)
    ensures Substitute(OPAQUE, MARK, before, rest) == Substitute(OPAQUE, MARK, START, rest)
    ensures FindAll(OPAQUE, before, rest) == FindAll(OPAQUE, START, rest)
  {
    if rest != [] {
      assert OPAQUE(before, rest) == 0 && OPAQUE(START, rest) == 0 by { assert TokenPrefix(rest) == 0; }
    }
  }

  lemma {:induction false} LeadingHyphens(r: string)
    ensures forall k :: 0 <= k < Leading(r) ==> r[k] == '-'
    ensures Leading(r) < |r| ==> r[Leading(r)] != '-'
  {
    if r != [] && r[0] == '-' { LeadingHyphens(r[1..]); }
  }

  predicate Hyphens(s: string) {
    forall k :: 0 <= k < |s| ==> s[k] == '-'
  }

  lemma TailIsHyphens(r: string)
    requires AllToken(r)
    ensures Hyphens(r[WordEnd(r)..])
  {
    var after := r[WordEnd(r)..];
    forall k: nat | k < |after| ensures after[k] == '-' { WordEndIsLast(r, WordEnd(r) + k); }
  }

  lemma HeadIsHyphens(r: string)
    ensures Hyphens(r[..Leading(r)])
  {
    LeadingHyphens(r);
  }

  /** What is left of a run without its outer hyphens: it begins and ends with none, there were only hyphens
      around it, and the mark takes its place if it has 32 characters or more. */
  lemma TrimmedOf(r: string) returns (before: string, after: string)
    requires AllToken(r) && Trim(r) != []
    ensures Trim(r)[0] != '-' && Trim(r)[|Trim(r)| - 1] != '-'
    ensures r == before + Trim(r) + after && Hyphens(before) && Hyphens(after)
    ensures RedactRun(r) == if |Trim(r)| >= 32 then before + "[REDACTED]" + after else r
  {
    before, after := r[..Leading(r)], r[WordEnd(r)..];
    HeadIsHyphens(r);
    TailIsHyphens(r);
    LeadingHyphens(r);
    WordEndIsWord(r);
    CutThree(r, Leading(r), WordEnd(r));
  }

  lemma CutThree(r: string, a: nat, b: nat)
    requires a <= b <= |r|
    ensures r == r[..a] + r[a..b] + r[b..]
  {
  }

  lemma SilentAtHyphen(before: char, r: string, rest: string, k: nat)
    requires !IsWord(before) && k < Leading(r)
    ensures OPAQUE(Previous(before, r, k), r[k..] + rest) == 0
  {
    LeadingHyphens(r);
    assert r[k] == '-' && (k > 0 ==> r[k - 1] == '-');
    assert (r[k..] + rest)[0] == r[k];
  }

  /** In a run the pattern is silent up to the trimmed part and behind it. */
  lemma SilentAround(before: char, r: string, rest: string)
    requires !IsWord(before) && AllToken(r) && Ends(rest)
    ensures Silent(OPAQUE, before, r, rest, 0, Leading(r))
    ensures Silent(OPAQUE, before, r, rest, WordEnd(r), |r|)
  {
    forall k: nat | k < Leading(r) ensures OPAQUE(Previous(before, r, k), r[k..] + rest) == 0 {
      SilentAtHyphen(before, r, rest, k);
    }
    forall k: nat | WordEnd(r) <= k < |r| ensures OPAQUE(Previous(before, r, k), r[k..] + rest) == 0 {
      MatchInSuffix(Previous(before, r, k), r, rest, k);
    }
  }

  lemma MatchInSuffix(before: char, r: string, rest: string, k: nat)
    requires AllToken(r) && Ends(rest) && k < |r|
    ensures OPAQUE(before, r[k..] + rest) ==
            if IsWord(before) != IsWord(r[k]) && WordEnd(r) >= k + MIN_LENGTH then WordEnd(r) - k else 0
  {
    WordEndSuffix(r, k);
    MatchInRun(before, r[k..], rest);
  }

  lemma SilentWhenShort(before: char, r: string, rest: string)
    requires !IsWord(before) && AllToken(r) && Ends(rest) && !Long(r)
    ensures Silent(OPAQUE, before, r, rest, 0, |r|)
  {
    LeadingHyphens(r);
    forall k | 0 <= k < |r| ensures OPAQUE(Previous(before, r, k), r[k..] + rest) == 0 {
      assert k < Leading(r) ==> r[k] == '-' && (k > 0 ==> r[k - 1] == '-');
      MatchInSuffix(Previous(before, r, k), r, rest, k);
    }
  }

  /** One whole run: exactly its trimmed part is the match, if it is long enough. */
  lemma ScanRun(before: char, r: string, rest: string)
    requires !IsWord(before) && AllToken(r) && Ends(rest) && r != []
    ensures Substitute(OPAQUE, MARK, before, r + rest) == RedactRun(r) + Substitute(OPAQUE, MARK, START, rest)
    ensures FindAll(OPAQUE, before, r + rest) == (if Long(r) then [Trim(r)] else []) + FindAll(OPAQUE, START, rest)
  {
    var a, b := Leading(r), WordEnd(r);
    AnyBefore(r[|r| - 1], rest);
    if Long(r) {
      SilentAround(before, r, rest);
      LeadingHyphens(r);
      assert IsWord(r[a]) && !IsWord(Previous(before, r, a)) by {
        assert r[a] in r && (a > 0 ==> r[a - 1] == '-');
      }
      MatchInSuffix(Previous(before, r, a), r, rest, a);
      ScanStretch(OPAQUE, MARK, before, r, rest, a, b);
    } else {
      SilentWhenShort(before, r, rest);
      assert r[0..] == r && r[0..|r|] == r && r[|r|..] + rest == rest;
      CopiesPart(OPAQUE, MARK, before, r, rest, 0, |r|);
    }
  }

  // ---- whole texts ------------------------------------------------------------------------------------------

  function RedactPieces(p: seq<Piece>): string {
    if p == [] then [] else (match p[0] case Sep(c) => [c] case Run(r) => RedactRun(r)) + RedactPieces(p[1..])
  }

  function LongTrims(p: seq<Piece>): seq<string> {
    if p == [] then [] else (if p[0].Run? && Long(p[0].text) then [Trim(p[0].text)] else []) + LongTrims(p[1..])
  }

  lemma {:induction false} ScanPieces(p: seq<Piece>)
    requires WellFormed(p)
    ensures Substitute(OPAQUE, MARK, START, Join(p)) == RedactPieces(p)
    ensures FindAll(OPAQUE, START, Join(p)) == LongTrims(p)
    decreases |p|
  {
    if p != [] {
      RunHead(p);
      ScanPieces(p[1..]);
      var rest := Join(p[1..]);
      match p[0]
      case Sep(c) =>
        assert Join(p)[1..] == rest && MatchLength(START, Join(p)) == 0 by { assert TokenPrefix(Join(p)) == 0; }
        if rest != [] && IsToken(rest[0]) { SepThen(c, p[1..]); } else { AnyBefore(c, rest); }
      case Run(r) => ScanRun(START, r, rest);
    }
  }

  /** A separator before a run is as good as the start of the text. */
  lemma SepThen(c: char, p: seq<Piece>)
    requires WellFormed(p) && p != [] && !IsToken(c) && IsToken(Join(p)[0])
    ensures Substitute(OPAQUE, MARK, c, Join(p)) == Substitute(OPAQUE, MARK, START, Join(p))
    ensures FindAll(OPAQUE, c, Join(p)) == FindAll(OPAQUE, START, Join(p))
  {
    RunHead(p);
    if p[0].Run? {
      ScanRun(c, p[0].text, Join(p[1..]));
      ScanRun(START, p[0].text, Join(p[1..]));
    }
  }

  /** The matches in a text are exactly its maximal runs of token characters, trimmed of leading and
      trailing hyphens, that have at least 32 characters left; and substituting them leaves
      everything else in place. */
  lemma MatchesAreTrimmedRuns(s: string)
    ensures FindAll(OPAQUE, START, s) == LongTrims(Split(s))
    ensures Substitute(OPAQUE, MARK, START, s) == RedactPieces(Split(s))
  {
    SplitIsFaithful(s);
    ScanPieces(Split(s));
  }
}
