/** The opaque-token stage of log redaction: canonical UUIDs are stashed behind placeholders, opaque
    runs are redacted, the UUIDs are put back. It is shown to be the one-pass rewriting of maximal
    runs that it is meant to be, and exactly up to how many UUIDs that holds. */
module Redaction {
  import opened Decimals
  import opened TokenRuns

  const NUL: char := '\0'

  predicate NoNul(s: string) {
    NUL !in s
  }

  // ---- UUIDs ------------------------------------------------------------------------------------------

  predicate IsHex(c: char) {
    '0' <= c <= '9' || 'a' <= c <= 'f' || 'A' <= c <= 'F'
  }

  const UUID_LENGTH := 36

  /** The canonical 8-4-4-4-12 layout. */
  predicate IsUuid(s: string) {
    |s| == UUID_LENGTH && forall k :: 0 <= k < UUID_LENGTH ==> if k in {8, 13, 18, 23} then s[k] == '-' else IsHex(s[k])
  }

  /** The UUID pattern with its look-behind and look-ahead for token characters. */
  function UuidLength(before: char, s: string): nat {
    if !IsToken(before) && |s| >= UUID_LENGTH && IsUuid(s[..UUID_LENGTH]) && (|s| > UUID_LENGTH ==> !IsToken(s[UUID_LENGTH]))
    then UUID_LENGTH else 0
  }

  const UUID: Matcher := (before, s) => UuidLength(before, s)

  // ---- placeholders --------------------------------------------------------------------------------------

  function Name(n: nat): string {
    "uuid" + Decimal(n)
  }

  function Placeholder(n: nat): string {
    [NUL] + Name(n) + [NUL]
  }

  /** As many placeholders stay short enough not to be taken for tokens themselves. */
  const CAPACITY := Pow10(27)

  lemma NameIsToken(n: nat)
    ensures AllToken(Name(n)) && NoNul(Name(n)) && Name(n) != []
    ensures !IsUuid(Name(n))
    ensures Long(Name(n)) <==> n >= CAPACITY
    ensures Long(Name(n)) ==> RedactRun(Name(n)) == MARK
  {
    DecimalReads(n);
    DecimalLength(n, 27);
    assert Name(n)[0] == 'u';
    var r := Name(n);
    assert r[|r| - 1] in Decimal(n);
    assert WordEnd(r) == |r| && Leading(r) == 0;
  }

  lemma {:induction false} NoPrefix(d: string, e: string, rest: string)
    requires d != e && NoNul(d) && NoNul(e)
    ensures !(e + [NUL] <= d + [NUL] + rest)
    decreases |e|
  {
    var x, y := d + [NUL] + rest, e + [NUL];
    if e == [] {
      assert y[0] == NUL && x[0] == d[0] && d[0] in d;
    } else if d == [] {
      assert y[0] == e[0] && e[0] in e && x[0] == NUL;
    } else if d[0] == e[0] {
      assert d == [d[0]] + d[1..] && e == [e[0]] + e[1..];
      NoPrefix(d[1..], e[1..], rest);
      assert x[1..] == d[1..] + [NUL] + rest && y[1..] == e[1..] + [NUL];
    } else {
      assert x[0] == d[0] && y[0] == e[0];
    }
  }

  lemma NamesDiffer(head: string, d: string, e: string, rest: string)
    requires d != e && NoNul(d) && NoNul(e)
    ensures !(head + e + [NUL] <= head + d + [NUL] + rest)
  {
    var x, y := head + d + [NUL] + rest, head + e + [NUL];
    assert x[|head|..] == d + [NUL] + rest && y[|head|..] == e + [NUL];
    assert y <= x ==> y[|head|..] <= x[|head|..];
    NoPrefix(d, e, rest);
  }

  lemma PlaceholdersDiffer(n: nat, k: nat, rest: string)
    requires n != k
    ensures !(Placeholder(k) <= Placeholder(n) + rest)
  {
    DecimalReads(n);
    DecimalReads(k);
    var head := [NUL] + "uuid";
    assert Placeholder(k) == head + Decimal(k) + [NUL];
    assert Placeholder(n) == head + Decimal(n) + [NUL];
    NamesDiffer(head, Decimal(n), Decimal(k), rest);
  }

  // ---- the stage ------------------------------------------------------------------------------------------

  /** Substituting placeholders for UUIDs, the callback appending each one to the stash; `n` are
      stashed already. */
  function Stash(find: Matcher, before: char, s: string, n: nat): (string, seq<string>)
    decreases |s|
  {
    if s == [] then ([], []) else
      var m := find(before, s);
      if 0 < m <= |s| then
        var (text, uuids) := Stash(find, s[m - 1], s[m..], n + 1);
        (Placeholder(n) + text, [s[..m]] + uuids)
      else
        var (text, uuids) := Stash(find, s[0], s[1..], n);
        ([s[0]] + text, uuids)
  }

  /** str.replace. */
  function Replace(s: string, what: string, put: string): string
    decreases |s|
  {
    if s == [] then [] else if what != [] && what <= s then put + Replace(s[|what|..], what, put) else [s[0]] + Replace(s[1..], what, put)
  }

  /** The stage itself. Within capacity it is `Redacted`, beyond it an unrestored placeholder is left
      in the text. */
  method RedactStage(text: string) returns (out: string)
    requires NoNul(text)
    ensures |Uuids(Split(text))| <= CAPACITY ==> out == Redacted(text)
    ensures |Uuids(Split(text))| > CAPACITY ==> NUL in out && out != Redacted(text)
  {
    ghost var p := Split(text);
    Hidden(text);
    var (hidden, stashed) := Stash(UUID, START, text, 0);
    out := Substitute(OPAQUE, MARK, START, hidden);
    for i := 0 to |stashed|
      invariant out == Filled(p, 0, i, true)
    {
      StashFits(p, 0, i, stashed);
      ReplaceOne(p, 0, i, stashed[i], true);
      out := Replace(out, Placeholder(i), stashed[i]);
    }
    AllFilled(p, 0, |stashed|, true);
    RedactedNoNul(p);
  }

  /** The text before the restoring loop, and the stash. */
  lemma Hidden(text: string)
    requires NoNul(text)
    ensures var (p, stash) := (Split(text), Stash(UUID, START, text, 0));
            && WellFormed(p) && Clean(p) && stash.1 == Uuids(p)
            && Substitute(OPAQUE, MARK, START, stash.0) == Filled(p, 0, 0, true)
  {
    SplitIsFaithful(text);
    var p := Split(text);
    NoNulPieces(p);
    StashPieces(p, 0);
    StashedWellFormed(p, 0);
    ScanPieces(Stashed(p, 0));
    RedactStashed(p, 0);
  }

  // ---- what it computes ------------------------------------------------------------------------------------

  /** A run survives if it is a UUID as a whole; otherwise its trimmed part goes if it is long. */
  function RedactUnlessUuid(x: Piece): string {
    match x
    case Sep(c) => [c]
    case Run(r) => if IsUuid(r) then r else RedactRun(r)
  }

  function RedactAll(p: seq<Piece>): string {
    if p == [] then [] else RedactUnlessUuid(p[0]) + RedactAll(p[1..])
  }

  function Redacted(text: string): string {
    RedactAll(Split(text))
  }

  predicate UuidPiece(x: Piece) {
    x.Run? && IsUuid(x.text)
  }

  /** The standalone UUIDs of a text, in order. */
  function Uuids(p: seq<Piece>): seq<string> {
    if p == [] then [] else (if UuidPiece(p[0]) then [p[0].text] else []) + Uuids(p[1..])
  }

  // ---- stashing ------------------------------------------------------------------------------------------------

  /** The text with placeholders, as pieces. */
  function Stashed(p: seq<Piece>, n: nat): seq<Piece> {
    if p == [] then []
    else if UuidPiece(p[0]) then [Sep(NUL), Run(Name(n)), Sep(NUL)] + Stashed(p[1..], n + 1)
    else [p[0]] + Stashed(p[1..], n)
  }

  lemma AppendWellFormed(p: seq<Piece>, q: seq<Piece>)
    requires WellFormed(p) && WellFormed(q) && (p != [] && q != [] ==> p[|p| - 1].Sep? || q[0].Sep?)
    ensures WellFormed(p + q)
  {
  }

  lemma {:induction false} StashedWellFormed(p: seq<Piece>, n: nat)
    requires WellFormed(p)
    ensures WellFormed(Stashed(p, n))
    ensures p != [] && !UuidPiece(p[0]) ==> Stashed(p, n) != [] && Stashed(p, n)[0] == p[0]
    decreases |p|
  {
    if p != [] {
      RunHead(p);
      NameIsToken(n);
      StashedWellFormed(p[1..], n);
      StashedWellFormed(p[1..], n + 1);
      if |p| > 1 { assert p[1] == p[1..][0] && (p[0].Sep? || p[1].Sep?); }
      if UuidPiece(p[0]) {
        AppendWellFormed([Sep(NUL), Run(Name(n)), Sep(NUL)], Stashed(p[1..], n + 1));
      } else {
        AppendWellFormed([p[0]], Stashed(p[1..], n));
      }
    }
  }

  /** While no UUID matches the scan copies. */
  lemma {:induction false} StashCopies(find: Matcher, before: char, r: string, rest: string, n: nat)
    requires forall k :: 0 <= k < |r| ==> find(Previous(before, r, k), r[k..] + rest) == 0
    ensures var t := Stash(find, Previous(before, r, |r|), rest, n);
            Stash(find, before, r + rest, n) == (r + t.0, t.1)
    decreases |r|
  {
    if r == [] {
      assert r + rest == rest;
      var t := Stash(find, before, rest, n);
      assert r + t.0 == t.0;
    } else {
      var t := r[1..];
      assert r[0..] == r && (r + rest)[1..] == t + rest && (r + rest)[0] == r[0];
      assert find(Previous(before, r, 0), r[0..] + rest) == 0;
      forall k | 0 <= k < |t| ensures find(Previous(r[0], t, k), t[k..] + rest) == 0 {
        assert r[k + 1..] == t[k..] && find(Previous(before, r, k + 1), r[k + 1..] + rest) == 0;
      }
      StashCopies(find, r[0], t, rest, n);
      var u := Stash(find, Previous(before, r, |r|), rest, n);
      assert Previous(r[0], t, |t|) == Previous(before, r, |r|);
      assert [r[0]] + (t + u.0) == r + u.0;
    }
  }

  lemma UuidPrefix(s: string)
    requires |s| >= UUID_LENGTH && IsUuid(s[..UUID_LENGTH])
    ensures forall k :: 0 <= k < UUID_LENGTH ==> IsToken(s[k])
  {
    forall k | 0 <= k < UUID_LENGTH ensures IsToken(s[k]) { assert s[..UUID_LENGTH][k] == s[k]; }
  }

  /** In a run the UUID pattern can only match the whole. */
  lemma UuidInRun(before: char, r: string, rest: string, k: nat)
    requires !IsToken(before) && AllToken(r) && Ends(rest) && k < |r|
    ensures UUID(Previous(before, r, k), r[k..] + rest) == if k == 0 && IsUuid(r) then |r| else 0
  {
    var s := r + rest;
    if k > 0 {
      assert r[k - 1] in r;
    } else {
      assert r[0..] + rest == s;
      assert |r| > UUID_LENGTH ==> s[UUID_LENGTH] == r[UUID_LENGTH] && r[UUID_LENGTH] in r;
      assert |r| == UUID_LENGTH ==> s[..UUID_LENGTH] == r;
      assert |r| < |s| ==> s[|r|] == rest[0];
      if |s| >= UUID_LENGTH && IsUuid(s[..UUID_LENGTH]) { UuidPrefix(s); }
    }
  }

  lemma NoUuidHere(before: char, rest: string)
    requires Ends(rest)
    ensures UUID(before, rest) == 0
  {
    if |rest| >= UUID_LENGTH && IsUuid(rest[..UUID_LENGTH]) { UuidPrefix(rest); }
  }

  lemma {:induction false} StashPieces(p: seq<Piece>, n: nat)
    requires WellFormed(p)
    ensures Stash(UUID, START, Join(p), n) == (Join(Stashed(p, n)), Uuids(p))
    decreases |p|
  {
    if p != [] {
      RunHead(p);
      JoinStashed(p, n);
      var rest := Join(p[1..]);
      if UuidPiece(p[0]) {
        StashPieces(p[1..], n + 1);
        StashUuid(p[0].text, rest, n);
      } else {
        StashPieces(p[1..], n);
        assert Uuids(p) == Uuids(p[1..]);
        if p[0].Sep? { StashSep(p[0].c, rest, n); } else { StashOther(p[0].text, rest, n); }
      }
    }
  }

  lemma StashUuid(r: string, rest: string, n: nat)
    requires IsUuid(r) && AllToken(r) && Ends(rest)
    ensures var t := Stash(UUID, START, rest, n + 1);
            Stash(UUID, START, r + rest, n) == (Placeholder(n) + t.0, [r] + t.1)
  {
    UuidInRun(START, r, rest, 0);
    assert r[0..] == r;
  }

  lemma StashOther(r: string, rest: string, n: nat)
    requires !IsUuid(r) && r != [] && AllToken(r) && Ends(rest)
    ensures var t := Stash(UUID, START, rest, n);
            Stash(UUID, START, r + rest, n) == (r + t.0, t.1)
  {
    forall k | 0 <= k < |r| ensures UUID(Previous(START, r, k), r[k..] + rest) == 0 { UuidInRun(START, r, rest, k); }
    StashCopies(UUID, START, r, rest, n);
  }

  lemma JoinPlaceholder(n: nat, q: seq<Piece>)
    ensures Join([Sep(NUL), Run(Name(n)), Sep(NUL)] + q) == Placeholder(n) + Join(q)
  {
    var s := [Sep(NUL), Run(Name(n)), Sep(NUL)] + q;
    var s1, s2 := [Run(Name(n)), Sep(NUL)] + q, [Sep(NUL)] + q;
    assert s[1..] == s1 && s1[1..] == s2 && s2[1..] == q;
    var t := Join(q);
    assert Join(s2) == [NUL] + t;
    assert Join(s1) == Name(n) + ([NUL] + t);
    assert Join(s) == [NUL] + (Name(n) + ([NUL] + t));
    Assemble([NUL], Name(n), [NUL], t);
  }

  lemma JoinStashed(p: seq<Piece>, n: nat)
    requires p != []
    ensures Join(Stashed(p, n)) ==
            if UuidPiece(p[0]) then Placeholder(n) + Join(Stashed(p[1..], n + 1)) else Text(p[0]) + Join(Stashed(p[1..], n))
  {
    if UuidPiece(p[0]) { JoinPlaceholder(n, Stashed(p[1..], n + 1)); }
    else { assert Stashed(p, n)[1..] == Stashed(p[1..], n); }
  }

  lemma StashSep(c: char, rest: string, n: nat)
    requires !IsToken(c)
    ensures var t := Stash(UUID, START, rest, n);
            Stash(UUID, START, [c] + rest, n) == ([c] + t.0, t.1)
  {
    var s := [c] + rest;
    assert s[1..] == rest;
    NoUuidHere(START, s);
    assert UUID(START, s) == 0 && Stash(UUID, START, s, n) == ([c] + Stash(UUID, c, rest, n).0, Stash(UUID, c, rest, n).1);
    assert UuidLength(c, rest) == UuidLength(START, rest);
  }

  // ---- redacting the stashed text, and restoring -----------------------------------------------------------------

  /** The text once the first `k` UUIDs are back, with its opaque runs redacted or (`redact` being
      false) untouched: the later UUIDs are placeholders, and redaction has taken those beyond
      capacity. */
  function Slot(u: string, n: nat, k: nat, redact: bool): string {
    if redact && n >= CAPACITY then [NUL] + MARK + [NUL] else if n < k then u else Placeholder(n)
  }

  function Filled(p: seq<Piece>, n: nat, k: nat, redact: bool): string {
    if p == [] then []
    else if UuidPiece(p[0]) then Slot(p[0].text, n, k, redact) + Filled(p[1..], n + 1, k, redact)
    else (if redact then RedactUnlessUuid(p[0]) else Text(p[0])) + Filled(p[1..], n, k, redact)
  }

  lemma {:induction false} RedactStashed(p: seq<Piece>, n: nat)
    requires WellFormed(p)
    ensures RedactPieces(Stashed(p, n)) == Filled(p, n, 0, true)
    decreases |p|
  {
    if p != [] {
      RunHead(p);
      if UuidPiece(p[0]) {
        RedactStashed(p[1..], n + 1);
        RedactPlaceholder(n, p[0].text, Stashed(p[1..], n + 1));
      } else {
        RedactStashed(p[1..], n);
        assert Stashed(p, n)[1..] == Stashed(p[1..], n);
      }
    }
  }

  lemma RedactFirst(p: Piece, q: seq<Piece>)
    ensures RedactPieces([p] + q) == (if p.Run? then RedactRun(p.text) else [p.c]) + RedactPieces(q)
  {
    assert ([p] + q)[1..] == q;
  }

  lemma RedactThree(r: string, q: seq<Piece>)
    ensures RedactPieces([Sep(NUL), Run(r), Sep(NUL)] + q) == [NUL] + RedactRun(r) + [NUL] + RedactPieces(q)
  {
    var s1, s2 := [Run(r), Sep(NUL)] + q, [Sep(NUL)] + q;
    var t := RedactPieces(q);
    assert [Sep(NUL), Run(r), Sep(NUL)] + q == [Sep(NUL)] + s1 && s1 == [Run(r)] + s2;
    RedactFirst(Sep(NUL), q);
    RedactFirst(Run(r), s2);
    RedactFirst(Sep(NUL), s1);
    assert [NUL] + (RedactRun(r) + ([NUL] + t)) == [NUL] + RedactRun(r) + [NUL] + t;
  }

  lemma RedactPlaceholder(n: nat, u: string, q: seq<Piece>)
    ensures RedactPieces([Sep(NUL), Run(Name(n)), Sep(NUL)] + q) == Slot(u, n, 0, true) + RedactPieces(q)
  {
    RedactThree(Name(n), q);
    NameIsToken(n);
  }

  /** No piece holds the placeholder delimiter. */
  predicate Clean(p: seq<Piece>) {
    forall x :: x in p ==> NoNul(Text(x))
  }

  lemma {:induction false} NoNulPieces(p: seq<Piece>)
    requires NoNul(Join(p))
    ensures Clean(p)
    decreases |p|
  {
    if p != [] {
      forall c | c in Join(p[1..]) ensures c in Join(p) { }
      NoNulPieces(p[1..]);
      assert NoNul(Text(p[0])) by { assert forall c :: c in Text(p[0]) ==> c in Join(p); }
    }
  }

  /** Nothing is replaced before the next delimiter. */
  lemma {:induction false} ReplaceSkips(s: string, rest: string, what: string, put: string)
    requires NoNul(s) && what != [] && what[0] == NUL
    ensures Replace(s + rest, what, put) == s + Replace(rest, what, put)
    decreases |s|
  {
    if s == [] {
      assert s + rest == rest;
    } else {
      assert s[0] in s && (s + rest)[0] == s[0] && (s + rest)[1..] == s[1..] + rest;
      ReplaceSkips(s[1..], rest, what, put);
      assert s == [s[0]] + s[1..];
    }
  }

  /** Another placeholder, or a redacted one, is passed over whole. */
  lemma ReplacePasses(inner: string, rest: string, k: nat, put: string)
    requires NoNul(inner) && !(Placeholder(k) <= [NUL] + inner + [NUL] + rest) && (rest != [] ==> rest[0] != 'u')
    ensures Replace([NUL] + inner + [NUL] + rest, Placeholder(k), put) == [NUL] + inner + [NUL] + Replace(rest, Placeholder(k), put)
  {
    var w := Placeholder(k);
    var s := [NUL] + inner + [NUL] + rest;
    assert s[1..] == inner + ([NUL] + rest);
    ReplaceSkips(inner, [NUL] + rest, w, put);
    assert !(w <= [NUL] + rest) by { assert w[1] == 'u'; }
    assert ([NUL] + rest)[1..] == rest;
    assert Replace([NUL] + rest, w, put) == [NUL] + Replace(rest, w, put);
    assert Replace(s, w, put) == [NUL] + Replace(inner + ([NUL] + rest), w, put);
    assert [NUL] + (inner + ([NUL] + Replace(rest, w, put))) == [NUL] + inner + [NUL] + Replace(rest, w, put);
  }

  lemma HeadAndTail(p: seq<Piece>)
    requires WellFormed(p) && Clean(p) && p != []
    ensures NoNul(Text(p[0])) && WellFormed(p[1..]) && Clean(p[1..])
    ensures p[0].Run? && |p| > 1 ==> p[1..][0].Sep?
  {
    RunHead(p);
    assert p[0] in p && forall x :: x in p[1..] ==> x in p;
    if |p| > 1 { assert p[1..][0] == p[1] && (p[0].Sep? || p[1].Sep?); }
  }

  /** If the k-th UUID is among these pieces, it is `u`. */
  predicate Fits(p: seq<Piece>, n: nat, k: nat, u: string)
    decreases |p|
  {
    p == [] ||
    if UuidPiece(p[0]) then (n == k ==> u == p[0].text) && Fits(p[1..], n + 1, k, u) else Fits(p[1..], n, k, u)
  }

  lemma {:induction false} StashFits(p: seq<Piece>, n: nat, k: nat, stash: seq<string>)
    requires stash == Uuids(p) && n <= k < n + |stash|
    ensures Fits(p, n, k, stash[k - n])
    decreases |p|
  {
    if p != [] {
      if UuidPiece(p[0]) {
        assert stash == [p[0].text] + Uuids(p[1..]);
        if n < k { StashFits(p[1..], n + 1, k, stash[1..]); } else { PastFits(p[1..], n + 1, k, stash[0]); }
      } else {
        assert stash == [] + Uuids(p[1..]);
        StashFits(p[1..], n, k, stash);
      }
    }
  }

  lemma {:induction false} PastFits(p: seq<Piece>, n: nat, k: nat, u: string)
    requires k < n
    ensures Fits(p, n, k, u)
    decreases |p|
  {
    if p != [] {
      PastFits(p[1..], n + 1, k, u);
      PastFits(p[1..], n, k, u);
    }
  }

  lemma ReplaceAtUuid(p: seq<Piece>, n: nat, k: nat, u: string, redact: bool)
    requires WellFormed(p) && Clean(p) && p != [] && UuidPiece(p[0]) && (n == k ==> u == p[0].text)
    ensures Replace(Filled(p, n, k, redact), Placeholder(k), u)
            == Slot(p[0].text, n, k + 1, redact) + Replace(Filled(p[1..], n + 1, k, redact), Placeholder(k), u)
  {
    HeadAndTail(p);
    ReplaceSlot(p[0].text, n, k, Filled(p[1..], n + 1, k, redact), u, redact);
  }

  lemma ReplaceElsewhere(p: seq<Piece>, n: nat, k: nat, u: string, redact: bool)
    requires WellFormed(p) && Clean(p) && p != [] && !UuidPiece(p[0])
    ensures Replace(Filled(p, n, k, redact), Placeholder(k), u)
            == (if redact then RedactUnlessUuid(p[0]) else Text(p[0])) + Replace(Filled(p[1..], n, k, redact), Placeholder(k), u)
  {
    HeadAndTail(p);
    ReplaceSkips(if redact then RedactUnlessUuid(p[0]) else Text(p[0]), Filled(p[1..], n, k, redact), Placeholder(k), u);
  }

  /** One turn of the restoring loop puts back exactly the k-th UUID. */
  lemma {:induction false} ReplaceOne(p: seq<Piece>, n: nat, k: nat, u: string, redact: bool)
    requires WellFormed(p) && Clean(p) && Fits(p, n, k, u)
    ensures Replace(Filled(p, n, k, redact), Placeholder(k), u) == Filled(p, n, k + 1, redact)
    decreases |p|
  {
    if p != [] {
      HeadAndTail(p);
      if UuidPiece(p[0]) {
        ReplaceAtUuid(p, n, k, u, redact);
        ReplaceOne(p[1..], n + 1, k, u, redact);
      } else {
        ReplaceElsewhere(p, n, k, u, redact);
        ReplaceOne(p[1..], n, k, u, redact);
      }
    }
  }

  lemma ReplaceSlot(v: string, n: nat, k: nat, rest: string, u: string, redact: bool)
    requires NoNul(v) && (n == k ==> u == v) && (rest != [] ==> rest[0] != 'u')
    ensures Replace(Slot(v, n, k, redact) + rest, Placeholder(k), u) == Slot(v, n, k + 1, redact) + Replace(rest, Placeholder(k), u)
  {
    var w := Placeholder(k);
    if redact && n >= CAPACITY {
      assert [NUL] + MARK + [NUL] + rest == Slot(v, n, k, redact) + rest;
      assert !(w <= [NUL] + MARK + [NUL] + rest) by { assert w[1] == 'u'; }
      ReplacePasses(MARK, rest, k, u);
    } else if n < k {
      ReplaceSkips(v, rest, w, u);
    } else if n == k {
      assert w <= w + rest && (w + rest)[|w|..] == rest;
    } else {
      PlaceholdersDiffer(n, k, rest);
      NameIsToken(n);
      assert [NUL] + Name(n) + [NUL] + rest == Placeholder(n) + rest;
      ReplacePasses(Name(n), rest, k, u);
    }
  }

  /** With every turn taken, all UUIDs within capacity are back, and beyond it a delimiter is left. */
  lemma {:induction false} AllFilled(p: seq<Piece>, n: nat, k: nat, redact: bool)
    requires k == n + |Uuids(p)|
    ensures !redact ==> Filled(p, n, k, redact) == Join(p)
    ensures redact && k <= CAPACITY ==> Filled(p, n, k, redact) == RedactAll(p)
    ensures redact && k > CAPACITY && n < k ==> NUL in Filled(p, n, k, redact)
    decreases |p|
  {
    if p != [] {
      if UuidPiece(p[0]) {
        AllFilled(p[1..], n + 1, k, redact);
        if redact && k > CAPACITY && n >= CAPACITY { assert Slot(p[0].text, n, k, redact)[0] == NUL; }
      } else {
        AllFilled(p[1..], n, k, redact);
      }
    }
  }

  lemma {:induction false} RedactedNoNul(p: seq<Piece>)
    requires Clean(p)
    ensures NoNul(RedactAll(p))
    decreases |p|
  {
    if p != [] {
      assert p[0] in p && forall x :: x in p[1..] ==> x in p;
      RedactedNoNul(p[1..]);
    }
  }

  /** The restoring loop on its own. */
  function Restore(text: string, stashed: seq<string>, i: nat): string
    requires i <= |stashed|
    decreases |stashed| - i
  {
    if i == |stashed| then text else Restore(Replace(text, Placeholder(i), stashed[i]), stashed, i + 1)
  }

  lemma {:induction false} RestoreFills(p: seq<Piece>, i: nat)
    requires WellFormed(p) && Clean(p) && i <= |Uuids(p)|
    ensures Restore(Filled(p, 0, i, false), Uuids(p), i) == Filled(p, 0, |Uuids(p)|, false)
    decreases |Uuids(p)| - i
  {
    if i < |Uuids(p)| {
      StashFits(p, 0, i, Uuids(p));
      ReplaceOne(p, 0, i, Uuids(p)[i], false);
      RestoreFills(p, i + 1);
    }
  }

  lemma {:induction false} StashedIsFilled(p: seq<Piece>, n: nat)
    ensures Join(Stashed(p, n)) == Filled(p, n, 0, false)
    decreases |p|
  {
    if p != [] {
      JoinStashed(p, n);
      StashedIsFilled(p[1..], n + 1);
      StashedIsFilled(p[1..], n);
    }
  }

  /** Stashing and restoring alone change nothing, however many UUIDs there are. */
  lemma RestoreUndoesStash(text: string)
    requires NoNul(text)
    ensures var (hidden, stashed) := Stash(UUID, START, text, 0); Restore(hidden, stashed, 0) == text
  {
    SplitIsFaithful(text);
    var p := Split(text);
    NoNulPieces(p);
    StashPieces(p, 0);
    StashedIsFilled(p, 0);
    RestoreFills(p, 0);
    AllFilled(p, 0, |Uuids(p)|, false);
  }

  // ---- what the rewriting guarantees ------------------------------------------------------------------------

  function RunIf(r: string): seq<Piece> {
    if r == [] then [] else [Run(r)]
  }

  const MARK_PIECES := [Sep('['), Run("REDACTED"), Sep(']')]

  /** The pieces a piece turns into. */
  function Cleaned(x: Piece): seq<Piece> {
    if x.Sep? || IsUuid(x.text) || !Long(x.text) then [x] else
      var h, t := x.text[..Leading(x.text)], x.text[WordEnd(x.text)..];
      RunIf(h) + MARK_PIECES + RunIf(t)
  }

  function CleanedAll(p: seq<Piece>): seq<Piece> {
    if p == [] then [] else Cleaned(p[0]) + CleanedAll(p[1..])
  }

  /** A piece the stage leaves as it is. */
  predicate Settled(x: Piece) {
    x.Sep? || IsUuid(x.text) || !Long(x.text)
  }

  lemma {:induction false} HyphensAreShort(r: string)
    requires forall k :: 0 <= k < |r| ==> r[k] == '-'
    ensures WordEnd(r) == 0 && !Long(r) && !IsUuid(r) && AllToken(r)
  {
    if r != [] {
      HyphensAreShort(r[..|r| - 1]);
    }
  }

  lemma {:induction false} JoinAppend(p: seq<Piece>, q: seq<Piece>)
    ensures Join(p + q) == Join(p) + Join(q)
    ensures Uuids(p + q) == Uuids(p) + Uuids(q)
    decreases |p|
  {
    if p == [] {
      assert p + q == q;
    } else {
      assert (p + q)[1..] == p[1..] + q;
      JoinAppend(p[1..], q);
      var u := if UuidPiece(p[0]) then [p[0].text] else [];
      assert u + (Uuids(p[1..]) + Uuids(q)) == u + Uuids(p[1..]) + Uuids(q);
      assert Text(p[0]) + (Join(p[1..]) + Join(q)) == Text(p[0]) + Join(p[1..]) + Join(q);
    }
  }

  lemma OuterHyphens(r: string)
    requires AllToken(r)
    ensures forall k :: 0 <= k < |r| && (k < Leading(r) || WordEnd(r) <= k) ==> r[k] == '-'
  {
    LeadingHyphens(r);
    forall k | WordEnd(r) <= k < |r| ensures r[k] == '-' { WordEndIsLast(r, k); }
  }

  /** The outer hyphens of a long run are short runs of their own. */
  lemma OuterRuns(r: string)
    requires AllToken(r) && Long(r)
    ensures forall t :: t in [r[..Leading(r)], r[WordEnd(r)..]] ==> AllToken(t) && !Long(t) && !IsUuid(t)
  {
    OuterHyphens(r);
    var h, t := r[..Leading(r)], r[WordEnd(r)..];
    HyphensAreShort(h);
    HyphensAreShort(t);
  }

  lemma CleanedLong(r: string)
    requires AllToken(r) && Long(r) && !IsUuid(r)
    ensures WellFormed(Cleaned(Run(r))) && Join(Cleaned(Run(r))) == RedactRun(r)
    ensures Uuids(Cleaned(Run(r))) == [] && forall y :: y in Cleaned(Run(r)) ==> Settled(y)
  {
    var h, t := r[..Leading(r)], r[WordEnd(r)..];
    OuterRuns(r);
    assert h in [h, t] && t in [h, t];
    CleanedJoins(h, t);
    CleanedShape(h, t);
  }

  lemma CleanedShape(h: string, t: string)
    requires AllToken(h) && !Long(h) && AllToken(t) && !Long(t)
    ensures var p := RunIf(h) + MARK_PIECES + RunIf(t); WellFormed(p) && forall y :: y in p ==> Settled(y)
  {
    assert !Long("REDACTED");
    AppendWellFormed(RunIf(h), MARK_PIECES);
    AppendWellFormed(RunIf(h) + MARK_PIECES, RunIf(t));
  }

  lemma CleanedProperties(x: Piece)
    requires WellFormed([x])
    ensures WellFormed(Cleaned(x)) && Join(Cleaned(x)) == RedactUnlessUuid(x)
    ensures Uuids(Cleaned(x)) == Uuids([x]) && forall y :: y in Cleaned(x) ==> Settled(y)
    ensures x.Sep? ==> Cleaned(x) == [x]
  {
    assert [x][0] == x;
    if Settled(x) {
      assert Join([x]) == Text(x) + Join([]);
    } else {
      CleanedLong(x.text);
    }
  }

  lemma OneRun(r: string)
    requires !IsUuid(r)
    ensures Join(RunIf(r)) == r && Uuids(RunIf(r)) == []
  {
    if r != [] { assert [Run(r)][1..] == []; }
  }

  lemma MarkJoins()
    ensures Join(MARK_PIECES) == MARK && Uuids(MARK_PIECES) == []
  {
    assert MARK_PIECES[1..] == [Run("REDACTED"), Sep(']')] && MARK_PIECES[1..][1..] == [Sep(']')];
  }

  lemma CleanedJoins(h: string, t: string)
    requires !IsUuid(h) && !IsUuid(t)
    ensures var p := RunIf(h) + MARK_PIECES + RunIf(t); Join(p) == h + MARK + t && Uuids(p) == []
  {
    JoinAppend(RunIf(h) + MARK_PIECES, RunIf(t));
    JoinAppend(RunIf(h), MARK_PIECES);
    MarkJoins();
    OneRun(h);
    OneRun(t);
  }

  lemma {:induction false} CleanedAllProperties(p: seq<Piece>)
    requires WellFormed(p)
    ensures WellFormed(CleanedAll(p)) && Join(CleanedAll(p)) == RedactAll(p)
    ensures Uuids(CleanedAll(p)) == Uuids(p) && forall y :: y in CleanedAll(p) ==> Settled(y)
    ensures p != [] && p[0].Sep? ==> CleanedAll(p) != [] && CleanedAll(p)[0].Sep?
    decreases |p|
  {
    if p != [] {
      RunHead(p);
      assert WellFormed([p[0]]);
      CleanedProperties(p[0]);
      CleanedAllProperties(p[1..]);
      if |p| > 1 { assert p[1..][0] == p[1] && (p[0].Sep? || p[1].Sep?); }
      AppendWellFormed(Cleaned(p[0]), CleanedAll(p[1..]));
      JoinAppend(Cleaned(p[0]), CleanedAll(p[1..]));
      assert p == [p[0]] + p[1..];
      JoinAppend([p[0]], p[1..]);
    }
  }

  lemma {:induction false} SettledStays(p: seq<Piece>)
    requires forall x :: x in p ==> Settled(x)
    ensures RedactAll(p) == Join(p)
    decreases |p|
  {
    if p != [] {
      assert p[0] in p && forall x :: x in p[1..] ==> x in p;
      SettledStays(p[1..]);
    }
  }

  /** Every standalone UUID survives verbatim and in order; afterwards every run is such a UUID or
      short; and a second pass changes nothing. */
  lemma RedactionGuarantees(text: string)
    ensures Uuids(Split(Redacted(text))) == Uuids(Split(text))
    ensures forall x :: x in Split(Redacted(text)) && x.Run? ==> IsUuid(x.text) || !Long(x.text)
    ensures Redacted(Redacted(text)) == Redacted(text)
  {
    SplitIsFaithful(text);
    var p := Split(text);
    CleanedAllProperties(p);
    SplitJoin(CleanedAll(p));
    SettledStays(CleanedAll(p));
  }

  lemma {:induction false} RedactAllLength(p: seq<Piece>)
    requires WellFormed(p)
    ensures |RedactAll(p)| <= |Join(p)|
    ensures (exists x :: x in p && !Settled(x)) ==> |RedactAll(p)| < |Join(p)|
    decreases |p|
  {
    if p != [] {
      RunHead(p);
      RedactAllLength(p[1..]);
      if x :| x in p && !Settled(x) {
        if x != p[0] { assert x in p[1..]; }
      }
    }
  }

  /** The stage leaves a text alone exactly when each of its long runs is, as a whole, a UUID. */
  lemma UnchangedIff(text: string)
    ensures Redacted(text) == text <==> forall x :: x in Split(text) ==> Settled(x)
  {
    SplitIsFaithful(text);
    RedactAllLength(Split(text));
    if forall x :: x in Split(text) ==> Settled(x) { SettledStays(Split(text)); }
  }
}
