/** The two recursive scans over nested data: the store's search for secrets before it writes, and
    the logger's redaction of structured values. */
module StructuredValues {
  import opened Wrappers
  import opened TokenRuns
  import opened Redaction

  datatype DictKey = Named(name: string) | OtherKey(id: int)

  datatype Entry = Entry(key: DictKey, value: Value)

  /** `Rdpw` is a string marked as connection-file content, `Wrapped` a value inside a `Secret`. */
  datatype Value =
    | Str(s: string)
    | Rdpw(s: string)
    | Wrapped(inner: Value)
    | Dict(entries: seq<Entry>)
    | List(items: seq<Value>)
    | Tuple(items: seq<Value>)
    | Atom(id: int)

  // ---- secret-shaped strings -------------------------------------------------------------------------

  /** A pattern anchored with `$` also matches before a final newline. */
  function Anchored(s: string): string {
    if s != [] && s[|s| - 1] == '\n' then s[..|s| - 1] else s
  }

  predicate WholeOpaque(s: string) {
    AllToken(Anchored(s)) && |Anchored(s)| >= MIN_LENGTH
  }

  predicate WholeUuid(s: string) {
    IsUuid(Anchored(s))
  }

  /** The unanchored scan: some match of the opaque pattern is not a UUID. */
  predicate EmbeddedOpaque(s: string) {
    exists m :: m in FindAll(OPAQUE, START, s) && !IsUuid(m)
  }

  /** `jwt` stands for the two JWT patterns. */
  predicate SecretShaped(jwt: string -> bool, s: string) {
    jwt(s) || (WholeOpaque(s) && !WholeUuid(s)) || EmbeddedOpaque(s)
  }

  /** A run the store lets pass: what is left of it after trimming is short, or a UUID. */
  predicate Storable(x: Piece) {
    x.Sep? || !Long(x.text) || IsUuid(Trim(x.text))
  }

  lemma {:induction false} LongTrimsOf(p: seq<Piece>, m: string)
    ensures m in LongTrims(p) <==> exists x :: x in p && x.Run? && Long(x.text) && m == Trim(x.text)
    decreases |p|
  {
    if p != [] {
      LongTrimsOf(p[1..], m);
      if m in LongTrims(p) {
        if m in LongTrims(p[1..]) {
          var x :| x in p[1..] && x.Run? && Long(x.text) && m == Trim(x.text);
          assert x in p;
        } else {
          assert p[0] in p && p[0].Run? && Long(p[0].text) && m == Trim(p[0].text);
        }
      }
      if x :| x in p && x.Run? && Long(x.text) && m == Trim(x.text) {
        if x != p[0] { assert x in p[1..]; }
      }
    }
  }

  lemma EmbeddedIff(s: string)
    ensures !EmbeddedOpaque(s) <==> forall x :: x in Split(s) ==> Storable(x)
  {
    MatchesAreTrimmedRuns(s);
    forall m ensures m in FindAll(OPAQUE, START, s) <==> exists x :: x in Split(s) && x.Run? && Long(x.text) && m == Trim(x.text) {
      LongTrimsOf(Split(s), m);
    }
    if x :| x in Split(s) && !Storable(x) {
      assert Trim(x.text) in FindAll(OPAQUE, START, s);
    }
  }

  lemma TrimOfUuid(r: string)
    requires IsUuid(r)
    ensures Trim(r) == r && Long(r)
  {
    assert r[0] != '-' && IsWord(r[|r| - 1]);
  }

  /** The two carve-outs side by side. A text the logger's opaque stage leaves alone always passes the
      store's embedded scan. The store lets more pass: exactly those texts in which some UUID stands
      between hyphens, which the logger's look-arounds do not take for a UUID. */
  lemma LoggerIsStricterThanStore(s: string)
    ensures Redacted(s) == s ==> !EmbeddedOpaque(s)
    ensures !EmbeddedOpaque(s) && Redacted(s) != s <==>
            (forall x :: x in Split(s) ==> Storable(x))
            && exists x :: x in Split(s) && x.Run? && IsUuid(Trim(x.text)) && x.text != Trim(x.text)
  {
    UnchangedIff(s);
    EmbeddedIff(s);
    forall x: Piece ensures Settled(x) ==> Storable(x) {
      if x.Run? && IsUuid(x.text) { TrimOfUuid(x.text); }
    }
    forall x: Piece ensures x.Run? && Storable(x) && !Settled(x) ==> IsUuid(Trim(x.text)) && x.text != Trim(x.text) {
    }
    forall x: Piece ensures x.Run? && IsUuid(Trim(x.text)) && x.text != Trim(x.text) ==> !Settled(x) {
      if x.Run? && IsUuid(x.text) { TrimOfUuid(x.text); }
    }
  }

  // ---- secret key names ---------------------------------------------------------------------------------

  const KEY_PARTS := ["token", "secret", "password", "passwd", "pwd", "credential", "authorization",
                      "apikey", "api_key", "api-key", "refresh", "bearer", "accesskey", "access_key", "access-key"]

  function Lower(s: string): (t: string)
    ensures |t| == |s|
  {
    if s == [] then [] else [if 'A' <= s[0] <= 'Z' then (s[0] as int + 32) as char else s[0]] + Lower(s[1..])
  }

  predicate SecretName(k: DictKey) {
    k.Named? && exists i, m :: 0 <= i <= |k.name| && m in KEY_PARTS && m <= Lower(k.name)[i..]
  }

  // ---- the search -----------------------------------------------------------------------------------------

  datatype Step = At(index: nat, key: DictKey) | Item(index: nat)

  type Path = seq<Step>

  /** The first offending value in depth-first order and the path to it. */
  function FindSecret(jwt: string -> bool, v: Value, path: Path): Option<(Path, Value)>
    decreases v, 1
  {
    match v
    case Wrapped(inner) => Some((path, inner))
    case Dict(entries) => FindInEntries(jwt, entries, 0, path)
    case List(items) => FindInItems(jwt, items, 0, path)
    case Tuple(items) => FindInItems(jwt, items, 0, path)
    case Str(s) => if SecretShaped(jwt, s) then Some((path, v)) else None
    case Rdpw(s) => if SecretShaped(jwt, s) then Some((path, v)) else None
    case Atom(_) => None
  }

  function FindInEntries(jwt: string -> bool, entries: seq<Entry>, at: nat, path: Path): Option<(Path, Value)>
    decreases entries, 0
  {
    if entries == [] then None else
      var e := entries[0];
      var here := path + [At(at, e.key)];
      if SecretName(e.key) then Some((here, e.value)) else
        assert e.value < e;
        var found := FindSecret(jwt, e.value, here);
        if found.Some? then found else FindInEntries(jwt, entries[1..], at + 1, path)
  }

  function FindInItems(jwt: string -> bool, items: seq<Value>, at: nat, path: Path): Option<(Path, Value)>
    decreases items, 0
  {
    if items == [] then None else
      var found := FindSecret(jwt, items[0], path + [Item(at)]);
      if found.Some? then found else FindInItems(jwt, items[1..], at + 1, path)
  }

  // ---- what a secret looks like, in plain terms --------------------------------------------------------------

  predicate TokenText(s: string) {
    forall c :: c in s ==> 'A' <= c <= 'Z' || 'a' <= c <= 'z' || '0' <= c <= '9' || c == '_' || c == '-'
  }

  predicate HexText(s: string) {
    forall c :: c in s ==> '0' <= c <= '9' || 'a' <= c <= 'f' || 'A' <= c <= 'F'
  }

  /** Five groups of 8, 4, 4, 4 and 12 hexadecimal digits with hyphens between them. */
  predicate UuidText(s: string) {
    && |s| == 36 && s[8] == '-' && s[13] == '-' && s[18] == '-' && s[23] == '-'
    && HexText(s[..8]) && HexText(s[9..13]) && HexText(s[14..18]) && HexText(s[19..23]) && HexText(s[24..])
  }

  /** A JWT; nothing but 32 or more token characters, up to a final newline, and no UUID; or a run of token
      characters somewhere, of which 32 or more are left without its outer hyphens, and no UUID. */
  predicate Telltale(jwt: string -> bool, s: string) {
    || jwt(s)
    || (var t := if s != [] && s[|s| - 1] == '\n' then s[..|s| - 1] else s; |t| >= 32 && TokenText(t) && !UuidText(t))
    || exists x :: x in Split(s) && x.Run? && |Trim(x.text)| >= 32 && !UuidText(Trim(x.text))
  }

  /** The words the documentation names, with their separators. */
  const WORDS := ["token", "secret", "password", "passwd", "pwd", "credential", "authorization", "apikey", "api_key", "api-key",
                  "refresh", "bearer", "accesskey", "access_key", "access-key"]

  /** `m` itself, or its capital. */
  predicate SameLetter(c: char, m: char) {
    c == m || ('a' <= m <= 'z' && c as int == m as int - 32)
  }

  /** The text begins with the lower-case word `m`, in letters of either case. */
  predicate BeginsLike(s: string, m: string) {
    |m| <= |s| && forall j :: 0 <= j < |m| ==> SameLetter(s[j], m[j])
  }

  /** The key has one of the documented words in it. */
  predicate SaysSecret(k: DictKey) {
    k.Named? && exists i, m ::
      && 0 <= i <= |k.name|
      && m in WORDS && BeginsLike(k.name[i..], m)
  }

  lemma UuidTextIff(s: string)
    ensures UuidText(s) <==> IsUuid(s)
  {
    if UuidText(s) {
      forall k | 0 <= k < 36 && k !in {8, 13, 18, 23} ensures IsHex(s[k]) {
        var part, at := if k < 8 then s[..8] else if k < 13 then s[9..13] else if k < 18 then s[14..18] else if k < 23 then s[19..23] else s[24..],
                        if k < 8 then 0 else if k < 13 then 9 else if k < 18 then 14 else if k < 23 then 19 else 24;
        assert part[k - at] == s[k] && part[k - at] in part;
      }
    }
  }

  lemma TrimLong(r: string)
    ensures Long(r) <==> |Trim(r)| >= 32
  {
  }

  /** What makes the store refuse a string is exactly that it is telltale. */
  lemma SecretShapedIff(jwt: string -> bool, s: string)
    ensures SecretShaped(jwt, s) <==> Telltale(jwt, s)
  {
    EmbeddedIff(s);
    UuidTextIff(Anchored(s));
    forall x: Piece | x in Split(s) ensures Storable(x) <==> !(x.Run? && |Trim(x.text)| >= 32 && !UuidText(Trim(x.text))) {
      if x.Run? {
        TrimLong(x.text);
        UuidTextIff(Trim(x.text));
      }
    }
  }

  /** And for strings on their own, marked as connection-file content or not. */
  lemma StringRefusedIff(jwt: string -> bool, s: string, path: Path)
    ensures FindSecret(jwt, Str(s), path).Some? <==> Telltale(jwt, s)
    ensures FindSecret(jwt, Rdpw(s), path).Some? <==> Telltale(jwt, s)
  {
    SecretShapedIff(jwt, s);
  }

  lemma {:induction false} LowerAt(s: string, k: nat)
    requires k < |s|
    ensures Lower(s)[k] == if 'A' <= s[k] <= 'Z' then (s[k] as int + 32) as char else s[k]
    decreases k
  {
    if k > 0 { LowerAt(s[1..], k - 1); }
  }

  lemma LetterIff(s: string, k: nat, m: char)
    requires k < |s| && !('A' <= m <= 'Z')
    ensures Lower(s)[k] == m <==> SameLetter(s[k], m)
  {
    LowerAt(s, k);
    LetterCodes(s[k], Lower(s)[k], m);
  }

  lemma LetterCodes(c: char, lower: char, m: char)
    requires lower == (if 'A' <= c <= 'Z' then (c as int + 32) as char else c) && !('A' <= m <= 'Z')
    ensures lower == m <==> SameLetter(c, m)
  {
    assert lower as int == if 'A' <= c <= 'Z' then c as int + 32 else c as int;
    assert lower == m <==> lower as int == m as int;
  }

  lemma BeginsLikeIff(s: string, i: nat, m: string)
    requires i <= |s| && forall c :: c in m ==> !('A' <= c <= 'Z')
    ensures m <= Lower(s)[i..] <==> BeginsLike(s[i..], m)
  {
    var t, u := Lower(s)[i..], s[i..];
    if m <= t {
      forall j: nat | j < |m| ensures SameLetter(u[j], m[j]) { LetterAt(s, i, j, m); }
    }
    if BeginsLike(u, m) {
      forall j: nat | j < |m| ensures t[j] == m[j] { LetterAt(s, i, j, m); }
      assert m == t[..|m|];
    }
  }

  lemma LetterAt(s: string, i: nat, j: nat, m: string)
    requires i <= |s| && j < |m| && j < |s[i..]| && forall c :: c in m ==> !('A' <= c <= 'Z')
    ensures Lower(s)[i..][j] == m[j] <==> SameLetter(s[i..][j], m[j])
  {
    assert m[j] in m;
    LetterIff(s, i + j, m[j]);
  }

  lemma WordsAreLower()
    ensures KEY_PARTS == WORDS
    ensures forall m, c :: m in WORDS && c in m ==> !('A' <= c <= 'Z')
  {
  }

  lemma SecretNameIff(k: DictKey)
    ensures SecretName(k) <==> SaysSecret(k)
  {
    WordsAreLower();
    if SecretName(k) {
      var i: nat, m :| i <= |k.name| && m in KEY_PARTS && m <= Lower(k.name)[i..];
      BeginsLikeIff(k.name, i, m);
    }
    if SaysSecret(k) {
      var i: nat, m :| i <= |k.name| && m in WORDS && BeginsLike(k.name[i..], m);
      BeginsLikeIff(k.name, i, m);
    }
  }

  // ---- what it is meant to find -------------------------------------------------------------------------------

  /** A place in the data, and whether its key names a secret. */
  datatype Node = Node(path: Path, value: Value, named: bool)

  /** All places in depth-first order; a `Secret` is opened by nobody. */
  function Nodes(v: Value, path: Path, named: bool): seq<Node>
    decreases v, 1
  {
    [Node(path, v, named)] +
    match v
    case Dict(entries) => EntryNodes(entries, 0, path)
    case List(items) => ItemNodes(items, 0, path)
    case Tuple(items) => ItemNodes(items, 0, path)
    case _ => []
  }

  function EntryNodes(entries: seq<Entry>, at: nat, path: Path): seq<Node>
    decreases entries, 0
  {
    if entries == [] then [] else
      var e := entries[0];
      assert e.value < e;
      Nodes(e.value, path + [At(at, e.key)], SaysSecret(e.key)) + EntryNodes(entries[1..], at + 1, path)
  }

  function ItemNodes(items: seq<Value>, at: nat, path: Path): seq<Node>
    decreases items, 0
  {
    if items == [] then [] else Nodes(items[0], path + [Item(at)], false) + ItemNodes(items[1..], at + 1, path)
  }

  predicate Offends(jwt: string -> bool, n: Node) {
    n.named || n.value.Wrapped? || ((n.value.Str? || n.value.Rdpw?) && Telltale(jwt, n.value.s))
  }

  /** What is reported for an offending place: a `Secret` gives away its content unless its key
      already named it. */
  function Report(n: Node): (Path, Value) {
    (n.path, if !n.named && n.value.Wrapped? then n.value.inner else n.value)
  }

  function FirstOffender(jwt: string -> bool, ns: seq<Node>): Option<(Path, Value)> {
    if ns == [] then None else if Offends(jwt, ns[0]) then Some(Report(ns[0])) else FirstOffender(jwt, ns[1..])
  }

  lemma {:induction false} FirstOffenderAppend(jwt: string -> bool, ms: seq<Node>, ns: seq<Node>)
    ensures FirstOffender(jwt, ms + ns) ==
            if FirstOffender(jwt, ms).Some? then FirstOffender(jwt, ms) else FirstOffender(jwt, ns)
    decreases |ms|
  {
    if ms == [] {
      assert ms + ns == ns;
    } else {
      assert (ms + ns)[1..] == ms[1..] + ns;
      FirstOffenderAppend(jwt, ms[1..], ns);
    }
  }

  /** The search returns the first offending place in depth-first order, and nothing exactly when there
      is none. */
  lemma {:induction false} FindsFirstOffender(jwt: string -> bool, v: Value, path: Path)
    ensures FindSecret(jwt, v, path) == FirstOffender(jwt, Nodes(v, path, false))
    decreases v, 1
  {
    var here := Node(path, v, false);
    var below := match v
      case Dict(entries) => EntryNodes(entries, 0, path)
      case List(items) => ItemNodes(items, 0, path)
      case Tuple(items) => ItemNodes(items, 0, path)
      case _ => [];
    FirstOffenderAppend(jwt, [here], below);
    match v
    case Str(t) => SecretShapedIff(jwt, t);
    case Rdpw(t) => SecretShapedIff(jwt, t);
    case Dict(entries) => FindsInEntries(jwt, entries, 0, path);
    case List(items) => FindsInItems(jwt, items, 0, path);
    case Tuple(items) => FindsInItems(jwt, items, 0, path);
    case _ =>
  }

  lemma {:induction false} FindsInEntries(jwt: string -> bool, entries: seq<Entry>, at: nat, path: Path)
    ensures FindInEntries(jwt, entries, at, path) == FirstOffender(jwt, EntryNodes(entries, at, path))
    decreases entries, 0
  {
    if entries != [] {
      var e := entries[0];
      var here := path + [At(at, e.key)];
      SecretNameIff(e.key);
      FirstOffenderAppend(jwt, Nodes(e.value, here, SaysSecret(e.key)), EntryNodes(entries[1..], at + 1, path));
      if !SaysSecret(e.key) {
        assert e.value < e;
        FindsFirstOffender(jwt, e.value, here);
        FindsInEntries(jwt, entries[1..], at + 1, path);
      }
    }
  }

  lemma {:induction false} FindsInItems(jwt: string -> bool, items: seq<Value>, at: nat, path: Path)
    ensures FindInItems(jwt, items, at, path) == FirstOffender(jwt, ItemNodes(items, at, path))
    decreases items, 0
  {
    if items != [] {
      FirstOffenderAppend(jwt, Nodes(items[0], path + [Item(at)], false), ItemNodes(items[1..], at + 1, path));
      FindsFirstOffender(jwt, items[0], path + [Item(at)]);
      FindsInItems(jwt, items[1..], at + 1, path);
    }
  }

  // ---- paths ----------------------------------------------------------------------------------------------------

  /** Following one step. */
  function Child(v: Value, s: Step): Option<Value> {
    match s
    case At(i, key) => if v.Dict? && i < |v.entries| && v.entries[i].key == key then Some(v.entries[i].value) else None
    case Item(i) => if (v.List? || v.Tuple?) && i < |v.items| then Some(v.items[i]) else None
  }

  function Lookup(v: Value, path: Path): Option<Value> {
    if path == [] then Some(v) else
      match Child(v, path[0])
      case None => None
      case Some(w) => Lookup(w, path[1..])
  }

  lemma {:induction false} LookupAppend(v: Value, p: Path, q: Path)
    ensures Lookup(v, p + q) == match Lookup(v, p) case None => None case Some(w) => Lookup(w, q)
    decreases |p|
  {
    if p == [] {
      assert p + q == q;
    } else if Child(v, p[0]).Some? {
      assert (p + q)[1..] == p[1..] + q;
      LookupAppend(Child(v, p[0]).value, p[1..], q);
    }
  }

  /** Every place listed below a value is where its path says. */
  lemma {:induction false} PathsLead(root: Value, v: Value, path: Path, named: bool, n: Node)
    requires Lookup(root, path) == Some(v) && n in Nodes(v, path, named)
    ensures Lookup(root, n.path) == Some(n.value)
    decreases v, 1
  {
    if n != Node(path, v, named) {
      match v
      case Dict(entries) => EntryPathsLead(root, v, entries, 0, path, n);
      case List(items) => ItemPathsLead(root, v, items, 0, path, n);
      case Tuple(items) => ItemPathsLead(root, v, items, 0, path, n);
    }
  }

  lemma {:induction false} EntryPathsLead(root: Value, v: Value, entries: seq<Entry>, at: nat, path: Path, n: Node)
    requires Lookup(root, path) == Some(v) && v.Dict? && at <= |v.entries| && entries == v.entries[at..]
    requires n in EntryNodes(entries, at, path)
    ensures Lookup(root, n.path) == Some(n.value)
    decreases entries, 0
  {
    var e := entries[0];
    var s := At(at, e.key);
    if n in Nodes(e.value, path + [s], SaysSecret(e.key)) {
      LookupAppend(root, path, [s]);
      assert e.value < e;
      PathsLead(root, e.value, path + [s], SaysSecret(e.key), n);
    } else {
      EntryPathsLead(root, v, entries[1..], at + 1, path, n);
    }
  }

  lemma {:induction false} ItemPathsLead(root: Value, v: Value, items: seq<Value>, at: nat, path: Path, n: Node)
    requires Lookup(root, path) == Some(v) && (v.List? || v.Tuple?) && at <= |v.items| && items == v.items[at..]
    requires n in ItemNodes(items, at, path)
    ensures Lookup(root, n.path) == Some(n.value)
    decreases items, 0
  {
    if n in Nodes(items[0], path + [Item(at)], false) {
      LookupAppend(root, path, [Item(at)]);
      PathsLead(root, items[0], path + [Item(at)], false, n);
    } else {
      ItemPathsLead(root, v, items[1..], at + 1, path, n);
    }
  }

  /** Whether following a path ends under a key that names a secret. */
  predicate NamedBy(q: Path) {
    q != [] && q[|q| - 1].At? && SaysSecret(q[|q| - 1].key)
  }

  lemma NamedByLast(q: Path)
    requires q != []
    ensures NamedBy(q) == if q[1..] == [] then NamedBy([q[0]]) else NamedBy(q[1..])
  {
  }

  /** And every place a path can lead to is listed. */
  lemma {:induction false} PathsAreListed(v: Value, path: Path, named: bool, q: Path)
    requires Lookup(v, q).Some?
    ensures Node(path + q, Lookup(v, q).value, if q == [] then named else NamedBy(q)) in Nodes(v, path, named)
    decreases |q|
  {
    if q == [] {
      assert path + q == path;
    } else {
      var s, rest := q[0], q[1..];
      var w := Child(v, s).value;
      var n := Node(path + q, Lookup(v, q).value, NamedBy(q));
      PathsAreListed(w, path + [s], NamedBy([s]), rest);
      assert path + [s] + rest == path + q;
      NamedByLast(q);
      if s.At? { ListedInEntries(v.entries, 0, path, s.index, n); } else { ListedInItems(v.items, 0, path, s.index, n); }
    }
  }

  lemma {:induction false} ListedInEntries(entries: seq<Entry>, at: nat, path: Path, i: nat, n: Node)
    requires i < |entries| && n in Nodes(entries[i].value, path + [At(at + i, entries[i].key)], SaysSecret(entries[i].key))
    ensures n in EntryNodes(entries, at, path)
    decreases i
  {
    if i > 0 { ListedInEntries(entries[1..], at + 1, path, i - 1, n); }
  }

  lemma {:induction false} ListedInItems(items: seq<Value>, at: nat, path: Path, i: nat, n: Node)
    requires i < |items| && n in Nodes(items[i], path + [Item(at + i)], false)
    ensures n in ItemNodes(items, at, path)
    decreases i
  {
    if i > 0 { ListedInItems(items[1..], at + 1, path, i - 1, n); }
  }

  /** What the store refuses, in terms of the data alone: a document is refused exactly when some path
      leads to a `Secret`, to a value under a key with a documented word or to a telltale string, and the
      path it names leads there. What is reported is the value there, or what the `Secret` holds. */
  lemma RefusedIff(jwt: string -> bool, v: Value)
    ensures FindSecret(jwt, v, []).Some? <==>
            exists q :: Lookup(v, q).Some? && Offends(jwt, Node(q, Lookup(v, q).value, NamedBy(q)))
    ensures FindSecret(jwt, v, []).Some? ==>
            var (q, reported) := FindSecret(jwt, v, []).value;
            && Lookup(v, q).Some? && Offends(jwt, Node(q, Lookup(v, q).value, NamedBy(q)))
            && reported == if Lookup(v, q).value.Wrapped? && !NamedBy(q) then Lookup(v, q).value.inner else Lookup(v, q).value
  {
    var ns := Nodes(v, [], false);
    FindsFirstOffender(jwt, v, []);
    OffenderIsListed(jwt, ns);
    if FindSecret(jwt, v, []).Some? {
      var n :| n in ns && Offends(jwt, n) && Report(n) == FindSecret(jwt, v, []).value;
      PathsLead(v, v, [], false, n);
      NodesAreNamed(v, [], false, n);
    }
    if q :| Lookup(v, q).Some? && Offends(jwt, Node(q, Lookup(v, q).value, NamedBy(q))) {
      PathsAreListed(v, [], false, q);
      assert [] + q == q;
      assert Node(q, Lookup(v, q).value, NamedBy(q)) in ns;
    }
  }

  lemma {:induction false} OffenderIsListed(jwt: string -> bool, ns: seq<Node>)
    ensures FirstOffender(jwt, ns).Some? <==> exists n :: n in ns && Offends(jwt, n)
    ensures FirstOffender(jwt, ns).Some? ==> exists n :: n in ns && Offends(jwt, n) && Report(n) == FirstOffender(jwt, ns).value
    decreases |ns|
  {
    if ns != [] {
      OffenderIsListed(jwt, ns[1..]);
      assert ns[0] in ns && forall n :: n in ns[1..] ==> n in ns;
    }
  }

  lemma {:induction false} NodesAreNamed(v: Value, path: Path, named: bool, n: Node)
    requires n in Nodes(v, path, named) && (named <==> NamedBy(path))
    ensures n.named <==> NamedBy(n.path)
    decreases v, 1
  {
    if n != Node(path, v, named) {
      match v
      case Dict(entries) => EntriesAreNamed(entries, 0, path, n);
      case List(items) => ItemsAreNamed(items, 0, path, n);
      case Tuple(items) => ItemsAreNamed(items, 0, path, n);
    }
  }

  lemma {:induction false} EntriesAreNamed(entries: seq<Entry>, at: nat, path: Path, n: Node)
    requires n in EntryNodes(entries, at, path)
    ensures n.named <==> NamedBy(n.path)
    decreases entries, 0
  {
    var e := entries[0];
    if n in Nodes(e.value, path + [At(at, e.key)], SaysSecret(e.key)) {
      assert e.value < e;
      NodesAreNamed(e.value, path + [At(at, e.key)], SaysSecret(e.key), n);
    } else {
      EntriesAreNamed(entries[1..], at + 1, path, n);
    }
  }

  lemma {:induction false} ItemsAreNamed(items: seq<Value>, at: nat, path: Path, n: Node)
    requires n in ItemNodes(items, at, path)
    ensures n.named <==> NamedBy(n.path)
    decreases items, 0
  {
    if n in Nodes(items[0], path + [Item(at)], false) {
      NodesAreNamed(items[0], path + [Item(at)], false, n);
    } else {
      ItemsAreNamed(items[1..], at + 1, path, n);
    }
  }

  // ---- the order ----------------------------------------------------------------------------------------------------

  /** Depth-first order of paths: a place comes before everything below it, and children come in the
      order of their indices. */
  predicate Before(p: Path, q: Path) {
    q != [] && (p == [] || p[0].index < q[0].index || (p[0] == q[0] && Before(p[1..], q[1..])))
  }

  lemma {:induction false} BeforeIsStrict(p: Path, q: Path)
    ensures !(Before(p, q) && (p == q || Before(q, p)))
    decreases |p|
  {
    if p != [] && q != [] && p[0] == q[0] { BeforeIsStrict(p[1..], q[1..]); }
  }

  /** `found` is where the path `q`, taken from `path` on, leads, or an earlier place. */
  ghost predicate NoLater(found: Path, path: Path, q: Path) {
    path <= found && (found == path + q || Before(found[|path|..], q))
  }

  lemma {:induction false} NodesExtend(v: Value, path: Path, named: bool, n: Node)
    requires n in Nodes(v, path, named)
    ensures path <= n.path
    decreases v, 1
  {
    if n != Node(path, v, named) {
      match v
      case Dict(entries) => EntriesExtend(entries, 0, path, n);
      case List(items) => ItemsExtend(items, 0, path, n);
      case Tuple(items) => ItemsExtend(items, 0, path, n);
    }
  }

  lemma {:induction false} EntriesExtend(entries: seq<Entry>, at: nat, path: Path, n: Node)
    requires n in EntryNodes(entries, at, path)
    ensures path <= n.path
    decreases entries, 0
  {
    var e := entries[0];
    if n in Nodes(e.value, path + [At(at, e.key)], SaysSecret(e.key)) {
      assert e.value < e;
      NodesExtend(e.value, path + [At(at, e.key)], SaysSecret(e.key), n);
    } else {
      EntriesExtend(entries[1..], at + 1, path, n);
    }
  }

  lemma {:induction false} ItemsExtend(items: seq<Value>, at: nat, path: Path, n: Node)
    requires n in ItemNodes(items, at, path)
    ensures path <= n.path
    decreases items, 0
  {
    if n in Nodes(items[0], path + [Item(at)], false) {
      NodesExtend(items[0], path + [Item(at)], false, n);
    } else {
      ItemsExtend(items[1..], at + 1, path, n);
    }
  }

  /** The first offender below one child comes before everything below a later one. */
  lemma EarlierChild(jwt: string -> bool, v: Value, path: Path, s: Step, named: bool, q: Path)
    requires q != [] && s.index < q[0].index && FirstOffender(jwt, Nodes(v, path + [s], named)).Some?
    ensures NoLater(FirstOffender(jwt, Nodes(v, path + [s], named)).value.0, path, q)
  {
    var ns := Nodes(v, path + [s], named);
    OffenderIsListed(jwt, ns);
    var n :| n in ns && Offends(jwt, n) && Report(n) == FirstOffender(jwt, ns).value;
    NodesExtend(v, path + [s], named, n);
    assert n.path[|path|..][0] == s;
  }

  lemma SameChild(found: Path, path: Path, s: Step, rest: Path)
    requires NoLater(found, path + [s], rest)
    ensures NoLater(found, path, [s] + rest)
  {
    assert found[|path|..][0] == s && found[|path|..][1..] == found[|path + [s]|..];
    assert ([s] + rest)[1..] == rest;
    assert path + [s] + rest == path + ([s] + rest);
  }

  lemma {:induction false} FirstBelow(jwt: string -> bool, v: Value, path: Path, named: bool, q: Path)
    requires Lookup(v, q).Some? && Offends(jwt, Node(path + q, Lookup(v, q).value, if q == [] then named else NamedBy(q)))
    ensures FirstOffender(jwt, Nodes(v, path, named)).Some?
    ensures NoLater(FirstOffender(jwt, Nodes(v, path, named)).value.0, path, q)
    decreases |q|, 1, 0
  {
    var here := Node(path, v, named);
    assert path + [] == path;
    if !Offends(jwt, here) {
      assert Nodes(v, path, named)[1..] == if v.Dict? then EntryNodes(v.entries, 0, path) else ItemNodes(v.items, 0, path);
      if v.Dict? { FirstInEntries(jwt, v.entries, 0, path, q[0].index, q); } else { FirstInItems(jwt, v.items, 0, path, q[0].index, q); }
    }
  }

  lemma {:induction false} FirstInEntries(jwt: string -> bool, entries: seq<Entry>, at: nat, path: Path, i: nat, q: Path)
    requires i < |entries| && q != [] && q[0] == At(at + i, entries[i].key)
    requires Lookup(entries[i].value, q[1..]).Some? && Offends(jwt, Node(path + q, Lookup(entries[i].value, q[1..]).value, NamedBy(q)))
    ensures FirstOffender(jwt, EntryNodes(entries, at, path)).Some?
    ensures NoLater(FirstOffender(jwt, EntryNodes(entries, at, path)).value.0, path, q)
    decreases |q|, 0, i
  {
    var e := entries[0];
    var s := At(at, e.key);
    var head := Nodes(e.value, path + [s], SaysSecret(e.key));
    FirstOffenderAppend(jwt, head, EntryNodes(entries[1..], at + 1, path));
    if i == 0 {
      assert path + [s] + q[1..] == path + q && [s] + q[1..] == q;
      NamedByLast(q);
      FirstBelow(jwt, e.value, path + [s], SaysSecret(e.key), q[1..]);
      SameChild(FirstOffender(jwt, head).value.0, path, s, q[1..]);
    } else if FirstOffender(jwt, head).Some? {
      EarlierChild(jwt, e.value, path, s, SaysSecret(e.key), q);
    } else {
      FirstInEntries(jwt, entries[1..], at + 1, path, i - 1, q);
    }
  }

  lemma {:induction false} FirstInItems(jwt: string -> bool, items: seq<Value>, at: nat, path: Path, i: nat, q: Path)
    requires i < |items| && q != [] && q[0] == Item(at + i)
    requires Lookup(items[i], q[1..]).Some? && Offends(jwt, Node(path + q, Lookup(items[i], q[1..]).value, NamedBy(q)))
    ensures FirstOffender(jwt, ItemNodes(items, at, path)).Some?
    ensures NoLater(FirstOffender(jwt, ItemNodes(items, at, path)).value.0, path, q)
    decreases |q|, 0, i
  {
    var s := Item(at);
    var head := Nodes(items[0], path + [s], false);
    FirstOffenderAppend(jwt, head, ItemNodes(items[1..], at + 1, path));
    if i == 0 {
      assert path + [s] + q[1..] == path + q && [s] + q[1..] == q;
      NamedByLast(q);
      FirstBelow(jwt, items[0], path + [s], false, q[1..]);
      SameChild(FirstOffender(jwt, head).value.0, path, s, q[1..]);
    } else if FirstOffender(jwt, head).Some? {
      EarlierChild(jwt, items[0], path, s, false, q);
    } else {
      FirstInItems(jwt, items[1..], at + 1, path, i - 1, q);
    }
  }

  /** What is reported is the first in depth-first order: no path leads to an offending place that
      comes before it. */
  lemma NothingEarlier(jwt: string -> bool, v: Value, q: Path)
    requires Lookup(v, q).Some? && Offends(jwt, Node(q, Lookup(v, q).value, NamedBy(q)))
    ensures FindSecret(jwt, v, []).Some?
    ensures FindSecret(jwt, v, []).value.0 == q || Before(FindSecret(jwt, v, []).value.0, q)
  {
    FindsFirstOffender(jwt, v, []);
    assert [] + q == q;
    FirstBelow(jwt, v, [], false, q);
    var p := FindSecret(jwt, v, []).value.0;
    assert p[0..] == p;
  }

  // ---- redacting structured values --------------------------------------------------------------------------------

  /** `redact` is the whole text redaction of one string. */
  function RedactValue(redact: string -> string, v: Value): Value
    decreases v, 1
  {
    match v
    case Rdpw(_) => Str(MARK)
    case Str(s) => Str(redact(s))
    case Dict(entries) => Dict(RedactEntries(redact, entries))
    case List(items) => List(RedactItems(redact, items))
    case Tuple(items) => Tuple(RedactItems(redact, items))
    case _ => v
  }

  function RedactEntries(redact: string -> string, entries: seq<Entry>): (r: seq<Entry>)
    ensures |r| == |entries|
    decreases entries, 0
  {
    if entries == [] then [] else
      var e := entries[0];
      assert e.value < e;
      [Entry(e.key, RedactValue(redact, e.value))] + RedactEntries(redact, entries[1..])
  }

  function RedactItems(redact: string -> string, items: seq<Value>): (r: seq<Value>)
    ensures |r| == |items|
    decreases items, 0
  {
    if items == [] then [] else [RedactValue(redact, items[0])] + RedactItems(redact, items[1..])
  }

  lemma {:induction false} RedactEntriesAt(redact: string -> string, entries: seq<Entry>, i: nat)
    requires i < |entries|
    ensures RedactEntries(redact, entries)[i] == Entry(entries[i].key, RedactValue(redact, entries[i].value))
    decreases i
  {
    if i > 0 { RedactEntriesAt(redact, entries[1..], i - 1); }
  }

  lemma {:induction false} RedactItemsAt(redact: string -> string, items: seq<Value>, i: nat)
    requires i < |items|
    ensures RedactItems(redact, items)[i] == RedactValue(redact, items[i])
    decreases i
  {
    if i > 0 { RedactItemsAt(redact, items[1..], i - 1); }
  }

  /** Redaction keeps the tree: the same paths exist before and after, keys and indices included, and
      at the end of each stands the redaction of what stood there. */
  lemma {:induction false} RedactionKeepsShape(redact: string -> string, v: Value, q: Path)
    ensures Lookup(RedactValue(redact, v), q) ==
            match Lookup(v, q) case None => None case Some(w) => Some(RedactValue(redact, w))
    decreases |q|
  {
    if q != [] {
      var s := q[0];
      var r := RedactValue(redact, v);
      if s.At? && v.Dict? && s.index < |v.entries| { RedactEntriesAt(redact, v.entries, s.index); }
      if s.Item? && (v.List? || v.Tuple?) && s.index < |v.items| { RedactItemsAt(redact, v.items, s.index); }
      assert Child(r, s) == match Child(v, s) case None => None case Some(w) => Some(RedactValue(redact, w));
      if Child(v, s).Some? { RedactionKeepsShape(redact, Child(v, s).value, q[1..]); }
    }
  }

  /** What stands at the end of each path: strings redacted, connection-file content gone whole, anything that is
      neither text nor a container as it was, and containers of the same kind, size and keys. */
  lemma RedactedAt(redact: string -> string, v: Value, q: Path)
    requires Lookup(v, q).Some?
    ensures Lookup(RedactValue(redact, v), q).Some?
    ensures var r := Lookup(RedactValue(redact, v), q).value;
            match Lookup(v, q).value
            case Str(s) => r == Str(redact(s))
            case Rdpw(_) => r == Str("[REDACTED]")
            case Wrapped(inner) => r == Wrapped(inner)
            case Atom(id) => r == Atom(id)
            case List(items) => r.List? && |r.items| == |items|
            case Tuple(items) => r.Tuple? && |r.items| == |items|
            case Dict(entries) => r.Dict? && |r.entries| == |entries| && forall i :: 0 <= i < |entries| ==> r.entries[i].key == entries[i].key
  {
    RedactionKeepsShape(redact, v, q);
    var w := Lookup(v, q).value;
    if w.Dict? {
      forall i: nat | i < |w.entries| ensures RedactEntries(redact, w.entries)[i].key == w.entries[i].key { RedactEntriesAt(redact, w.entries, i); }
    }
  }

  /** So no string leaf escapes: whatever string is found in the result is the mark or a redacted
      string. */
  lemma NoLeafEscapes(redact: string -> string, v: Value, q: Path)
    requires Lookup(RedactValue(redact, v), q).Some?
    ensures var w := Lookup(RedactValue(redact, v), q).value;
            && Lookup(v, q).Some?
            && !w.Rdpw?
            && (w.Str? ==>
                  || (w.s == MARK && Lookup(v, q).value.Rdpw?)
                  || (Lookup(v, q).value.Str? && w.s == redact(Lookup(v, q).value.s)))
  {
    RedactionKeepsShape(redact, v, q);
  }
}
