/** Composing launch URLs and reading them back: percent-encoding (section 2.1 of RFC 3986) of byte
    strings, and the split of a URL into path, query and fragment (section 3). Identifiers are given
    as their UTF-8 bytes. */
module WebLauncher {
  import opened Wrappers

  type Byte = b: int | 0 <= b < 256
  type Bytes = seq<Byte>

  // ---- percent-encoding -------------------------------------------------------------------------------

  /** Section 2.3 of RFC 3986. */
  predicate Unreserved(c: char) {
    'A' <= c <= 'Z' || 'a' <= c <= 'z' || '0' <= c <= '9' || c == '-' || c == '.' || c == '_' || c == '~'
  }

  function HexDigit(n: nat): (c: char)
    requires n < 16
  {
    if n < 10 then (48 + n) as char else (55 + n) as char
  }

  function HexValue(c: char): Option<nat> {
    if '0' <= c <= '9' then Some(c as int - 48)
    else if 'A' <= c <= 'F' then Some(c as int - 55)
    else if 'a' <= c <= 'f' then Some(c as int - 87)
    else None
  }

  predicate IsPlain(b: Byte, safe: set<char>) {
    b < 128 && (Unreserved(b as char) || b as char in safe)
  }

  function QuoteByte(b: Byte, safe: set<char>): string {
    if IsPlain(b, safe) then [b as char] else ['%', HexDigit(b / 16), HexDigit(b % 16)]
  }

  function Quote(bs: Bytes, safe: set<char>): string {
    if bs == [] then [] else QuoteByte(bs[0], safe) + Quote(bs[1..], safe)
  }

  function Prefixed(b: Byte, rest: Option<Bytes>): Option<Bytes> {
    if rest == None then None else Some([b] + rest.value)
  }

  /** Reading it back; `None` for an incomplete escape or a character that is not ASCII. */
  function Unquote(s: string): Option<Bytes> {
    if s == [] then Some([])
    else if s[0] == '%' then
      if |s| >= 3 && HexValue(s[1]).Some? && HexValue(s[2]).Some?
      then Prefixed(EscapedByte(HexValue(s[1]).value, HexValue(s[2]).value), Unquote(s[3..]))
      else None
    else if s[0] as int < 128 then Prefixed(s[0] as int, Unquote(s[1..]))
    else None
  }

  function EscapedByte(high: nat, low: nat): Byte {
    (16 * high + low) % 256
  }

  /** Letters, digits and four marks stand for themselves, as does what the caller calls safe; any other byte is
      written as a percent sign and two capital hexadecimal digits, the high one first. */
  lemma {:induction false} QuotedAs(b: Byte, bs: Bytes, safe: set<char>)
    ensures Quote([], safe) == "" && Quote([b] + bs, safe) == Quote([b], safe) + Quote(bs, safe)
    ensures Quote([b], safe) ==
            if 65 <= b <= 90 || 97 <= b <= 122 || 48 <= b <= 57 || b in {45, 46, 95, 126} || (b < 128 && b as char in safe)
            then [b as char] else ['%', "0123456789ABCDEF"[b / 16], "0123456789ABCDEF"[b % 16]]
  {
    assert ([b] + bs)[1..] == bs && [b][1..] == [];
    HexDigitAs(b / 16);
    HexDigitAs(b % 16);
  }

  lemma HexDigitAs(n: nat)
    requires n < 16
    ensures HexDigit(n) == "0123456789ABCDEF"[n]
  {
  }

  lemma QuotedByteReads(b: Byte, safe: set<char>, rest: string)
    requires '%' !in safe
    ensures Unquote(QuoteByte(b, safe) + rest) == Prefixed(b, Unquote(rest))
  {
    var s := QuoteByte(b, safe) + rest;
    if IsPlain(b, safe) {
      assert s[1..] == rest;
    } else {
      assert s[3..] == rest;
      assert HexValue(s[1]) == Some(b / 16) && HexValue(s[2]) == Some(b % 16);
    }
  }

  /** Whatever the bytes, they come back. */
  lemma {:induction false} QuoteRoundTrip(bs: Bytes, safe: set<char>)
    requires '%' !in safe
    ensures Unquote(Quote(bs, safe)) == Some(bs)
  {
    if bs != [] {
      QuoteRoundTrip(bs[1..], safe);
      QuotedByteReads(bs[0], safe, Quote(bs[1..], safe));
      assert [bs[0]] + bs[1..] == bs;
    }
  }

  /** What an encoded text is made of. */
  predicate IsQuoted(c: char, safe: set<char>) {
    Unreserved(c) || c == '%' || c in safe
  }

  lemma {:induction false} QuoteIsClean(bs: Bytes, safe: set<char>)
    ensures forall c :: c in Quote(bs, safe) ==> IsQuoted(c, safe)
  {
    if bs != [] { QuoteIsClean(bs[1..], safe); }
  }

  // ---- splitting a URL ------------------------------------------------------------------------------------

  /** The text before the first `c`, and the text after it if there is one. */
  function Cut(s: string, c: char): (string, Option<string>) {
    if s == [] then ([], None)
    else if s[0] == c then ([], Some(s[1..]))
    else
      var rest := Cut(s[1..], c);
      ([s[0]] + rest.0, rest.1)
  }

  lemma {:induction false} CutAt(a: string, c: char, b: string)
    requires c !in a
    ensures Cut(a, c) == (a, None)
    ensures Cut(a + [c] + b, c) == (a, Some(b))
  {
    if a != [] {
      CutAt(a[1..], c, b);
      assert [a[0]] + a[1..] == a;
      assert (a + [c] + b)[1..] == a[1..] + [c] + b;
    } else {
      assert a + [c] + b == [c] + b && ([c] + b)[1..] == b;
    }
  }

  function SplitOn(s: string, c: char): (parts: seq<string>)
    ensures parts != []
  {
    if s == [] then [[]]
    else
      var rest := SplitOn(s[1..], c);
      if s[0] == c then [[]] + rest else [[s[0]] + rest[0]] + rest[1..]
  }

  lemma {:induction false} SplitOne(a: string, c: char)
    requires c !in a
    ensures SplitOn(a, c) == [a]
  {
    if a != [] {
      SplitOne(a[1..], c);
      assert [a[0]] + a[1..] == a;
    }
  }

  lemma {:induction false} SplitAt(a: string, c: char, b: string)
    requires c !in a
    ensures SplitOn(a + [c] + b, c) == [a] + SplitOn(b, c)
  {
    if a == [] {
      assert a + [c] + b == [c] + b && ([c] + b)[1..] == b;
    } else {
      assert (a + [c] + b)[1..] == a[1..] + [c] + b;
      SplitAt(a[1..], c, b);
      assert [a[0]] + a[1..] == a;
    }
  }

  function Join(parts: seq<string>, c: char): string {
    if parts == [] then [] else if |parts| == 1 then parts[0] else parts[0] + [c] + Join(parts[1..], c)
  }

  lemma {:induction false} SplitJoined(parts: seq<string>, c: char)
    requires parts != [] && forall p :: p in parts ==> c !in p
    ensures SplitOn(Join(parts, c), c) == parts
  {
    SplitOne(parts[0], c);
    if |parts| > 1 {
      SplitJoined(parts[1..], c);
      SplitAt(parts[0], c, Join(parts[1..], c));
      assert [parts[0]] + parts[1..] == parts;
    }
  }

  lemma {:induction false} JoinAppend(parts: seq<string>, more: seq<string>, c: char)
    requires parts != [] && more != []
    ensures Join(parts + more, c) == Join(parts, c) + [c] + Join(more, c)
    decreases |parts|
  {
    if |parts| == 1 {
      assert (parts + more)[1..] == more;
    } else {
      assert (parts + more)[1..] == parts[1..] + more;
      JoinAppend(parts[1..], more, c);
    }
  }

  lemma {:induction false} JoinIsMadeOf(parts: seq<string>, c: char, d: char)
    requires c != d && forall p :: p in parts ==> d !in p
    ensures d !in Join(parts, c)
  {
    if |parts| > 1 { JoinIsMadeOf(parts[1..], c, d); }
  }

  // ---- launch URLs ------------------------------------------------------------------------------------------

  /** The segments of https://windows.cloud.microsoft/webclient. */
  const BASE_PARTS := ["https:", "", "windows.cloud.microsoft", "webclient"]
  const TENANT := "tenant="
  const HINT := "loginHint="
  const HINT_SAFE := {'@', '.'}

  datatype Launch = CloudPc(id: Bytes) | Desktop(workspace: Bytes, resource: Bytes)

  /** The segments of a launch path. */
  function Segments(l: Launch): seq<string> {
    match l
    case CloudPc(id) => BASE_PARTS + ["ent", Quote(id, {})]
    case Desktop(workspace, resource) => BASE_PARTS + ["avd", Quote(workspace, {}), Quote(resource, {})]
  }

  const BASE := "https://windows.cloud.microsoft/webclient"

  lemma JoinFour(first: string, second: string, third: string, last: string, c: char)
    ensures Join([first, second, third, last], c) == (first + [c] + second + [c]) + third + ([c] + last)
  {
    var p0, p1, p2, p3 := [first, second, third, last], [second, third, last], [third, last], [last];
    assert p0[1..] == p1 && p1[1..] == p2 && p2[1..] == p3;
    assert Join(p3, c) == last;
    assert Join(p2, c) == third + [c] + last;
    assert Join(p1, c) == second + [c] + (third + [c] + last);
    assert Join(p0, c) == first + [c] + (second + [c] + (third + [c] + last));
  }

  lemma HostAsWritten()
    ensures "https://" + "windows.cloud.microsoft" == "https://windows.cloud.microsoft"
  {
  }

  lemma BaseAsWritten()
    ensures Join(BASE_PARTS, '/') == BASE
  {
    JoinFour("https:", "", "windows.cloud.microsoft", "webclient", '/');
    assert "https:" + ['/'] + "" + ['/'] == "https://" && ['/'] + "webclient" == "/webclient";
    HostAsWritten();
    assert "https://windows.cloud.microsoft" + "/webclient" == BASE;
  }

  lemma JoinThree(first: string, middle: string, last: string, c: char)
    ensures Join([first, last], c) == first + [c] + last
    ensures Join([first, middle, last], c) == first + [c] + (middle + [c] + last)
  {
    assert [first, last][1..] == [last] && [middle, last][1..] == [last];
    assert [first, middle, last][1..] == [middle, last];
  }

  lemma Regroup(base: string, kind: string, rest: string)
    ensures base + ['/'] + (kind + ['/'] + rest) == base + (['/'] + kind + ['/']) + rest
  {
  }

  /** The paths are the ones documented. */
  lemma PathsAsWritten(l: Launch)
    ensures BASE == "https://windows.cloud.microsoft/webclient"
    ensures Join(Segments(l), '/') ==
            match l
            case CloudPc(id) => BASE + "/ent/" + Quote(id, {})
            case Desktop(workspace, resource) => BASE + "/avd/" + (Quote(workspace, {}) + ['/'] + Quote(resource, {}))
  {
    BaseAsWritten();
    match l
    case CloudPc(id) =>
      JoinAppend(BASE_PARTS, ["ent", Quote(id, {})], '/');
      JoinThree("ent", "", Quote(id, {}), '/');
      Regroup(BASE, "ent", Quote(id, {}));
      assert ['/'] + "ent" + ['/'] == "/ent/";
    case Desktop(workspace, resource) =>
      var q, r := Quote(workspace, {}), Quote(resource, {});
      JoinAppend(BASE_PARTS, ["avd", q, r], '/');
      JoinThree("avd", q, r, '/');
      Regroup(BASE, "avd", q + ['/'] + r);
      assert ['/'] + "avd" + ['/'] == "/avd/";
  }

  /** An empty tenant or hint is as good as none. */
  function Given(b: Option<Bytes>): Option<Bytes> {
    if b == Some([]) then None else b
  }

  function AppendTenant(url: string, tenant: Option<Bytes>): string {
    if Given(tenant).Some? then url + ['?'] + (TENANT + Quote(tenant.value, {})) else url
  }

  function AppendHint(url: string, hint: Option<Bytes>): string {
    if Given(hint).Some? then url + ['#'] + (HINT + Quote(hint.value, HINT_SAFE)) else url
  }

  function Build(l: Launch, tenant: Option<Bytes>, hint: Option<Bytes>): string {
    AppendHint(AppendTenant(Join(Segments(l), '/'), tenant), hint)
  }

  /** A whole launch URL as it is written: the tenant in the query and the hint in the fragment, which comes last,
      each only if there is one. */
  lemma BuiltAsWritten(l: Launch, tenant: Option<Bytes>, hint: Option<Bytes>)
    ensures var query := if tenant.Some? && tenant.value != [] then "?tenant=" + Quote(tenant.value, {}) else "";
            var fragment := if hint.Some? && hint.value != [] then "#loginHint=" + Quote(hint.value, {'@', '.'}) else "";
            Build(l, tenant, hint) == Join(Segments(l), '/') + query + fragment
  {
    TenantAsWritten(Join(Segments(l), '/'), tenant);
    HintAsWritten(AppendTenant(Join(Segments(l), '/'), tenant), hint);
  }

  lemma TenantAsWritten(url: string, tenant: Option<Bytes>)
    ensures AppendTenant(url, tenant) == url + if tenant.Some? && tenant.value != [] then "?tenant=" + Quote(tenant.value, {}) else ""
  {
    assert ['?'] + TENANT == "?tenant=";
    if Given(tenant).Some? {
      var t := Quote(tenant.value, {});
      assert url + ['?'] + (TENANT + t) == url + (['?'] + TENANT + t);
    }
  }

  lemma HintAsWritten(url: string, hint: Option<Bytes>)
    ensures AppendHint(url, hint) == url + if hint.Some? && hint.value != [] then "#loginHint=" + Quote(hint.value, {'@', '.'}) else ""
  {
    assert ['#'] + HINT == "#loginHint=";
    if Given(hint).Some? {
      var h := Quote(hint.value, {'@', '.'});
      assert url + ['#'] + (HINT + h) == url + (['#'] + HINT + h);
    }
  }

  /** A component of the form name=value; `None` in the result for anything else. */
  function Labelled(name: string, component: Option<string>): Option<Option<Bytes>> {
    if component == None then Some(None)
    else if name <= component.value then
      var value := Unquote(component.value[|name|..]);
      if value == None then None else Some(value)
    else None
  }

  function ReadPath(parts: seq<string>): Option<Launch> {
    if |parts| < 6 || parts[..4] != BASE_PARTS then None
    else if parts[4] == "ent" && |parts| == 6 && Unquote(parts[5]).Some? then Some(CloudPc(Unquote(parts[5]).value))
    else if parts[4] == "avd" && |parts| == 7 && Unquote(parts[5]).Some? && Unquote(parts[6]).Some?
    then Some(Desktop(Unquote(parts[5]).value, Unquote(parts[6]).value))
    else None
  }

  datatype Request = Request(launch: Launch, tenant: Option<Bytes>, hint: Option<Bytes>)

  /** Reading a URL the way section 3 of RFC 3986 divides it: the fragment after the first `#`, the
      query between the first `?` and the fragment, the path segments between slashes. */
  function ReadUrl(url: string): Option<Request> {
    var (front, fragment) := Cut(url, '#');
    var (path, query) := Cut(front, '?');
    var launch := ReadPath(SplitOn(path, '/'));
    var tenant := Labelled(TENANT, query);
    var hint := Labelled(HINT, fragment);
    if launch.Some? && tenant.Some? && hint.Some? then Some(Request(launch.value, tenant.value, hint.value)) else None
  }

  predicate NoDelimiter(s: string) {
    '#' !in s && '?' !in s && '/' !in s
  }

  lemma CleanText(bs: Bytes, safe: set<char>)
    requires safe <= HINT_SAFE
    ensures NoDelimiter(Quote(bs, safe)) && Unquote(Quote(bs, safe)) == Some(bs)
  {
    QuoteIsClean(bs, safe);
    QuoteRoundTrip(bs, safe);
  }

  lemma FixedAreClean()
    ensures forall p :: p in BASE_PARTS ==> NoDelimiter(p)
    ensures NoDelimiter("ent") && NoDelimiter("avd")
  {
  }

  lemma SegmentsAreClean(l: Launch)
    ensures forall p :: p in Segments(l) ==> NoDelimiter(p)
  {
    FixedAreClean();
    match l {
      case CloudPc(id) => CleanText(id, {});
      case Desktop(workspace, resource) =>
        CleanText(workspace, {});
        CleanText(resource, {});
    }
  }

  lemma SegmentsRead(l: Launch)
    ensures ReadPath(Segments(l)) == Some(l)
  {
    assert Segments(l)[..4] == BASE_PARTS;
    match l {
      case CloudPc(id) => CleanText(id, {});
      case Desktop(workspace, resource) =>
        CleanText(workspace, {});
        CleanText(resource, {});
    }
  }

  lemma CleanPath(parts: seq<string>)
    requires parts != [] && forall p :: p in parts ==> NoDelimiter(p)
    ensures SplitOn(Join(parts, '/'), '/') == parts
    ensures '#' !in Join(parts, '/') && '?' !in Join(parts, '/')
  {
    SplitJoined(parts, '/');
    JoinIsMadeOf(parts, '/', '#');
    JoinIsMadeOf(parts, '/', '?');
  }

  lemma PathParts(l: Launch)
    ensures SplitOn(Join(Segments(l), '/'), '/') == Segments(l) && ReadPath(Segments(l)) == Some(l)
    ensures '#' !in Join(Segments(l), '/') && '?' !in Join(Segments(l), '/')
  {
    SegmentsAreClean(l);
    SegmentsRead(l);
    CleanPath(Segments(l));
  }

  lemma TenantPart(path: string, tenant: Option<Bytes>)
    requires '#' !in path && '?' !in path
    ensures var front := AppendTenant(path, tenant);
            '#' !in front && Cut(front, '?').0 == path && Labelled(TENANT, Cut(front, '?').1) == Some(Given(tenant))
  {
    CutAt(path, '?', "");
    if Given(tenant).Some? {
      CleanText(tenant.value, {});
      CutAt(path, '?', TENANT + Quote(tenant.value, {}));
      assert '#' !in TENANT;
    }
  }

  lemma HintPart(front: string, hint: Option<Bytes>)
    requires '#' !in front
    ensures var cut := Cut(AppendHint(front, hint), '#');
            && cut.0 == front && Labelled(HINT, cut.1) == Some(Given(hint)) && (cut.1.Some? <==> Given(hint).Some?)
            && (cut.1.Some? ==> NoDelimiter(cut.1.value))
  {
    CutAt(front, '#', "");
    if Given(hint).Some? {
      CleanText(hint.value, HINT_SAFE);
      CutAt(front, '#', HINT + Quote(hint.value, HINT_SAFE));
      assert NoDelimiter(HINT);
    }
  }

  /** The fragment, if there is one, is the last component, and the hint stands nowhere else: what comes
      before is the URL built without a hint. */
  lemma HintIsLast(l: Launch, tenant: Option<Bytes>, hint: Option<Bytes>)
    ensures var cut := Cut(Build(l, tenant, hint), '#');
            && cut.0 == Build(l, tenant, None) && (cut.1.Some? <==> Given(hint).Some?)
            && (cut.1.Some? ==> NoDelimiter(cut.1.value))
  {
    PathParts(l);
    TenantPart(Join(Segments(l), '/'), tenant);
    HintPart(AppendTenant(Join(Segments(l), '/'), tenant), hint);
  }

  /** Building and reading undo each other for all byte strings, up to empty counting as absent. */
  lemma BuildRoundTrip(l: Launch, tenant: Option<Bytes>, hint: Option<Bytes>)
    ensures ReadUrl(Build(l, tenant, hint)) == Some(Request(l, Given(tenant), Given(hint)))
  {
    PathParts(l);
    TenantPart(Join(Segments(l), '/'), tenant);
    HintPart(AppendTenant(Join(Segments(l), '/'), tenant), hint);
  }

  /** So different launches have different URLs; a Cloud PC's and a desktop's never collide. */
  lemma BuildIsInjective(l: Launch, tenant: Option<Bytes>, hint: Option<Bytes>, m: Launch, tenant': Option<Bytes>, hint': Option<Bytes>)
    ensures Build(l, tenant, hint) == Build(m, tenant', hint') <==>
              l == m && Given(tenant) == Given(tenant') && Given(hint) == Given(hint')
  {
    BuildRoundTrip(l, tenant, hint);
    BuildRoundTrip(m, tenant', hint');
  }

  // ---- what a browser makes of the path -----------------------------------------------------------------------

  /** Removing dot segments, section 5.2.4 of RFC 3986, over segments; `done` is what is kept so far. */
  function RemoveDots(parts: seq<string>, done: seq<string>): seq<string>
    decreases |parts|
  {
    if parts == [] then done
    else if parts[0] == "." then RemoveDots(parts[1..], if |parts| == 1 then done + [""] else done)
    else if parts[0] == ".." then
      var up := if done == [] then [] else done[..|done| - 1];
      RemoveDots(parts[1..], if |parts| == 1 then up + [""] else up)
    else RemoveDots(parts[1..], done + [parts[0]])
  }

  const DOT: Bytes := [46]
  const DOTS: Bytes := [46, 46]

  predicate IsDots(b: Bytes) { b == DOT || b == DOTS }

  lemma QuotedDots(b: Bytes)
    ensures Quote(b, {}) == "." <==> b == DOT
    ensures Quote(b, {}) == ".." <==> b == DOTS
  {
    QuoteRoundTrip(b, {});
    assert Unquote(".") == Prefixed(46, Unquote(""));
    assert ".."[1..] == ".";
  }

  predicate HasDots(parts: seq<string>) {
    "." in parts || ".." in parts
  }

  lemma {:induction false} NothingToRemove(parts: seq<string>, done: seq<string>)
    requires !HasDots(parts)
    ensures RemoveDots(parts, done) == done + parts
    decreases |parts|
  {
    if parts != [] {
      NothingToRemove(parts[1..], done + [parts[0]]);
      assert done + [parts[0]] + parts[1..] == done + parts;
    }
  }

  lemma {:induction false} DotsRemoved(parts: seq<string>, done: seq<string>)
    ensures !HasDots(done) ==> !HasDots(RemoveDots(parts, done))
    decreases |parts|
  {
    if parts != [] {
      var up := if done == [] then [] else done[..|done| - 1];
      DotsRemoved(parts[1..], if |parts| == 1 then done + [""] else done);
      DotsRemoved(parts[1..], if |parts| == 1 then up + [""] else up);
      DotsRemoved(parts[1..], done + [parts[0]]);
    }
  }

  /** A browser removes dot segments before it asks for a path, and `.` is not encoded. The path of a
      launch survives exactly if none of its identifiers is `.` or `..`; such an identifier leads to
      another page. */
  lemma SurvivesDotRemovalIff(l: Launch)
    ensures RemoveDots(Segments(l), []) == Segments(l) <==>
              match l case CloudPc(id) => !IsDots(id) case Desktop(workspace, resource) => !IsDots(workspace) && !IsDots(resource)
  {
    match l {
      case CloudPc(id) => QuotedDots(id);
      case Desktop(workspace, resource) =>
        QuotedDots(workspace);
        QuotedDots(resource);
    }
    SegmentDots(l);
    if HasDots(Segments(l)) {
      DotsRemoved(Segments(l), []);
    } else {
      NothingToRemove(Segments(l), []);
      assert [] + Segments(l) == Segments(l);
    }
  }

  lemma SegmentDots(l: Launch)
    ensures HasDots(Segments(l)) <==>
              match l
              case CloudPc(id) => HasDots([Quote(id, {})])
              case Desktop(workspace, resource) => HasDots([Quote(workspace, {}), Quote(resource, {})])
  {
    assert !HasDots(BASE_PARTS);
    match l {
      case CloudPc(id) => assert Segments(l) == BASE_PARTS + ["ent"] + [Quote(id, {})];
      case Desktop(workspace, resource) => assert Segments(l) == BASE_PARTS + ["avd"] + [Quote(workspace, {}), Quote(resource, {})];
    }
  }

  // ---- an issued URL --------------------------------------------------------------------------------------------

  /** The launch URL the service itself issued: a hint is added only where there is no fragment yet. */
  function Resolved(issued: string, hint: Option<Bytes>): string {
    if Given(hint).Some? && '#' !in issued then AppendHint(issued, hint) else issued
  }

  /** Its path and query are never touched, nor is a fragment it came with. */
  lemma IssuedUrlIsKept(issued: string, hint: Option<Bytes>)
    ensures Cut(Resolved(issued, hint), '#').0 == Cut(issued, '#').0
    ensures Cut(issued, '#').1.Some? ==> Resolved(issued, hint) == issued
    ensures Cut(issued, '#').1 == None ==> Labelled(HINT, Cut(Resolved(issued, hint), '#').1) == Some(Given(hint))
  {
    CutIff(issued, '#');
    if '#' !in issued {
      HintPart(issued, hint);
      CutAt(issued, '#', "");
    }
  }

  lemma {:induction false} CutIff(s: string, c: char)
    ensures Cut(s, c).1.Some? <==> c in s
  {
    if s != [] { CutIff(s[1..], c); }
  }

  /** The tenant of an account id is what stands after its only dot, if both halves are there. */
  function TenantOf(account: string): Option<string> {
    var parts := SplitOn(account, '.');
    if |parts| == 2 && parts[0] != [] && parts[1] != [] then Some(parts[1]) else None
  }

  lemma TenantOfIff(account: string, tenant: string)
    ensures TenantOf(account) == Some(tenant) <==>
              exists oid: string :: account == oid + ['.'] + tenant && '.' !in oid && '.' !in tenant && oid != [] && tenant != []
  {
    JoinSplit(account, '.');
    var parts := SplitOn(account, '.');
    if TenantOf(account) == Some(tenant) {
      assert parts == [parts[0], tenant] && parts[0] in parts && tenant in parts;
      assert Join(parts, '.') == parts[0] + ['.'] + Join(parts[1..], '.');
      assert account == parts[0] + ['.'] + tenant;
    }
    if oid: string :| account == oid + ['.'] + tenant && '.' !in oid && '.' !in tenant && oid != [] && tenant != [] {
      SplitAt(oid, '.', tenant);
      SplitOne(tenant, '.');
    }
  }

  lemma {:induction false} PiecesAreClean(s: string, c: char)
    ensures forall p :: p in SplitOn(s, c) ==> c !in p
  {
    if s != [] {
      PiecesAreClean(s[1..], c);
      var rest := SplitOn(s[1..], c);
      assert rest[0] in rest;
      forall p | p in SplitOn(s, c) ensures c !in p {
        if s[0] != c && p == [s[0]] + rest[0] { assert c !in rest[0]; } else { assert p == [] || p in rest; }
      }
    }
  }

  lemma JoinStarts(parts: seq<string>, c: char)
    requires parts != []
    ensures Join([[]] + parts, c) == [c] + Join(parts, c)
  {
    assert ([[]] + parts)[1..] == parts;
  }

  lemma {:induction false} JoinUndoesSplit(s: string, c: char)
    ensures Join(SplitOn(s, c), c) == s
  {
    if s != [] {
      JoinUndoesSplit(s[1..], c);
      var rest := SplitOn(s[1..], c);
      if s[0] == c { JoinStarts(rest, c); } else { JoinGrows(s[0], rest, c); }
      assert s == [s[0]] + s[1..];
    }
  }

  lemma JoinSplit(s: string, c: char)
    ensures Join(SplitOn(s, c), c) == s && forall p :: p in SplitOn(s, c) ==> c !in p
  {
    PiecesAreClean(s, c);
    JoinUndoesSplit(s, c);
  }

  lemma JoinGrows(x: char, parts: seq<string>, c: char)
    requires parts != []
    ensures Join([[x] + parts[0]] + parts[1..], c) == [x] + Join(parts, c)
  {
    var grown := [[x] + parts[0]] + parts[1..];
    assert grown[1..] == parts[1..];
    if |parts| > 1 { assert [x] + parts[0] + [c] + Join(parts[1..], c) == [x] + (parts[0] + [c] + Join(parts[1..], c)); }
  }
}
