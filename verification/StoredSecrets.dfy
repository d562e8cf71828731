/** The store's two halves together: what reaches the file holds no secret, by the scan of
    `StructuredValues`, whatever the order in which a dictionary lists its keys. */
module StoredSecrets {
  import opened Wrappers
  import opened StructuredValues
  import opened StateStore

  /** The entries of a dictionary in some order. */
  ghost predicate IsListing(entries: seq<Entry>, d: Doc<Value>) {
    && (forall i :: 0 <= i < |entries| ==> entries[i].key.Named? && entries[i].key.name in d && d[entries[i].key.name] == entries[i].value)
    && (forall k :: k in d ==> exists i :: 0 <= i < |entries| && entries[i].key == Named(k))
  }

  predicate Suspicious(jwt: string -> bool, key: DictKey, v: Value) {
    SecretName(key) || FindSecret(jwt, v, []).Some?
  }

  ghost predicate SecretIn(jwt: string -> bool, d: Doc<Value>) {
    exists k :: k in d && Suspicious(jwt, Named(k), d[k])
  }

  /** Where the search starts does not matter to whether it finds anything. */
  lemma {:induction false} FoundAnywhere(jwt: string -> bool, v: Value, p: Path, q: Path)
    ensures FindSecret(jwt, v, p).Some? <==> FindSecret(jwt, v, q).Some?
    decreases v, 1
  {
    match v
    case Dict(entries) => FoundInEntries(jwt, entries, 0, 0, p, q);
    case List(items) => FoundInItems(jwt, items, 0, p, q);
    case Tuple(items) => FoundInItems(jwt, items, 0, p, q);
    case _ =>
  }

  lemma {:induction false} FoundInEntries(jwt: string -> bool, entries: seq<Entry>, m: nat, n: nat, p: Path, q: Path)
    ensures FindInEntries(jwt, entries, m, p).Some? <==> FindInEntries(jwt, entries, n, q).Some?
    decreases entries, 0
  {
    if entries != [] {
      var e := entries[0];
      assert e.value < e;
      FoundAnywhere(jwt, e.value, p + [At(m, e.key)], q + [At(n, e.key)]);
      FoundInEntries(jwt, entries[1..], m + 1, n + 1, p, q);
    }
  }

  lemma {:induction false} FoundInItems(jwt: string -> bool, items: seq<Value>, n: nat, p: Path, q: Path)
    ensures FindInItems(jwt, items, n, p).Some? <==> FindInItems(jwt, items, n, q).Some?
    decreases items, 0
  {
    if items != [] {
      FoundAnywhere(jwt, items[0], p + [Item(n)], q + [Item(n)]);
      FoundInItems(jwt, items[1..], n + 1, p, q);
    }
  }

  lemma {:induction false} EntriesIff(jwt: string -> bool, entries: seq<Entry>, n: nat, path: Path)
    ensures FindInEntries(jwt, entries, n, path).Some? <==>
              exists i :: 0 <= i < |entries| && Suspicious(jwt, entries[i].key, entries[i].value)
    decreases |entries|
  {
    if entries != [] {
      var e := entries[0];
      FoundAnywhere(jwt, e.value, path + [At(n, e.key)], []);
      EntriesIff(jwt, entries[1..], n + 1, path);
      if i :| 0 <= i < |entries| && Suspicious(jwt, entries[i].key, entries[i].value) {
        if i > 0 { assert entries[1..][i - 1] == entries[i]; }
      }
      if i :| 0 <= i < |entries[1..]| && Suspicious(jwt, entries[1..][i].key, entries[1..][i].value) {
        assert entries[1..][i] == entries[i + 1];
      }
    }
  }

  /** The scan's verdict on a dictionary depends on its keys and values and not on their order. */
  lemma ScanIff(jwt: string -> bool, entries: seq<Entry>, d: Doc<Value>)
    requires IsListing(entries, d)
    ensures FindSecret(jwt, Dict(entries), []).Some? <==> SecretIn(jwt, d)
  {
    EntriesIff(jwt, entries, 0, []);
    if k :| k in d && Suspicious(jwt, Named(k), d[k]) {
      var i :| 0 <= i < |entries| && entries[i].key == Named(k);
      assert Suspicious(jwt, entries[i].key, entries[i].value);
    }
    if i :| 0 <= i < |entries| && Suspicious(jwt, entries[i].key, entries[i].value) {
      var k := entries[i].key.name;
      assert k in d && Suspicious(jwt, Named(k), d[k]);
    }
  }

  /** The configuration scans with this scan, and stamps a version as a number. */
  ghost predicate Scans(c: Config<Value>, jwt: string -> bool) {
    && (forall d :: c.secret(d) <==> SecretIn(jwt, d))
    && c.codec.number(c.version).Atom?
  }

  const TELLTALES := {'t', 'p', 'f', 'b', 'k'}

  /** Each of the key parts has a letter that the version's key has not. */
  lemma PartsHaveTelltales()
    ensures forall m :: m in KEY_PARTS ==> exists j :: 0 <= j < |m| && m[j] in TELLTALES
  {
    var at := [0, 5, 0, 0, 0, 6, 2, 1, 1, 1, 2, 0, 6, 7, 7];
    forall i | 0 <= i < |KEY_PARTS| ensures at[i] < |KEY_PARTS[i]| && KEY_PARTS[i][at[i]] in TELLTALES {
    }
  }

  lemma {:induction false} NoTelltales(s: string)
    requires forall c :: c in s ==> c !in TELLTALES && !('A' <= c <= 'Z' && (c as int + 32) as char in TELLTALES)
    ensures forall c :: c in Lower(s) ==> c !in TELLTALES
  {
    if s != [] {
      assert s[0] in s && forall c :: c in s[1..] ==> c in s;
      NoTelltales(s[1..]);
    }
  }

  lemma PrefixIn(m: string, s: string, i: nat, j: nat)
    requires i <= |s| && m <= s[i..] && j < |m|
    ensures m[j] in s
  {
    assert m[j] == s[i..][j] == s[i + j];
  }

  lemma HarmlessWithout(key: string)
    requires forall c :: c in Lower(key) ==> c !in TELLTALES
    ensures !SecretName(Named(key))
  {
    PartsHaveTelltales();
    var s := Lower(key);
    forall i, m | 0 <= i <= |key| && m in KEY_PARTS ensures !(m <= s[i..]) {
      var j :| 0 <= j < |m| && m[j] in TELLTALES;
      if m <= s[i..] { PrefixIn(m, s, i, j); }
    }
  }

  lemma VersionKeyIsHarmless()
    ensures !SecretName(Named(VERSION_KEY))
  {
    NoTelltales(VERSION_KEY);
    HarmlessWithout(VERSION_KEY);
  }

  /** What a successful save writes holds no secret: along no path, in whichever order the keys are
      listed, stands a `Secret`, a value under a key with a telltale word, or a telltale string. */
  lemma SavedHasNoSecret(c: Config<Value>, jwt: string -> bool, d: Doc<Value>, entries: seq<Entry>, q: Path)
    requires Scans(c, jwt) && !c.secret(d) && IsListing(entries, Stamped(c, d)) && Lookup(Dict(entries), q).Some?
    ensures var v := Lookup(Dict(entries), q).value;
            && !v.Wrapped? && (v.Str? || v.Rdpw? ==> !Telltale(jwt, v.s))
            && (q != [] && q[|q| - 1].At? ==> !SaysSecret(q[|q| - 1].key))
  {
    CleanStays(c, jwt, d);
    ScanIff(jwt, entries, Stamped(c, d));
    NotRefused(jwt, Dict(entries), q);
  }

  lemma NotRefused(jwt: string -> bool, document: Value, q: Path)
    requires FindSecret(jwt, document, []) == None && Lookup(document, q).Some?
    ensures !Offends(jwt, Node(q, Lookup(document, q).value, NamedBy(q)))
  {
    RefusedIff(jwt, document);
  }

  /** And a document is refused only for a secret that is there. */
  lemma RefusedHasSecret(c: Config<Value>, jwt: string -> bool, d: Doc<Value>, entries: seq<Entry>)
    requires Scans(c, jwt) && c.secret(d) && IsListing(entries, d)
    ensures exists q :: Lookup(Dict(entries), q).Some? && Offends(jwt, Node(q, Lookup(Dict(entries), q).value, NamedBy(q)))
  {
    ScanIff(jwt, entries, d);
    RefusedIff(jwt, Dict(entries));
  }

  // ---- loads that migrate: what they write is not scanned ------------------------------------------------

  lemma StampedHasSecretIff(c: Config<Value>, jwt: string -> bool, m: Doc<Value>)
    requires c.codec.number(c.version).Atom?
    ensures SecretIn(jwt, Stamped(c, m)) <==> SecretIn(jwt, m - {VERSION_KEY})
  {
    VersionKeyIsHarmless();
    assert forall k :: k in m - {VERSION_KEY} ==> (m - {VERSION_KEY})[k] == Stamped(c, m)[k];
    if k :| k in Stamped(c, m) && Suspicious(jwt, Named(k), Stamped(c, m)[k]) {
      assert k != VERSION_KEY && k in m - {VERSION_KEY};
    }
    if k :| k in m - {VERSION_KEY} && Suspicious(jwt, Named(k), (m - {VERSION_KEY})[k]) {
      assert k in Stamped(c, m);
    }
  }

  /** On the way from `d`, the step for version `v` makes a document with a secret of one without. */
  ghost predicate LeaksAt(jwt: string -> bool, steps: map<int, StateStore.Step<Value>>, d: Doc<Value>, from: int, v: int) {
    v in steps && exists e :: Leads(steps, d, e, from, v) && !SecretIn(jwt, e) && steps[v](e).Some? && SecretIn(jwt, steps[v](e).value)
  }

  lemma LeaksLater(jwt: string -> bool, steps: map<int, StateStore.Step<Value>>, d: Doc<Value>, next: Doc<Value>, from: int, v: int)
    requires from < v && from in steps && steps[from](d) == Some(next) && LeaksAt(jwt, steps, next, from + 1, v)
    ensures LeaksAt(jwt, steps, d, from, v)
  {
    var e :| Leads(steps, next, e, from + 1, v) && !SecretIn(jwt, e) && steps[v](e).Some? && SecretIn(jwt, steps[v](e).value);
    MigratesIff(steps, next, e, from + 1, v);
    MigratesIff(steps, d, e, from, v);
  }

  /** A secret in a migrated document was in the old one, or some step on the way put it there. */
  lemma {:induction false} SecretHasOrigin(jwt: string -> bool, steps: map<int, StateStore.Step<Value>>, d: Doc<Value>, from: int, to: int)
    requires var m := Migrate(steps, d, from, to); m.Returned? && SecretIn(jwt, m.doc)
    ensures SecretIn(jwt, d) || exists v :: from <= v < to && LeaksAt(jwt, steps, d, from, v)
    decreases (to - from)
  {
    if from < to && !SecretIn(jwt, d) {
      var next := steps[from](d).value;
      if SecretIn(jwt, next) {
        MigratesIff(steps, d, d, from, from);
        assert LeaksAt(jwt, steps, d, from, from);
      } else {
        SecretHasOrigin(jwt, steps, next, from + 1, to);
        var v :| from + 1 <= v < to && LeaksAt(jwt, steps, next, from + 1, v);
        LeaksLater(jwt, steps, d, next, from, v);
      }
    }
  }

  /** The step makes no secret: what it makes of a document without one has none. */
  ghost predicate KeepsClean(jwt: string -> bool, step: StateStore.Step<Value>) {
    forall d :: !SecretIn(jwt, d) && step(d).Some? ==> !SecretIn(jwt, step(d).value)
  }

  lemma CleanMigration(jwt: string -> bool, steps: map<int, StateStore.Step<Value>>, d: Doc<Value>, from: int, to: int)
    requires !SecretIn(jwt, d) && forall v :: from <= v < to && v in steps ==> KeepsClean(jwt, steps[v])
    ensures var m := Migrate(steps, d, from, to); m.Returned? ==> !SecretIn(jwt, m.doc)
  {
    var m := Migrate(steps, d, from, to);
    if m.Returned? && SecretIn(jwt, m.doc) {
      SecretHasOrigin(jwt, steps, d, from, to);
    }
  }

  lemma CleanStays(c: Config<Value>, jwt: string -> bool, m: Doc<Value>)
    requires c.codec.number(c.version).Atom? && !SecretIn(jwt, m)
    ensures !SecretIn(jwt, Stamped(c, m))
  {
    StampedHasSecretIff(c, jwt, m);
    forall k | k in m - {VERSION_KEY} ensures !Suspicious(jwt, Named(k), (m - {VERSION_KEY})[k]) {
      assert k in m && !Suspicious(jwt, Named(k), m[k]);
    }
  }

  /** Secrets are never to reach the file. A load keeps to that, although it does not scan what it writes,
      if the old file holds none and no step from its version up makes one. */
  lemma LoadWritesNoSecret(c: Config<Value>, jwt: string -> bool, file: Option<string>, writable: bool)
    requires Scans(c, jwt) && Load(c, file, writable).1 != file
    requires var d := Usable(c, file);
             d.Some? ==> !SecretIn(jwt, d.value) && forall v :: VersionOf(c.codec, d.value) <= v < c.version && v in c.steps ==> KeepsClean(jwt, c.steps[v])
    ensures var written := Load(c, file, writable).0;
            && written.Returned? && Load(c, file, writable).1 == Some(c.codec.show(written.doc))
            && !SecretIn(jwt, written.doc) && !c.secret(written.doc)
  {
    var d := Usable(c, file).value;
    var from := VersionOf(c.codec, d);
    CleanMigration(jwt, c.steps, d, from, c.version);
    CleanStays(c, jwt, Migrate(c.steps, d, from, c.version).doc);
  }

  lemma TokenIsSecret(jwt: string -> bool, d: Doc<Value>)
    requires "token" in d
    ensures SecretIn(jwt, d)
  {
    assert KEY_PARTS[0] == "token" && "token" in KEY_PARTS;
    assert Lower("token") == "token" && "token"[0..] == "token";
    assert Suspicious(jwt, Named("token"), d["token"]);
  }

  /** A store of version 1 with one migration step. */
  ghost function OneStep(codec: Codec<Value>, jwt: string -> bool, step: StateStore.Step<Value>): Config<Value> {
    Config(codec, 1, map[0 := step], map[], (d: Doc<Value>) => SecretIn(jwt, d))
  }

  /** Both conditions are needed. An old file with a token keeps it although the only step changes nothing,
      and the load writes a document that a save would refuse. */
  lemma OldSecretIsRewritten(codec: Codec<Value>, jwt: string -> bool)
    requires Faithful(codec) && codec.number(1).Atom?
    ensures var c, file := OneStep(codec, jwt, d => Some(d)), Some(codec.show(map["token" := Atom(0)]));
            && Scans(c, jwt) && KeepsClean(jwt, c.steps[0])
            && Load(c, file, true).0.Returned? && Load(c, file, true).1 == Some(codec.show(Load(c, file, true).0.doc)) != file
            && SecretIn(jwt, Load(c, file, true).0.doc) && c.secret(Load(c, file, true).0.doc)
  {
    var c, file := OneStep(codec, jwt, d => Some(d)), Some(codec.show(map["token" := Atom(0)]));
    RewrittenIff(c, file, true);
    TokenIsSecret(jwt, Load(c, file, true).0.doc);
  }

  /** And a step may put a token into a file that had none. */
  lemma StepMayLeak(codec: Codec<Value>, jwt: string -> bool)
    requires Faithful(codec) && codec.number(1).Atom?
    ensures var c, file := OneStep(codec, jwt, d => Some(d["token" := Atom(0)])), Some(codec.show(map[]));
            && Scans(c, jwt) && Usable(c, file) == Some(map[]) && !SecretIn(jwt, map[])
            && Load(c, file, true).0.Returned? && Load(c, file, true).1 == Some(codec.show(Load(c, file, true).0.doc)) != file
            && SecretIn(jwt, Load(c, file, true).0.doc) && c.secret(Load(c, file, true).0.doc)
  {
    var c, file := OneStep(codec, jwt, d => Some(d["token" := Atom(0)])), Some(codec.show(map[]));
    RewrittenIff(c, file, true);
    TokenIsSecret(jwt, Load(c, file, true).0.doc);
  }
}
