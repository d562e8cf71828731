/** The versioned state store above its atomic write: loading with migration, and saving. The JSON
    library, the secret scan and the migration steps are parameters. */
module StateStore {
  import opened Wrappers

  type Doc<+V> = map<string, V>

  datatype Read<V> = NotJson | NotAnObject | Object(doc: Doc<V>)

  /** Writing and reading JSON; `version` gives an integer's value and nothing for any other value. */
  datatype Codec<!V> = Codec(show: Doc<V> -> string, read: string -> Read<V>, number: int -> V, version: V -> Option<int>)

  /** What is taken for granted of the JSON library. */
  ghost predicate Faithful<V(!new)>(c: Codec<V>) {
    && (forall d :: c.read(c.show(d)) == Object(d))
    && (forall n :: c.version(c.number(n)) == Some(n))
  }

  /** A step that raises gives nothing. */
  type Step<!V> = Doc<V> -> Option<Doc<V>>

  datatype Config<!V> = Config(codec: Codec<V>, version: nat, steps: map<int, Step<V>>, defaults: Doc<V>, secret: Doc<V> -> bool)

  const VERSION_KEY := "schemaVersion"

  function Stamped<V>(c: Config<V>, d: Doc<V>): Doc<V> {
    d[VERSION_KEY := c.codec.number(c.version)]
  }

  /** A missing version, and one that is no integer, counts as 0. */
  function VersionOf<V>(c: Codec<V>, d: Doc<V>): int {
    if VERSION_KEY in d && c.version(d[VERSION_KEY]).Some? then c.version(d[VERSION_KEY]).value else 0
  }

  datatype Outcome<V> = Returned(doc: Doc<V>) | MissingStep(at: int) | StepRaised(at: int) | WriteFailed | SecretRejected

  /** The steps from one version to another, in order. */
  function Migrate<V>(steps: map<int, Step<V>>, d: Doc<V>, from: int, to: int): Outcome<V>
    decreases to - from
  {
    if from >= to then Returned(d)
    else if from !in steps then MissingStep(from)
    else if steps[from](d) == None then StepRaised(from)
    else Migrate(steps, steps[from](d).value, from + 1, to)
  }

  /** The document a load finds in the file, if it is one this build can bring up to date. */
  function Usable<V>(c: Config<V>, file: Option<string>): Option<Doc<V>> {
    if file == None || !c.codec.read(file.value).Object? then None else
      var d := c.codec.read(file.value).doc;
      if VersionOf(c.codec, d) > c.version then None else Some(d)
  }

  predicate Outdated<V>(c: Config<V>, d: Doc<V>) {
    VersionOf(c.codec, d) < c.version
  }

  /** What a load returns and the file it leaves; `writable` says whether the rewrite succeeds. */
  function Load<V>(c: Config<V>, file: Option<string>, writable: bool): (Outcome<V>, Option<string>) {
    if Usable(c, file) == None then (Returned(Stamped(c, c.defaults)), file) else
      var d := Usable(c, file).value;
      if !Outdated(c, d) then (Returned(d), file) else
        var m := Migrate(c.steps, d, VersionOf(c.codec, d), c.version);
        if !m.Returned? then (m, file)
        else if !writable then (WriteFailed, file)
        else (Returned(Stamped(c, m.doc)), Some(c.codec.show(Stamped(c, m.doc))))
  }

  class Store<!V> {
    const config: Config<V>
    var file: Option<string>

    constructor (config: Config<V>, file: Option<string>)
      ensures this.config == config && this.file == file
    {
      this.config, this.file := config, file;
    }

    method WriteAtomic(d: Doc<V>, writable: bool) returns (ok: bool)
      modifies this`file
      ensures ok == writable
      ensures file == if writable then Some(config.codec.show(d)) else old(file)
    {
      if writable {
        file := Some(config.codec.show(d));
      }
      return writable;
    }

    /** The migration loop. */
    method RunSteps(d: Doc<V>, from: int) returns (outcome: Outcome<V>)
      ensures outcome == Migrate(config.steps, d, from, config.version)
    {
      var data, version := d, from;
      while version < config.version
        invariant Migrate(config.steps, d, from, config.version) == Migrate(config.steps, data, version, config.version)
        decreases config.version - version
      {
        if version !in config.steps {
          return MissingStep(version);
        }
        var stepped := config.steps[version](data);
        if stepped == None {
          return StepRaised(version);
        }
        data := stepped.value;
        version := version + 1;
      }
      return Returned(data);
    }

    method LoadStore(writable: bool) returns (outcome: Outcome<V>)
      modifies this`file
      ensures (outcome, file) == Load(config, old(file), writable)
    {
      if file == None {
        return Returned(Stamped(config, config.defaults));
      }
      var read := config.codec.read(file.value);
      if !read.Object? {
        return Returned(Stamped(config, config.defaults));
      }
      var stored := 0;
      if VERSION_KEY in read.doc && config.codec.version(read.doc[VERSION_KEY]).Some? {
        stored := config.codec.version(read.doc[VERSION_KEY]).value;
      }
      if stored > config.version {
        return Returned(Stamped(config, config.defaults));
      }
      if stored < config.version {
        outcome := RunSteps(read.doc, stored);
        if !outcome.Returned? {
          return outcome;
        }
        var migrated := outcome.doc[VERSION_KEY := config.codec.number(config.version)];
        var ok := WriteAtomic(migrated, writable);
        return if ok then Returned(migrated) else WriteFailed;
      }
      return Returned(read.doc);
    }

    /** A document with a secret is refused before anything is written. */
    method Save(d: Doc<V>, writable: bool) returns (outcome: Outcome<V>)
      modifies this`file
      ensures outcome == if config.secret(d) then SecretRejected else if writable then Returned(Stamped(config, d)) else WriteFailed
      ensures file == if outcome.Returned? then Some(config.codec.show(outcome.doc)) else old(file)
    {
      if config.secret(d) {
        return SecretRejected;
      }
      var payload := d[VERSION_KEY := config.codec.number(config.version)];
      var ok := WriteAtomic(payload, writable);
      return if ok then Returned(payload) else WriteFailed;
    }
  }

  // ---- what loading and saving amount to ---------------------------------------------------------------

  /** What was saved is what is loaded, stamped with the version, and loading leaves the file alone. */
  lemma SaveThenLoad<V(!new)>(c: Config<V>, d: Doc<V>, writable: bool)
    requires Faithful(c.codec)
    ensures var file := Some(c.codec.show(Stamped(c, d)));
            Load(c, file, writable) == (Returned(Stamped(c, d)), file)
  {
    assert VersionOf(c.codec, Stamped(c, d)) == c.version;
  }

  /** Migrating to one version and on to another is migrating to the other: the steps are applied in
      order, each once. */
  lemma {:induction false} MigrationComposes<V>(steps: map<int, Step<V>>, d: Doc<V>, from: int, via: int, to: int)
    requires from <= via <= to
    ensures Migrate(steps, d, from, to) ==
            var m := Migrate(steps, d, from, via);
            if m.Returned? then Migrate(steps, m.doc, via, to) else m
    decreases via - from
  {
    if from < via && from in steps && steps[from](d).Some? {
      MigrationComposes(steps, steps[from](d).value, from + 1, via, to);
    }
  }

  /** A gap is found wherever it is, after exactly the steps before it. */
  lemma GapStops<V>(steps: map<int, Step<V>>, d: Doc<V>, from: int, gap: int, to: int)
    requires from <= gap < to && gap !in steps
    ensures Migrate(steps, d, from, gap).Returned? ==> Migrate(steps, d, from, to) == MissingStep(gap)
    ensures !Migrate(steps, d, from, to).Returned?
  {
    MigrationComposes(steps, d, from, gap, to);
  }

  /** Document `k + 1` is what the step for version `from + k` makes of document `k`. */
  predicate TakesStep<V(==)>(steps: map<int, Step<V>>, ds: seq<Doc<V>>, from: int, k: nat) {
    k + 1 < |ds| && from + k in steps && steps[from + k](ds[k]) == Some(ds[k + 1])
  }

  /** `ds` are the documents along the way from one version to another. */
  ghost predicate IsChain<V>(steps: map<int, Step<V>>, ds: seq<Doc<V>>, from: int, to: int) {
    && |ds| == to - from + 1 && |ds| > 0
    && forall k: nat :: k < to - from ==> TakesStep(steps, ds, from, k)
  }

  /** Some chain of steps leads from `d` to `e`. */
  ghost predicate Leads<V(!new)>(steps: map<int, Step<V>>, d: Doc<V>, e: Doc<V>, from: int, to: int) {
    exists ds: seq<Doc<V>> :: IsChain(steps, ds, from, to) && ds[0] == d && ds[|ds| - 1] == e
  }

  lemma ChainHead<V>(steps: map<int, Step<V>>, ds: seq<Doc<V>>, from: int, to: int)
    requires IsChain(steps, ds, from, to) && from < to
    ensures TakesStep(steps, ds, from, 0) && IsChain(steps, ds[1..], from + 1, to)
  {
    var rest, next := ds[1..], from + 1;
    forall k: nat | k < to - next ensures TakesStep(steps, rest, next, k) {
      assert TakesStep(steps, ds, from, k + 1);
    }
  }

  lemma ChainGrows<V>(steps: map<int, Step<V>>, d: Doc<V>, ds: seq<Doc<V>>, from: int, to: int)
    requires IsChain(steps, ds, from + 1, to) && from in steps && steps[from](d) == Some(ds[0])
    ensures IsChain(steps, [d] + ds, from, to)
  {
    forall k: nat | k < to - from ensures TakesStep(steps, [d] + ds, from, k) {
      if k > 0 { assert TakesStep(steps, ds, from + 1, k - 1); }
    }
  }

  /** A migration ends with a document exactly if a chain of steps leads there: one for every version in
      between, each accepting what the one before it made. */
  lemma {:induction false} MigratesIff<V(!new)>(steps: map<int, Step<V>>, d: Doc<V>, e: Doc<V>, from: int, to: int)
    requires from <= to
    ensures Migrate(steps, d, from, to) == Returned(e) <==> Leads(steps, d, e, from, to)
    decreases (to - from)
  {
    if from == to {
      assert IsChain(steps, [d], from, to);
    } else {
      if from in steps && steps[from](d).Some? {
        var next := steps[from](d).value;
        MigratesIff(steps, next, e, from + 1, to);
        if Leads(steps, next, e, from + 1, to) {
          var ds :| IsChain(steps, ds, from + 1, to) && ds[0] == next && ds[|ds| - 1] == e;
          ChainGrows(steps, d, ds, from, to);
          assert ([d] + ds)[|[d] + ds| - 1] == e;
        }
      }
      if ds :| IsChain(steps, ds, from, to) && ds[0] == d && ds[|ds| - 1] == e {
        ChainHead(steps, ds, from, to);
        assert Leads(steps, ds[1], e, from + 1, to);
      }
    }
  }

  /** And what stops it is the first version whose step is missing, or refuses the document that the steps
      before it lead to. */
  lemma {:induction false} StopsIff<V(!new)>(steps: map<int, Step<V>>, d: Doc<V>, from: int, at: int, to: int)
    requires from <= at < to
    ensures Migrate(steps, d, from, to) == MissingStep(at) <==> at !in steps && exists e :: Leads(steps, d, e, from, at)
    ensures Migrate(steps, d, from, to) == StepRaised(at) <==> at in steps && exists e :: Leads(steps, d, e, from, at) && steps[at](e) == None
  {
    MigrationComposes(steps, d, from, at, to);
    var m := Migrate(steps, d, from, at);
    StopsWithin(steps, d, from, at);
    if m.Returned? {
      MigratesIff(steps, d, m.doc, from, at);
      if at in steps && steps[at](m.doc).Some? { StopsWithin(steps, steps[at](m.doc).value, at + 1, to); }
    }
    forall e | Leads(steps, d, e, from, at) ensures m == Returned(e) { MigratesIff(steps, d, e, from, at); }
  }

  lemma {:induction false} StopsWithin<V>(steps: map<int, Step<V>>, d: Doc<V>, from: int, to: int)
    ensures var m := Migrate(steps, d, from, to);
            m.Returned? || ((m.MissingStep? || m.StepRaised?) && from <= m.at < to)
    decreases (to - from)
  {
    if from < to && from in steps && steps[from](d).Some? { StopsWithin(steps, steps[from](d).value, from + 1, to); }
  }

  /** Loading succeeds, whatever the file holds, exactly unless an old document meets a rewrite that fails
      or a version on its way up with no step or with one that refuses it. The file then stays as it is. */
  lemma LoadReturnsIff<V(!new)>(c: Config<V>, file: Option<string>, writable: bool)
    ensures Load(c, file, writable).0.Returned? <==>
              (var d := Usable(c, file);
               d == None || !Outdated(c, d.value)
               || (writable && exists e :: Leads(c.steps, d.value, e, VersionOf(c.codec, d.value), c.version)))
    ensures !Load(c, file, writable).0.Returned? ==> Load(c, file, writable).1 == file
  {
    if Usable(c, file).Some? && Outdated(c, Usable(c, file).value) {
      var d := Usable(c, file).value;
      var from := VersionOf(c.codec, d);
      forall e ensures Migrate(c.steps, d, from, c.version) == Returned(e) <==> Leads(c.steps, d, e, from, c.version) {
        MigratesIff(c.steps, d, e, from, c.version);
      }
      if Migrate(c.steps, d, from, c.version).Returned? {
        assert Leads(c.steps, d, Migrate(c.steps, d, from, c.version).doc, from, c.version);
      }
    }
  }

  /** What a load makes of every file. One that is missing, no JSON object or of a newer version gives the
      defaults, stamped, and stays; a current one is returned as it is; an older one, and one without a
      version, is what its chain of steps leads to, stamped and written back. */
  lemma LoadTable<V(!new)>(c: Config<V>, file: Option<string>, writable: bool)
    ensures var anew := (Returned(c.defaults["schemaVersion" := c.codec.number(c.version)]), file);
            if file == None || !c.codec.read(file.value).Object? then Load(c, file, writable) == anew else
              var d := c.codec.read(file.value).doc;
              var v := if "schemaVersion" in d && c.codec.version(d["schemaVersion"]).Some? then c.codec.version(d["schemaVersion"]).value else 0;
              && (v > c.version ==> Load(c, file, writable) == anew)
              && (v == c.version ==> Load(c, file, writable) == (Returned(d), file))
              && (v < c.version ==>
                    && (forall e :: Leads(c.steps, d, e, v, c.version) ==>
                          var stamped := e["schemaVersion" := c.codec.number(c.version)];
                          Load(c, file, writable) == if writable then (Returned(stamped), Some(c.codec.show(stamped))) else (WriteFailed, file))
                    && ((forall e :: !Leads(c.steps, d, e, v, c.version)) ==>
                          Load(c, file, writable).1 == file && (Load(c, file, writable).0.MissingStep? || Load(c, file, writable).0.StepRaised?)))
  {
    LoadReturnsIff(c, file, writable);
    if file.Some? && c.codec.read(file.value).Object? {
      var d := c.codec.read(file.value).doc;
      var v := VersionOf(c.codec, d);
      if v < c.version {
        StopsWithin(c.steps, d, v, c.version);
        forall e ensures Migrate(c.steps, d, v, c.version) == Returned(e) <==> Leads(c.steps, d, e, v, c.version) {
          MigratesIff(c.steps, d, e, v, c.version);
        }
        if Migrate(c.steps, d, v, c.version).Returned? {
          assert Leads(c.steps, d, Migrate(c.steps, d, v, c.version).doc, v, c.version);
        }
      }
    }
  }

  /** The file is rewritten by exactly the loads that bring an old document up to date; a missing, a
      corrupt, a newer and a current file stay as they are. */
  lemma RewrittenIff<V(!new)>(c: Config<V>, file: Option<string>, writable: bool)
    requires Faithful(c.codec)
    ensures Load(c, file, writable).1 != file <==>
              Load(c, file, writable).0.Returned? && Usable(c, file).Some? && Outdated(c, Usable(c, file).value)
  {
    if Usable(c, file).Some? && Outdated(c, Usable(c, file).value) && Load(c, file, writable).0.Returned? {
      SaveThenLoad(c, Migrate(c.steps, Usable(c, file).value, VersionOf(c.codec, Usable(c, file).value), c.version).doc, writable);
    }
  }

  /** Loading once is loading for good: a second load returns the same document and changes nothing. */
  lemma LoadIsIdempotent<V(!new)>(c: Config<V>, file: Option<string>, writable: bool, again: bool)
    requires Faithful(c.codec) && Load(c, file, writable).0.Returned?
    ensures Load(c, Load(c, file, writable).1, again) == Load(c, file, writable)
  {
    RewrittenIff(c, file, writable);
    if Load(c, file, writable).1 != file {
      SaveThenLoad(c, Migrate(c.steps, Usable(c, file).value, VersionOf(c.codec, Usable(c, file).value), c.version).doc, again);
    }
  }

  /** A document saved by one build and loaded by a later one is what the later build's own steps make
      of it, from the version it was saved with. An earlier build leaves it alone and uses defaults. */
  lemma AcrossBuilds<V(!new)>(earlier: Config<V>, later: Config<V>, d: Doc<V>)
    requires Faithful(earlier.codec) && later.codec == earlier.codec
    ensures var file := Some(earlier.codec.show(Stamped(earlier, d)));
            && (earlier.version < later.version ==>
                  var m := Migrate(later.steps, Stamped(earlier, d), earlier.version, later.version);
                  Load(later, file, true).0 == if m.Returned? then Returned(Stamped(later, m.doc)) else m)
            && (earlier.version > later.version ==> Load(later, file, true) == (Returned(Stamped(later, later.defaults)), file))
  {
    assert VersionOf(earlier.codec, Stamped(earlier, d)) == earlier.version;
  }
}
