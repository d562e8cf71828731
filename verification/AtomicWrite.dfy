/** The store's atomic write, step by step: any number of writers over one directory, each of which may
    fail at any point, and a machine that may crash at any point. */
module AtomicWrite {
  import opened Wrappers

  /** A file's content; what was not synced is lost in a crash. */
  datatype File = File(content: string, synced: bool)

  /** `names` are the contents the target's name has stood for since the last crash, the newest last: a
      rename that did not reach the disk is undone by a crash. */
  datatype Disk = Disk(names: seq<Option<File>>, temps: map<nat, File>)

  datatype Pc =
    | Begun
    | Writing(temp: nat, done: nat)
    | Synced(temp: nat)
    | CleaningUp(temp: nat)
    | Failed
    | Succeeded

  datatype Writer = Writer(content: string, pc: Pc)

  /** `nextTemp` is a name never used for a temporary file before. */
  datatype World = World(disk: Disk, writers: seq<Writer>, nextTemp: nat)

  datatype Event =
    | Save(content: string)
    | MakeTemp(writer: nat)
    | Put(writer: nat, upTo: nat)
    | Sync(writer: nat)
    | Replace(writer: nat)
    | Fail(writer: nat)
    | Unlink(writer: nat, works: bool)
    | Crash(kept: nat, torn: string, garbage: map<nat, string>)

  function Start(target: Option<string>): World {
    World(Disk([if target.Some? then Some(File(target.value, true)) else None], map[]), [], 0)
  }

  function Target(d: Disk): Option<File>
    requires d.names != []
  {
    d.names[|d.names| - 1]
  }

  predicate Stuck(pc: Pc) { pc.Failed? || pc.Succeeded? }

  predicate HasTemp(pc: Pc) { pc.Writing? || pc.Synced? || pc.CleaningUp? }

  predicate Enabled(w: World, e: Event) {
    match e
    case Save(_) => true
    case Crash(kept, _, _) => kept < |w.disk.names|
    case MakeTemp(i) => i < |w.writers| && w.writers[i].pc.Begun?
    case Put(i, upTo) => i < |w.writers| && w.writers[i].pc.Writing? && w.writers[i].pc.done <= upTo <= |w.writers[i].content|
    case Sync(i) => i < |w.writers| && w.writers[i].pc.Writing? && w.writers[i].pc.done == |w.writers[i].content|
    case Replace(i) => i < |w.writers| && w.writers[i].pc.Synced?
    case Fail(i) => i < |w.writers| && !Stuck(w.writers[i].pc) && !w.writers[i].pc.CleaningUp?
    case Unlink(i, _) => i < |w.writers| && w.writers[i].pc.CleaningUp?
  }

  function SetPc(w: World, i: nat, pc: Pc): World
    requires i < |w.writers|
  {
    w.(writers := w.writers[i := w.writers[i].(pc := pc)])
  }

  function SetTemp(w: World, t: nat, f: File): World {
    w.(disk := w.disk.(temps := w.disk.temps[t := f]))
  }

  /** After a crash nobody is writing, and a file that was not synced may hold anything. */
  function AfterCrash(w: World, kept: nat, torn: string, garbage: map<nat, string>): World
    requires kept < |w.disk.names|
  {
    var temps := map t | t in w.disk.temps ::
      if w.disk.temps[t].synced then w.disk.temps[t] else File(if t in garbage then garbage[t] else "", true);
    var target := w.disk.names[kept];
    var reread := if target.Some? && !target.value.synced then Some(File(torn, true)) else target;
    World(Disk([reread], temps),
          seq(|w.writers|, i requires 0 <= i < |w.writers| => if Stuck(w.writers[i].pc) then w.writers[i] else w.writers[i].(pc := Failed)),
          w.nextTemp)
  }

  function Next(w: World, e: Event): World
    requires Inv(w) && Enabled(w, e)
  {
    match e
    case Save(content) => w.(writers := w.writers + [Writer(content, Begun)])
    case MakeTemp(i) => SetTemp(SetPc(w, i, Writing(w.nextTemp, 0)), w.nextTemp, File("", false)).(nextTemp := w.nextTemp + 1)
    case Put(i, upTo) =>
      SetTemp(SetPc(w, i, Writing(w.writers[i].pc.temp, upTo)), w.writers[i].pc.temp, File(w.writers[i].content[..upTo], false))
    case Sync(i) => SetTemp(SetPc(w, i, Synced(w.writers[i].pc.temp)), w.writers[i].pc.temp, File(w.writers[i].content, true))
    case Replace(i) =>
      assert WriterOk(w, i);
      var t := w.writers[i].pc.temp;
      SetPc(w, i, Succeeded).(disk := Disk(w.disk.names + [Some(w.disk.temps[t])], w.disk.temps - {t}))
    case Fail(i) => SetPc(w, i, if w.writers[i].pc.Begun? then Failed else CleaningUp(w.writers[i].pc.temp))
    case Unlink(i, works) =>
      var v := SetPc(w, i, Failed);
      if works then v.(disk := v.disk.(temps := v.disk.temps - {w.writers[i].pc.temp})) else v
    case Crash(kept, torn, garbage) => AfterCrash(w, kept, torn, garbage)
  }

  // ---- the invariant --------------------------------------------------------------------------------------

  ghost predicate WriterOk(w: World, i: nat)
    requires i < |w.writers|
  {
    var pc := w.writers[i].pc;
    HasTemp(pc) ==>
      && pc.temp < w.nextTemp && pc.temp in w.disk.temps
      && (pc.Writing? ==> pc.done <= |w.writers[i].content| && w.disk.temps[pc.temp] == File(w.writers[i].content[..pc.done], false))
      && (pc.Synced? ==> w.disk.temps[pc.temp] == File(w.writers[i].content, true))
  }

  ghost predicate OwnTemps(w: World) {
    forall i, j :: 0 <= i < j < |w.writers| && HasTemp(w.writers[i].pc) && HasTemp(w.writers[j].pc) ==>
      w.writers[i].pc.temp != w.writers[j].pc.temp
  }

  predicate Succeeds(w: World, i: nat) { i < |w.writers| && w.writers[i].pc.Succeeded? }

  /** Whatever the name ever stood for is synced and whole: the document there was at first, or the
      whole document of a save that succeeded. */
  ghost predicate NamesOk(w: World, first: Option<string>) {
    && w.disk.names != []
    && forall k :: 0 <= k < |w.disk.names| ==> IsWhole(w, first, w.disk.names[k])
  }

  ghost predicate IsWhole(w: World, first: Option<string>, f: Option<File>) {
    if f == None then first == None
    else f.value.synced && (first == Some(f.value.content) || exists i: nat :: Succeeds(w, i) && w.writers[i].content == f.value.content)
  }

  ghost predicate Inv(w: World) {
    && OwnTemps(w)
    && (forall i :: 0 <= i < |w.writers| ==> WriterOk(w, i))
    && (forall t :: t in w.disk.temps ==> t < w.nextTemp)
  }

  lemma StepKeeps(w: World, e: Event)
    requires Inv(w) && Enabled(w, e)
    ensures Inv(Next(w, e))
  {
    var v := Next(w, e);
    forall i | 0 <= i < |v.writers| ensures WriterOk(v, i) {
      if i < |w.writers| { assert WriterOk(w, i); }
      WriterStep(w, e, i);
    }
    TempsStep(w, e);
  }

  lemma WriterStep(w: World, e: Event, i: nat)
    requires Inv(w) && Enabled(w, e) && i < |Next(w, e).writers| && (i < |w.writers| ==> WriterOk(w, i))
    ensures WriterOk(Next(w, e), i)
  {
    if !e.Save? && !e.Crash? {
      assert WriterOk(w, e.writer);
      assert i != e.writer && HasTemp(w.writers[i].pc) && HasTemp(w.writers[e.writer].pc) ==> w.writers[i].pc.temp != w.writers[e.writer].pc.temp;
    }
  }

  lemma TempsStep(w: World, e: Event)
    requires Inv(w) && Enabled(w, e)
    ensures OwnTemps(Next(w, e)) && forall t :: t in Next(w, e).disk.temps ==> t < Next(w, e).nextTemp
  {
    assert !e.Save? && !e.Crash? ==> WriterOk(w, e.writer);
    if e.MakeTemp? {
      forall i | 0 <= i < |w.writers| ensures HasTemp(w.writers[i].pc) ==> w.writers[i].pc.temp != w.nextTemp { assert WriterOk(w, i); }
    }
  }

  lemma WholeStays(w: World, v: World, first: Option<string>, f: Option<File>)
    requires IsWhole(w, first, f)
    requires |w.writers| <= |v.writers| && forall i: nat :: Succeeds(w, i) ==> Succeeds(v, i) && v.writers[i].content == w.writers[i].content
    ensures IsWhole(v, first, f)
  {
    if f.Some? && first != Some(f.value.content) {
      var i: nat :| Succeeds(w, i) && w.writers[i].content == f.value.content;
      assert Succeeds(v, i) && v.writers[i].content == f.value.content;
    }
  }

  lemma NamesStay(w: World, e: Event, first: Option<string>)
    requires Inv(w) && Enabled(w, e) && NamesOk(w, first)
    ensures NamesOk(Next(w, e), first)
  {
    var v := Next(w, e);
    forall k | 0 <= k < |v.disk.names| ensures IsWhole(v, first, v.disk.names[k]) {
      if e.Replace? && k == |w.disk.names| {
        assert WriterOk(w, e.writer);
        assert Succeeds(v, e.writer);
      } else {
        var was := if e.Crash? then e.kept else k;
        assert IsWhole(w, first, w.disk.names[was]);
        WholeStays(w, v, first, w.disk.names[was]);
      }
    }
  }

  // ---- every run ---------------------------------------------------------------------------------------------

  ghost predicate Steps(w: World, e: Event, v: World) {
    Inv(w) && Enabled(w, e) && v == Next(w, e)
  }

  ghost predicate IsRun(ws: seq<World>, es: seq<Event>, first: Option<string>) {
    && |ws| == |es| + 1
    && ws[0] == Start(first)
    && forall i {:trigger Steps(ws[i], es[i], ws[i + 1])} :: 0 <= i < |es| ==> Steps(ws[i], es[i], ws[i + 1])
  }

  lemma {:induction false} RunInvariant(ws: seq<World>, es: seq<Event>, first: Option<string>, i: nat)
    requires IsRun(ws, es, first) && i < |ws|
    ensures Inv(ws[i]) && NamesOk(ws[i], first)
  {
    if i > 0 {
      RunInvariant(ws, es, first, i - 1);
      var p := i - 1;
      assert Steps(ws[p], es[p], ws[p + 1]);
      StepKeeps(ws[i - 1], es[i - 1]);
      NamesStay(ws[i - 1], es[i - 1], first);
    } else {
      var w := Start(first);
      assert w.disk.names[0] == if first.Some? then Some(File(first.value, true)) else None;
    }
  }

  /** At every moment, crashes included, the target holds a whole document: the one it held at first or
      one whose save succeeded. It is never missing if it was there, never torn, and never the document
      of a save that failed. */
  lemma TargetIsWhole(ws: seq<World>, es: seq<Event>, first: Option<string>, i: nat)
    requires IsRun(ws, es, first) && i < |ws|
    ensures ws[i].disk.names != []
    ensures var t := Target(ws[i].disk);
            if t == None then first == None else
              t.value.synced
              && (first == Some(t.value.content) || exists k: nat :: Succeeds(ws[i], k) && ws[i].writers[k].content == t.value.content)
  {
    RunInvariant(ws, es, first, i);
    assert IsWhole(ws[i], first, Target(ws[i].disk));
  }

  /** While one document is being saved, at whichever step the save fails or the machine crashes, and
      however often it is tried again, the target holds the old document or the new one, and is missing
      only if it was missing at first. */
  lemma OldOrNew(ws: seq<World>, es: seq<Event>, first: Option<string>, i: nat, content: string)
    requires IsRun(ws, es, first) && i < |ws|
    requires forall j :: 0 <= j < i && es[j].Save? ==> es[j].content == content
    ensures ws[i].disk.names != []
    ensures var t := Target(ws[i].disk);
            (t == None && first == None) || (t.Some? && (first == Some(t.value.content) || t.value.content == content))
  {
    TargetIsWhole(ws, es, first, i);
    AllWrite(ws, es, first, i, content);
  }

  lemma {:induction false} AllWrite(ws: seq<World>, es: seq<Event>, first: Option<string>, i: nat, content: string)
    requires IsRun(ws, es, first) && i < |ws|
    requires forall j :: 0 <= j < i && es[j].Save? ==> es[j].content == content
    ensures forall k :: 0 <= k < |ws[i].writers| ==> ws[i].writers[k].content == content
  {
    if i > 0 {
      AllWrite(ws, es, first, i - 1, content);
      var p := i - 1;
      assert Steps(ws[p], es[p], ws[p + 1]);
    }
  }

  /** Only the final rename changes the target while the machine runs, and then to the whole document of
      that save: neither writing nor failing nor cleaning up does. */
  lemma OnlyReplaceChanges(ws: seq<World>, es: seq<Event>, first: Option<string>, i: nat)
    requires IsRun(ws, es, first) && i < |es| && !es[i].Crash?
    ensures ws[i].disk.names != [] && ws[i + 1].disk.names != []
    ensures es[i].Replace? ==> es[i].writer < |ws[i].writers| && Target(ws[i + 1].disk) == Some(File(ws[i].writers[es[i].writer].content, true))
    ensures !es[i].Replace? ==> Target(ws[i + 1].disk) == Target(ws[i].disk)
  {
    RunInvariant(ws, es, first, i);
    RunInvariant(ws, es, first, i + 1);
    assert Steps(ws[i], es[i], ws[i + 1]);
    if es[i].Replace? { assert WriterOk(ws[i], es[i].writer); }
  }

  /** A temporary file belongs to a writer at work, unless its writer crashed or could not remove it:
      without either, nothing is left behind. */
  lemma {:induction false} NothingLeftBehind(ws: seq<World>, es: seq<Event>, first: Option<string>, i: nat, t: nat)
    requires IsRun(ws, es, first) && i < |ws| && t in ws[i].disk.temps
    requires forall j :: 0 <= j < i ==> !es[j].Crash? && (es[j].Unlink? ==> es[j].works)
    ensures exists k :: 0 <= k < |ws[i].writers| && HasTemp(ws[i].writers[k].pc) && ws[i].writers[k].pc.temp == t
    decreases i
  {
    if i > 0 {
      var w, e, v := ws[i - 1], es[i - 1], ws[i];
      var p := i - 1;
      assert Steps(ws[p], es[p], ws[p + 1]);
      assert !e.Save? ==> WriterOk(w, e.writer);
      if t in w.disk.temps {
        NothingLeftBehind(ws, es, first, i - 1, t);
        var k :| 0 <= k < |w.writers| && HasTemp(w.writers[k].pc) && w.writers[k].pc.temp == t;
        assert v.writers[k].content == w.writers[k].content;
        assert HasTemp(v.writers[k].pc) && v.writers[k].pc.temp == t;
      } else {
        assert e.MakeTemp? && HasTemp(v.writers[e.writer].pc) && v.writers[e.writer].pc.temp == t;
      }
    }
  }
}
