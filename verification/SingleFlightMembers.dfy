/** Which account is active, over every run: who takes over when the active account is signed out, and what
    a sign-in changes. */
module SingleFlightMembers {
  import opened Wrappers
  import opened Scopes
  import opened Accounts
  import opened SingleFlight
  import opened SingleFlightInvariant
  import opened SingleFlightRuns
  import opened SingleFlightExclusion
  import AuthState
  import Reauthentication

  /** The event is a granted sign-in as `a`. */
  ghost predicate SignsIn(w: World, e: Event, a: string) {
    e.Answer? && e.reply.Success? && Busy(w, e.task) && w.tasks[e.task].request.AddAccount? && w.tasks[e.task].request.account == a
  }

  /** The accounts and the active one stay as they are. */
  ghost predicate SameMembers(b: Tables, c: Tables) {
    c.order == b.order && c.objects.Keys == b.objects.Keys && c.active == b.active && c.groups == b.groups
  }

  /** How one step changes the accounts, their order and the active one. */
  ghost predicate MembersMove(w: World, e: Event, v: World) {
    && (forall a :: SignsIn(w, e, a) ==>
          && v.book.objects.Keys == w.book.objects.Keys + {a}
          && v.book.order == (if a in w.book.objects then w.book.order else w.book.order + [a])
          && v.book.groups == w.book.groups
          && v.book.active == if w.book.objects.Keys <= {a} then Some(a) else w.book.active)
    && (forall a :: Drops(w, e, a) ==>
          && v.book.objects.Keys == w.book.objects.Keys - {a} && v.book.order == Without(w.book.order, a)
          && v.book.groups == w.book.groups - {a}
          && v.book.active == if w.book.active != Some(a) then w.book.active else if v.book.order == [] then None else Some(v.book.order[0]))
    && (e.SwitchTo? ==> v.book == w.book.(active := Some(e.account)))
    && (e.StartWork? ==> v.book == w.book.(groups := w.book.groups + {e.account}))
    && (!e.SwitchTo? && !e.StartWork? && (forall a :: !SignsIn(w, e, a) && !Drops(w, e, a)) ==> SameMembers(w.book, v.book))
  }

  lemma AdoptedMembers(b: Tables, a: string, o: nat)
    ensures var c := Adopt(b, a, o);
            && c.objects.Keys == b.objects.Keys + {a} && c.order == (if a in b.objects then b.order else b.order + [a])
            && c.active == if b.objects.Keys <= {a} then Some(a) else b.active
  {
    AloneIff(b.objects, a, o);
    assert b.objects[a := o].Keys == b.objects.Keys + {a};
  }

  lemma PlainMembers(w: World, e: Event, v: World)
    requires SameMembers(w.book, v.book) && !e.SwitchTo? && !e.StartWork? && forall a :: !SignsIn(w, e, a) && !Drops(w, e, a)
    ensures MembersMove(w, e, v)
  {
  }

  lemma DropMembers(w: World, e: Event, v: World, a: string)
    requires v.book == Drop(w.book, a) && Drops(w, e, a) && !e.SwitchTo? && forall b :: !SignsIn(w, e, b) && (Drops(w, e, b) ==> b == a)
    ensures MembersMove(w, e, v)
  {
  }

  lemma AdoptMembers(w: World, e: Event, v: World, a: string, o: nat)
    requires v.book == Adopt(w.book, a, o) && SignsIn(w, e, a) && forall b :: !Drops(w, e, b) && (SignsIn(w, e, b) ==> b == a)
    ensures MembersMove(w, e, v)
  {
    AdoptedMembers(w.book, a, o);
  }

  lemma FoundMembers(w: World, t: nat, present: bool)
    requires Inv(w) && Enabled(w, Found(t, present))
    ensures MembersMove(w, Found(t, present), AfterFind(w, t, present))
  {
    assert TaskOk(w, t);
    var e, v := Found(t, present), AfterFind(w, t, present);
    if !present && w.tasks[t].pc.job.Lead? {
      GiveUpMoves(w, t);
      PlainMembers(w, e, v);
    } else if !present && w.tasks[t].pc.job.Removal? {
      DropMembers(w, e, v, w.tasks[t].request.account);
    } else {
      PlainMembers(w, e, v);
    }
  }

  lemma OtherAnswerMembers(w: World, w0: World, t: nat, reply: Reply)
    requires Core(w) && Core(w0) && Busy(w, t) && w.tasks[t].pc.Writing? && !w.tasks[t].pc.job.Lead? && w0 == Written(w, t)
    ensures MembersMove(w, Answer(t, reply), AfterOtherWrite(w0, t, reply))
  {
    assert TaskOk(w, t);
    var e, v, r := Answer(t, reply), AfterOtherWrite(w0, t, reply), w.tasks[t].request;
    if reply.Success? && r.SignOut? {
      DropMembers(w, e, v, r.account);
    } else if reply.Success? && r.AddAccount? {
      AdoptMembers(w, e, v, r.account, |w.accounts|);
    } else {
      PlainMembers(w, e, v);
    }
  }

  lemma AnswerMembers(w: World, t: nat, reply: Reply)
    requires Inv(w) && Enabled(w, Answer(t, reply))
    ensures MembersMove(w, Answer(t, reply), Next(w, Answer(t, reply)))
  {
    assert TaskOk(w, t);
    WrittenIsCore(w, t);
    if w.tasks[t].pc.job.Lead? {
      LeadAnswerMoves(Written(w, t), t, reply);
      PlainMembers(w, Answer(t, reply), Next(w, Answer(t, reply)));
    } else {
      OtherAnswerMembers(w, Written(w, t), t, reply);
    }
  }

  lemma StepMembers(w: World, e: Event)
    requires Inv(w) && Enabled(w, e)
    ensures MembersMove(w, e, Next(w, e))
  {
    match e
    case Found(t, present) => FoundMembers(w, t, present);
    case Answer(t, reply) => AnswerMembers(w, t, reply);
    case SwitchTo(_) =>
    case StartWork(_) =>
    case TakeSerializer(_) =>
    case ThreadEnds(_) =>
    case _ => QuietMembers(w, e);
  }

  lemma LockBook(w: World, e: Event)
    requires Inv(w) && Enabled(w, e) && (e.Arrive? || e.TakeLock?)
    ensures SameMembers(w.book, Next(w, e).book)
  {
    if e.Arrive? {
      BeginMoves(w, e.request);
    } else {
      assert TaskOk(w, e.task);
      UnderLockMoves(w, e.task, w.tasks[e.task].pc.awaited);
    }
  }

  lemma EndBook(w: World, e: Event)
    requires Inv(w) && Enabled(w, e) && (e.FindFails? || e.Cancel?)
    ensures SameMembers(w.book, Next(w, e).book)
  {
    if e.Cancel? {
      CancelMoves(w, e.task);
    } else {
      assert TaskOk(w, e.task);
      FailMoves(w, e.task, Raised(AuthState.Unclassified));
    }
  }

  lemma QuietMembers(w: World, e: Event)
    requires Inv(w) && Enabled(w, e) && (e.Arrive? || e.TakeLock? || e.FindFails? || e.Cancel? || e.Resume?)
    ensures MembersMove(w, e, Next(w, e))
  {
    if e.Arrive? || e.TakeLock? {
      LockBook(w, e);
    } else if !e.Resume? {
      EndBook(w, e);
    } else {
      assert TaskOk(w, e.task);
    }
    PlainMembers(w, e, Next(w, e));
  }

  // ---- over a run --------------------------------------------------------------------------------------------

  /** Since some moment at which `y` was no account, `x` has been one all along. */
  ghost predicate Elder(ws: seq<World>, i: nat, x: string, y: string)
    requires i < |ws|
  {
    exists j: nat :: ElderSince(ws, j, i, x, y)
  }

  ghost predicate ElderSince(ws: seq<World>, j: nat, i: nat, x: string, y: string)
    requires i < |ws|
  {
    j < i && y !in ws[j].book.objects && forall m :: j <= m <= i ==> x in ws[m].book.objects
  }

  lemma ElderStays(ws: seq<World>, i: nat, x: string, y: string)
    requires i + 1 < |ws| && Elder(ws, i, x, y) && x in ws[i + 1].book.objects
    ensures Elder(ws, i + 1, x, y)
  {
    var j: nat :| ElderSince(ws, j, i, x, y);
    assert ElderSince(ws, j, i + 1, x, y);
  }

  /** Removing keeps the order of what remains. */
  lemma {:induction false} WithoutKeepsOrder(s: seq<string>, a: string, p: nat, q: nat) returns (p': nat, q': nat)
    requires p < q < |Without(s, a)|
    ensures p' < q' < |s| && s[p'] == Without(s, a)[p] && s[q'] == Without(s, a)[q]
    decreases |s|
  {
    var rest := Without(s[1..], a);
    if s[0] == a {
      p', q' := WithoutKeepsOrder(s[1..], a, p, q);
      p', q' := p' + 1, q' + 1;
    } else if p > 0 {
      p', q' := WithoutKeepsOrder(s[1..], a, p - 1, q - 1);
      p', q' := p' + 1, q' + 1;
    } else {
      WithoutProperties(s[1..], a);
      assert rest[q - 1] in rest;
      var k :| 0 <= k < |s[1..]| && s[1..][k] == rest[q - 1];
      p', q' := 0, k + 1;
    }
  }

  /** What a step does to two accounts of the order. */
  lemma OrderStep(w: World, e: Event, v: World, p: nat, q: nat) returns (p': nat, q': nat)
    requires Enabled(w, e) && MembersMove(w, e, v) && p < q < |v.book.order|
    ensures p' < |w.book.order| && w.book.order[p'] == v.book.order[p]
    ensures v.book.order[q] !in w.book.objects || (p' < q' < |w.book.order| && w.book.order[q'] == v.book.order[q])
  {
    p', q' := p, q;
    if a :| Drops(w, e, a) { p', q' := WithoutKeepsOrder(w.book.order, a, p, q); }
  }

  ghost predicate Listed(b: Tables) {
    forall a :: a in b.order <==> a in b.objects
  }

  lemma RunMembers(ws: seq<World>, es: seq<Event>, i: nat)
    requires IsRun(ws, es) && i < |es|
    ensures Enabled(ws[i], es[i]) && MembersMove(ws[i], es[i], ws[i + 1]) && Listed(ws[i].book) && Listed(ws[i + 1].book)
  {
    RunStep(ws, es, i);
    assert Steps(ws[i], es[i], ws[i + 1]);
    StepMembers(ws[i], es[i]);
  }

  lemma RunOrder(ws: seq<World>, es: seq<Event>, h: nat, p: nat, q: nat) returns (p': nat, q': nat)
    requires IsRun(ws, es) && h < |es| && p < q < |ws[h + 1].book.order|
    ensures var b, c := ws[h].book, ws[h + 1].book;
            && c.order[p] in c.objects && c.order[q] in c.objects && c.order[p] in b.objects
            && p' < |b.order| && b.order[p'] == c.order[p]
            && (c.order[q] in b.objects ==> p' < q' < |b.order| && b.order[q'] == c.order[q])
  {
    RunMembers(ws, es, h);
    var c := ws[h + 1].book;
    assert c.order[p] in c.order && c.order[q] in c.order;
    p', q' := OrderStep(ws[h], es[h], ws[h + 1], p, q);
    assert ws[h].book.order[p'] in ws[h].book.order;
  }

  /** The order of the accounts is that of their sign-ins: each has been one since before the next became one. */
  lemma {:induction false} OrderIsByAge(ws: seq<World>, es: seq<Event>, i: nat, p: nat, q: nat)
    requires IsRun(ws, es) && i < |ws| && p < q < |ws[i].book.order|
    ensures Elder(ws, i, ws[i].book.order[p], ws[i].book.order[q])
    decreases i
  {
    var h := i - 1;
    var x, y := ws[i].book.order[p], ws[i].book.order[q];
    var p', q' := RunOrder(ws, es, h, p, q);
    if y !in ws[h].book.objects {
      assert ElderSince(ws, h, i, x, y);
    } else {
      OrderIsByAge(ws, es, h, p', q');
      ElderStays(ws, h, x, y);
    }
  }

  /** `x` is an account and every other one is younger. */
  ghost predicate Eldest(ws: seq<World>, i: nat, x: string)
    requires i < |ws|
  {
    x in ws[i].book.objects && forall y :: y in ws[i].book.objects && y != x ==> Elder(ws, i, x, y)
  }

  lemma RunListed(ws: seq<World>, es: seq<Event>, i: nat)
    requires IsRun(ws, es) && i < |ws|
    ensures Listed(ws[i].book)
  {
    RunInvariant(ws, es, i);
  }

  lemma FirstIsEldest(ws: seq<World>, es: seq<Event>, i: nat)
    requires IsRun(ws, es) && i < |ws| && ws[i].book.order != []
    ensures Eldest(ws, i, ws[i].book.order[0])
  {
    RunListed(ws, es, i);
    var order := ws[i].book.order;
    assert order[0] in order;
    forall y | y in ws[i].book.objects && y != order[0] ensures Elder(ws, i, order[0], y) {
      assert y in order;
      var q :| 0 <= q < |order| && order[q] == y;
      OrderIsByAge(ws, es, i, 0, q);
    }
  }

  /** The active account after every step of every run. A sign-in leaves it alone unless no other account is
      there; a sign-out of another account does too, and that of the active one hands over to the account
      that has been there longest, if there is one; a switch sets it; nothing else changes it. An account has
      a task group from when work is started for it until it is signed out. */
  lemma ActiveAccountAfter(ws: seq<World>, es: seq<Event>, i: nat)
    requires IsRun(ws, es) && i < |es|
    ensures var b, c := ws[i].book, ws[i + 1].book;
            && (forall a :: SignsIn(ws[i], es[i], a) ==>
                  c.active == if forall x :: x in b.objects ==> x == a then Some(a) else b.active)
            && (forall a :: Drops(ws[i], es[i], a) ==>
                  if b.active != Some(a) then c.active == b.active
                  else (c.active == None <==> c.objects == map[]) && (c.active.Some? ==> Eldest(ws, i + 1, c.active.value)))
            && (forall a :: es[i] == SwitchTo(a) ==> c.active == Some(a))
            && (!es[i].SwitchTo? && (forall a :: !SignsIn(ws[i], es[i], a) && !Drops(ws[i], es[i], a)) ==> c.active == b.active)
    ensures forall a :: a in ws[i + 1].book.groups <==>
              (a in ws[i].book.groups && !Drops(ws[i], es[i], a)) || es[i] == StartWork(a)
  {
    RunMembers(ws, es, i);
    var b, c := ws[i].book, ws[i + 1].book;
    forall a | SignsIn(ws[i], es[i], a)
      ensures c.active == if forall x :: x in b.objects ==> x == a then Some(a) else b.active
    {
      assert (forall x :: x in b.objects ==> x == a) <==> b.objects.Keys <= {a};
    }
    if c.order != [] {
      FirstIsEldest(ws, es, i + 1);
      assert c.order[0] in c.objects;
    } else {
      assert c.objects == map[];
    }
  }
}
