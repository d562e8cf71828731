/** Enumerating Cloud PCs: the paging loop, the last result kept for each account, and the one
    periodic poll loop. */
module CloudPcProvider {
  import opened Wrappers
  import GraphClient
  import TR = TaskRegistry

  // ---- paging --------------------------------------------------------------------------------------

  /** An item without an id, or that is no JSON object, is malformed. */
  datatype Item<E> = WellFormed(entry: E) | Malformed

  datatype Value<E> = Missing | Items(items: seq<Item<E>>) | NotAList

  /** A next link is whatever JSON value the server put there. */
  datatype Url = Text(text: string) | NonText

  datatype Page<E> = Page(value: Value<E>, next: Option<Url>) | NotAnObject

  /** What one call of the Graph client brought. */
  type Reply<E> = GraphClient.Outcome<Page<E>>

  const FIRST_URL := Text("https://graph.microsoft.com/v1.0/me/cloudPCs")

  /** How a refresh ends; `Pending` while a page is outstanding. `Uncaught` is what propagates. */
  datatype Fetched<E> =
    | Pending
    | Listed(entries: seq<E>)
    | Unlicensed
    | Unconsented
    | Broken(error: Reply<E>)
    | Uncaught(error: Reply<E>)

  /** The page a reply holds; an answer without content reads as an empty object. */
  function PageOf<E>(r: Reply<E>): Option<Page<E>> {
    match r
    case Body(page) => Some(page)
    case NoContent => Some(Page(Missing, None))
    case _ => None
  }

  predicate Readable<E>(r: Reply<E>) {
    PageOf(r).Some? && PageOf(r).value.Page? && !PageOf(r).value.value.NotAList?
    && forall i :: 0 <= i < |RawItems(r)| ==> RawItems(r)[i].WellFormed?
  }

  function RawItems<E>(r: Reply<E>): seq<Item<E>> {
    if PageOf(r).Some? && PageOf(r).value.Page? && PageOf(r).value.value.Items? then PageOf(r).value.value.items else []
  }

  function EntriesOf<E>(r: Reply<E>): (s: seq<E>)
    requires Readable(r)
    ensures |s| == |RawItems(r)| && forall i :: 0 <= i < |s| ==> RawItems(r)[i] == WellFormed(s[i])
  {
    var items := RawItems(r);
    seq(|items|, i requires 0 <= i < |items| => assert items[i].WellFormed?; items[i].entry)
  }

  predicate GoesOn<E>(r: Reply<E>) {
    Readable(r) && PageOf(r).value.next.Some?
  }

  predicate Finishes<E>(r: Reply<E>) {
    Readable(r) && PageOf(r).value.next == None
  }

  function Ending<E>(r: Reply<E>): Fetched<E>
    requires !Readable(r)
  {
    match r
    case NotFound => Unlicensed
    case ConsentRequired => Unconsented
    case Body(NotAnObject) => Uncaught(r)
    case AuthFailed(_) => Uncaught(r)
    case Escaped(shape) => if shape then Broken(r) else Uncaught(r)
    case _ => Broken(r)
  }

  /** The round in which a refresh stops, counted from `k`: the first whose reply does not lead on. */
  function LastRound<E>(replies: seq<Reply<E>>, k: nat): (n: nat)
    requires k <= |replies|
    ensures k <= n <= |replies| && (n < |replies| ==> !GoesOn(replies[n]))
    ensures forall i :: k <= i < n ==> GoesOn(replies[i])
    decreases |replies| - k
  {
    if k < |replies| && GoesOn(replies[k]) then LastRound(replies, k + 1) else k
  }

  /** The entries of the first `n` pages, in order. */
  function AllEntries<E>(replies: seq<Reply<E>>, n: nat): seq<E>
    requires n <= |replies| && forall i :: 0 <= i < n ==> Readable(replies[i])
  {
    if n == 0 then [] else AllEntries(replies, n - 1) + EntriesOf(replies[n - 1])
  }

  /** What a refresh makes of the replies it got. */
  function Fetch<E>(replies: seq<Reply<E>>): Fetched<E> {
    var n := LastRound(replies, 0);
    if n == |replies| then Pending
    else if Readable(replies[n]) then Listed(AllEntries(replies, n + 1))
    else Ending(replies[n])
  }

  /** Page `k` leads on to `url`. */
  predicate LeadsTo<E>(replies: seq<Reply<E>>, k: int, url: Url) {
    0 <= k < |replies| && GoesOn(replies[k]) && PageOf(replies[k]).value.next == Some(url)
  }

  /** The addresses asked: the first one, then each page's own link. */
  predicate FollowsLinks<E>(asked: seq<Url>, replies: seq<Reply<E>>) {
    && 1 <= |asked| <= |replies| + 1 && asked[0] == FIRST_URL
    && forall k :: 0 < k < |asked| ==> LeadsTo(replies, k - 1, asked[k])
  }

  /** One page's `entries.extend`: nothing of a page with a malformed item is used. */
  method ReadItems<E>(items: seq<Item<E>>) returns (entries: seq<E>, ok: bool)
    ensures ok <==> forall i :: 0 <= i < |items| ==> items[i].WellFormed?
    ensures ok ==> |entries| == |items| && forall i :: 0 <= i < |items| ==> items[i] == WellFormed(entries[i])
  {
    entries, ok := [], true;
    for k := 0 to |items|
      invariant |entries| == k && forall i :: 0 <= i < k ==> items[i] == WellFormed(entries[i])
    {
      if items[k].Malformed? {
        return entries, false;
      }
      entries := entries + [items[k].entry];
    }
  }

  /** One round of the loop: a page's entries and next link, or the way the refresh ends. */
  method ReadPage<E>(reply: Reply<E>) returns (found: seq<E>, next: Option<Url>, ending: Option<Fetched<E>>)
    ensures ending == if Readable(reply) then None else Some(Ending(reply))
    ensures Readable(reply) ==> found == EntriesOf(reply) && next == PageOf(reply).value.next
  {
    found, next, ending := [], None, None;
    if PageOf(reply) == None {
      return found, next, Some(Ending(reply));
    }
    var page := PageOf(reply).value;
    if page.NotAnObject? {
      return found, next, Some(Uncaught(reply));
    }
    if page.value.NotAList? {
      return found, next, Some(Broken(reply));
    }
    var ok;
    found, ok := ReadItems(RawItems(reply));
    if !ok {
      return found, next, Some(Broken(reply));
    }
    next := page.next;
  }

  lemma LinkFollowed<E>(asked: seq<Url>, replies: seq<Reply<E>>, next: Url)
    requires FollowsLinks(asked, replies) && LeadsTo(replies, |asked| - 1, next)
    ensures FollowsLinks(asked + [next], replies)
  {
  }

  /** The loop itself, over the replies that come. It asks along the whole chain of links, stops in the
      first round that does not lead on, and returns what `Fetch` says. */
  method FetchAll<E>(replies: seq<Reply<E>>) returns (fetched: Fetched<E>, asked: seq<Url>)
    ensures fetched == Fetch(replies)
    ensures FollowsLinks(asked, replies) && |asked| == LastRound(replies, 0) + 1
  {
    var entries: seq<E> := [];
    var url: Option<Url> := Some(FIRST_URL);
    var k := 0;
    asked := [];
    while url.Some?
      invariant 0 <= k <= |replies| && |asked| == k
      invariant forall i :: 0 <= i < k ==> Readable(replies[i])
      invariant entries == AllEntries(replies, k)
      invariant url.Some? ==> FollowsLinks(asked + [url.value], replies) && LastRound(replies, 0) == LastRound(replies, k)
      invariant url == None ==> k > 0 && LastRound(replies, 0) == k - 1 && FollowsLinks(asked, replies)
      decreases url.Some?, |replies| - k
    {
      asked := asked + [url.value];
      if k == |replies| {
        return Pending, asked;
      }
      var found, next, ending := ReadPage(replies[k]);
      if ending.Some? {
        return ending.value, asked;
      }
      entries := entries + found;
      if next.Some? { LinkFollowed(asked, replies, next.value); }
      url := next;
      k := k + 1;
    }
    return Listed(entries), asked;
  }

  /** A list comes out exactly when the chain of links was followed to its end and every page on it
      could be read; it is then every entry of every page. */
  lemma ListedIff<E>(replies: seq<Reply<E>>, n: nat)
    requires n < |replies| && forall i :: 0 <= i < n ==> GoesOn(replies[i])
    ensures Finishes(replies[n]) ==>
              (forall i :: 0 <= i < n + 1 ==> Readable(replies[i])) && Fetch(replies) == Listed(AllEntries(replies, n + 1))
    ensures !Readable(replies[n]) ==> Fetch(replies) == Ending(replies[n]) && !Fetch(replies).Listed?
    ensures GoesOn(replies[n]) && n + 1 == |replies| ==> Fetch(replies) == Pending
  {
    var m := LastRound(replies, 0);
    assert m >= n;
    assert n < m ==> GoesOn(replies[n]);
  }

  function Offset<E>(replies: seq<Reply<E>>, n: nat): nat
    requires n <= |replies|
  {
    if n == 0 then 0 else Offset(replies, n - 1) + |RawItems(replies[n - 1])|
  }

  lemma {:induction false} EntryCount<E>(replies: seq<Reply<E>>, n: nat)
    requires n <= |replies| && forall j :: 0 <= j < n ==> Readable(replies[j])
    ensures |AllEntries(replies, n)| == Offset(replies, n)
  {
    if n > 0 { EntryCount(replies, n - 1); }
  }

  lemma {:induction false} EarlierEntriesStay<E>(replies: seq<Reply<E>>, m: nat, n: nat)
    requires m <= n <= |replies| && forall j :: 0 <= j < n ==> Readable(replies[j])
    ensures AllEntries(replies, m) <= AllEntries(replies, n)
    decreases n - m
  {
    if m < n { EarlierEntriesStay(replies, m, n - 1); }
  }

  /** Entry `i` of page `k` stands where the pages before it leave off: nothing is lost, repeated or
      moved. */
  lemma NothingIsLost<E>(replies: seq<Reply<E>>, n: nat, k: nat, i: nat)
    requires n <= |replies| && (forall j :: 0 <= j < n ==> Readable(replies[j])) && k < n && i < |RawItems(replies[k])|
    ensures |AllEntries(replies, n)| == Offset(replies, n)
    ensures Offset(replies, k) + i < |AllEntries(replies, n)|
    ensures RawItems(replies[k])[i] == WellFormed(AllEntries(replies, n)[Offset(replies, k) + i])
  {
    EntryCount(replies, n);
    EntryCount(replies, k);
    EarlierEntriesStay(replies, k + 1, n);
  }

  // ---- results per account ------------------------------------------------------------------------------

  datatype Result<E> =
    | Enumerated(entries: seq<E>)
    | Empty
    | NoLicence
    | ConsentRequired
    | Failed(error: Reply<E>, previousEntries: seq<E>)

  type Results<E> = map<string, Result<E>>

  function PreviousEntries<E>(r: Option<Result<E>>): seq<E> {
    if r.Some? && r.value.Enumerated? then r.value.entries else []
  }

  function LastResult<E>(last: Results<E>, account: string): Option<Result<E>> {
    if account in last then Some(last[account]) else None
  }

  /** What the caller of a refresh gets; `None` if an exception propagates. */
  function ResultOf<E>(before: Option<Result<E>>, f: Fetched<E>): Option<Result<E>>
    requires !f.Pending?
  {
    match f
    case Listed(entries) => Some(if entries == [] then Empty else Enumerated(entries))
    case Unlicensed => Some(NoLicence)
    case Unconsented => Some(ConsentRequired)
    case Broken(error) => Some(Failed(error, PreviousEntries(before)))
    case Uncaught(_) => None
  }

  /** The results after a refresh of the account ends: a failure and an exception change nothing. */
  function Recorded<E>(last: Results<E>, account: string, f: Fetched<E>): Results<E>
    requires !f.Pending?
  {
    var r := ResultOf(LastResult(last, account), f);
    if r.Some? && !r.value.Failed? then last[account := r.value] else last
  }

  // ---- a later page that fails ------------------------------------------------------------------------

  /** The refresh has followed `n` links and its next page cannot be used. */
  ghost predicate FailsLater<E>(replies: seq<Reply<E>>, n: nat) {
    1 <= n < |replies| && (forall i :: 0 <= i < n ==> GoesOn(replies[i])) && !Readable(replies[n])
  }

  /** If any page after the first fails, the whole refresh is meant to be a failure. It is exactly unless that
      page is missing, asks for consent, or lets an exception through that the provider does not catch:
      no JSON object, a token refused, or an escape of another shape. */
  lemma LaterPageFailsIff<E>(replies: seq<Reply<E>>, n: nat)
    requires FailsLater(replies, n)
    ensures Fetch(replies) == Broken(replies[n]) <==>
              var r := replies[n];
              !(r.NotFound? || r.ConsentRequired? || r == GraphClient.Body(NotAnObject) || r.AuthFailed? || r == GraphClient.Escaped(false))
    ensures Fetch(replies).Broken? ==> Fetch(replies) == Broken(replies[n])
    ensures !Fetch(replies).Listed? && !Fetch(replies).Pending?
  {
    ListedIff(replies, n);
  }

  /** The entries kept from an earlier refresh are meant to outlive such a failure. They are gone, so that the
      next failure hands out none, exactly if the page was missing or asked for consent. */
  lemma LaterPageCostsEntriesIff<E>(replies: seq<Reply<E>>, n: nat, last: Results<E>, account: string, entries: seq<E>, error: Reply<E>)
    requires FailsLater(replies, n) && LastResult(last, account) == Some(Enumerated(entries)) && entries != []
    ensures !Fetch(replies).Pending?
    ensures var after := Recorded(last, account, Fetch(replies));
            var lost := replies[n].NotFound? || replies[n].ConsentRequired?;
            && (after == last <==> !lost)
            && ResultOf(LastResult(after, account), Broken(error)) == Some(Failed(error, if lost then [] else entries))
  {
    LaterPageFailsIff(replies, n);
    ListedIff(replies, n);
  }

  /** Such a refresh: a first page with a Cloud PC and a link, and then a 404. It reports that the account has no
      licence, and what was kept for it is gone. */
  lemma LaterPageMayUnlicense<E>(entry: E, link: string, account: string, error: Reply<E>)
    ensures var replies := [GraphClient.Body(Page(Items([WellFormed(entry)]), Some(Text(link)))), GraphClient.NotFound];
            && FailsLater(replies, 1) && Fetch(replies) == Unlicensed
            && var after := Recorded(map[account := Enumerated([entry])], account, Fetch(replies));
               ResultOf(LastResult(after, account), Broken(error)) == Some(Failed(error, []))
  {
    var replies := [GraphClient.Body(Page(Items([WellFormed(entry)]), Some(Text(link)))), GraphClient.NotFound];
    assert RawItems(replies[0])[0].WellFormed?;
    ListedIff(replies, 1);
    LaterPageCostsEntriesIff(replies, 1, map[account := Enumerated([entry])], account, [entry], error);
  }

  // ---- the provider object ---------------------------------------------------------------------------------

  class Provider<E> {
    var lastResults: Results<E>
    var pollTask: TR.Task?
    var pollAccount: Option<string>
    const registry: TR.Registry

    constructor (registry: TR.Registry)
      ensures lastResults == map[] && pollTask == null && pollAccount == None && this.registry == registry
    {
      lastResults, pollTask, pollAccount := map[], null, None;
      this.registry := registry;
    }

    /** The last stretch of a refresh, after its last page. */
    method EndRefresh(account: string, fetched: Fetched<E>) returns (result: Option<Result<E>>)
      requires !fetched.Pending?
      modifies this`lastResults
      ensures result == ResultOf(LastResult(old(lastResults), account), fetched)
      ensures lastResults == Recorded(old(lastResults), account, fetched)
      ensures match fetched
              case Unlicensed => result == Some(NoLicence) && lastResults == old(lastResults)[account := NoLicence]
              case Unconsented => result == Some(Result.ConsentRequired) && lastResults == old(lastResults)[account := Result.ConsentRequired]
              case Listed(entries) =>
                result == Some(if entries == [] then Empty else Enumerated(entries)) && lastResults == old(lastResults)[account := result.value]
              case _ => lastResults == old(lastResults)
    {
      match fetched {
        case Unlicensed =>
          lastResults := lastResults[account := NoLicence];
          return Some(NoLicence);
        case Unconsented =>
          lastResults := lastResults[account := ConsentRequired];
          return Some(ConsentRequired);
        case Broken(error) =>
          var previous := [];
          if account in lastResults && lastResults[account].Enumerated? {
            previous := lastResults[account].entries;
          }
          return Some(Failed(error, previous));
        case Uncaught(_) =>
          return None;
        case Listed(entries) =>
          var listed := if entries == [] then Empty else Enumerated(entries);
          lastResults := lastResults[account := listed];
          return Some(listed);
      }
    }

    predicate PollingActive(account: string)
      reads this, pollTask
    {
      pollAccount == Some(account) && pollTask != null && !pollTask.done
    }

    method CancelCurrentPollTask()
      modifies this`pollTask, pollTask
      ensures pollTask == null
      ensures old(pollTask) != null ==>
                old(pollTask).done == old(pollTask.done)
                && old(pollTask).cancelRequested == (old(pollTask.cancelRequested) || !old(pollTask.done))
    {
      if pollTask != null && !pollTask.done {
        pollTask.Cancel();
      }
      pollTask := null;
    }

    /** Nothing happens while the account's poll task is not done, even one already asked to stop. */
    method StartPolling(account: string)
      modifies this`pollTask, this`pollAccount, pollTask, registry
      ensures old(PollingActive(account)) ==>
                pollTask == old(pollTask) && pollAccount == old(pollAccount) && registry.groups == old(registry.groups)
                && pollTask.cancelRequested == old(pollTask.cancelRequested) && !pollTask.done
      ensures !old(PollingActive(account)) ==>
                && pollTask != null && fresh(pollTask) && !pollTask.done && !pollTask.cancelRequested
                && pollAccount == Some(account)
                && registry.groups == TR.Track(TR.WithGroup(old(registry.groups), account), account, pollTask)
                && (old(pollTask) != null ==> old(pollTask).cancelRequested == (old(pollTask.cancelRequested) || !old(pollTask.done)))
    {
      if pollAccount == Some(account) && pollTask != null && !pollTask.done {
        return;
      }
      CancelCurrentPollTask();
      registry.GetOrCreateGroup(Some(account));
      pollTask := registry.CreateTask(Some(account));
      pollAccount := Some(account);
    }

    method PausePolling()
      modifies this`pollTask, pollTask
      ensures pollTask == null && pollAccount == old(pollAccount)
      ensures old(pollTask) != null ==>
                old(pollTask).cancelRequested == (old(pollTask.cancelRequested) || !old(pollTask.done))
    {
      CancelCurrentPollTask();
    }

    method StopPolling()
      modifies this`pollTask, this`pollAccount, pollTask
      ensures pollTask == null && pollAccount == None
      ensures old(pollTask) != null ==>
                old(pollTask).cancelRequested == (old(pollTask.cancelRequested) || !old(pollTask.done))
    {
      CancelCurrentPollTask();
      pollAccount := None;
    }
  }

  // ---- every interleaving of refreshes -----------------------------------------------------------------------

  datatype Refresh<E> = Running(account: string, replies: seq<Reply<E>>) | Ended(account: string, result: Option<Result<E>>)

  datatype World<E> = World(last: Results<E>, refreshes: seq<Refresh<E>>)

  datatype Event<E> = Begin(account: string) | Arrive(refresh: nat, reply: Reply<E>) | Cancel(refresh: nat)

  predicate Enabled<E>(w: World<E>, e: Event<E>) {
    e.Begin? || (e.refresh < |w.refreshes| && w.refreshes[e.refresh].Running?)
  }

  function Next<E>(w: World<E>, e: Event<E>): World<E>
    requires Enabled(w, e)
  {
    match e
    case Begin(a) => w.(refreshes := w.refreshes + [Running(a, [])])
    case Cancel(i) => w.(refreshes := w.refreshes[i := Ended(w.refreshes[i].account, None)])
    case Arrive(i, reply) =>
      var a, replies := w.refreshes[i].account, w.refreshes[i].replies + [reply];
      var f := Fetch(replies);
      if f.Pending? then w.(refreshes := w.refreshes[i := Running(a, replies)])
      else World(Recorded(w.last, a, f), w.refreshes[i := Ended(a, ResultOf(LastResult(w.last, a), f))])
  }

  ghost predicate Steps<E>(w: World<E>, e: Event<E>, v: World<E>) {
    Enabled(w, e) && v == Next(w, e)
  }

  ghost predicate IsRun<E>(ws: seq<World<E>>, es: seq<Event<E>>) {
    && |ws| == |es| + 1
    && ws[0] == World(map[], [])
    && forall i {:trigger Steps(ws[i], es[i], ws[i + 1])} :: 0 <= i < |es| ==> Steps(ws[i], es[i], ws[i + 1])
  }

  /** Step `i` ends a refresh of account `a` with an outcome that is no failure. */
  ghost predicate Succeeds<E>(ws: seq<World<E>>, es: seq<Event<E>>, i: nat, a: string, r: Result<E>)
    requires |ws| == |es| + 1 && i < |es|
  {
    && es[i].Arrive? && es[i].refresh < |ws[i + 1].refreshes|
    && ws[i + 1].refreshes[es[i].refresh] == Ended(a, Some(r)) && !r.Failed?
  }

  /** What is kept for an account is the outcome of its latest refresh to end without failing, however
      refreshes of any accounts interleave; nothing is kept exactly if none has. */
  lemma {:induction false} KeepsLatestSuccess<E>(ws: seq<World<E>>, es: seq<Event<E>>, i: nat, a: string)
    requires IsRun(ws, es) && i < |ws|
    ensures a !in ws[i].last <==> forall j, r :: 0 <= j < i ==> !Succeeds(ws, es, j, a, r)
    ensures a in ws[i].last ==>
              exists j :: 0 <= j < i && Succeeds(ws, es, j, a, ws[i].last[a])
                          && forall k, r :: j < k < i ==> !Succeeds(ws, es, k, a, r)
    decreases i
  {
    if i > 0 {
      var p := i - 1;
      KeepsLatestSuccess(ws, es, p, a);
      SuccessStep(ws, es, p, a);
      if a in ws[i].last && Succeeds(ws, es, p, a, ws[i].last[a]) {
      } else if a in ws[i].last {
        var j :| 0 <= j < p && Succeeds(ws, es, j, a, ws[p].last[a]) && forall k, r :: j < k < p ==> !Succeeds(ws, es, k, a, r);
        assert forall k, r :: j < k < i && k != p ==> !Succeeds(ws, es, k, a, r);
        assert forall r :: !Succeeds(ws, es, p, a, r);
      }
    }
  }

  lemma SuccessStep<E>(ws: seq<World<E>>, es: seq<Event<E>>, p: nat, a: string)
    requires IsRun(ws, es) && p < |es|
    ensures (a in ws[p + 1].last && Succeeds(ws, es, p, a, ws[p + 1].last[a]))
            || ((forall r :: !Succeeds(ws, es, p, a, r)) && LastResult(ws[p + 1].last, a) == LastResult(ws[p].last, a))
  {
    assert Steps(ws[p], es[p], ws[p + 1]);
  }

  /** No refresh of one account touches what is kept for another. */
  lemma AccountsDoNotMix<E>(ws: seq<World<E>>, es: seq<Event<E>>, i: nat, a: string)
    requires IsRun(ws, es) && i < |es|
    requires es[i].Arrive? && es[i].refresh < |ws[i].refreshes| ==> ws[i].refreshes[es[i].refresh].account != a
    ensures LastResult(ws[i + 1].last, a) == LastResult(ws[i].last, a)
  {
    assert Steps(ws[i], es[i], ws[i + 1]);
  }

  /** A failed refresh hands out the entries of its own account's latest success, and none if that was
      no enumeration or there was none. */
  lemma FailureShowsLatestSuccess<E>(ws: seq<World<E>>, es: seq<Event<E>>, i: nat, a: string, error: Reply<E>, previous: seq<E>)
    requires IsRun(ws, es) && i < |es| && es[i].Arrive? && es[i].refresh < |ws[i + 1].refreshes|
    requires ws[i + 1].refreshes[es[i].refresh] == Ended(a, Some(Failed(error, previous)))
    ensures ws[i + 1].last == ws[i].last
    ensures forall j, r :: 0 <= j < i && Succeeds(ws, es, j, a, r) && (forall k, q :: j < k < i ==> !Succeeds(ws, es, k, a, q)) ==>
              previous == if r.Enumerated? then r.entries else []
    ensures (forall j, r :: 0 <= j < i ==> !Succeeds(ws, es, j, a, r)) ==> previous == []
  {
    assert Steps(ws[i], es[i], ws[i + 1]);
    KeepsLatestSuccess(ws, es, i, a);
    forall j, r | 0 <= j < i && Succeeds(ws, es, j, a, r) && (forall k, q :: j < k < i ==> !Succeeds(ws, es, k, a, q))
      ensures a in ws[i].last && r == ws[i].last[a]
    {
      var m :| 0 <= m < i && Succeeds(ws, es, m, a, ws[i].last[a]) && forall k, q :: m < k < i ==> !Succeeds(ws, es, k, a, q);
      assert m == j;
    }
  }
}
