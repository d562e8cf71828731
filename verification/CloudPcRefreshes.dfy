/** What a refresh of the Cloud PC list reports and keeps, reply by reply, among any other refreshes. */
module CloudPcRefreshes {
  import opened Wrappers
  import opened CloudPcProvider
  import GraphClient

  /** The reply is a page with those entries and that next link. An answer without content is an empty page, and
      so is one without a value. */
  ghost predicate Reads<E(!new)>(r: Reply<E>, entries: seq<E>, next: Option<Url>) {
    || (r.NoContent? && entries == [] && next == None)
    || (r.Body? && r.json.Page? && r.json.next == next
        && match r.json.value
           case Missing => entries == []
           case Items(items) => |items| == |entries| && forall i :: 0 <= i < |items| ==> items[i] == WellFormed(entries[i])
           case NotAList => false)
  }

  lemma ReadableReads<E(!new)>(r: Reply<E>)
    requires Readable(r)
    ensures Reads(r, EntriesOf(r), PageOf(r).value.next)
  {
  }

  lemma ReadsReadable<E(!new)>(r: Reply<E>, entries: seq<E>, next: Option<Url>)
    requires Reads(r, entries, next)
    ensures Readable(r) && entries == EntriesOf(r) && next == PageOf(r).value.next
  {
    assert |EntriesOf(r)| == |entries|;
    forall i | 0 <= i < |entries| ensures entries[i] == EntriesOf(r)[i] {
      assert RawItems(r)[i] == WellFormed(entries[i]);
    }
  }

  /** Every page leads on, and these are their entries in order. */
  ghost predicate Gathers<E(!new)>(replies: seq<Reply<E>>, entries: seq<E>) {
    if replies == [] then entries == [] else
      exists before, page, next ::
        Gathers(replies[..|replies| - 1], before) && Reads(replies[|replies| - 1], page, Some(next)) && entries == before + page
  }

  predicate AllLinks<E>(replies: seq<Reply<E>>) {
    forall k :: 0 <= k < |replies| ==> GoesOn(replies[k])
  }

  function Gathered<E>(replies: seq<Reply<E>>): seq<E>
    requires AllLinks(replies)
  {
    assert forall k :: 0 <= k < |replies| ==> GoesOn(replies[k]) && Readable(replies[k]);
    AllEntries(replies, |replies|)
  }

  lemma {:induction false} LinksGather<E(!new)>(replies: seq<Reply<E>>)
    requires AllLinks(replies)
    ensures Gathers(replies, Gathered(replies))
    decreases |replies|
  {
    if replies != [] {
      var n := |replies| - 1;
      var front := replies[..n];
      assert forall k :: 0 <= k < n ==> front[k] == replies[k];
      LinksGather(front);
      assert forall k :: 0 <= k < |replies| ==> GoesOn(replies[k]) && Readable(replies[k]);
      EntriesOfFront(replies, n, n);
      ReadableReads(replies[n]);
      assert Reads(replies[n], EntriesOf(replies[n]), Some(PageOf(replies[n]).value.next.value));
    }
  }

  lemma {:induction false} EntriesOfFront<E(!new)>(replies: seq<Reply<E>>, m: nat, n: nat)
    requires m <= n <= |replies| && forall k :: 0 <= k < n ==> Readable(replies[k])
    ensures AllEntries(replies[..n], m) == AllEntries(replies, m)
  {
    if m > 0 { EntriesOfFront(replies, m - 1, n); }
  }

  // ---- over a run --------------------------------------------------------------------------------------------

  /** What came in for an unfinished refresh has always led on. */
  ghost predicate LinksOnly<E(!new)>(w: World<E>) {
    forall x :: 0 <= x < |w.refreshes| && w.refreshes[x].Running? ==> AllLinks(w.refreshes[x].replies)
  }

  lemma LinksStay<E(!new)>(w: World<E>, e: Event<E>)
    requires LinksOnly(w) && Enabled(w, e)
    ensures LinksOnly(Next(w, e))
  {
  }

  lemma {:induction false} RunLinks<E(!new)>(ws: seq<World<E>>, es: seq<Event<E>>, i: nat)
    requires IsRun(ws, es) && i < |ws|
    ensures LinksOnly(ws[i])
  {
    if i > 0 {
      var p := i - 1;
      RunLinks(ws, es, p);
      assert Steps(ws[p], es[p], ws[p + 1]);
      LinksStay(ws[p], es[p]);
    }
  }

  /** The refresh ends so, and this is what is kept. */
  ghost predicate EndsKeeping<E(!new)>(w: World<E>, v: World<E>, x: nat, a: string, result: Result<E>) {
    x < |v.refreshes| && v.refreshes[x] == Ended(a, Some(result)) && v.last == w.last[a := result]
  }

  ghost predicate Unusable<E(!new)>(r: Reply<E>) {
    !r.NotFound? && !r.ConsentRequired? && forall page, next :: !Reads(r, page, next)
  }

  /** What the caller is shown in the meantime. */
  function Kept<E>(last: Results<E>, a: string): seq<E> {
    if a in last && last[a].Enumerated? then last[a].entries else []
  }

  /** How one more reply moves a refresh that has gathered `before`. */
  ghost predicate Moves<E(!new)>(w: World<E>, v: World<E>, x: nat, a: string, replies: seq<Reply<E>>, reply: Reply<E>, before: seq<E>) {
    && x < |v.refreshes|
    && (reply.NotFound? ==> EndsKeeping(w, v, x, a, NoLicence))
    && (reply.ConsentRequired? ==> EndsKeeping(w, v, x, a, Result.ConsentRequired))
    && (forall page, next :: Reads(reply, page, Some(next)) ==> v.refreshes[x] == Running(a, replies + [reply]) && v.last == w.last)
    && (forall page :: Reads(reply, page, None) ==>
          EndsKeeping(w, v, x, a, if before + page == [] then Empty else Enumerated(before + page)))
    && (Unusable(reply) ==>
          && v.last == w.last
          && v.refreshes[x] == Ended(a, if reply == GraphClient.Body(NotAnObject) || reply.AuthFailed? || reply == GraphClient.Escaped(false) then None
                                        else Some(Failed(reply, Kept(w.last, a)))))
  }

  lemma FetchedWith<E(!new)>(replies: seq<Reply<E>>, reply: Reply<E>)
    requires AllLinks(replies)
    ensures var f := Fetch(replies + [reply]);
            if !Readable(reply) then f == Ending(reply)
            else if PageOf(reply).value.next.Some? then f == Pending
            else f == Listed(Gathered(replies) + EntriesOf(reply))
  {
    var all, n := replies + [reply], |replies|;
    assert forall k :: 0 <= k < n ==> all[k] == replies[k] && GoesOn(all[k]) && Readable(all[k]);
    assert all[..n] == replies;
    ListedIff(all, n);
    EntriesOfFront(all, n, n);
  }

  /** A reply that is no page. */
  lemma UnreadReply<E(!new)>(w: World<E>, v: World<E>, x: nat, a: string, replies: seq<Reply<E>>, reply: Reply<E>, before: seq<E>)
    requires x < |w.refreshes| && !Readable(reply)
    requires var f := Ending(reply);
             v == World(Recorded(w.last, a, f), w.refreshes[x := Ended(a, ResultOf(LastResult(w.last, a), f))])
    ensures Moves(w, v, x, a, replies, reply, before)
  {
    forall page, next ensures !Reads(reply, page, next) { if Reads(reply, page, next) { ReadsReadable(reply, page, next); } }
  }

  /** A page with a link, and the last page. */
  lemma LinkReply<E(!new)>(w: World<E>, v: World<E>, x: nat, a: string, replies: seq<Reply<E>>, reply: Reply<E>, before: seq<E>)
    requires x < |w.refreshes| && Readable(reply) && PageOf(reply).value.next.Some?
    requires v == w.(refreshes := w.refreshes[x := Running(a, replies + [reply])])
    ensures Moves(w, v, x, a, replies, reply, before)
  {
    ReadsAs(reply);
  }

  lemma LastReply<E(!new)>(w: World<E>, v: World<E>, x: nat, a: string, replies: seq<Reply<E>>, reply: Reply<E>, before: seq<E>)
    requires x < |w.refreshes| && Readable(reply) && PageOf(reply).value.next == None
    requires var f := Listed(before + EntriesOf(reply));
             v == World(Recorded(w.last, a, f), w.refreshes[x := Ended(a, ResultOf(LastResult(w.last, a), f))])
    ensures Moves(w, v, x, a, replies, reply, before)
  {
    ReadsAs(reply);
  }

  lemma Replied<E(!new)>(w: World<E>, x: nat, a: string, replies: seq<Reply<E>>, reply: Reply<E>)
    requires x < |w.refreshes| && w.refreshes[x] == Running(a, replies) && AllLinks(replies)
    ensures Moves(w, Next(w, Arrive(x, reply)), x, a, replies, reply, Gathered(replies))
  {
    FetchedWith(replies, reply);
    var v, before := Next(w, Arrive(x, reply)), Gathered(replies);
    if !Readable(reply) {
      UnreadReply(w, v, x, a, replies, reply, before);
    } else if PageOf(reply).value.next.Some? {
      LinkReply(w, v, x, a, replies, reply, before);
    } else {
      LastReply(w, v, x, a, replies, reply, before);
    }
  }

  lemma ReadsAs<E(!new)>(r: Reply<E>)
    requires Readable(r)
    ensures !r.NotFound? && !r.ConsentRequired? && Reads(r, EntriesOf(r), PageOf(r).value.next)
    ensures forall page, next :: Reads(r, page, next) ==> page == EntriesOf(r) && next == PageOf(r).value.next
  {
    ReadableReads(r);
    forall page, next | Reads(r, page, next) ensures page == EntriesOf(r) && next == PageOf(r).value.next {
      ReadsReadable(r, page, next);
    }
  }

  /** Every reply to every refresh, over every run. The refresh has gathered the entries of the pages so far. A
      404 now reports and keeps that there is no licence, a 403 that consent is missing; a readable page with
      a link leads on; one without ends the refresh with nothing if no page had an entry, and otherwise with
      the entries of all pages in order, and that is what is kept. Anything else is reported as a failure
      with the entries kept so far, or propagates, and what is kept stays. */
  lemma RefreshReports<E(!new)>(ws: seq<World<E>>, es: seq<Event<E>>, i: nat, x: nat, a: string, replies: seq<Reply<E>>, reply: Reply<E>)
    requires IsRun(ws, es) && i < |es| && es[i] == Arrive(x, reply) && x < |ws[i].refreshes| && ws[i].refreshes[x] == Running(a, replies)
    ensures exists before :: Gathers(replies, before) && Moves(ws[i], ws[i + 1], x, a, replies, reply, before)
  {
    RunLinks(ws, es, i);
    assert Steps(ws[i], es[i], ws[i + 1]);
    Replied(ws[i], x, a, replies, reply);
    LinksGather(replies);
  }

  /** The addresses asked: the documented one, and then each page's own link. */
  lemma AddressesAsked<E(!new)>(asked: seq<Url>, replies: seq<Reply<E>>, k: nat)
    requires FollowsLinks(asked, replies) && k < |asked|
    ensures k == 0 ==> asked[k] == Text("https://graph.microsoft.com/v1.0/me/cloudPCs")
    ensures k > 0 ==> replies[k - 1].Body? && replies[k - 1].json.Page? && replies[k - 1].json.next == Some(asked[k])
  {
    assert k > 0 ==> LeadsTo(replies, k - 1, asked[k]);
  }
}
