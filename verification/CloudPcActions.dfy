/** Cloud PC management actions: the gate, the two ways to invoke an action, and what a reply that
    breaks the contract disables. */
module CloudPcActions {
  import opened Wrappers
  import GC = GraphClient
  import RB = RequestBudget
  import RO = RequestOutcomes
  import WL = WebLauncher

  const SELF_SERVICE := {"restart", "rename", "troubleshoot", "reprovision"}
  const ADMIN_ONLY := {"restore", "resize"}
  const CLOUDS_WITHOUT_APIS := {"login.chinacloudapi.cn", "login.partner.microsoftonline.cn"}
  const RETRIES := 5

  /** A JSON reply, as far as the service looks at it. */
  datatype Json = EmptyObject | Other(id: int)

  type Reply = GC.Outcome<Json>

  datatype Reason = FlagOff | NationalCloud | ContractBroken | AdminOnly | UnknownAction

  datatype Failure = Gated(reason: Reason) | ProxyBlocked | Offline | Unclassified

  datatype Outcome =
    | Accepted
    | ConsentRequired
    | ContractError
    | Throttled(retryAfter: Option<int>)
    | Failed(why: Failure)
    | Propagates(error: Reply)

  /** What was fixed when the service was built. */
  datatype Setup = Setup(betaEnabled: bool, authorityHost: string)

  function ServiceDisabledReason(s: Setup): Option<Reason> {
    if !s.betaEnabled then Some(FlagOff) else if s.authorityHost in CLOUDS_WITHOUT_APIS then Some(NationalCloud) else None
  }

  /** Why an action is disabled, if it is. */
  function Gate(s: Setup, disabled: set<string>, action: string): Option<Reason> {
    if ServiceDisabledReason(s).Some? then ServiceDisabledReason(s)
    else if action in disabled then Some(ContractBroken)
    else if action in ADMIN_ONLY then Some(AdminOnly)
    else if action !in SELF_SERVICE then Some(UnknownAction)
    else None
  }

  /** An answer that says the endpoint is not what it was: a missing one, any other client error, or
      content where there should be none. */
  predicate BreaksContract(r: Reply) {
    r.NotFound? || (r.Failed? && 400 <= r.code < 500) || (r.NotJson? && 400 <= r.code < 500) || (r.Body? && r.json != EmptyObject)
  }

  function Judge(r: Reply): Outcome {
    if BreaksContract(r) then ContractError else
      match r
      case NoContent => Accepted
      case Body(_) => Accepted
      case ConsentRequired => ConsentRequired
      case Throttled(seconds) => Throttled(seconds)
      case ProxyError => Failed(ProxyBlocked)
      case NetworkError => Failed(Offline)
      case AuthFailed(_) => Propagates(r)
      case Escaped(_) => Propagates(r)
      case _ => Failed(Unclassified)
  }

  const GRAPH_PARTS := ["https:", "", "graph.microsoft.com", "beta", "me", "cloudPCs"]

  function Endpoint(action: string): string {
    if action == "restart" then "reboot" else action
  }

  /** The URL an action is posted to. */
  function UrlFor(cloudPc: WL.Bytes, action: string): string {
    WL.Join(GRAPH_PARTS + [WL.Quote(cloudPc, {}), Endpoint(action)], '/')
  }

  lemma GraphPartsAreClean()
    ensures forall p :: p in GRAPH_PARTS ==> WL.NoDelimiter(p)
  {
  }

  lemma EndpointIsClean(action: string)
    requires action in SELF_SERVICE
    ensures WL.NoDelimiter(Endpoint(action))
  {
  }

  /** Whatever bytes a Cloud PC's identifier is made of, the URL as written divides into the fixed host and
      path, that identifier and the endpoint. */
  lemma UrlNamesCloudPc(cloudPc: WL.Bytes, action: string)
    requires action in SELF_SERVICE
    ensures var parts := WL.SplitOn(UrlFor(cloudPc, action), '/');
            |parts| == 8 && parts[..6] == GRAPH_PARTS && WL.Unquote(parts[6]) == Some(cloudPc) && parts[7] == Endpoint(action)
    ensures '#' !in UrlFor(cloudPc, action) && '?' !in UrlFor(cloudPc, action)
  {
    GraphPartsAreClean();
    EndpointIsClean(action);
    WL.CleanText(cloudPc, {});
    WL.CleanPath(GRAPH_PARTS + [WL.Quote(cloudPc, {}), Endpoint(action)]);
  }

  /** The four actions, and where each is posted. */
  lemma UrlsAsWritten(cloudPc: WL.Bytes)
    ensures SELF_SERVICE == {"restart", "rename", "troubleshoot", "reprovision"}
    ensures var base := "https://graph.microsoft.com/beta/me/cloudPCs/" + WL.Quote(cloudPc, {});
            && UrlFor(cloudPc, "restart") == base + "/reboot"
            && UrlFor(cloudPc, "rename") == base + "/rename"
            && UrlFor(cloudPc, "troubleshoot") == base + "/troubleshoot"
            && UrlFor(cloudPc, "reprovision") == base + "/reprovision"
  {
    UrlAsWritten(cloudPc, "restart");
    UrlAsWritten(cloudPc, "rename");
    UrlAsWritten(cloudPc, "troubleshoot");
    UrlAsWritten(cloudPc, "reprovision");
    assert ['/'] + "reboot" == "/reboot" && ['/'] + "rename" == "/rename";
    assert ['/'] + "troubleshoot" == "/troubleshoot" && ['/'] + "reprovision" == "/reprovision";
  }

  lemma UrlAsWritten(cloudPc: WL.Bytes, action: string)
    ensures UrlFor(cloudPc, action) == "https://graph.microsoft.com/beta/me/cloudPCs/" + WL.Quote(cloudPc, {}) + (['/'] + Endpoint(action))
  {
    var q, last := WL.Quote(cloudPc, {}), Endpoint(action);
    WL.JoinAppend(GRAPH_PARTS, [q, last], '/');
    WL.JoinThree(q, "", last, '/');
    GraphBaseAsWritten();
    assert WL.Join(GRAPH_PARTS, '/') + ['/'] + (q + ['/'] + last) == (WL.Join(GRAPH_PARTS, '/') + ['/']) + q + (['/'] + last);
  }

  lemma JoinSix(host: seq<string>, path: seq<string>)
    requires |host| == 3 && |path| == 3
    ensures WL.Join(host + path, '/') ==
            (host[0] + ['/'] + (host[1] + ['/'] + host[2])) + ['/'] + (path[0] + ['/'] + (path[1] + ['/'] + path[2]))
  {
    assert host == [host[0], host[1], host[2]] && path == [path[0], path[1], path[2]];
    WL.JoinAppend(host, path, '/');
    WL.JoinThree(host[0], host[1], host[2], '/');
    WL.JoinThree(path[0], path[1], path[2], '/');
  }

  lemma GraphBaseAsWritten()
    ensures WL.Join(GRAPH_PARTS, '/') + ['/'] == "https://graph.microsoft.com/beta/me/cloudPCs/"
  {
    var host, path := ["https:", "", "graph.microsoft.com"], ["beta", "me", "cloudPCs"];
    assert GRAPH_PARTS == host + path;
    JoinSix(host, path);
    GraphHost();
    GraphPath();
    HostAndPath("https://graph.microsoft.com", "beta/me/cloudPCs");
    WholeBase();
  }

  lemma HostAndPath(host: string, path: string)
    ensures host + ['/'] + path + ['/'] == host + (['/'] + path + ['/'])
  {
  }

  lemma WholeBase()
    ensures "https://graph.microsoft.com" + "/beta/me/cloudPCs/" == "https://graph.microsoft.com/beta/me/cloudPCs/"
  {
  }

  lemma GraphHost()
    ensures "https:" + ['/'] + ("" + ['/'] + "graph.microsoft.com") == "https://graph.microsoft.com"
  {
  }

  lemma GraphPath()
    ensures "beta" + ['/'] + ("me" + ['/'] + "cloudPCs") == "beta/me/cloudPCs"
    ensures ['/'] + "beta/me/cloudPCs" + ['/'] == "/beta/me/cloudPCs/"
  {
  }

  function PathParts(cloudPc: WL.Bytes, action: string): seq<string> {
    GRAPH_PARTS[3..] + [WL.Quote(cloudPc, {}), Endpoint(action)]
  }

  /** Where dot segments are removed before a request is sent, the path still names that Cloud PC exactly
      if its identifier is neither `.` nor `..`, which are not encoded. */
  lemma UrlSurvivesDotRemovalIff(cloudPc: WL.Bytes, action: string)
    requires action in SELF_SERVICE
    ensures WL.RemoveDots(PathParts(cloudPc, action), []) == PathParts(cloudPc, action) <==> !WL.IsDots(cloudPc)
  {
    WL.QuotedDots(cloudPc);
    var parts := PathParts(cloudPc, action);
    assert parts[3] == WL.Quote(cloudPc, {});
    assert WL.HasDots(parts) <==> WL.IsDots(cloudPc);
    if WL.IsDots(cloudPc) {
      WL.DotsRemoved(parts, []);
    } else {
      WL.NothingToRemove(parts, []);
      assert [] + parts == parts;
    }
  }

  lemma {:induction false} CleanFront(front: seq<string>, rest: seq<string>, done: seq<string>)
    requires !WL.HasDots(front) && rest != []
    ensures WL.RemoveDots(front + rest, done) == WL.RemoveDots(rest, done + front)
    decreases |front|
  {
    if front == [] {
      assert front + rest == rest && done + front == done;
    } else {
      assert (front + rest)[1..] == front[1..] + rest;
      CleanFront(front[1..], rest, done + [front[0]]);
      assert done + [front[0]] + front[1..] == done + front;
    }
  }

  /** With those two, the request goes elsewhere. */
  lemma DotsLeadElsewhere(action: string)
    requires action in SELF_SERVICE
    ensures WL.RemoveDots(PathParts(WL.DOTS, action), []) == ["beta", "me", Endpoint(action)]
    ensures WL.RemoveDots(PathParts(WL.DOT, action), []) == ["beta", "me", "cloudPCs", Endpoint(action)]
  {
    WL.QuotedDots(WL.DOTS);
    WL.QuotedDots(WL.DOT);
    var front, last := ["beta", "me", "cloudPCs"], Endpoint(action);
    assert PathParts(WL.DOTS, action) == front + ["..", last] && ["..", last][1..] == [last];
    assert PathParts(WL.DOT, action) == front + [".", last] && [".", last][1..] == [last];
    CleanFront(front, ["..", last], []);
    CleanFront(front, [".", last], []);
    assert [] + front == front && front[..2] == ["beta", "me"];
    WL.NothingToRemove([last], front);
    WL.NothingToRemove([last], front[..2]);
  }

  /** Such a URL is one the Graph client accepts. */
  const ACTION_URL := GC.Split(GC.ALLOWED_SCHEME, Some(GC.ALLOWED_HOST))

  /** What a posted action comes to, by the answer its request ends with: accepted by a 204 or an empty JSON
      object; disabled by a 404, any other client error but a 403 and a 429, and by content; and the rest
      told apart as the caller has to. */
  lemma OutcomeByAnswer(parse: GC.Parser, maxRetries: int, server: nat -> GC.Reply<Json>, tokens: nat -> GC.Grant,
                        reply: Reply, log: seq<GC.Act>, last: nat)
    requires GC.IsRequest(parse, ACTION_URL, maxRetries, server, tokens, reply, log, last)
    ensures var o := Judge(reply);
            if tokens(last).Refused? then o == Propagates(GC.AuthFailed(tokens(last).error))
            else match server(last)
              case ProxyFailure => o == Failed(ProxyBlocked)
              case RequestFailure => o == Failed(Offline)
              case OtherFailure(shape) => o == Propagates(GC.Escaped(shape))
              case Answer(status, header, json) =>
                if status == 204 then o == Accepted
                else if status == 200 || status == 201 then
                  o == if json == None then Failed(Unclassified) else if json == Some(EmptyObject) then Accepted else ContractError
                else if status == 403 then o == ConsentRequired
                else if status in {429, 502, 503, 504} && parse(header).Overflows? then o == Propagates(GC.Escaped(false))
                else if status == 429 then o.Throttled? && reply == GC.Throttled(o.retryAfter)
                else if 400 <= status < 500 then o == ContractError
                else o == Failed(Unclassified)
  {
    assert ACTION_URL == RO.GRAPH;
    forall i | 0 <= i < last ensures tokens(i).Granted? && RO.AsksAgain(parse, server(i)) { assert GC.GoesOn(parse, server, tokens, i); }
    RO.OutcomeTable(parse, maxRetries, server, tokens, reply, log, last, last);
  }

  /** One request was made, doing what `log` says, and the outcome is the judgement on what it ended with. */
  ghost predicate Posted(maxRetries: int, parse: GC.Parser, server: nat -> GC.Reply<Json>, tokens: nat -> GC.Grant,
                         outcome: Outcome, log: seq<GC.Act>) {
    exists reply, last :: GC.IsRequest(parse, ACTION_URL, maxRetries, server, tokens, reply, log, last) && outcome == Judge(reply)
  }

  // ---- the service object ------------------------------------------------------------------------------

  /** `Rejected` stands for the ValueErrors raised before anything is sent. */
  datatype Answer = Rejected | Got(outcome: Outcome)

  class ActionService {
    const setup: Setup
    var contractDisabled: set<string>
    /** The post-action refreshes asked for so far. */
    var refreshes: nat

    constructor (setup: Setup)
      ensures this.setup == setup && contractDisabled == {} && refreshes == 0
    {
      this.setup := setup;
      contractDisabled, refreshes := {}, 0;
    }

    method ActionGate(action: string) returns (reason: Option<Reason>)
      ensures reason == Gate(setup, contractDisabled, action)
    {
      if !setup.betaEnabled {
        return Some(FlagOff);
      }
      if setup.authorityHost in CLOUDS_WITHOUT_APIS {
        return Some(NationalCloud);
      }
      if action in contractDisabled {
        return Some(ContractBroken);
      }
      if action in ADMIN_ONLY {
        return Some(AdminOnly);
      }
      if action !in SELF_SERVICE {
        return Some(UnknownAction);
      }
      return None;
    }

    /** The last stretch of a call, once the Graph client has answered. */
    method EndPost(action: string, reply: Reply) returns (outcome: Outcome)
      modifies this`contractDisabled, this`refreshes
      ensures outcome == Judge(reply)
      ensures contractDisabled == old(contractDisabled) + if outcome.ContractError? then {action} else {}
      ensures refreshes == old(refreshes) + if outcome.Accepted? then 1 else 0
    {
      match reply {
        case ConsentRequired => return ConsentRequired;
        case Throttled(seconds) => return Throttled(seconds);
        case AuthFailed(_) => return Propagates(reply);
        case Escaped(_) => return Propagates(reply);
        case ProxyError => return Failed(ProxyBlocked);
        case NetworkError => return Failed(Offline);
        case UrlRefused => return Failed(Unclassified);
        case NotFound =>
          contractDisabled := contractDisabled + {action};
          return ContractError;
        case Failed(code) =>
          if 400 <= code < 500 {
            contractDisabled := contractDisabled + {action};
            return ContractError;
          }
          return Failed(Unclassified);
        case NotJson(code) =>
          if 400 <= code < 500 {
            contractDisabled := contractDisabled + {action};
            return ContractError;
          }
          return Failed(Unclassified);
        case NoContent =>
          refreshes := refreshes + 1;
          return Accepted;
        case Body(json) =>
          if json != EmptyObject {
            contractDisabled := contractDisabled + {action};
            return ContractError;
          }
          refreshes := refreshes + 1;
          return Accepted;
      }
    }

    /** A whole call, if nothing else happens during it. `log` is all it does to the outside. */
    method PostAction(action: string, maxRetries: int, parse: GC.Parser, server: nat -> GC.Reply<Json>, tokens: nat -> GC.Grant)
      returns (outcome: Outcome, log: seq<GC.Act>)
      modifies this`contractDisabled, this`refreshes
      ensures var gate := Gate(setup, old(contractDisabled), action);
              if gate.Some? then outcome == Failed(Gated(gate.value)) && log == []
              else Posted(maxRetries, parse, server, tokens, outcome, log)
      ensures contractDisabled == old(contractDisabled) + if outcome.ContractError? then {action} else {}
      ensures refreshes == old(refreshes) + if outcome.Accepted? then 1 else 0
      ensures RB.Sends(log) <= GC.Budget(maxRetries) + 1
    {
      var reason := ActionGate(action);
      if reason.Some? {
        return Failed(Gated(reason.value)), [];
      }
      var reply, last;
      reply, log, last := GC.RequestJson(parse, ACTION_URL, maxRetries, server, tokens);
      RB.CallIsBounded(parse, maxRetries, server, tokens, reply, log, last);
      outcome := EndPost(action, reply);
    }

    method InvokeAction(action: string, parse: GC.Parser, server: nat -> GC.Reply<Json>, tokens: nat -> GC.Grant)
      returns (answer: Answer, log: seq<GC.Act>)
      modifies this`contractDisabled, this`refreshes
      ensures answer == Rejected <==> action == "reprovision" || action !in SELF_SERVICE
      ensures answer == Rejected ==> log == []
      ensures answer.Got? ==>
                var gate := Gate(setup, old(contractDisabled), action);
                if gate.Some? then answer == Got(Failed(Gated(gate.value))) && log == []
                else Posted(5, parse, server, tokens, answer.outcome, log)
      ensures contractDisabled == old(contractDisabled) + if answer == Got(ContractError) then {action} else {}
      ensures refreshes == old(refreshes) + if answer == Got(Accepted) then 1 else 0
      ensures RB.Sends(log) <= 6
    {
      if action == "reprovision" || action !in SELF_SERVICE {
        return Rejected, [];
      }
      var outcome;
      outcome, log := PostAction(action, RETRIES, parse, server, tokens);
      return Got(outcome), log;
    }

    /** `confirmed` says that the argument is `True` itself. Whatever the server does, a Cloud PC is
        asked at most once to be wiped, and never unconfirmed or gated off. */
    method InvokeReprovision(confirmed: bool, parse: GC.Parser, server: nat -> GC.Reply<Json>, tokens: nat -> GC.Grant)
      returns (answer: Answer, log: seq<GC.Act>)
      modifies this`contractDisabled, this`refreshes
      ensures answer == Rejected <==> !confirmed
      ensures answer == Rejected ==> log == []
      ensures answer.Got? ==>
                var gate := Gate(setup, old(contractDisabled), "reprovision");
                if gate.Some? then answer == Got(Failed(Gated(gate.value))) && log == []
                else Posted(0, parse, server, tokens, answer.outcome, log)
      ensures contractDisabled == old(contractDisabled) + if answer == Got(ContractError) then {"reprovision"} else {}
      ensures refreshes == old(refreshes) + if answer == Got(Accepted) then 1 else 0
      ensures RB.Sends(log) <= 1
    {
      if !confirmed {
        return Rejected, [];
      }
      var outcome;
      outcome, log := PostAction("reprovision", 0, parse, server, tokens);
      return Got(outcome), log;
    }
  }

  // ---- calls that overlap ---------------------------------------------------------------------------------

  /** `Posting` from the passed gate to the client's answer. */
  datatype Pc = Refused | Posting | Abandoned | Ended(outcome: Outcome)

  datatype Call = Call(action: string, confirmed: bool, pc: Pc)

  datatype World = World(setup: Setup, disabled: set<string>, calls: seq<Call>)

  datatype Event =
    | Invoke(action: string)
    | Reprovision(confirmed: bool)
    | Answered(call: nat, reply: Reply)
    | Cancel(call: nat)

  predicate Enabled(w: World, e: Event) {
    e.Answered? || e.Cancel? ==> e.call < |w.calls| && w.calls[e.call].pc.Posting?
  }

  function Begin(w: World, action: string, confirmed: bool): World {
    var gate := Gate(w.setup, w.disabled, action);
    w.(calls := w.calls + [Call(action, confirmed, if gate.Some? then Ended(Failed(Gated(gate.value))) else Posting)])
  }

  function Next(w: World, e: Event): World
    requires Enabled(w, e)
  {
    match e
    case Invoke(action) =>
      if action == "reprovision" || action !in SELF_SERVICE then w.(calls := w.calls + [Call(action, false, Refused)])
      else Begin(w, action, false)
    case Reprovision(confirmed) =>
      if confirmed then Begin(w, "reprovision", true) else w.(calls := w.calls + [Call("reprovision", false, Refused)])
    case Answered(c, reply) =>
      var call := w.calls[c];
      World(w.setup, w.disabled + (if Judge(reply).ContractError? then {call.action} else {}),
            w.calls[c := call.(pc := Ended(Judge(reply)))])
    case Cancel(c) => w.(calls := w.calls[c := w.calls[c].(pc := Abandoned)])
  }

  ghost predicate Steps(w: World, e: Event, v: World) {
    Enabled(w, e) && v == Next(w, e)
  }

  ghost predicate IsRun(ws: seq<World>, es: seq<Event>) {
    && |ws| == |es| + 1
    && ws[0].disabled == {} && ws[0].calls == []
    && forall i {:trigger Steps(ws[i], es[i], ws[i + 1])} :: 0 <= i < |es| ==> Steps(ws[i], es[i], ws[i + 1])
  }

  predicate Broke(w: World, c: nat, action: string) {
    c < |w.calls| && w.calls[c].action == action && w.calls[c].pc == Ended(ContractError)
  }

  /** What each call may be doing, and why each disabled action is. */
  ghost predicate Inv(w: World) {
    && (forall a :: a in w.disabled <==> exists c: nat :: Broke(w, c, a))
    && (forall c :: 0 <= c < |w.calls| && (w.calls[c].pc.Posting? || Broke(w, c, w.calls[c].action)) ==>
          && w.calls[c].action in SELF_SERVICE && ServiceDisabledReason(w.setup) == None
          && (w.calls[c].action == "reprovision" ==> w.calls[c].confirmed))
  }

  lemma StepKeeps(w: World, e: Event)
    requires Inv(w) && Enabled(w, e)
    ensures Inv(Next(w, e))
  {
    var v := Next(w, e);
    forall a, c: nat | Broke(w, c, a) ensures Broke(v, c, a) {
    }
    forall a ensures a in v.disabled <==> exists c: nat :: Broke(v, c, a) {
      if a in v.disabled && a !in w.disabled { assert Broke(v, e.call, a); }
      if c: nat :| Broke(v, c, a) { assert Broke(w, c, a) || (e.Answered? && c == e.call); }
      if a in w.disabled {
        var c: nat :| Broke(w, c, a);
        assert Broke(v, c, a);
      }
    }
  }

  lemma {:induction false} RunInvariant(ws: seq<World>, es: seq<Event>, i: nat)
    requires IsRun(ws, es) && i < |ws|
    ensures Inv(ws[i])
  {
    if i > 0 {
      RunInvariant(ws, es, i - 1);
      var p := i - 1;
      assert Steps(ws[p], es[p], ws[p + 1]);
      StepKeeps(ws[i - 1], es[i - 1]);
    }
  }

  /** What each step does to the calls: refused before anything is looked at, turned away by the gate with its
      reason, or posted; and a posted one ends with the judgement on its answer unless it is cancelled. */
  lemma CallSteps(ws: seq<World>, es: seq<Event>, i: nat)
    requires IsRun(ws, es) && i < |es|
    ensures var w, v := ws[i], ws[i + 1];
            match es[i]
            case Invoke(action) =>
              var gate := Gate(w.setup, w.disabled, action);
              v == w.(calls := w.calls + [Call(action, false,
                if action == "reprovision" || action !in {"restart", "rename", "troubleshoot"} then Refused
                else if gate.Some? then Ended(Failed(Gated(gate.value))) else Posting)])
            case Reprovision(confirmed) =>
              var gate := Gate(w.setup, w.disabled, "reprovision");
              v == w.(calls := w.calls + [Call("reprovision", confirmed,
                if !confirmed then Refused else if gate.Some? then Ended(Failed(Gated(gate.value))) else Posting)])
            case Answered(c, reply) =>
              && c < |w.calls| && v.calls == w.calls[c := w.calls[c].(pc := Ended(Judge(reply)))]
              && v.disabled == w.disabled + (if Judge(reply) == ContractError then {w.calls[c].action} else {})
            case Cancel(c) => c < |w.calls| && v == w.(calls := w.calls[c := w.calls[c].(pc := Abandoned)])
  {
    assert Steps(ws[i], es[i], ws[i + 1]);
  }

  /** An action is disabled exactly when some call of that very action broke the contract. */
  lemma DisabledIff(ws: seq<World>, es: seq<Event>, i: nat, action: string)
    requires IsRun(ws, es) && i < |ws|
    ensures action in ws[i].disabled <==> exists c: nat :: Broke(ws[i], c, action)
  {
    RunInvariant(ws, es, i);
  }

  /** Why an action is unavailable, or that it is not: the reasons come in this order. */
  lemma GateSays(setup: Setup, disabled: set<string>, action: string)
    ensures var national := setup.authorityHost == "login.chinacloudapi.cn" || setup.authorityHost == "login.partner.microsoftonline.cn";
            var known := action == "restart" || action == "rename" || action == "troubleshoot" || action == "reprovision";
            var reason := Gate(setup, disabled, action);
            && (reason == Some(FlagOff) <==> !setup.betaEnabled)
            && (reason == Some(NationalCloud) <==> setup.betaEnabled && national)
            && (reason == Some(ContractBroken) <==> setup.betaEnabled && !national && action in disabled)
            && (reason == Some(AdminOnly) <==> setup.betaEnabled && !national && action !in disabled && (action == "restore" || action == "resize"))
            && (reason == None <==> setup.betaEnabled && !national && action !in disabled && known)
  {
  }

  /** All along a run, an action can be invoked exactly if the service is enabled in this cloud, it is one
      of the four, and no call of it has broken the contract so far. */
  lemma GateOpenIff(ws: seq<World>, es: seq<Event>, i: nat, action: string)
    requires IsRun(ws, es) && i < |ws|
    ensures Gate(ws[i].setup, ws[i].disabled, action) == None <==>
              ServiceDisabledReason(ws[0].setup) == None && action in SELF_SERVICE && !exists c: nat :: Broke(ws[i], c, action)
  {
    RunInvariant(ws, es, i);
    DisabledForGood(ws, es, 0, i);
  }

  /** Whatever is being posted passed every check: a self-service action of an enabled service, and for
      a reprovision the confirmation. */
  lemma PostingWasAllowed(ws: seq<World>, es: seq<Event>, i: nat, c: nat)
    requires IsRun(ws, es) && i < |ws| && c < |ws[i].calls| && ws[i].calls[c].pc.Posting?
    ensures ws[i].calls[c].action in SELF_SERVICE && ServiceDisabledReason(ws[i].setup) == None
    ensures ws[i].calls[c].action == "reprovision" ==> ws[i].calls[c].confirmed
  {
    RunInvariant(ws, es, i);
  }

  /** Once disabled, disabled for the session. */
  lemma {:induction false} DisabledForGood(ws: seq<World>, es: seq<Event>, i: nat, j: nat)
    requires IsRun(ws, es) && i <= j < |ws|
    ensures ws[i].disabled <= ws[j].disabled && ws[i].setup == ws[j].setup && |ws[i].calls| <= |ws[j].calls|
    decreases j - i
  {
    if i < j {
      assert Steps(ws[i], es[i], ws[i + 1]);
      DisabledForGood(ws, es, i + 1, j);
    }
  }

  /** No call begun after an action was disabled ever posts it, however long it and others run. */
  lemma {:induction false} NoPostAfterDisable(ws: seq<World>, es: seq<Event>, i: nat, j: nat, c: nat)
    requires IsRun(ws, es) && i <= j < |ws| && |ws[i].calls| <= c < |ws[j].calls|
    requires ws[j].calls[c].action in ws[i].disabled
    ensures ws[j].calls[c].pc == Refused
            || (ws[j].calls[c].pc.Ended? && ws[j].calls[c].pc.outcome.Failed? && ws[j].calls[c].pc.outcome.why.Gated?)
    decreases j
  {
    if i < j {
      var p := j - 1;
      assert Steps(ws[p], es[p], ws[p + 1]);
      DisabledForGood(ws, es, i, j - 1);
      if c < |ws[j - 1].calls| { NoPostAfterDisable(ws, es, i, j - 1, c); }
    }
  }

  /** A step changes the gate of one action at most, and only when the answer to a call of that action
      breaks the contract: every other action stays as usable as it was. */
  lemma OtherGatesUnaffected(ws: seq<World>, es: seq<Event>, i: nat, action: string)
    requires IsRun(ws, es) && i < |es|
    ensures Gate(ws[i + 1].setup, ws[i + 1].disabled, action) != Gate(ws[i].setup, ws[i].disabled, action) ==>
              && es[i].Answered? && es[i].call < |ws[i].calls| && BreaksContract(es[i].reply)
              && ws[i].calls[es[i].call].action == action
              && Gate(ws[i + 1].setup, ws[i + 1].disabled, action) == Some(ContractBroken)
  {
    assert Steps(ws[i], es[i], ws[i + 1]);
  }

  /** The client's outcomes that disable an action are exactly these: the answers its loop ends with
      when the endpoint is missing, refuses the request for good or sends content. A throttled, an
      unconsented, an unreachable and a failing server never do. */
  lemma BreaksContractIff(parse: GC.Parser, maxRetries: int, server: nat -> GC.Reply<Json>, tokens: nat -> GC.Grant,
                             reply: Reply, log: seq<GC.Act>, last: nat)
    requires GC.IsCall(parse, maxRetries, server, tokens, reply, log, last)
    ensures Judge(reply).ContractError? <==>
              && tokens(last).Granted? && server(last).Answer?
              && ((400 <= server(last).status < 500 && server(last).status != 403 && server(last).status != 429)
                  || ((server(last).status == 200 || server(last).status == 201)
                      && server(last).json.Some? && server(last).json.value != EmptyObject))
  {
  }
}
