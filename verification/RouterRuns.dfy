/** Runs of the failover router, told by what happened in them: which provider's success is relayed, when one is lost, and
    how the failure counter decides a translation. */
module RouterRuns {
  import opened Basics
  import opened Router
  import Agent
  import Engines

  // ---------- what happened to provider i of request r

  /** One thing that can happen to a provider: its address is allowed or denied, it answers or sending raises, closing the
      connection raises, after a 2xx or not, closing it again after an exception raises, or its stream ends. */
  datatype Fact = Allowed | Denied | Answers(answer: Answer) | CloseFails(good: bool) | CloseFailsAgain | Ends(clean: bool)

  /** The event e, in state s, is this for provider i of request r. */
  predicate Happens(s: State, e: Event, r: nat, i: nat, f: Fact) {
    && r < |s.requests| && |s.requests[r].trace| == i
    && match f
       case Allowed => e == Checked(r, true)
       case Denied => e == Checked(r, false)
       case Answers(answer) => e == Answered(r, answer)
       case CloseFails(good) =>
         e == Closed(r, true) && (if good then s.requests[r].stage.ClosingServed? else s.requests[r].stage.ClosingRefused?)
       case CloseFailsAgain => e == Closed(r, true) && s.requests[r].stage.ClosingErrored?
       case Ends(clean) => e == StreamEnded(r, clean)
  }

  /** It happened before step k. */
  ghost predicate Happened(ss: seq<State>, es: seq<Event>, k: nat, r: nat, i: nat, f: Fact)
    requires k <= |es| <= |ss|
  {
    exists m :: 0 <= m < k && Happens(ss[m], es[m], r, i, f)
  }

  ghost predicate AnsweredGood(ss: seq<State>, es: seq<Event>, k: nat, r: nat, i: nat)
    requires k <= |es| <= |ss|
  {
    exists code :: IsGood(code) && Happened(ss, es, k, r, i, Answers(Status(code)))
  }

  ghost predicate AnsweredBad(ss: seq<State>, es: seq<Event>, k: nat, r: nat, i: nat)
    requires k <= |es| <= |ss|
  {
    exists code :: !IsGood(code) && Happened(ss, es, k, r, i, Answers(Status(code)))
  }

  /** What an outcome tells. */
  predicate Tells(o: Outcome, f: Fact) {
    match f
    case Allowed => !o.Skipped? && !o.Pending? && !o.Blocked?
    case Denied => o.Blocked?
    case Answers(answer) =>
      (match o
       case Refused(code, closeRaised) => answer == Status(code)
       case ServedThenBroke(code) => answer == Status(code)
       case Served(code) => answer == Status(code)
       case Errored => answer == Raised
       case _ => false)
    case CloseFails(good) => if good then o.ServedThenBroke? else o.Refused? && o.closeRaised
    case CloseFailsAgain => false
    case Ends(clean) => o == Streamed(clean)
  }

  /** What the request remembers of its provider i. */
  predicate Remembers(q: Request, i: nat, f: Fact) {
    if i < |q.trace| then
      || Tells(q.trace[i], f)
      || (q.trace[i].Streamed? && f.Answers? && q.stage.Done? && q.stage.reply.Relayed? && q.stage.reply.index == i
          && f.answer == Status(q.stage.reply.code))
      || (f.CloseFailsAgain? && q.stage == Done(Escaped) && i + 1 == |q.trace|)
    else
      i == |q.trace| &&
      match q.stage
      case Sending => f.Allowed?
      case ClosingRefused(code) => f.Allowed? || f == Answers(Status(code))
      case ClosingServed(code) => f.Allowed? || f == Answers(Status(code))
      case Streaming(code) => f.Allowed? || f == Answers(Status(code))
      case ClosingErrored(outcome) => Tells(outcome, f)
      case _ => false
  }

  lemma AdvancedRemembers(backends: seq<Backend>, q: Request, i: nat, f: Fact)
    requires |q.trace| <= |backends| && !q.stage.Done?
    ensures Remembers(Advanced(backends, q), i, f) <==> i < |q.trace| && Remembers(q, i, f)
  {
    var q' := Advanced(backends, q);
    assert forall n :: |q.trace| <= n < |q'.trace| ==> q'.trace[n] == Skipped;
    hide NextWithUrl;
  }

  lemma ContinueRequests(backends: seq<Backend>, s: State, r: nat, q: Request)
    requires r < |s.requests| && |q.trace| <= |backends|
    ensures Continue(backends, s, r, q).requests == s.requests[r := Advanced(backends, q)]
  {
    hide Advanced;
  }

  /** The event moves its request alone, and that remembers one thing more. */
  ghost predicate MovesOn(s: State, e: Event, after: seq<Request>, i: nat, f: Fact)
    requires !e.Begin?
  {
    && e.r < |s.requests| && |after| == |s.requests|
    && (forall r :: 0 <= r < |after| && r != e.r ==> after[r] == s.requests[r])
    && (Remembers(after[e.r], i, f) <==> Remembers(s.requests[e.r], i, f) || Happens(s, e, e.r, i, f))
  }

  /** Going on to the next provider, with an outcome for this one. */
  lemma ContinueMovesOn(backends: seq<Backend>, s: State, t: State, e: Event, q: Request, i: nat, f: Fact)
    requires !e.Begin? && e.r < |s.requests| && t.requests == s.requests && |q.trace| <= |backends| && !q.stage.Done?
    requires i < |q.trace| && Remembers(q, i, f) <==> Remembers(s.requests[e.r], i, f) || Happens(s, e, e.r, i, f)
    ensures MovesOn(s, e, Continue(backends, t, e.r, q).requests, i, f)
  {
    hide Continue, Advanced, Remembers, Happens;
    ContinueRequests(backends, t, e.r, q);
    AdvancedRemembers(backends, q, i, f);
  }

  lemma CloseMovesOn(backends: seq<Backend>, s: State, r: nat, raised: bool, i: nat, f: Fact)
    requires Enabled(backends, s, Closed(r, raised)) && InRange(backends, s) && RequestOk(backends, s.requests[r])
    ensures MovesOn(s, Closed(r, raised), AfterClose(backends, s, r, raised).requests, i, f)
  {
    hide Continue;
    var q := s.requests[r];
    if !raised && q.stage.ClosingRefused? {
      ContinueMovesOn(backends, s, s, Closed(r, raised),
                      q.(trace := q.trace + [Refused(q.stage.code, false)], lastFailure := Some(q.stage.code)), i, f);
    } else if !raised && q.stage.ClosingErrored? {
      ContinueMovesOn(backends, s, s, Closed(r, raised), q.(trace := q.trace + [q.stage.outcome]), i, f);
    }
  }

  lemma CheckMovesOn(backends: seq<Backend>, s: State, r: nat, allowed: bool, i: nat, f: Fact)
    requires Enabled(backends, s, Checked(r, allowed)) && InRange(backends, s) && RequestOk(backends, s.requests[r])
    ensures MovesOn(s, Checked(r, allowed), Apply(backends, s, Checked(r, allowed)).requests, i, f)
  {
    hide Continue, AfterClose, Replied, AddFailed, AddOk;
    var q := s.requests[r];
    if !allowed {
      ContinueMovesOn(backends, s, s.(stats := AddFailed(s.stats, backends[|q.trace|].id)), Checked(r, allowed),
                      q.(trace := q.trace + [Blocked], lastFailure := Some(400)), i, f);
    }
  }

  lemma AnswerMovesOn(backends: seq<Backend>, s: State, e: Event, i: nat, f: Fact)
    requires Enabled(backends, s, e) && InRange(backends, s) && (e.Answered? || e.StreamEnded?)
    requires RequestOk(backends, s.requests[e.r])
    ensures MovesOn(s, e, Apply(backends, s, e).requests, i, f)
  {
    hide Continue, AfterClose, AddTotal, AddOk, AddFailed, AddLimited;
  }

  lemma EventMovesOn(backends: seq<Backend>, s: State, e: Event, i: nat, f: Fact)
    requires Enabled(backends, s, e) && InRange(backends, s) && RequestsOk(backends, s) && !e.Begin?
    ensures MovesOn(s, e, Apply(backends, s, e).requests, i, f)
  {
    hide Apply, RequestOk, MovesOn, InRange;
    assert e.r < |s.requests| && RequestOk(backends, s.requests[e.r]);
    match e
    case Checked(r, allowed) => CheckMovesOn(backends, s, r, allowed, i, f);
    case Closed(r, raised) => ClosedIs(backends, s, r, raised); CloseMovesOn(backends, s, r, raised, i, f);
    case _ => AnswerMovesOn(backends, s, e, i, f);
  }

  lemma ClosedIs(backends: seq<Backend>, s: State, r: nat, raised: bool)
    requires Enabled(backends, s, Closed(r, raised)) && InRange(backends, s)
    ensures Apply(backends, s, Closed(r, raised)) == AfterClose(backends, s, r, raised)
  {
    hide AfterClose;
  }

  lemma NewRemembersNothing(backends: seq<Backend>, s: State, stream: bool, i: nat, f: Fact)
    requires InRange(backends, s)
    ensures var after := Apply(backends, s, Begin(stream)).requests;
            && |after| == |s.requests| + 1
            && (forall r :: 0 <= r < |s.requests| ==> after[r] == s.requests[r])
            && !Remembers(after[|s.requests|], i, f)
  {
    hide Continue, Advanced;
    var q := Request(stream, [], Checking, None);
    ContinueRequests(backends, s.(requests := s.requests + [q]), |s.requests|, q);
    AdvancedRemembers(backends, q, i, f);
  }

  /** A request remembers exactly what happened. */
  lemma {:induction false} RemembersHistory(backends: seq<Backend>, ss: seq<State>, es: seq<Event>, k: nat, r: nat, i: nat, f: Fact)
    requires IsRun(backends, ss, es) && k < |ss|
    ensures Happened(ss, es, k, r, i, f) <==> r < |ss[k].requests| && Remembers(ss[k].requests[r], i, f)
  {
    hide Apply, Enabled, Remembers, Happens, RequestsOk, Counted;
    if k > 0 {
      RemembersHistory(backends, ss, es, k - 1, r, i, f);
      var s, e := ss[k - 1], es[k - 1];
      assert ss[k] == Apply(backends, s, e);
      HappensTo(s, e, r, i, f);
      if e.Begin? {
        NewRemembersNothing(backends, s, e.stream, i, f);
      } else {
        InvariantHolds(backends, ss, es, k - 1);
        RequestsOkKept(backends, s, e);
        EventMovesOn(backends, s, e, i, f);
      }
      OneMore(ss, es, k, r, i, f);
    }
  }

  lemma HappensTo(s: State, e: Event, r: nat, i: nat, f: Fact)
    ensures Happens(s, e, r, i, f) ==> !e.Begin? && e.r == r && r < |s.requests|
  {
  }

  lemma OneMore(ss: seq<State>, es: seq<Event>, k: nat, r: nat, i: nat, f: Fact)
    requires 0 < k <= |es| <= |ss|
    ensures Happened(ss, es, k, r, i, f) <==> Happened(ss, es, k - 1, r, i, f) || Happens(ss[k - 1], es[k - 1], r, i, f)
  {
    hide Happens;
  }

  // ---------- nobody is contacted whose address was not allowed

  /** A provider's outcome is Blocked if and only if its address check refused it. */
  lemma BlockedIffDenied(backends: seq<Backend>, ss: seq<State>, es: seq<Event>, k: nat, r: nat, i: nat)
    requires IsRun(backends, ss, es) && k < |ss| && r < |ss[k].requests| && i < |ss[k].requests[r].trace|
    ensures ss[k].requests[r].trace[i] == Blocked <==> Happened(ss, es, k, r, i, Denied)
  {
    RemembersHistory(backends, ss, es, k, r, i, Denied);
    hide IsRun, Happened;
  }

  /** Every answer was preceded by a check that allowed the address, and by none that refused it. */
  lemma AnsweredOnlyIfAllowed(backends: seq<Backend>, ss: seq<State>, es: seq<Event>, m: nat)
    requires IsRun(backends, ss, es) && m < |es| && es[m].Answered?
    ensures Enabled(backends, ss[m], es[m])
    ensures var i := |ss[m].requests[es[m].r].trace|;
            Happened(ss, es, m, es[m].r, i, Allowed) && !Happened(ss, es, m, es[m].r, i, Denied)
  {
    assert Enabled(backends, ss[m], es[m]);
    var i := |ss[m].requests[es[m].r].trace|;
    RemembersHistory(backends, ss, es, m, es[m].r, i, Allowed);
    RemembersHistory(backends, ss, es, m, es[m].r, i, Denied);
    hide IsRun, Happened, Apply;
  }

  // ---------- the first success in order

  /** Provider i was tried and did not serve the request. */
  ghost predicate FellInRun(ss: seq<State>, es: seq<Event>, k: nat, r: nat, i: nat)
    requires k <= |es| <= |ss|
  {
    || Happened(ss, es, k, r, i, Denied)
    || Happened(ss, es, k, r, i, Answers(Raised))
    || AnsweredBad(ss, es, k, r, i)
    || (AnsweredGood(ss, es, k, r, i) && Happened(ss, es, k, r, i, CloseFails(true)))
  }

  ghost predicate Untouched(ss: seq<State>, es: seq<Event>, k: nat, r: nat, i: nat)
    requires k <= |es| <= |ss|
  {
    forall f :: !Happened(ss, es, k, r, i, f)
  }

  /** Provider i was passed over for want of a base URL, or fell. */
  ghost predicate Passed(backends: seq<Backend>, ss: seq<State>, es: seq<Event>, k: nat, r: nat, i: nat)
    requires k <= |es| <= |ss| && i < |backends|
  {
    if backends[i].baseUrl == "" then Untouched(ss, es, k, r, i) else FellInRun(ss, es, k, r, i)
  }

  lemma PassedIfBehind(backends: seq<Backend>, ss: seq<State>, es: seq<Event>, k: nat, r: nat, i: nat)
    requires IsRun(backends, ss, es) && k < |ss| && r < |ss[k].requests| && i < |ss[k].requests[r].trace| && i < |backends|
    requires ss[k].requests[r].stage.Done? && !(ss[k].requests[r].stage.reply == Escaped && i + 1 == |ss[k].requests[r].trace|)
    requires if backends[i].baseUrl == "" then ss[k].requests[r].trace[i] == Skipped else Fell(ss[k].requests[r].trace[i])
    ensures Passed(backends, ss, es, k, r, i)
  {
    var o := ss[k].requests[r].trace[i];
    if o == Skipped {
      forall f
        ensures !Happened(ss, es, k, r, i, f)
      {
        RemembersHistory(backends, ss, es, k, r, i, f);
      }
    } else {
      RemembersHistory(backends, ss, es, k, r, i, Denied);
      RemembersHistory(backends, ss, es, k, r, i, Answers(Raised));
      RemembersHistory(backends, ss, es, k, r, i, CloseFails(true));
      if o.Refused? || o.ServedThenBroke? {
        RemembersHistory(backends, ss, es, k, r, i, Answers(Status(o.code)));
      }
    }
    hide IsRun, Happened;
  }

  /** In every run the reply of a request is the 2xx of the first provider that has a base URL, an allowed address and did
      not fall: each one before it either has no base URL and was left alone, or its address was denied, it answered with
      something else than a 2xx, sending raised, or closing the connection of its 2xx raised; nobody after it was
      touched. Without such a provider all of them were passed over like that. */
  lemma FirstSuccessInOrder(backends: seq<Backend>, ss: seq<State>, es: seq<Event>, k: nat, r: nat)
    requires IsRun(backends, ss, es) && k < |ss| && r < |ss[k].requests| && ss[k].requests[r].stage.Done?
    ensures match ss[k].requests[r].stage.reply
            case Relayed(index, code) =>
              && index < |backends| && backends[index].baseUrl != "" && IsGood(code)
              && Happened(ss, es, k, r, index, Allowed) && Happened(ss, es, k, r, index, Answers(Status(code)))
              && (forall i :: 0 <= i < index ==> Passed(backends, ss, es, k, r, i))
              && (forall i :: index < i < |backends| ==> Untouched(ss, es, k, r, i))
            case Failure(code) => backends != [] && forall i :: 0 <= i < |backends| ==> Passed(backends, ss, es, k, r, i)
            case NoProviders => backends == []
            case Escaped => exists i :: 0 <= i < |backends| && Happened(ss, es, k, r, i, CloseFailsAgain)
  {
    assert k <= |es| <= |ss|;
    DoneOk(backends, ss, es, k, r);
    hide IsRun, Passed, Happened, Untouched, InRange;
    var q := ss[k].requests[r];
    match q.stage.reply
    case Relayed(index, code) =>
      RelayedHistory(backends, ss, es, k, r);
      forall i | 0 <= i < index
        ensures Passed(backends, ss, es, k, r, i)
      {
        PassedIfBehind(backends, ss, es, k, r, i);
      }
      forall i | index < i < |backends|
        ensures Untouched(ss, es, k, r, i)
      {
        NeverReached(backends, ss, es, k, r, i);
      }
    case Failure(code) =>
      forall i | 0 <= i < |backends|
        ensures Passed(backends, ss, es, k, r, i)
      {
        PassedIfBehind(backends, ss, es, k, r, i);
      }
    case Escaped => RemembersHistory(backends, ss, es, k, r, |q.trace| - 1, CloseFailsAgain);
    case NoProviders =>
  }

  lemma DoneOk(backends: seq<Backend>, ss: seq<State>, es: seq<Event>, k: nat, r: nat)
    requires IsRun(backends, ss, es) && k < |ss| && r < |ss[k].requests| && ss[k].requests[r].stage.Done?
    ensures ReplyOk(backends, ss[k].requests[r], ss[k].requests[r].stage.reply)
  {
    InvariantHolds(backends, ss, es, k);
    assert RequestOk(backends, ss[k].requests[r]);
    hide IsRun, Counted;
  }

  lemma RelayedHistory(backends: seq<Backend>, ss: seq<State>, es: seq<Event>, k: nat, r: nat)
    requires IsRun(backends, ss, es) && k < |ss| && r < |ss[k].requests|
    requires ss[k].requests[r].stage.Done? && ss[k].requests[r].stage.reply.Relayed?
    ensures var reply := ss[k].requests[r].stage.reply;
            && Happened(ss, es, k, r, reply.index, Allowed)
            && Happened(ss, es, k, r, reply.index, Answers(Status(reply.code)))
  {
    DoneOk(backends, ss, es, k, r);
    var reply := ss[k].requests[r].stage.reply;
    RemembersHistory(backends, ss, es, k, r, reply.index, Allowed);
    RemembersHistory(backends, ss, es, k, r, reply.index, Answers(Status(reply.code)));
    hide IsRun, Happened;
  }

  lemma NeverReached(backends: seq<Backend>, ss: seq<State>, es: seq<Event>, k: nat, r: nat, i: nat)
    requires IsRun(backends, ss, es) && k < |ss| && r < |ss[k].requests| && ss[k].requests[r].stage.Done?
    requires i >= |ss[k].requests[r].trace|
    ensures Untouched(ss, es, k, r, i)
  {
    forall f
      ensures !Happened(ss, es, k, r, i, f)
    {
      RemembersHistory(backends, ss, es, k, r, i, f);
    }
    hide IsRun, Happened;
  }

  /** The relayed provider answered with a 2xx, and an earlier one did so if and only if closing the connection over which
      it had done so raised. */
  lemma EarlierGoodIffLost(backends: seq<Backend>, ss: seq<State>, es: seq<Event>, k: nat, r: nat)
    requires IsRun(backends, ss, es) && k < |ss| && r < |ss[k].requests|
    requires ss[k].requests[r].stage.Done? && ss[k].requests[r].stage.reply.Relayed?
    ensures var index := ss[k].requests[r].stage.reply.index;
            && AnsweredGood(ss, es, k, r, index) && !Happened(ss, es, k, r, index, CloseFails(true))
            && forall i :: 0 <= i < index ==> (AnsweredGood(ss, es, k, r, i) <==> Happened(ss, es, k, r, i, CloseFails(true)))
  {
    assert k <= |es| <= |ss|;
    DoneOk(backends, ss, es, k, r);
    RelayedHistory(backends, ss, es, k, r);
    var index := ss[k].requests[r].stage.reply.index;
    RemembersHistory(backends, ss, es, k, r, index, CloseFails(true));
    hide IsRun, Happened, Apply, Enabled;
    forall i | 0 <= i < index
      ensures AnsweredGood(ss, es, k, r, i) <==> Happened(ss, es, k, r, i, CloseFails(true))
    {
      GoodIffLost(backends, ss, es, k, r, i);
    }
  }

  lemma GoodIffLost(backends: seq<Backend>, ss: seq<State>, es: seq<Event>, k: nat, r: nat, i: nat)
    requires IsRun(backends, ss, es) && k < |ss| && r < |ss[k].requests| && i < |ss[k].requests[r].trace|
    requires !ss[k].requests[r].trace[i].Served? && !ss[k].requests[r].trace[i].Streamed?
    requires ss[k].requests[r].trace[i].Skipped? || Fell(ss[k].requests[r].trace[i])
    ensures AnsweredGood(ss, es, k, r, i) <==> Happened(ss, es, k, r, i, CloseFails(true))
  {
    hide Happened;
    var o := ss[k].requests[r].trace[i];
    RemembersHistory(backends, ss, es, k, r, i, CloseFails(true));
    if AnsweredGood(ss, es, k, r, i) {
      var code :| IsGood(code) && Happened(ss, es, k, r, i, Answers(Status(code)));
      RemembersHistory(backends, ss, es, k, r, i, Answers(Status(code)));
    }
    if o.ServedThenBroke? {
      RemembersHistory(backends, ss, es, k, r, i, Answers(Status(o.code)));
    }
    hide IsRun;
  }

  /** So in a run in which closing a connection never raises, the reply is that of the first provider that answered with
      a 2xx. */
  lemma FirstGoodIsRelayed(backends: seq<Backend>, ss: seq<State>, es: seq<Event>, k: nat, r: nat)
    requires IsRun(backends, ss, es) && k < |ss| && r < |ss[k].requests|
    requires ss[k].requests[r].stage.Done? && ss[k].requests[r].stage.reply.Relayed?
    requires forall m :: 0 <= m < k ==> !CloseRaises(es[m])
    ensures AnsweredGood(ss, es, k, r, ss[k].requests[r].stage.reply.index)
    ensures forall i :: 0 <= i < ss[k].requests[r].stage.reply.index ==> !AnsweredGood(ss, es, k, r, i)
  {
    EarlierGoodIffLost(backends, ss, es, k, r);
    hide IsRun, AnsweredGood;
  }

  /** A success that is lost: two providers, the first answers 200, closing its connection raises, and the reply is the
      201 of the second. */
  lemma LostSuccessHappens() returns (backends: seq<Backend>, ss: seq<State>, es: seq<Event>)
    ensures IsRun(backends, ss, es) && |ss| == 9
    ensures |ss[8].requests| == 1 && ss[8].requests[0].stage == Done(Relayed(1, 201))
    ensures ss[8].requests[0].trace == [ServedThenBroke(200), Served(201)]
    ensures AnsweredGood(ss, es, 8, 0, 0) && Happened(ss, es, 8, 0, 0, CloseFails(true))
  {
    backends, ss, es := LostSuccessRun();
    assert |es| == 8;
    hide IsRun;
    RemembersHistory(backends, ss, es, 8, 0, 0, Answers(Status(200)));
    RemembersHistory(backends, ss, es, 8, 0, 0, CloseFails(true));
    hide Happened;
  }

  lemma LostSuccessRun() returns (backends: seq<Backend>, ss: seq<State>, es: seq<Event>)
    ensures IsRun(backends, ss, es) && |ss| == 9
    ensures ss[8].requests == [Request(false, [ServedThenBroke(200), Served(201)], Done(Relayed(1, 201)), Some(502))]
  {
    hide Apply, Enabled, InRange;
    backends := [Backend("a", "https://a", "A"), Backend("b", "https://b", "B")];
    es := [Begin(false), Checked(0, true), Answered(0, Status(200)), Closed(0, true), Closed(0, false),
           Checked(0, true), Answered(0, Status(201)), Closed(0, false)];
    var s0 := Initial("A");
    var s4 := FirstHalf(backends, s0);
    var s8 := SecondHalf(backends, s4[3]);
    ss := [s0] + s4 + s8;
  }

  lemma FirstHalf(backends: seq<Backend>, s0: State) returns (ss: seq<State>)
    requires |backends| == 2 && backends[0].baseUrl != "" && s0.requests == []
    ensures |ss| == 4
    ensures Follows(backends, s0, Begin(false), ss[0]) && Follows(backends, ss[0], Checked(0, true), ss[1])
    ensures Follows(backends, ss[1], Answered(0, Status(200)), ss[2]) && Follows(backends, ss[2], Closed(0, true), ss[3])
    ensures ss[3].requests == [Request(false, [], ClosingErrored(ServedThenBroke(200)), Some(502))]
  {
    hide Apply, Enabled, InRange;
    Begins(backends, s0);
    var s1 := Apply(backends, s0, Begin(false));
    Allows(backends, s1, [], None);
    var s2 := Apply(backends, s1, Checked(0, true));
    AnswersWith(backends, s2, [], 200, None);
    var s3 := Apply(backends, s2, Answered(0, Status(200)));
    Loses(backends, s3);
    ss := [s1, s2, s3, Apply(backends, s3, Closed(0, true))];
  }

  lemma SecondHalf(backends: seq<Backend>, s4: State) returns (ss: seq<State>)
    requires |backends| == 2 && backends[1].baseUrl != ""
    requires s4.requests == [Request(false, [], ClosingErrored(ServedThenBroke(200)), Some(502))]
    ensures |ss| == 4
    ensures Follows(backends, s4, Closed(0, false), ss[0]) && Follows(backends, ss[0], Checked(0, true), ss[1])
    ensures Follows(backends, ss[1], Answered(0, Status(201)), ss[2]) && Follows(backends, ss[2], Closed(0, false), ss[3])
    ensures ss[3].requests == [Request(false, [ServedThenBroke(200), Served(201)], Done(Relayed(1, 201)), Some(502))]
  {
    hide Apply, Enabled, InRange;
    GoesOn(backends, s4);
    var s5 := Apply(backends, s4, Closed(0, false));
    Allows(backends, s5, [ServedThenBroke(200)], Some(502));
    var s6 := Apply(backends, s5, Checked(0, true));
    AnswersWith(backends, s6, [ServedThenBroke(200)], 201, Some(502));
    var s7 := Apply(backends, s6, Answered(0, Status(201)));
    Relays(backends, s7);
    ss := [s5, s6, s7, Apply(backends, s7, Closed(0, false))];
  }

  predicate Follows(backends: seq<Backend>, s: State, e: Event, s': State) {
    InRange(backends, s) && Enabled(backends, s, e) && s' == Apply(backends, s, e)
  }

  predicate IsStep(backends: seq<Backend>, s: State, e: Event, q: Request) {
    InRange(backends, s) && Enabled(backends, s, e) && Apply(backends, s, e).requests == [q]
  }

  lemma Begins(backends: seq<Backend>, s: State)
    requires |backends| == 2 && backends[0].baseUrl != "" && s.requests == []
    ensures IsStep(backends, s, Begin(false), Request(false, [], Checking, None))
  {
  }

  lemma Allows(backends: seq<Backend>, s: State, trace: seq<Outcome>, last: Option<int>)
    requires |trace| < |backends| && s.requests == [Request(false, trace, Checking, last)]
    ensures IsStep(backends, s, Checked(0, true), Request(false, trace, Sending, last))
  {
  }

  lemma AnswersWith(backends: seq<Backend>, s: State, trace: seq<Outcome>, code: int, last: Option<int>)
    requires |trace| < |backends| && s.requests == [Request(false, trace, Sending, last)] && IsGood(code)
    ensures IsStep(backends, s, Answered(0, Status(code)), Request(false, trace, ClosingServed(code), last))
  {
  }

  lemma Loses(backends: seq<Backend>, s: State)
    requires |backends| == 2 && s.requests == [Request(false, [], ClosingServed(200), None)]
    ensures IsStep(backends, s, Closed(0, true), Request(false, [], ClosingErrored(ServedThenBroke(200)), Some(502)))
  {
  }

  lemma GoesOn(backends: seq<Backend>, s: State)
    requires |backends| == 2 && backends[1].baseUrl != ""
    requires s.requests == [Request(false, [], ClosingErrored(ServedThenBroke(200)), Some(502))]
    ensures IsStep(backends, s, Closed(0, false), Request(false, [ServedThenBroke(200)], Checking, Some(502)))
  {
    var q := Request(false, [] + [ServedThenBroke(200)], ClosingErrored(ServedThenBroke(200)), Some(502));
    assert q.trace == [ServedThenBroke(200)];
    assert NextWithUrl(backends, 1) == 1;
    assert q.trace + Skips(0) == [ServedThenBroke(200)];
  }

  lemma Relays(backends: seq<Backend>, s: State)
    requires |backends| == 2 && s.requests == [Request(false, [ServedThenBroke(200)], ClosingServed(201), Some(502))]
    ensures IsStep(backends, s, Closed(0, false),
                   Request(false, [ServedThenBroke(200), Served(201)], Done(Relayed(1, 201)), Some(502)))
  {
    assert [ServedThenBroke(200)] + [Served(201)] == [ServedThenBroke(200), Served(201)];
  }

  // ---------- the active provider, and what kind of answer was asked for

  /** The provider that answered last with a 2xx, or the first one at the start. */
  ghost function LastServer(backends: seq<Backend>, ss: seq<State>, es: seq<Event>, k: nat): string
    requires k <= |es| < |ss|
  {
    if k == 0 then ss[0].active
    else if Serves(backends, ss[k - 1], es[k - 1]) then backends[|ss[k - 1].requests[es[k - 1].r].trace|].name
    else LastServer(backends, ss, es, k - 1)
  }

  predicate Serves(backends: seq<Backend>, s: State, e: Event) {
    e.Answered? && e.answer.Status? && IsGood(e.answer.code) && e.r < |s.requests| && |s.requests[e.r].trace| < |backends|
  }

  lemma ContinueKeepsActive(backends: seq<Backend>, t: State, r: nat, q: Request)
    requires r < |t.requests| && |q.trace| <= |backends|
    ensures Continue(backends, t, r, q).active == t.active
    ensures Continue(backends, t, r, q).requests == t.requests[r := Advanced(backends, q)]
  {
    hide Advanced;
  }

  lemma ActiveStep(backends: seq<Backend>, s: State, e: Event)
    requires InRange(backends, s) && Enabled(backends, s, e)
    ensures var s' := Apply(backends, s, e);
            && s'.active == (if Serves(backends, s, e) then backends[|s.requests[e.r].trace|].name else s.active)
            && |s'.requests| == |s.requests| + (if e.Begin? then 1 else 0)
            && (forall r :: 0 <= r < |s.requests| ==> s'.requests[r].stream == s.requests[r].stream)
            && (e.Begin? ==> s'.requests[|s.requests|].stream == e.stream)
  {
    hide NextWithUrl, AddTotal, AddOk, AddFailed, AddLimited, Skips, Continue;
    forall t: State, r: nat, q: Request | r < |t.requests| && |q.trace| <= |backends|
      ensures Continue(backends, t, r, q).active == t.active
      ensures Continue(backends, t, r, q).requests == t.requests[r := Advanced(backends, q)]
    {
      ContinueKeepsActive(backends, t, r, q);
    }
  }

  /** In every run the active provider is the one that answered last with a 2xx. */
  lemma {:induction false} ActiveIsLastServer(backends: seq<Backend>, ss: seq<State>, es: seq<Event>, k: nat)
    requires IsRun(backends, ss, es) && k < |ss|
    ensures ss[k].active == LastServer(backends, ss, es, k)
  {
    hide Apply, Enabled, Serves;
    if k > 0 {
      ActiveIsLastServer(backends, ss, es, k - 1);
      ActiveStep(backends, ss[k - 1], es[k - 1]);
    }
  }

  // ---------- completions, as the requests show them

  /** Some request runs out of providers in this step. */
  ghost predicate Exhausts(s: State, s': State) {
    exists r :: 0 <= r < |s'.requests| && IsExhausted(s'.requests[r]) && (r < |s.requests| ==> !IsExhausted(s.requests[r]))
  }

  /** Some request gets a 2xx in this step. */
  ghost predicate GetsGood(s: State, s': State) {
    exists r :: 0 <= r < |s.requests| && r < |s'.requests| && s.requests[r].stage.Sending?
                && (s'.requests[r].stage.Streaming? || s'.requests[r].stage.ClosingServed?)
  }

  ghost function CompletedIn(s: State, s': State): seq<Completion> {
    if Exhausts(s, s') then [Exhausted] else if GetsGood(s, s') then [Good] else []
  }

  /** The completions of a run in their order. */
  ghost function Completions(ss: seq<State>, k: nat): seq<Completion>
    requires k < |ss|
  {
    if k == 0 then [] else Completions(ss, k - 1) + CompletedIn(ss[k - 1], ss[k])
  }

  /** The second list differs from the first at r at most, which may be new. */
  predicate OnlyAt(before: seq<Request>, after: seq<Request>, r: nat) {
    && r < |after|
    && (|after| == |before| || (|after| == |before| + 1 && r == |before|))
    && forall i :: 0 <= i < |before| && i != r ==> after[i] == before[i]
  }

  lemma OnlyAtUpdate(before: seq<Request>, after: seq<Request>, r: nat, q: Request)
    requires OnlyAt(before, after, r)
    ensures OnlyAt(before, after[r := q], r)
  {
  }

  lemma OnlyMoved(s: State, s': State, r: nat)
    requires OnlyAt(s.requests, s'.requests, r)
    ensures Exhausts(s, s') <==> IsExhausted(s'.requests[r]) && (r < |s.requests| ==> !IsExhausted(s.requests[r]))
    ensures GetsGood(s, s') <==> r < |s.requests| && s.requests[r].stage.Sending?
                                 && (s'.requests[r].stage.Streaming? || s'.requests[r].stage.ClosingServed?)
  {
  }

  lemma ContinueLog(backends: seq<Backend>, t: State, r: nat, q: Request)
    requires r < |t.requests| && |q.trace| <= |backends|
    ensures var s' := Continue(backends, t, r, q);
            && s'.requests == t.requests[r := Advanced(backends, q)]
            && s'.log == t.log + (if IsExhausted(s'.requests[r]) then [Exhausted] else [])
            && !s'.requests[r].stage.Streaming? && !s'.requests[r].stage.ClosingServed?
  {
    assert t.log + [] == t.log;
  }

  /** Going on to the next provider completes the request exactly when there is none. */
  lemma ContinueCompletes(backends: seq<Backend>, s: State, t: State, r: nat, q: Request)
    requires r < |t.requests| && |q.trace| <= |backends| && t.log == s.log
    requires OnlyAt(s.requests, t.requests, r)
    requires r < |s.requests| ==> !IsExhausted(s.requests[r])
    ensures Continue(backends, t, r, q).log == s.log + CompletedIn(s, Continue(backends, t, r, q))
  {
    hide Continue, Advanced, Exhausts, GetsGood, OnlyAt;
    var s' := Continue(backends, t, r, q);
    ContinueLog(backends, t, r, q);
    OnlyAtUpdate(s.requests, t.requests, r, Advanced(backends, q));
    OnlyMoved(s, s', r);
    assert s.log + [] == s.log;
  }

  lemma CloseCompletes(backends: seq<Backend>, s: State, r: nat, raised: bool)
    requires InRange(backends, s) && Enabled(backends, s, Closed(r, raised))
    ensures AfterClose(backends, s, r, raised).log == s.log + CompletedIn(s, AfterClose(backends, s, r, raised))
  {
    hide Continue, Exhausts, GetsGood;
    var q := s.requests[r];
    if !raised && q.stage.ClosingRefused? {
      ContinueCompletes(backends, s, s, r,
                        q.(trace := q.trace + [Refused(q.stage.code, false)], lastFailure := Some(q.stage.code)));
    } else if !raised && q.stage.ClosingErrored? {
      ContinueCompletes(backends, s, s, r, q.(trace := q.trace + [q.stage.outcome]));
    } else {
      OnlyMoved(s, AfterClose(backends, s, r, raised), r);
      assert s.log + [] == s.log;
    }
  }

  /** The log grows by what the requests show. */
  lemma LogGrowsByCompletions(backends: seq<Backend>, s: State, e: Event)
    requires InRange(backends, s) && Enabled(backends, s, e)
    ensures Apply(backends, s, e).log == s.log + CompletedIn(s, Apply(backends, s, e))
  {
    hide Continue, AfterClose, Exhausts, GetsGood;
    assert s.log + [] == s.log;
    match e
    case Begin(stream) =>
      if backends != [] {
        var q := Request(stream, [], Checking, None);
        ContinueCompletes(backends, s, s.(requests := s.requests + [q]), |s.requests|, q);
      } else {
        OnlyMoved(s, Apply(backends, s, e), |s.requests|);
      }
    case Checked(r, allowed) =>
      if allowed {
        OnlyMoved(s, Apply(backends, s, e), r);
      } else {
        var q := s.requests[r];
        ContinueCompletes(backends, s, s.(stats := AddFailed(s.stats, backends[|q.trace|].id)), r,
                          q.(trace := q.trace + [Blocked], lastFailure := Some(400)));
      }
    case Closed(r, raised) => CloseCompletes(backends, s, r, raised);
    case _ => OnlyMoved(s, Apply(backends, s, e), e.r);
  }

  /** In every run the failure counter is the number of requests that ran out of providers since a request last got a
      2xx. */
  lemma {:induction false} StreakOfRun(backends: seq<Backend>, ss: seq<State>, es: seq<Event>, k: nat)
    requires IsRun(backends, ss, es) && k < |ss|
    ensures ss[k].log == Completions(ss, k)
    ensures ss[k].streak == Trailing(Completions(ss, k))
  {
    hide Apply, Enabled, CompletedIn;
    StreakCountsExhausted(backends, ss, es, k);
    if k > 0 {
      StreakOfRun(backends, ss, es, k - 1);
      LogGrowsByCompletions(backends, ss[k - 1], es[k - 1]);
    }
  }

  ghost predicate LastThreeExhausted(log: seq<Completion>) {
    |log| >= 3 && log[|log| - 1] == Exhausted && log[|log| - 2] == Exhausted && log[|log| - 3] == Exhausted
  }

  /** A translation through the router that ends without raising, when the router is in state k of a run, counts as clean
      if and only if the last three completions were not all requests that ran out of providers. */
  lemma CleanUnlessThreeExhausted(backends: seq<Backend>, ss: seq<State>, es: seq<Event>, k: nat, id: nat, s: Agent.Script)
    requires IsRun(backends, ss, es) && k < |ss|
    requires s.streak == ss[k].streak && !s.settingsRaise && !s.raises
    ensures Agent.Clean(Engines.RouterEngine(id), s) <==> !LastThreeExhausted(Completions(ss, k))
  {
    hide IsRun, Trailing;
    StreakOfRun(backends, ss, es, k);
    RejectedAfterThree(Completions(ss, k));
  }
}
