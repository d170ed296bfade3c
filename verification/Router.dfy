/** The failover router of one job (pc-api-python/router.py): an ordered provider loop per request, with several
    requests in flight. A step is what runs between two awaits. */
module Router {
  import opened Basics

  /** One provider snapshot of the job, as far as the loop looks at it. */
  datatype Backend = Backend(id: string, baseUrl: string, name: string)

  datatype Stats = Stats(total: int, ok: int, failed: int, limited: int)

  /** What became of one provider in one request. Pending: counted in total_requests, nothing else yet. */
  datatype Outcome =
    | Skipped
    | Pending
    | Blocked
    | Refused(code: int, closeRaised: bool)
    | Errored
    | ServedThenBroke(code: int)
    | Served(code: int)
    | Streamed(ok: bool)

  datatype Reply = Relayed(index: nat, code: int) | Failure(code: int) | Escaped | NoProviders

  datatype Stage =
    | Checking
    | Sending
    | ClosingRefused(code: int)
    | ClosingServed(code: int)
    | ClosingErrored(outcome: Outcome)
    | Streaming(code: int)
    | Done(reply: Reply)

  /** A request: what became of the providers it is through with, and where it is with the next one. */
  datatype Request = Request(stream: bool, trace: seq<Outcome>, stage: Stage, lastFailure: Option<int>)

  datatype Completion = Exhausted | Good

  datatype State = State(
    stats: map<string, Stats>, active: string, streak: nat, requests: seq<Request>, log: seq<Completion>)

  datatype Answer = Status(code: int) | Raised

  datatype Event =
    | Begin(stream: bool)
    | Checked(r: nat, allowed: bool)
    | Answered(r: nat, answer: Answer)
    | Closed(r: nat, raised: bool)
    | StreamEnded(r: nat, clean: bool)

  predicate IsGood(code: int) {
    200 <= code < 300
  }

  // ---------- counters

  function Row(stats: map<string, Stats>, id: string): Stats {
    if id in stats then stats[id] else Stats(0, 0, 0, 0)
  }

  function AddTotal(stats: map<string, Stats>, id: string): map<string, Stats> {
    stats[id := Row(stats, id).(total := Row(stats, id).total + 1)]
  }

  function AddOk(stats: map<string, Stats>, id: string): map<string, Stats> {
    stats[id := Row(stats, id).(ok := Row(stats, id).ok + 1)]
  }

  function AddFailed(stats: map<string, Stats>, id: string): map<string, Stats> {
    stats[id := Row(stats, id).(failed := Row(stats, id).failed + 1)]
  }

  function AddLimited(stats: map<string, Stats>, id: string): map<string, Stats> {
    stats[id := Row(stats, id).(limited := Row(stats, id).limited + 1)]
  }

  // ---------- steps

  /** The first provider from i on that has a base URL. */
  function NextWithUrl(backends: seq<Backend>, i: nat): (n: nat)
    requires i <= |backends|
    ensures i <= n <= |backends|
    ensures forall k :: i <= k < n ==> backends[k].baseUrl == ""
    ensures n < |backends| ==> backends[n].baseUrl != ""
    decreases |backends| - i
  {
    if i == |backends| || backends[i].baseUrl != "" then i else NextWithUrl(backends, i + 1)
  }

  function Skips(n: nat): seq<Outcome> {
    seq(n, i => Skipped)
  }

  /** The request after skipping to the next provider with a base URL, or to the end of the list. */
  function Advanced(backends: seq<Backend>, q: Request): Request
    requires |q.trace| <= |backends|
  {
    var n := NextWithUrl(backends, |q.trace|);
    var trace := q.trace + Skips(n - |q.trace|);
    if n < |backends| then q.(trace := trace, stage := Checking)
    else q.(trace := trace, stage := Done(Failure(if q.lastFailure.Some? then q.lastFailure.value else 502)))
  }

  /** The rest of the for loop: on to the next provider, or out of providers. */
  function Continue(backends: seq<Backend>, s: State, r: nat, q: Request): State
    requires r < |s.requests| && |q.trace| <= |backends|
  {
    var q' := Advanced(backends, q);
    if q'.stage == Checking
    then s.(stats := AddTotal(s.stats, backends[|q'.trace|].id), requests := s.requests[r := q'])
    else s.(streak := s.streak + 1, requests := s.requests[r := q'], log := s.log + [Exhausted])
  }

  predicate Enabled(backends: seq<Backend>, s: State, e: Event) {
    match e
    case Begin(stream) => true
    case Checked(r, allowed) => r < |s.requests| && s.requests[r].stage.Checking?
    case Answered(r, answer) => r < |s.requests| && s.requests[r].stage.Sending?
    case Closed(r, raised) =>
      r < |s.requests| &&
      (s.requests[r].stage.ClosingRefused? || s.requests[r].stage.ClosingServed? || s.requests[r].stage.ClosingErrored?)
    case StreamEnded(r, clean) => r < |s.requests| && s.requests[r].stage.Streaming?
  }

  /** Every unfinished request is at a provider. */
  predicate InRange(backends: seq<Backend>, s: State) {
    forall i :: 0 <= i < |s.requests| && !s.requests[i].stage.Done? ==> |s.requests[i].trace| < |backends|
  }

  function Replied(backends: seq<Backend>, s: State, r: nat, answer: Answer): State
    requires r < |s.requests| && |s.requests[r].trace| < |backends|
  {
    var q := s.requests[r];
    var backend := backends[|q.trace|];
    match answer
    case Raised =>
      s.(stats := AddFailed(s.stats, backend.id),
         requests := s.requests[r := q.(stage := ClosingErrored(Errored), lastFailure := Some(502))])
    case Status(code) =>
      if !IsGood(code) then
        var stats := if code == 429 then AddLimited(s.stats, backend.id) else s.stats;
        s.(stats := AddFailed(stats, backend.id),
           requests := s.requests[r := q.(stage := ClosingRefused(code))])
      else if q.stream then
        s.(active := backend.name, streak := 0, log := s.log + [Good],
           requests := s.requests[r := q.(stage := Streaming(code))])
      else
        s.(stats := AddOk(s.stats, backend.id), active := backend.name, streak := 0, log := s.log + [Good],
           requests := s.requests[r := q.(stage := ClosingServed(code))])
  }

  function AfterClose(backends: seq<Backend>, s: State, r: nat, raised: bool): State
    requires Enabled(backends, s, Closed(r, raised)) && |s.requests[r].trace| < |backends|
  {
    var q := s.requests[r];
    var id := backends[|q.trace|].id;
    match q.stage
    case ClosingRefused(code) =>
      if raised then
        s.(stats := AddFailed(s.stats, id),
           requests := s.requests[r := q.(stage := ClosingErrored(Refused(code, true)), lastFailure := Some(502))])
      else Continue(backends, s, r, q.(trace := q.trace + [Refused(code, false)], lastFailure := Some(code)))
    case ClosingServed(code) =>
      if raised then
        s.(stats := AddFailed(s.stats, id),
           requests := s.requests[r := q.(stage := ClosingErrored(ServedThenBroke(code)), lastFailure := Some(502))])
      else
        s.(requests := s.requests[r := q.(trace := q.trace + [Served(code)], stage := Done(Relayed(|q.trace|, code)))])
    case ClosingErrored(outcome) =>
      if raised then s.(requests := s.requests[r := q.(trace := q.trace + [outcome], stage := Done(Escaped))])
      else Continue(backends, s, r, q.(trace := q.trace + [outcome]))
  }

  function Apply(backends: seq<Backend>, s: State, e: Event): State
    requires Enabled(backends, s, e) && InRange(backends, s)
  {
    match e
    case Begin(stream) =>
      if backends == [] then s.(requests := s.requests + [Request(stream, [], Done(NoProviders), None)])
      else
        var q := Request(stream, [], Checking, None);
        Continue(backends, s.(requests := s.requests + [q]), |s.requests|, q)
    case Checked(r, allowed) =>
      var q := s.requests[r];
      var id := backends[|q.trace|].id;
      if allowed then s.(requests := s.requests[r := q.(stage := Sending)])
      else
        Continue(backends, s.(stats := AddFailed(s.stats, id)), r,
                 q.(trace := q.trace + [Blocked], lastFailure := Some(400)))
    case Answered(r, answer) => Replied(backends, s, r, answer)
    case Closed(r, raised) => AfterClose(backends, s, r, raised)
    case StreamEnded(r, clean) =>
      var q := s.requests[r];
      var id := backends[|q.trace|].id;
      s.(stats := if clean then AddOk(s.stats, id) else AddFailed(s.stats, id),
         requests := s.requests[r := q.(trace := q.trace + [Streamed(clean)], stage := Done(Relayed(|q.trace|, q.stage.code)))])
  }

  function Initial(name: string): State {
    State(map[], name, 0, [], [])
  }

  ghost predicate IsRun(backends: seq<Backend>, ss: seq<State>, es: seq<Event>) {
    && |ss| == |es| + 1
    && ss[0] == Initial(ss[0].active)
    && forall k :: 0 <= k < |es| ==>
         InRange(backends, ss[k]) && Enabled(backends, ss[k], es[k]) && ss[k + 1] == Apply(backends, ss[k], es[k])
  }

  // ---------- statistics: what the counters should be

  /** What is already counted for the provider a request is at. */
  function SoFar(stage: Stage): Outcome {
    match stage
    case ClosingRefused(code) => Refused(code, false)
    case ClosingServed(code) => Served(code)
    case ClosingErrored(outcome) => outcome
    case _ => Pending
  }

  /** The outcomes of all providers a request has touched. */
  function View(q: Request): seq<Outcome> {
    if q.stage.Done? then q.trace else q.trace + [SoFar(q.stage)]
  }

  /** The four counters, and two more quantities that the conservation law needs. */
  datatype Meter = Total | Ok | Failed | Limited | Open | Double

  /** How often a provider with this outcome was counted. */
  function Weight(m: Meter, o: Outcome): nat {
    match m
    case Total => if o.Skipped? then 0 else 1
    case Ok => if o.ServedThenBroke? || o.Served? || (o.Streamed? && o.ok) then 1 else 0
    case Failed =>
      (match o
       case Refused(code, closeRaised) => if closeRaised then 2 else 1
       case Streamed(ok) => if ok then 0 else 1
       case Blocked | Errored | ServedThenBroke(_) => 1
       case _ => 0)
    case Limited => if o.Refused? && o.code == 429 then 1 else 0
    case Open => if o.Pending? then 1 else 0
    case Double => if (o.Refused? && o.closeRaised) || o.ServedThenBroke? then 1 else 0
  }

  function Counter(m: Meter, row: Stats): int {
    match m
    case Total => row.total
    case Ok => row.ok
    case Failed => row.failed
    case Limited => row.limited
    case _ => 0
  }

  /** The sum of a meter over the outcomes that belong to provider id. */
  function Sum(backends: seq<Backend>, view: seq<Outcome>, id: string, m: Meter): nat {
    if view == [] then 0
    else
      var n := |view| - 1;
      Sum(backends, view[..n], id, m) + At(backends, n, id) * Weight(m, view[n])
  }

  /** One when provider id is the one at index i. */
  function At(backends: seq<Backend>, i: nat, id: string): nat {
    if i < |backends| && backends[i].id == id then 1 else 0
  }

  function Part(backends: seq<Backend>, id: string, m: Meter): Request -> nat {
    (q: Request) => Sum(backends, View(q), id, m)
  }

  /** What all requests together did to a counter of provider id. */
  function Seen(backends: seq<Backend>, requests: seq<Request>, id: string, m: Meter): nat {
    Tally(requests, Part(backends, id, m))
  }

  /** Double is a counter too, of what should never happen: it stays 0 while no close raises. */
  predicate IsCounter(m: Meter) {
    m != Open
  }

  /** A counter of provider id is the sum over all requests. */
  ghost predicate Counted(backends: seq<Backend>, s: State, id: string, m: Meter) {
    Counter(m, Row(s.stats, id)) == Seen(backends, s.requests, id, m)
  }

  // ---------- the answer of a request: first success in order

  /** Tried without success: refused means not a 2xx, and served-then-broke that closing the connection of a 2xx raised. */
  predicate Fell(o: Outcome) {
    || o.Blocked? || o.Errored?
    || (o.Refused? && !IsGood(o.code))
    || (o.ServedThenBroke? && IsGood(o.code))
  }

  /** Providers a request is through with were skipped for want of a base URL, or tried and fell. */
  predicate Behind(backends: seq<Backend>, trace: seq<Outcome>, n: nat) {
    n <= |trace| <= |backends| &&
    forall i :: 0 <= i < n ==> if backends[i].baseUrl == "" then trace[i] == Skipped else Fell(trace[i])
  }

  predicate ReplyOk(backends: seq<Backend>, q: Request, reply: Reply) {
    match reply
    case Relayed(index, code) =>
      && |q.trace| == index + 1 <= |backends|
      && Behind(backends, q.trace, index)
      && backends[index].baseUrl != ""
      && IsGood(code)
      && (if q.stream then q.trace[index].Streamed? else q.trace[index] == Served(code))
    case Failure(code) => backends != [] && |q.trace| == |backends| && Behind(backends, q.trace, |backends|)
    case Escaped => q.trace != [] && Behind(backends, q.trace, |q.trace|)
    case NoProviders => backends == [] && q.trace == []
  }

  predicate StageOk(q: Request) {
    match q.stage
    case Streaming(code) => q.stream && IsGood(code)
    case ClosingServed(code) => !q.stream && IsGood(code)
    case ClosingRefused(code) => !IsGood(code)
    case ClosingErrored(outcome) => Fell(outcome)
    case _ => true
  }

  predicate RequestOk(backends: seq<Backend>, q: Request) {
    if q.stage.Done? then ReplyOk(backends, q, q.stage.reply)
    else
      && |q.trace| < |backends|
      && Behind(backends, q.trace, |q.trace|)
      && backends[|q.trace|].baseUrl != ""
      && StageOk(q)
  }

  ghost predicate RequestsOk(backends: seq<Backend>, s: State) {
    forall i :: 0 <= i < |s.requests| ==> RequestOk(backends, s.requests[i])
  }

  lemma AdvancedOk(backends: seq<Backend>, q: Request)
    requires backends != [] && Behind(backends, q.trace, |q.trace|)
    ensures RequestOk(backends, Advanced(backends, q)) && Advanced(backends, q).stream == q.stream
  {
    var q' := Advanced(backends, q);
    forall i | 0 <= i < |q'.trace|
      ensures if backends[i].baseUrl == "" then q'.trace[i] == Skipped else Fell(q'.trace[i])
    {
      if i < |q.trace| {
        assert q'.trace[i] == q.trace[i];
      }
    }
  }

  lemma BehindMore(backends: seq<Backend>, trace: seq<Outcome>, o: Outcome)
    requires |trace| < |backends| && Behind(backends, trace, |trace|)
    requires backends[|trace|].baseUrl != "" && Fell(o)
    ensures Behind(backends, trace + [o], |trace + [o]|)
  {
  }

  lemma ContinueOk(backends: seq<Backend>, s: State, r: nat, q: Request)
    requires r < |s.requests| && forall i :: 0 <= i < |s.requests| && i != r ==> RequestOk(backends, s.requests[i])
    requires backends != [] && Behind(backends, q.trace, |q.trace|)
    ensures RequestsOk(backends, Continue(backends, s, r, q))
  {
    AdvancedOk(backends, q);
    hide RequestOk, Advanced;
  }

  lemma CloseOk(backends: seq<Backend>, s: State, r: nat, raised: bool)
    requires RequestsOk(backends, s) && Enabled(backends, s, Closed(r, raised))
    ensures |s.requests[r].trace| < |backends|
    ensures RequestsOk(backends, AfterClose(backends, s, r, raised))
  {
    var q := s.requests[r];
    assert RequestOk(backends, q);
    if q.stage.ClosingRefused? && !raised {
      BehindMore(backends, q.trace, Refused(q.stage.code, false));
      ContinueOk(backends, s, r, q.(trace := q.trace + [Refused(q.stage.code, false)], lastFailure := Some(q.stage.code)));
    } else if q.stage.ClosingErrored? {
      BehindMore(backends, q.trace, q.stage.outcome);
      if !raised {
        ContinueOk(backends, s, r, q.(trace := q.trace + [q.stage.outcome]));
      }
    }
    hide Continue;
  }

  /** Every step keeps every request in order: no provider is tried out of turn or twice. */
  lemma RequestsOkKept(backends: seq<Backend>, s: State, e: Event)
    requires RequestsOk(backends, s) && Enabled(backends, s, e)
    ensures InRange(backends, s) && RequestsOk(backends, Apply(backends, s, e))
  {
    hide Continue, AfterClose;
    match e
    case Begin(stream) =>
      if backends != [] {
        var q := Request(stream, [], Checking, None);
        ContinueOk(backends, s.(requests := s.requests + [q]), |s.requests|, q);
      }
    case Checked(r, allowed) =>
      var q := s.requests[r];
      assert RequestOk(backends, q);
      if !allowed {
        BehindMore(backends, q.trace, Blocked);
        ContinueOk(backends, s.(stats := AddFailed(s.stats, backends[|q.trace|].id)), r,
                   q.(trace := q.trace + [Blocked], lastFailure := Some(400)));
      }
    case Closed(r, raised) => CloseOk(backends, s, r, raised);
    case Answered(r, answer) => assert RequestOk(backends, s.requests[r]);
    case StreamEnded(r, clean) => assert RequestOk(backends, s.requests[r]);
  }

  // ---------- conservation of the counters

  lemma SumAppend(backends: seq<Backend>, view: seq<Outcome>, o: Outcome, id: string, m: Meter)
    ensures Sum(backends, view + [o], id, m) == Sum(backends, view, id, m) + At(backends, |view|, id) * Weight(m, o)
  {
    assert (view + [o])[..|view|] == view;
  }

  lemma SkippedWeighsNothing(m: Meter)
    ensures Weight(m, Skipped) == 0
  {
  }

  lemma {:induction false} SumSkips(backends: seq<Backend>, view: seq<Outcome>, n: nat, id: string, m: Meter)
    ensures Sum(backends, view + Skips(n), id, m) == Sum(backends, view, id, m)
  {
    hide Sum, At, Weight;
    if n == 0 {
      assert view + Skips(0) == view;
    } else {
      SkippedWeighsNothing(m);
      SumSkips(backends, view, n - 1, id, m);
      assert view + Skips(n) == (view + Skips(n - 1)) + [Skipped];
      SumAppend(backends, view + Skips(n - 1), Skipped, id, m);
    }
  }

  /** The share of the provider that a request goes on to. */
  function NextShare(backends: seq<Backend>, q: Request, id: string, m: Meter): nat {
    if q.stage == Checking then At(backends, |q.trace|, id) * Weight(m, Pending) else 0
  }

  lemma AdvancedSum(backends: seq<Backend>, q: Request, id: string, m: Meter)
    requires |q.trace| <= |backends|
    ensures var q' := Advanced(backends, q);
            Sum(backends, View(q'), id, m) == Sum(backends, q.trace, id, m) + NextShare(backends, q', id, m)
  {
    hide Sum, Weight, NextWithUrl, At;
    var q' := Advanced(backends, q);
    SumSkips(backends, q.trace, |q'.trace| - |q.trace|, id, m);
    SumAppend(backends, q'.trace, Pending, id, m);
    assert q'.trace == q.trace + Skips(|q'.trace| - |q.trace|);
  }

  /** A request whose current provider goes from outcome o to outcome p, staying there or moving on. */
  lemma MoveSeen(backends: seq<Backend>, requests: seq<Request>, r: nat, q': Request, o: Outcome, p: Outcome,
                 next: nat, id: string, m: Meter)
    requires r < |requests|
    requires View(requests[r]) == requests[r].trace + [o]
    requires Sum(backends, View(q'), id, m) == Sum(backends, requests[r].trace + [p], id, m) + next
    ensures Seen(backends, requests[r := q'], id, m) + At(backends, |requests[r].trace|, id) * Weight(m, o) ==
            Seen(backends, requests, id, m) + At(backends, |requests[r].trace|, id) * Weight(m, p) + next
  {
    SumAppend(backends, requests[r].trace, p, id, m);
    SumAppend(backends, requests[r].trace, o, id, m);
    TallyUpdate(requests, r, q', Part(backends, id, m));
  }

  /** Continue adds one to total_requests of the provider it goes on to, and nothing else. */
  lemma ContinueCounter(backends: seq<Backend>, s: State, r: nat, q: Request, id: string, m: Meter)
    requires r < |s.requests| && |q.trace| <= |backends| && IsCounter(m)
    ensures Counter(m, Row(Continue(backends, s, r, q).stats, id)) ==
            Counter(m, Row(s.stats, id)) + NextShare(backends, Advanced(backends, q), id, m)
    ensures Continue(backends, s, r, q).requests == s.requests[r := Advanced(backends, q)]
  {
  }

  /** The current provider is settled with outcome p and the request goes on. */
  lemma ContinueCounted(backends: seq<Backend>, s: State, stats: map<string, Stats>, r: nat, q: Request,
                        o: Outcome, p: Outcome, id: string, m: Meter)
    requires r < |s.requests| && |s.requests[r].trace| < |backends| && IsCounter(m)
    requires Counted(backends, s, id, m)
    requires View(s.requests[r]) == s.requests[r].trace + [o] && q.trace == s.requests[r].trace + [p]
    requires Counter(m, Row(stats, id)) + At(backends, |s.requests[r].trace|, id) * Weight(m, o) ==
             Counter(m, Row(s.stats, id)) + At(backends, |s.requests[r].trace|, id) * Weight(m, p)
    ensures Counted(backends, Continue(backends, s.(stats := stats), r, q), id, m)
  {
    ContinueCounter(backends, s.(stats := stats), r, q, id, m);
    AdvancedSum(backends, q, id, m);
    MoveSeen(backends, s.requests, r, Advanced(backends, q), o, p, NextShare(backends, Advanced(backends, q), id, m), id, m);
    hide Continue, Advanced, Seen, Sum, NextShare;
  }

  /** The request stays at its provider, or ends there. */
  lemma StayCounted(backends: seq<Backend>, s: State, stats: map<string, Stats>, r: nat, q: Request,
                    o: Outcome, p: Outcome, id: string, m: Meter)
    requires r < |s.requests| && |s.requests[r].trace| < |backends| && IsCounter(m)
    requires Counted(backends, s, id, m)
    requires View(s.requests[r]) == s.requests[r].trace + [o] && View(q) == s.requests[r].trace + [p]
    requires Counter(m, Row(stats, id)) + At(backends, |s.requests[r].trace|, id) * Weight(m, o) ==
             Counter(m, Row(s.stats, id)) + At(backends, |s.requests[r].trace|, id) * Weight(m, p)
    ensures Counter(m, Row(stats, id)) == Seen(backends, s.requests[r := q], id, m)
  {
    MoveSeen(backends, s.requests, r, q, o, p, 0, id, m);
    hide Seen, Sum;
  }

  lemma BeginCounted(backends: seq<Backend>, s: State, stream: bool, id: string, m: Meter)
    requires RequestsOk(backends, s) && InRange(backends, s) && Counted(backends, s, id, m) && IsCounter(m)
    ensures Counted(backends, Apply(backends, s, Begin(stream)), id, m)
  {
    hide Continue, Advanced, NextShare, Weight, Counter, Tally, RequestsOk, InRange, At;
    if backends == [] {
      TallyAppend(s.requests, Request(stream, [], Done(NoProviders), None), Part(backends, id, m));
    } else {
      var q := Request(stream, [], Checking, None);
      ContinueCounter(backends, s.(requests := s.requests + [q]), |s.requests|, q, id, m);
      AdvancedSum(backends, q, id, m);
      TallyAppend(s.requests, Advanced(backends, q), Part(backends, id, m));
      assert (s.requests + [q])[|s.requests| := Advanced(backends, q)] == s.requests + [Advanced(backends, q)];
    }
  }

  lemma CheckedCounted(backends: seq<Backend>, s: State, r: nat, allowed: bool, id: string, m: Meter)
    requires Enabled(backends, s, Checked(r, allowed)) && InRange(backends, s) && Counted(backends, s, id, m) && IsCounter(m)
    ensures Counted(backends, Apply(backends, s, Checked(r, allowed)), id, m)
  {
    var q := s.requests[r];
    if allowed {
      StayCounted(backends, s, s.stats, r, q.(stage := Sending), Pending, Pending, id, m);
    } else {
      ContinueCounted(backends, s, AddFailed(s.stats, backends[|q.trace|].id), r,
                      q.(trace := q.trace + [Blocked], lastFailure := Some(400)), Pending, Blocked, id, m);
    }
    hide Continue, Seen;
  }

  /** The counters after an answer, against the outcome it leaves. */
  lemma AnswerCounter(backends: seq<Backend>, s: State, r: nat, answer: Answer, id: string, m: Meter)
    requires r < |s.requests| && |s.requests[r].trace| < |backends| && s.requests[r].stage.Sending? && IsCounter(m)
    ensures var s' := Replied(backends, s, r, answer);
            && |s'.requests| == |s.requests| && s'.requests == s.requests[r := s'.requests[r]]
            && !s'.requests[r].stage.Done? && s'.requests[r].trace == s.requests[r].trace
            && Counter(m, Row(s'.stats, id)) ==
               Counter(m, Row(s.stats, id)) + At(backends, |s.requests[r].trace|, id) * Weight(m, SoFar(s'.requests[r].stage))
               - At(backends, |s.requests[r].trace|, id) * Weight(m, Pending)
  {
  }

  lemma AnsweredCounted(backends: seq<Backend>, s: State, r: nat, answer: Answer, id: string, m: Meter)
    requires Enabled(backends, s, Answered(r, answer)) && InRange(backends, s) && Counted(backends, s, id, m) && IsCounter(m)
    ensures Counted(backends, Apply(backends, s, Answered(r, answer)), id, m)
  {
    var s' := Replied(backends, s, r, answer);
    var q' := s'.requests[r];
    assert s'.requests == s.requests[r := q'];
    AnswerCounter(backends, s, r, answer, id, m);
    StayCounted(backends, s, s'.stats, r, q', Pending, SoFar(q'.stage), id, m);
    hide Seen, Replied, Weight, Counter;
  }

  lemma ClosedCounted(backends: seq<Backend>, s: State, r: nat, raised: bool, id: string, m: Meter)
    requires Enabled(backends, s, Closed(r, raised)) && InRange(backends, s) && Counted(backends, s, id, m) && IsCounter(m)
    requires m == Double ==> !raised
    ensures Counted(backends, Apply(backends, s, Closed(r, raised)), id, m)
  {
    hide Continue, Seen;
    var q := s.requests[r];
    var before := SoFar(q.stage);
    if !raised && q.stage.ClosingRefused? {
      ContinueCounted(backends, s, s.stats, r,
                      q.(trace := q.trace + [before], lastFailure := Some(q.stage.code)), before, before, id, m);
    } else if !raised && q.stage.ClosingErrored? {
      ContinueCounted(backends, s, s.stats, r, q.(trace := q.trace + [before]), before, before, id, m);
    } else {
      var s' := AfterClose(backends, s, r, raised);
      var q' := s'.requests[r];
      var after := if raised && !q.stage.ClosingErrored? then SoFar(q'.stage) else before;
      assert s'.requests == s.requests[r := q'];
      StayCounted(backends, s, s'.stats, r, q', before, after, id, m);
    }
  }

  lemma StreamEndedCounted(backends: seq<Backend>, s: State, r: nat, clean: bool, id: string, m: Meter)
    requires Enabled(backends, s, StreamEnded(r, clean)) && InRange(backends, s) && Counted(backends, s, id, m) && IsCounter(m)
    ensures Counted(backends, Apply(backends, s, StreamEnded(r, clean)), id, m)
  {
    var s' := Apply(backends, s, StreamEnded(r, clean));
    var q' := s'.requests[r];
    assert s'.requests == s.requests[r := q'];
    StayCounted(backends, s, s'.stats, r, q', Pending, Streamed(clean), id, m);
    hide Seen;
  }

  predicate CloseRaises(e: Event) {
    e.Closed? && e.raised
  }

  lemma CountedKept(backends: seq<Backend>, s: State, e: Event, id: string, m: Meter)
    requires RequestsOk(backends, s) && InRange(backends, s) && Enabled(backends, s, e)
    requires Counted(backends, s, id, m) && IsCounter(m) && (m == Double ==> !CloseRaises(e))
    ensures Counted(backends, Apply(backends, s, e), id, m)
  {
    match e
    case Begin(stream) => BeginCounted(backends, s, stream, id, m);
    case Checked(r, allowed) => CheckedCounted(backends, s, r, allowed, id, m);
    case Answered(r, answer) => AnsweredCounted(backends, s, r, answer, id, m);
    case Closed(r, raised) => ClosedCounted(backends, s, r, raised, id, m);
    case StreamEnded(r, clean) => StreamEndedCounted(backends, s, r, clean, id, m);
    hide Apply, Seen;
  }

  // ---------- the laws

  lemma {:induction false} SumLaw(backends: seq<Backend>, view: seq<Outcome>, id: string)
    ensures Sum(backends, view, id, Total) + Sum(backends, view, id, Double) ==
            Sum(backends, view, id, Ok) + Sum(backends, view, id, Failed) + Sum(backends, view, id, Open)
    ensures Sum(backends, view, id, Limited) <= Sum(backends, view, id, Failed)
  {
    if view != [] {
      SumLaw(backends, view[..|view| - 1], id);
    }
  }

  lemma {:induction false} SeenLaw(backends: seq<Backend>, requests: seq<Request>, id: string)
    ensures Seen(backends, requests, id, Total) + Seen(backends, requests, id, Double) ==
            Seen(backends, requests, id, Ok) + Seen(backends, requests, id, Failed) + Seen(backends, requests, id, Open)
    ensures Seen(backends, requests, id, Limited) <= Seen(backends, requests, id, Failed)
  {
    if requests != [] {
      SumLaw(backends, View(requests[0]), id);
      SeenLaw(backends, requests[1..], id);
    }
  }

  ghost predicate Invariant(backends: seq<Backend>, s: State) {
    RequestsOk(backends, s) && forall id, m :: IsCounter(m) && m != Double ==> Counted(backends, s, id, m)
  }

  lemma {:induction false} InvariantHolds(backends: seq<Backend>, ss: seq<State>, es: seq<Event>, k: nat)
    requires IsRun(backends, ss, es) && k < |ss|
    ensures Invariant(backends, ss[k])
  {
    hide Apply, Enabled, RequestsOk, Counted;
    if k == 0 {
      InitialOk(backends, ss[0].active);
    } else {
      InvariantHolds(backends, ss, es, k - 1);
      assert ss[k] == Apply(backends, ss[k - 1], es[k - 1]);
      RequestsOkKept(backends, ss[k - 1], es[k - 1]);
      forall id, m | IsCounter(m) && m != Double
        ensures Counted(backends, ss[k], id, m)
      {
        CountedKept(backends, ss[k - 1], es[k - 1], id, m);
      }
    }
  }

  lemma InitialOk(backends: seq<Backend>, name: string)
    ensures Invariant(backends, Initial(name))
  {
  }

  /** For each provider, in every interleaving: total = successes + failures + attempts or streams still open, less
      what was counted twice because closing a connection raised; and rate limits are failures. */
  lemma StatisticsConserved(backends: seq<Backend>, ss: seq<State>, es: seq<Event>, k: nat, id: string)
    requires IsRun(backends, ss, es) && k < |ss|
    ensures var row := Row(ss[k].stats, id);
            && row.total + Seen(backends, ss[k].requests, id, Double) ==
               row.ok + row.failed + Seen(backends, ss[k].requests, id, Open)
            && row.limited <= row.failed
  {
    InvariantHolds(backends, ss, es, k);
    SeenLaw(backends, ss[k].requests, id);
    assert Counted(backends, ss[k], id, Total) && Counted(backends, ss[k], id, Ok);
    assert Counted(backends, ss[k], id, Failed) && Counted(backends, ss[k], id, Limited);
  }

  /** Nothing is counted twice in a run in which no close raises. */
  lemma {:induction false} NothingCountedTwice(backends: seq<Backend>, ss: seq<State>, es: seq<Event>, k: nat, id: string)
    requires IsRun(backends, ss, es) && k < |ss|
    requires forall i :: 0 <= i < |es| ==> !CloseRaises(es[i])
    ensures Seen(backends, ss[k].requests, id, Double) == 0
  {
    hide Apply, Enabled, RequestsOk;
    if k > 0 {
      NothingCountedTwice(backends, ss, es, k - 1, id);
      InvariantHolds(backends, ss, es, k - 1);
      CountedKept(backends, ss[k - 1], es[k - 1], id, Double);
    }
  }

  // ---------- which failure is reported when no provider succeeds

  function CodeOf(o: Outcome): int {
    match o
    case Blocked => 400
    case Refused(code, closeRaised) => if closeRaised then 502 else code
    case _ => 502
  }

  /** The code of the last provider that was tried; 502 when none was. */
  function LastCode(trace: seq<Outcome>): int {
    if trace == [] then 502
    else if trace[|trace| - 1].Skipped? then LastCode(trace[..|trace| - 1])
    else CodeOf(trace[|trace| - 1])
  }

  function FailureCode(q: Request): int {
    if q.lastFailure.Some? then q.lastFailure.value else 502
  }

  predicate CodeOk(q: Request) {
    match q.stage
    case Done(Failure(code)) => code == LastCode(q.trace)
    case Done(_) => true
    case ClosingErrored(o) => q.lastFailure == Some(502) && CodeOf(o) == 502 && !o.Skipped?
    case _ => FailureCode(q) == LastCode(q.trace)
  }

  ghost predicate CodesOk(s: State) {
    forall i :: 0 <= i < |s.requests| ==> CodeOk(s.requests[i])
  }

  lemma LastCodeAppend(trace: seq<Outcome>, o: Outcome)
    ensures LastCode(trace + [o]) == if o.Skipped? then LastCode(trace) else CodeOf(o)
  {
    assert (trace + [o])[..|trace|] == trace;
  }

  lemma {:induction false} LastCodeSkips(trace: seq<Outcome>, n: nat)
    ensures LastCode(trace + Skips(n)) == LastCode(trace)
  {
    if n == 0 {
      assert trace + Skips(0) == trace;
    } else {
      LastCodeSkips(trace, n - 1);
      assert trace + Skips(n) == (trace + Skips(n - 1)) + [Skipped];
      LastCodeAppend(trace + Skips(n - 1), Skipped);
    }
  }

  lemma ContinueCode(backends: seq<Backend>, s: State, r: nat, q: Request)
    requires r < |s.requests| && |q.trace| <= |backends| && FailureCode(q) == LastCode(q.trace)
    requires forall i :: 0 <= i < |s.requests| && i != r ==> CodeOk(s.requests[i])
    ensures CodesOk(Continue(backends, s, r, q))
  {
    LastCodeSkips(q.trace, NextWithUrl(backends, |q.trace|) - |q.trace|);
    hide NextWithUrl, LastCode;
  }

  lemma CodesKept(backends: seq<Backend>, s: State, e: Event)
    requires InRange(backends, s) && Enabled(backends, s, e) && CodesOk(s)
    ensures CodesOk(Apply(backends, s, e))
  {
    hide Continue, LastCode;
    match e
    case Begin(stream) =>
      if backends != [] {
        NothingTried();
        var q := Request(stream, [], Checking, None);
        ContinueCode(backends, s.(requests := s.requests + [q]), |s.requests|, q);
      }
    case Checked(r, allowed) =>
      var q := s.requests[r];
      LastCodeAppend(q.trace, Blocked);
      if !allowed {
        ContinueCode(backends, s.(stats := AddFailed(s.stats, backends[|q.trace|].id)), r,
                     q.(trace := q.trace + [Blocked], lastFailure := Some(400)));
      }
    case Closed(r, raised) =>
      var q := s.requests[r];
      LastCodeAppend(q.trace, SoFar(q.stage));
      if !raised && q.stage.ClosingRefused? {
        ContinueCode(backends, s, r,
                     q.(trace := q.trace + [Refused(q.stage.code, false)], lastFailure := Some(q.stage.code)));
      } else if !raised && q.stage.ClosingErrored? {
        ContinueCode(backends, s, r, q.(trace := q.trace + [q.stage.outcome]));
      }
    case _ =>
  }

  lemma NothingTried()
    ensures LastCode([]) == 502
  {
  }

  /** In every run a request that no provider served reports the failure of the last provider it tried. */
  lemma FailureIsTheLast(backends: seq<Backend>, ss: seq<State>, es: seq<Event>, k: nat, r: nat)
    requires IsRun(backends, ss, es) && k < |ss| && r < |ss[k].requests|
    ensures IsExhausted(ss[k].requests[r]) ==>
      ss[k].requests[r].stage.reply.code == LastCode(ss[k].requests[r].trace)
  {
    hide Apply, Enabled;
    CodesHold(backends, ss, es, k);
    assert CodeOk(ss[k].requests[r]);
  }

  lemma {:induction false} CodesHold(backends: seq<Backend>, ss: seq<State>, es: seq<Event>, k: nat)
    requires IsRun(backends, ss, es) && k < |ss|
    ensures CodesOk(ss[k])
  {
    hide Apply, Enabled;
    if k > 0 {
      CodesHold(backends, ss, es, k - 1);
      CodesKept(backends, ss[k - 1], es[k - 1]);
    }
  }

  // ---------- the consecutive-failure counter

  /** How many completions at the end of the log are exhausted requests. */
  function Trailing(log: seq<Completion>): nat {
    if log == [] || log[|log| - 1] != Exhausted then 0 else 1 + Trailing(log[..|log| - 1])
  }

  predicate IsExhausted(q: Request) {
    q.stage.Done? && q.stage.reply.Failure?
  }

  const One: Request -> nat := (q: Request) => if IsExhausted(q) then 1 else 0

  function ExhaustedIn(log: seq<Completion>): nat {
    if log == [] then 0 else ExhaustedIn(log[..|log| - 1]) + if log[|log| - 1] == Exhausted then 1 else 0
  }

  ghost predicate StreakOk(s: State) {
    s.streak == Trailing(s.log) && ExhaustedIn(s.log) == Tally(s.requests, One)
  }

  lemma LogAppend(log: seq<Completion>, c: Completion)
    ensures Trailing(log + [c]) == if c == Exhausted then Trailing(log) + 1 else 0
    ensures ExhaustedIn(log + [c]) == ExhaustedIn(log) + if c == Exhausted then 1 else 0
  {
    assert (log + [c])[..|log|] == log;
  }

  lemma ContinueStreak(backends: seq<Backend>, s: State, r: nat, q: Request)
    requires r < |s.requests| && |q.trace| <= |backends| && !IsExhausted(s.requests[r]) && StreakOk(s)
    ensures StreakOk(Continue(backends, s, r, q))
  {
    hide NextWithUrl, Tally, Trailing, ExhaustedIn, Skips;
    TallyUpdate(s.requests, r, Advanced(backends, q), One);
    LogAppend(s.log, Exhausted);
  }

  lemma StreakKept(backends: seq<Backend>, s: State, e: Event)
    requires InRange(backends, s) && Enabled(backends, s, e) && StreakOk(s)
    ensures StreakOk(Apply(backends, s, e))
  {
    hide Continue, Tally, Trailing, ExhaustedIn;
    var s' := Apply(backends, s, e);
    LogAppend(s.log, Good);
    match e
    case Begin(stream) =>
      var q := Request(stream, [], if backends == [] then Done(NoProviders) else Checking, None);
      TallyAppend(s.requests, q, One);
      if backends != [] {
        ContinueStreak(backends, s.(requests := s.requests + [q]), |s.requests|, q);
      }
    case Checked(r, allowed) =>
      var q := s.requests[r];
      TallyUpdate(s.requests, r, q.(stage := Sending), One);
      if !allowed {
        ContinueStreak(backends, s.(stats := AddFailed(s.stats, backends[|q.trace|].id)), r,
                       q.(trace := q.trace + [Blocked], lastFailure := Some(400)));
      }
    case Answered(r, answer) => TallyUpdate(s.requests, r, s'.requests[r], One);
    case Closed(r, raised) => CloseStreak(backends, s, r, raised);
    case StreamEnded(r, clean) => TallyUpdate(s.requests, r, s'.requests[r], One);
  }

  lemma CloseStreak(backends: seq<Backend>, s: State, r: nat, raised: bool)
    requires InRange(backends, s) && Enabled(backends, s, Closed(r, raised)) && StreakOk(s)
    ensures StreakOk(AfterClose(backends, s, r, raised))
  {
    hide Continue, Tally, Trailing, ExhaustedIn;
    var q := s.requests[r];
    if !raised && q.stage.ClosingRefused? {
      ContinueStreak(backends, s, r,
                     q.(trace := q.trace + [Refused(q.stage.code, false)], lastFailure := Some(q.stage.code)));
    } else if !raised && q.stage.ClosingErrored? {
      ContinueStreak(backends, s, r, q.(trace := q.trace + [q.stage.outcome]));
    } else {
      TallyUpdate(s.requests, r, AfterClose(backends, s, r, raised).requests[r], One);
    }
  }

  /** The counter is the number of requests exhausted since the last success, in completion order. */
  lemma {:induction false} StreakCountsExhausted(backends: seq<Backend>, ss: seq<State>, es: seq<Event>, k: nat)
    requires IsRun(backends, ss, es) && k < |ss|
    ensures ss[k].streak == Trailing(ss[k].log)
    ensures ExhaustedIn(ss[k].log) == Tally(ss[k].requests, One)
  {
    hide Apply, Enabled;
    if k > 0 {
      StreakCountsExhausted(backends, ss, es, k - 1);
      StreakKept(backends, ss[k - 1], es[k - 1]);
    }
  }

  /** So a translation that ends cleanly is rejected exactly when the last three completions were all exhausted. */
  lemma RejectedAfterThree(log: seq<Completion>)
    ensures Trailing(log) >= 3 <==>
            |log| >= 3 && log[|log| - 1] == Exhausted && log[|log| - 2] == Exhausted && log[|log| - 3] == Exhausted
  {
    if |log| >= 2 {
      assert log[..|log| - 1][..|log| - 2] == log[..|log| - 2];
    }
  }
}
