/** The wake, drain and wait loop of one agent against the Worker (pc-api-python/main.py, agent_loop and wake_agent):
    no wakeup is lost. Other agents may claim as well; their requests are steps of the Worker like any other. */
module Wakeup {
  import opened Basics
  import opened Tables
  import opened Pipeline
  import opened Identity
  import opened Rows
  import opened Lease
  import opened Quota
  import opened Snapshots
  import opened Tokens
  import opened Runs

  /** Where the agent is. Waiting keeps the reply that ended the drain, if it was one. */
  datatype Agent = Top | Draining | Asking(r: nat) | Busy(job: JobId) | Waiting(last: Option<ClaimReply>)

  /** `flag` is the event, `delivered` the jobs whose wake has arrived. The rest is history: `heard` what had been
      delivered when the event was last cleared; `mark`, `table` and `tableAt` how long the Worker's log was, what its
      jobs were and what time it was when the agent's claim looked for a job. */
  datatype System = System(
    w: World, flag: bool, agent: Agent, delivered: set<JobId>, heard: set<JobId>,
    mark: nat, table: map<JobId, Job>, tableAt: int)

  datatype Step =
    | Work(a: Action)
    | Wake(j: JobId, p: nat)
    | Clear
    | Ask(worker: string)
    | Answer
    | NoAnswer
    | NextJob
    | WaitOver

  ghost predicate CanStep(s: System, e: Step) {
    match e
    case Work(a) => Enabled(s.w, a)
    case Wake(j, p) => AnsweredOk(s.w, p, j)
    case Clear => s.agent.Top?
    case Ask(worker) => s.agent.Draining?
    case Answer =>
      s.agent.Asking? && ClaimAt(s.w, s.agent.r) && s.w.requests[s.agent.r].claim.Replied?
    case NoAnswer => s.agent.Asking? || s.agent.Busy?
    case NextJob => s.agent.Busy?
    case WaitOver => s.agent.Waiting?
  }

  /** The agent's own claim looks for a job. */
  predicate Looks(s: System, a: Action) {
    a.OfClaim? && a.claim.ClaimSelect? && s.agent == Asking(a.claim.r)
  }

  function After(s: System, e: Step): System
    requires CanStep(s, e)
  {
    match e
    case Work(a) =>
      if Looks(s, a) then s.(w := Apply(s.w, a), mark := |s.w.log|, table := s.w.jobs, tableAt := s.w.clock)
      else s.(w := Apply(s.w, a))
    case Wake(j, p) => s.(flag := true, delivered := s.delivered + {j})
    case Clear => s.(flag := false, agent := Draining, heard := s.delivered)
    case Ask(worker) => s.(w := Apply(s.w, OfClaim(ClaimBegin(worker))), agent := Asking(|s.w.requests|))
    case Answer =>
      var reply := s.w.requests[s.agent.r].claim.reply;
      s.(agent := if reply.Won? then Busy(reply.won) else Waiting(Some(reply)))
    case NoAnswer => s.(agent := Waiting(None))
    case NextJob => s.(agent := Draining)
    case WaitOver => s.(agent := Top)
  }

  function Start(clock: int): System {
    System(Initial(clock), false, Top, {}, {}, 0, map[], clock)
  }

  ghost predicate IsHistory(ss: seq<System>, steps: seq<Step>) {
    && |ss| == |steps| + 1
    && ss[0] == Start(ss[0].w.clock)
    && forall k :: 0 <= k < |steps| ==> CanStep(ss[k], steps[k]) && ss[k + 1] == After(ss[k], steps[k])
  }

  // ---------- the invariant

  ghost predicate RecoveredSince(log: seq<Event>, mark: nat, j: JobId) {
    exists m :: mark <= m < |log| && Requeues(log[m], j)
  }

  predicate Claimable(w: World, j: JobId) {
    j in w.jobs && Eligible(w.jobs[j], w.clock)
  }

  /** An empty answer that looked at the table `seen` at time `at`. */
  ghost predicate FoundNothing(w: World, heard: set<JobId>, mark: nat, seen: map<JobId, Job>, at: int) {
    && (forall j :: j in heard ==> j in seen)
    && (forall j :: j in seen ==> !Eligible(seen[j], at) && !Unborn(w.requests, j))
    && (forall j :: j in seen && Claimable(w, j) ==> RecoveredSince(w.log, mark, j))
  }

  ghost predicate TakenSince(log: seq<Event>, mark: nat, j: JobId) {
    exists m :: mark <= m < |log| && Takes(log[m], j)
  }

  /** What has become of row j since the claim looked at it: it is queued exactly if it was and nobody took it, unless it
      was recovered or its public life is over. */
  ghost predicate Followed(w: World, mark: nat, table: map<JobId, Job>, at: int, j: JobId) {
    && j in table && j in w.jobs
    && (table[j].deleted ==> w.jobs[j].deleted)
    && (PublicAlive(w.jobs[j], w.clock) ==> PublicAlive(table[j], at))
    && (RecoveredSince(w.log, mark, j) || !PublicAlive(w.jobs[j], w.clock) ||
        (w.jobs[j].status == Queued <==> table[j].status == Queued && !TakenSince(w.log, mark, j)))
  }

  ghost predicate AllFollowed(s: System) {
    forall j :: j in s.heard ==> Followed(s.w, s.mark, s.table, s.tableAt, j)
  }

  ghost predicate ReplyOk(s: System, reply: ClaimReply) {
    && (reply.NoneFound? ==>
         reply.seen == s.table && reply.at == s.tableAt && FoundNothing(s.w, s.heard, s.mark, reply.seen, reply.at))
    && (reply.LostRace? ==> reply.raced in s.table && Eligible(s.table[reply.raced], s.tableAt))
    && (reply.Won? ==> reply.won in s.table && Eligible(s.table[reply.won], s.tableAt))
    && !reply.Unreadable?
  }

  /** Since the agent's claim looked. */
  predicate HasLooked(claim: ClaimStage) {
    !claim.Asked? && !claim.Swept?
  }

  ghost predicate ClaimOk(s: System, claim: ClaimStage) {
    && (HasLooked(claim) ==> AllFollowed(s))
    && match claim
       case Picked(p, sealed) => p in s.table && Eligible(s.table[p], s.tableAt)
       case Opened(p, legacy, providers, readAt) => p in s.table && Eligible(s.table[p], s.tableAt)
       case Replied(reply) => ReplyOk(s, reply)
       case _ => true
  }

  ghost predicate DeliveredOk(s: System) {
    forall j :: j in s.delivered ==> exists p: nat :: AnsweredOk(s.w, p, j)
  }

  ghost predicate AgentOk(s: System) {
    match s.agent
    case Asking(r) => ClaimAt(s.w, r) && ClaimOk(s, s.w.requests[r].claim)
    case Waiting(Some(reply)) => ReplyOk(s, reply) && AllFollowed(s) && !reply.Won?
    case _ => true
  }

  ghost predicate SystemOk(s: System) {
    && Invariant(s.w)
    && DeliveredOk(s)
    && s.heard <= s.delivered
    && (!s.flag ==> s.delivered == s.heard)
    && s.mark <= |s.w.log|
    && AgentOk(s)
  }

  // ---------- kept by every step

  /** A job becomes claimable by being inserted or recovered, and in no other way. */
  lemma ClaimableBefore(w: World, a: Action, j: JobId)
    requires Enabled(w, a) && j in w.jobs && Claimable(Apply(w, a), j)
    ensures Claimable(w, j) || (EventsOf(w, a) != [] && Requeues(EventsOf(w, a)[0], j))
  {
    hide JobsAfter, RequestsAfter, NewPercent;
    JobPersists(w, a, j);
  }

  lemma NothingNewClaimable(w: World, a: Action, heard: set<JobId>, mark: nat, seen: map<JobId, Job>, at: int)
    requires Enabled(w, a) && Invariant(w) && mark <= |w.log| && FoundNothing(w, heard, mark, seen, at)
    ensures FoundNothing(Apply(w, a), heard, mark, seen, at)
  {
    hide Apply, Enabled, Unborn, Claimable, RowsOk, LogOk, QuotaOk, SnapshotsOk, TokensOk, Owned, Eligible;
    var w' := Apply(w, a);
    ApplyRequests(w, a);
    LogGrows(w, a);
    forall j | j in seen
      ensures !Unborn(w'.requests, j)
      ensures Claimable(w', j) ==> RecoveredSince(w'.log, mark, j)
    {
      StaysBorn(w, a, j);
      if Claimable(w', j) {
        ClaimableHasRow(w', j);
        if j !in w.jobs {
          GoneStaysGone(w, a, j);
        }
        ClaimableBefore(w, a, j);
        StillRecovered(w.log, EventsOf(w, a), mark, j);
      }
    }
    hide RequestsAfter, EventsOf;
  }

  lemma ClaimableHasRow(w: World, j: JobId)
    ensures Claimable(w, j) ==> j in w.jobs
  {
  }

  lemma StillRecovered(log: seq<Event>, e: seq<Event>, mark: nat, j: JobId)
    requires mark <= |log|
    ensures RecoveredSince(log, mark, j) ==> RecoveredSince(log + e, mark, j)
    ensures e != [] && Requeues(e[0], j) ==> RecoveredSince(log + e, mark, j)
  {
    if RecoveredSince(log, mark, j) {
      var m :| mark <= m < |log| && Requeues(log[m], j);
      assert (log + e)[m] == log[m];
    }
    if e != [] && Requeues(e[0], j) {
      assert (log + e)[|log|] == e[0];
    }
  }

  lemma DeliveredKept(s: System, a: Action)
    requires Enabled(s.w, a) && Invariant(s.w) && DeliveredOk(s)
    ensures DeliveredOk(s.(w := Apply(s.w, a)))
  {
    hide Apply, Enabled, RowsOk, LogOk, QuotaOk, SnapshotsOk, TokensOk, Owned, AnsweredOk;
    forall j | j in s.delivered
      ensures exists p: nat :: AnsweredOk(Apply(s.w, a), p, j)
    {
      var p: nat :| AnsweredOk(s.w, p, j);
      AcceptedRests(s.w, a, p, j);
    }
  }

  lemma DeliveredHaveRows(s: System, j: JobId)
    requires Owned(s.w) && DeliveredOk(s) && j in s.delivered
    ensures j in s.w.jobs
  {
    var p: nat :| AnsweredOk(s.w, p, j);
    assert s.w.requests[p].id in s.w.jobs <==> HasRow(s.w.requests[p].stage);
    hide UniqueIds, Unborn;
  }

  /** The claim that looks and finds nothing: every job that had been heard of is in the table it looks at. */
  lemma LooksAndFindsNothing(s: System, r: nat)
    requires SystemOk(s) && s.agent == Asking(r) && Enabled(s.w, OfClaim(ClaimSelect(r, None)))
    ensures FoundNothing(Apply(s.w, OfClaim(ClaimSelect(r, None))), s.heard, |s.w.log|, s.w.jobs, s.w.clock)
  {
    hide Apply, Enabled, Unborn, Eligible, AgentOk, DeliveredOk, RowsOk, LogOk, QuotaOk, SnapshotsOk, TokensOk, Owned;
    forall j | j in s.heard
      ensures j in s.w.jobs
    {
      DeliveredHaveRows(s, j);
    }
    LookedAtRows(s.w, r);
  }

  lemma LookedAtRows(w: World, r: nat)
    requires Enabled(w, OfClaim(ClaimSelect(r, None))) && Owned(w)
    ensures forall j :: j in w.jobs ==> !Eligible(w.jobs[j], w.clock)
    ensures var w' := Apply(w, OfClaim(ClaimSelect(r, None)));
            w'.jobs == w.jobs && w'.clock == w.clock && forall j :: j in w.jobs ==> !Unborn(w'.requests, j)
  {
    hide RequestsAfter, Unborn, UniqueIds, Eligible;
    var a := OfClaim(ClaimSelect(r, None));
    ApplyRequests(w, a);
    forall j | j in w.jobs
      ensures !Unborn(Apply(w, a).requests, j)
    {
      StaysBorn(w, a, j);
    }
    assert IsPick(w, None);
    assert Apply(w, a).jobs == w.jobs;
  }

  /** One step, for the row of a job whose POST has been accepted. */
  lemma RowFollows(w: World, a: Action, j: JobId)
    requires Enabled(w, a) && j in w.jobs && !MovesPostOf(w, a, j) && !(a.OfClaim? && a.claim.ClaimReject?)
    ensures var after := Updated(w, a, j);
            var now := Apply(w, a).clock;
            var e := EventsOf(w, a);
            && (PublicAlive(after, now) ==> PublicAlive(w.jobs[j], w.clock))
            && (w.jobs[j].deleted ==> after.deleted)
            && (PublicAlive(after, now) && (e == [] || !Requeues(e[0], j)) ==>
                 (after.status == Queued <==> w.jobs[j].status == Queued && (e == [] || !Takes(e[0], j))))
  {
    hide JobsAfter, RequestsAfter, NewPercent;
  }

  lemma TakenGrows(log: seq<Event>, e: seq<Event>, mark: nat, j: JobId)
    requires mark <= |log| && |e| <= 1
    ensures TakenSince(log + e, mark, j) <==> TakenSince(log, mark, j) || (e != [] && Takes(e[0], j))
    ensures RecoveredSince(log + e, mark, j) <==> RecoveredSince(log, mark, j) || (e != [] && Requeues(e[0], j))
  {
    hide Takes, Requeues;
    if TakenSince(log, mark, j) {
      var m :| mark <= m < |log| && Takes(log[m], j);
      assert (log + e)[m] == log[m];
    }
    if RecoveredSince(log, mark, j) {
      var m :| mark <= m < |log| && Requeues(log[m], j);
      assert (log + e)[m] == log[m];
    }
    if e != [] {
      assert (log + e)[|log|] == e[0];
    }
  }

  lemma FollowedKept(w: World, a: Action, p: nat, mark: nat, table: map<JobId, Job>, at: int, j: JobId)
    requires Enabled(w, a) && Invariant(w) && AnsweredOk(w, p, j) && mark <= |w.log|
    requires Followed(w, mark, table, at, j)
    ensures Followed(Apply(w, a), mark, table, at, j)
  {
    hide Apply, Enabled, Updated, EventsOf, PublicAlive, RowsOk, LogOk, QuotaOk, SnapshotsOk, TokensOk, Owned;
    hide TakenSince, RecoveredSince, Takes, Requeues, MovesPostOf, AnsweredOk;
    AcceptedRests(w, a, p, j);
    JobPersists(w, a, j);
    NeverRejects(w, a);
    RowFollows(w, a, j);
    LogGrows(w, a);
    TakenGrows(w.log, EventsOf(w, a), mark, j);
    hide RequestsAfter;
  }

  lemma NeverRejects(w: World, a: Action)
    requires Enabled(w, a) && SnapshotsOk(w)
    ensures !(a.OfClaim? && a.claim.ClaimReject?)
  {
    if a.OfClaim? && a.claim.ClaimReject? {
      NeverUnreadable(w, a.claim.r);
      assert false;
    }
  }

  lemma AllFollowedKept(s: System, a: Action)
    requires SystemOk(s) && Enabled(s.w, a) && AllFollowed(s) && !Looks(s, a)
    ensures AllFollowed(After(s, Work(a)))
  {
    hide Apply, Enabled, Invariant, AgentOk, Followed, AnsweredOk;
    forall j | j in s.heard
      ensures Followed(Apply(s.w, a), s.mark, s.table, s.tableAt, j)
    {
      var p: nat :| AnsweredOk(s.w, p, j);
      FollowedKept(s.w, a, p, s.mark, s.table, s.tableAt, j);
    }
  }

  /** At the look itself every row that was heard of is followed. */
  lemma FollowedFromLook(s: System, a: Action)
    requires SystemOk(s) && Enabled(s.w, a) && Looks(s, a)
    ensures AllFollowed(After(s, Work(a)))
  {
    hide Apply, Enabled, Unborn, Eligible, PublicAlive, AgentOk, DeliveredOk, RowsOk, LogOk, QuotaOk, SnapshotsOk, TokensOk, Owned;
    LookKeepsRows(s.w, a);
    forall j | j in s.heard
      ensures Followed(Apply(s.w, a), |s.w.log|, s.w.jobs, s.w.clock, j)
    {
      DeliveredHaveRows(s, j);
    }
  }

  lemma LookKeepsRows(w: World, a: Action)
    requires Enabled(w, a) && a.OfClaim? && a.claim.ClaimSelect?
    ensures var w' := Apply(w, a); w'.jobs == w.jobs && w'.clock == w.clock && w'.log == w.log
    ensures a.claim.pick.Some? ==> a.claim.pick.value in w.jobs && Eligible(w.jobs[a.claim.pick.value], w.clock)
  {
    hide RequestsAfter, Eligible;
    assert w.log + [] == w.log;
    assert Apply(w, a).jobs == w.jobs;
  }

  /** The agent's claim after a step of the Worker: as it was, or it has just moved. */
  lemma AskingKept(s: System, a: Action, r: nat)
    requires SystemOk(s) && Enabled(s.w, a) && s.agent == Asking(r)
    ensures AgentOk(After(s, Work(a)))
  {
    hide Apply, RequestsAfter, Enabled, Invariant, DeliveredOk, FoundNothing, AllFollowed, Eligible;
    var w' := Apply(s.w, a);
    ApplyRequests(s.w, a);
    SnapshotsOf(s.w);
    NeverRejects(s.w, a);
    ClaimMoves(s.w, a, r);
    if Looks(s, a) {
      FollowedFromLook(s, a);
      LookKeepsRows(s.w, a);
      if a.claim.pick.None? {
        LooksAndFindsNothing(s, r);
      }
    } else {
      var claim := s.w.requests[r].claim;
      hide JobOf, ClaimOk, HasLooked;
      if HasLooked(claim) {
        LookedIsFollowed(s, claim);
        AllFollowedKept(s, a);
      }
      if claim.Replied? && claim.reply.NoneFound? {
        NoneFoundIsOk(s, claim);
        NothingNewClaimable(s.w, a, s.heard, s.mark, claim.reply.seen, claim.reply.at);
      }
      ClaimOkAfter(s, After(s, Work(a)), claim, w'.requests[r].claim);
    }
  }

  lemma LookedIsFollowed(s: System, claim: ClaimStage)
    requires ClaimOk(s, claim) && HasLooked(claim)
    ensures AllFollowed(s)
  {
    hide AllFollowed;
  }

  lemma NoneFoundIsOk(s: System, claim: ClaimStage)
    requires ClaimOk(s, claim) && claim.Replied? && claim.reply.NoneFound?
    ensures FoundNothing(s.w, s.heard, s.mark, claim.reply.seen, claim.reply.at)
  {
    hide AllFollowed, FoundNothing;
  }

  lemma ClaimOkAfter(s: System, s': System, claim: ClaimStage, claim': ClaimStage)
    requires s'.table == s.table && s'.tableAt == s.tableAt && s'.heard == s.heard && s'.mark == s.mark
    requires ClaimOk(s, claim) && (HasLooked(claim) ==> AllFollowed(s'))
    requires claim.Replied? && claim.reply.NoneFound? ==>
      FoundNothing(s'.w, s.heard, s.mark, claim.reply.seen, claim.reply.at)
    requires || claim' == claim
             || (claim'.Swept? && !HasLooked(claim))
             || (JobOf(claim').Some? && JobOf(claim') == JobOf(claim) && HasLooked(claim))
    ensures ClaimOk(s', claim')
  {
    hide AllFollowed, FoundNothing, Eligible;
  }

  lemma SnapshotsOf(w: World)
    requires Invariant(w)
    ensures SnapshotsOk(w)
  {
  }

  /** The job that a claim has picked. */
  function JobOf(claim: ClaimStage): Option<JobId> {
    match claim
    case Picked(p, sealed) => Some(p)
    case Opened(p, legacy, providers, readAt) => Some(p)
    case Replied(LostRace(p)) => Some(p)
    case Replied(Won(p, settings, providers)) => Some(p)
    case _ => None
  }

  lemma ClaimMoves(w: World, a: Action, r: nat)
    requires Enabled(w, a) && ClaimAt(w, r) && !(a.OfClaim? && a.claim.ClaimReject?)
    ensures r < |RequestsAfter(w, a)| && RequestsAfter(w, a)[r].Claim?
    ensures var claim := RequestsAfter(w, a)[r].claim;
            if a.OfClaim? && a.claim.ClaimSelect? && a.claim.r == r then
              if a.claim.pick.None? then claim == Replied(NoneFound(w.jobs, w.clock))
              else claim == Picked(a.claim.pick.value, claim.sealed)
            else
              claim == w.requests[r].claim
              || (claim.Swept? && !HasLooked(w.requests[r].claim))
              || (JobOf(claim).Some? && JobOf(claim) == JobOf(w.requests[r].claim) && HasLooked(w.requests[r].claim))
  {
    hide PostNext, ReportNext, IsPick, OrderedRows, IsListing, IsFresh, OpenAll;
    if a.OfPost? && !a.post.PostBegin? {
      assert PostEnabled(w, a.post) && a.post.r != r;
    }
    if a.OfReport? && (a.report.ReportRead? || a.report.ReportWrite?) {
      assert ReportEnabled(w, a.report) && a.report.r != r;
    }
  }

  lemma WorkKeeps(s: System, a: Action)
    requires SystemOk(s) && Enabled(s.w, a)
    ensures SystemOk(After(s, Work(a)))
  {
    hide Apply, Enabled, Invariant, DeliveredOk, AgentOk, Looks, EventsOf;
    InvariantKept(s.w, a);
    DeliveredKept(s, a);
    LogGrows(s.w, a);
    SameDelivered(s, After(s, Work(a)));
    match s.agent
    case Asking(r) => AskingKept(s, a, r);
    case Waiting(Some(reply)) => WaitingKept(s, a, reply);
    case _ => OtherAgentOk(After(s, Work(a)));
  }

  lemma SameDelivered(s: System, s': System)
    requires DeliveredOk(s.(w := s'.w)) && s'.delivered == s.delivered
    ensures DeliveredOk(s')
  {
  }

  lemma OtherAgentOk(s: System)
    requires !s.agent.Asking? && !(s.agent.Waiting? && s.agent.last.Some?)
    ensures AgentOk(s)
  {
  }

  lemma WaitingKept(s: System, a: Action, reply: ClaimReply)
    requires SystemOk(s) && Enabled(s.w, a) && s.agent == Waiting(Some(reply))
    ensures AgentOk(After(s, Work(a)))
  {
    hide Apply, Enabled, Invariant, DeliveredOk, FoundNothing, AllFollowed, Eligible;
    AllFollowedKept(s, a);
    if reply.NoneFound? {
      NothingNewClaimable(s.w, a, s.heard, s.mark, reply.seen, reply.at);
    }
  }

  /** Asking sends a new request: nothing that was known of the Worker is lost. */
  lemma AskKeeps(s: System, worker: string)
    requires SystemOk(s) && s.agent.Draining?
    ensures SystemOk(After(s, Ask(worker)))
  {
    var a := OfClaim(ClaimBegin(worker));
    assert Enabled(s.w, a);
    hide Apply, Enabled, Invariant, DeliveredOk, EventsOf;
    InvariantKept(s.w, a);
    DeliveredKept(s, a);
    LogGrows(s.w, a);
    ApplyRequests(s.w, a);
    SameDelivered(s, After(s, Ask(worker)));
  }

  lemma StepKeeps(s: System, e: Step)
    requires SystemOk(s) && CanStep(s, e)
    ensures SystemOk(After(s, e))
  {
    hide After, SystemOk, Enabled, ClaimAt, AnsweredOk;
    match e
    case Work(a) => WorkKeeps(s, a);
    case Ask(worker) => AskKeeps(s, worker);
    case Wake(j, p) => WakeKeeps(s, j, p);
    case _ => AgentMoves(s, e);
  }

  lemma WakeKeeps(s: System, j: JobId, p: nat)
    requires SystemOk(s) && AnsweredOk(s.w, p, j)
    ensures SystemOk(After(s, Wake(j, p)))
  {
    hide Invariant, FoundNothing, AnsweredOk;
  }

  lemma AgentMoves(s: System, e: Step)
    requires SystemOk(s) && CanStep(s, e) && !e.Work? && !e.Ask? && !e.Wake?
    ensures SystemOk(After(s, e))
  {
    hide Invariant, FoundNothing, DeliveredOk, Apply;
    SameDelivered(s, After(s, e));
  }

  lemma {:induction false} AlwaysOk(ss: seq<System>, steps: seq<Step>, k: nat)
    requires IsHistory(ss, steps) && k < |ss|
    ensures SystemOk(ss[k])
  {
    hide After, SystemOk, CanStep;
    if k == 0 {
      StartOk(ss[0].w.clock);
    } else {
      AlwaysOk(ss, steps, k - 1);
      StepKeeps(ss[k - 1], steps[k - 1]);
    }
  }

  lemma StartOk(clock: int)
    ensures SystemOk(Start(clock))
  {
    hide Invariant;
    InvariantInitially(clock);
  }

  // ---------- no lost wakeup

  /** In every interleaving: when the agent waits with the event clear after a drain that ended because there was no
      job, then every job whose wake has been delivered was in the table that the last claim looked at, and could not be
      claimed there: it had been claimed, had ended, was deleted or expired. If it can be claimed now, it has been
      recovered since. */
  lemma NoLostWakeup(ss: seq<System>, steps: seq<Step>, k: nat, j: JobId)
    requires IsHistory(ss, steps) && k < |ss|
    requires ss[k].agent.Waiting? && ss[k].agent.last.Some? && ss[k].agent.last.value.NoneFound?
    requires !ss[k].flag && j in ss[k].delivered
    ensures var reply := ss[k].agent.last.value;
            && j in reply.seen && !Eligible(reply.seen[j], reply.at)
            && (Claimable(ss[k].w, j) ==> RecoveredSince(ss[k].w.log, ss[k].mark, j))
  {
    hide IsHistory, Invariant, DeliveredOk, Eligible, Claimable, RecoveredSince, Apply, Enabled, Unborn;
    AlwaysOk(ss, steps, k);
  }

  /** And after any empty reply, in every interleaving: the drain ended because the table held no job to claim, or because
      the job that was picked from it could not be taken any more. A delivered job that was not recovered since the look
      can be claimed now, while the agent waits with the event clear, if and only if it could be claimed in the table that
      was looked at, nobody has taken it since, and it has been neither deleted nor outlived. After the first kind of
      reply there is no such job; after the second all of them are left behind. */
  lemma LeftBehind(ss: seq<System>, steps: seq<Step>, k: nat, j: JobId)
    requires IsHistory(ss, steps) && k < |ss|
    requires ss[k].agent.Waiting? && ss[k].agent.last.Some?
    requires !ss[k].flag && j in ss[k].delivered && !RecoveredSince(ss[k].w.log, ss[k].mark, j)
    ensures ss[k].agent.last.value.NoneFound? || ss[k].agent.last.value.LostRace?
    ensures j in ss[k].table && j in ss[k].w.jobs
    ensures Claimable(ss[k].w, j) <==>
            && Eligible(ss[k].table[j], ss[k].tableAt)
            && !TakenSince(ss[k].w.log, ss[k].mark, j)
            && !ss[k].w.jobs[j].deleted && PublicAlive(ss[k].w.jobs[j], ss[k].w.clock)
    ensures ss[k].agent.last.value.NoneFound? ==> !Eligible(ss[k].table[j], ss[k].tableAt) && !Claimable(ss[k].w, j)
  {
    hide IsHistory, Invariant, DeliveredOk, PublicAlive, RecoveredSince, TakenSince, Apply, Enabled, Unborn;
    AlwaysOk(ss, steps, k);
    assert Followed(ss[k].w, ss[k].mark, ss[k].table, ss[k].tableAt, j);
  }

  // ---------- how a drain goes on and how it ends

  /** The agent's claim was answered with a job. */
  predicate AnsweredWithJob(s: System) {
    && s.agent.Asking? && ClaimAt(s.w, s.agent.r)
    && s.w.requests[s.agent.r].claim.Replied? && s.w.requests[s.agent.r].claim.reply.Won?
  }

  lemma StepOfHistory(ss: seq<System>, steps: seq<Step>, k: nat)
    requires IsHistory(ss, steps) && k < |steps|
    ensures CanStep(ss[k], steps[k]) && ss[k + 1] == After(ss[k], steps[k])
  {
    hide CanStep, After;
  }

  /** One step of the agent: it begins to wait only on a failed request or job, or on a reply without a job; a job that was
      won is run; a drain that has not asked yet asks next. */
  lemma AgentStep(s: System, e: Step)
    requires CanStep(s, e)
    ensures After(s, e).agent.Waiting? && !s.agent.Waiting? ==>
      (e.NoAnswer? && After(s, e).agent.last.None?) || (e.Answer? && !AnsweredWithJob(s) && After(s, e).agent.last.Some?)
    ensures After(s, e).agent.Waiting? && s.agent.Waiting? ==> After(s, e).agent == s.agent
    ensures e.Answer? && AnsweredWithJob(s) ==> After(s, e).agent == Busy(s.w.requests[s.agent.r].claim.reply.won)
    ensures e.NextJob? ==> s.agent.Busy? && After(s, e).agent == Draining
    ensures s.agent.Draining? && !e.Ask? ==> After(s, e).agent == Draining
    ensures e.Ask? ==> After(s, e).agent == Asking(|s.w.requests|)
    ensures e.WaitOver? ==> After(s, e).agent == Top
    ensures e.Clear? ==> After(s, e).agent == Draining && !After(s, e).flag
    ensures e.Work? || e.Wake? ==> After(s, e).agent == s.agent
    ensures !e.Clear? && s.flag ==> After(s, e).flag
  {
    hide Apply, Enabled, AnsweredOk;
  }

  /** In every history a drain ends only with a failed request or job, or with a reply without a job, after which the agent
      waits for as long as it waits. */
  lemma {:induction false} DrainEnds(ss: seq<System>, steps: seq<Step>, i: nat, m: nat) returns (n: nat)
    requires IsHistory(ss, steps) && i < m < |ss|
    requires !ss[i].agent.Waiting? && ss[m].agent.Waiting?
    ensures i <= n < m && !ss[n].agent.Waiting? && forall l :: n < l <= m ==> ss[l].agent == ss[m].agent
    ensures (steps[n].NoAnswer? && ss[m].agent.last.None?)
            || (steps[n].Answer? && !AnsweredWithJob(ss[n]) && ss[m].agent.last.Some?)
    decreases m
  {
    hide IsHistory, After, CanStep, AnsweredWithJob;
    assert m <= |steps| by {
      LengthOf(ss, steps);
    }
    StepOfHistory(ss, steps, m - 1);
    AgentStep(ss[m - 1], steps[m - 1]);
    if ss[m - 1].agent.Waiting? {
      n := DrainEnds(ss, steps, i, m - 1);
    } else {
      n := m - 1;
    }
  }

  lemma LengthOf(ss: seq<System>, steps: seq<Step>)
    requires IsHistory(ss, steps)
    ensures |ss| == |steps| + 1
  {
    hide CanStep, After;
  }

  /** While no request is sent a drain that has not asked yet stays where it is. */
  lemma {:induction false} StaysDraining(ss: seq<System>, steps: seq<Step>, i: nat, m: nat)
    requires IsHistory(ss, steps) && i <= m < |ss| && ss[i].agent.Draining?
    requires forall n :: i <= n < m && n < |steps| ==> !steps[n].Ask?
    ensures ss[m].agent.Draining?
    decreases m
  {
    hide IsHistory, After, CanStep;
    LengthOf(ss, steps);
    if i < m {
      StaysDraining(ss, steps, i, m - 1);
      StepOfHistory(ss, steps, m - 1);
      AgentStep(ss[m - 1], steps[m - 1]);
    }
  }

  /** In every history the agent asks again after each job, and after each time it cleared the event, before it waits. */
  lemma AsksBeforeWaiting(ss: seq<System>, steps: seq<Step>, k: nat, m: nat)
    requires IsHistory(ss, steps) && k < m < |ss| && k < |steps|
    requires (steps[k].NextJob? || steps[k].Clear?) && ss[m].agent.Waiting?
    ensures exists n :: k < n < m && n < |steps| && steps[n].Ask?
  {
    hide IsHistory, After, CanStep;
    StepOfHistory(ss, steps, k);
    AgentStep(ss[k], steps[k]);
    if forall n :: k < n < m && n < |steps| ==> !steps[n].Ask? {
      StaysDraining(ss, steps, k + 1, m);
      assert false;
    }
  }

  /** A job that was won is run before the agent asks again or waits. */
  lemma WonJobIsRun(ss: seq<System>, steps: seq<Step>, k: nat)
    requires IsHistory(ss, steps) && k < |steps| && steps[k].Answer?
    ensures ss[k].agent.Asking? && ClaimAt(ss[k].w, ss[k].agent.r) && ss[k].w.requests[ss[k].agent.r].claim.Replied?
    ensures var reply := ss[k].w.requests[ss[k].agent.r].claim.reply;
            if reply.Won? then ss[k + 1].agent == Busy(reply.won)
            else ss[k + 1].agent == Waiting(Some(reply)) && (reply.NoneFound? || reply.LostRace?)
  {
    StepOfHistory(ss, steps, k);
    LengthOf(ss, steps);
    AlwaysOk(ss, steps, k);
    hide IsHistory, Apply, Enabled, Invariant, DeliveredOk, AllFollowed, FoundNothing, Eligible;
  }

  /** The event is what makes this work: a wake that arrives after the event was cleared is never forgotten, so an agent
      that waits with the event clear has drained after every wake. */
  lemma WakeIsRemembered(ss: seq<System>, steps: seq<Step>, k: nat)
    requires IsHistory(ss, steps) && k < |ss| && !ss[k].flag
    ensures ss[k].heard == ss[k].delivered
  {
    hide IsHistory, Invariant, DeliveredOk, AgentOk, Apply, Enabled;
    AlwaysOk(ss, steps, k);
  }

  /** An empty reply that does not come from an empty table promises nothing: whenever the agent's claim loses the race
      for the job it picked, the drain ends with every other job as claimable as it was. */
  lemma LostRaceEndsDrain(s: System, r: nat, stamp: int, j: JobId)
    requires s.agent == Asking(r) && Enabled(s.w, OfClaim(ClaimTake(r, stamp)))
    requires !CanTake(s.w, s.w.requests[r].claim.ready)
    requires !s.flag && j in s.delivered && Claimable(s.w, j)
    ensures var s1 := After(s, Work(OfClaim(ClaimTake(r, stamp))));
            && CanStep(s1, Answer)
            && After(s1, Answer).agent == Waiting(Some(LostRace(s.w.requests[r].claim.ready)))
            && !After(s1, Answer).flag && j in After(s1, Answer).delivered && Claimable(After(s1, Answer).w, j)
  {
    var a := OfClaim(ClaimTake(r, stamp));
    assert Enabled(s.w, a);
    var q := s.w.requests[r];
    assert RequestsAfter(s.w, a)[r] == q.(claim := Replied(LostRace(q.claim.ready)));
    assert Updated(s.w, a, j) == s.w.jobs[j];
    hide PublicAlive, EventsOf;
  }
}
