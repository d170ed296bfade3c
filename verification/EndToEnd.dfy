/** The agent's messages fed into the Worker's handlers: with the lease kept, the job ends as the agent saw it. */
module EndToEnd {
  import opened Basics
  import opened Retention
  import opened Tables
  import opened Pipeline
  import opened Engines
  import opened Agent

  /** POST /agent/jobs/:id/progress, handled alone: its three steps of the Worker. */
  function HandleProgress(w: World, j: JobId, says: ReportStatus, percent: real, text: string): World {
    var r := |w.requests|;
    var w1 := Apply(w, OfReport(ReportBegin(j, says, Some(percent))));
    var w2 := Apply(w1, OfReport(ReportRead(r)));
    if ReportEnabled(w2, ReportWrite(r, text)) then Apply(w2, OfReport(ReportWrite(r, text))) else w2
  }

  /** One message of the agent, handled by the Worker. Attempts and statistics have tables of their own. */
  function Handle(w: World, j: JobId, m: Message, text: string): World {
    match m
    case Progress(percent, phase, says) => HandleProgress(w, j, says, percent, text)
    case ReportSucceeded => Apply(w, OfReport(Succeeded(j, w.clock, text)))
    case ReportFailed => Apply(w, OfReport(FailedReport(j, w.clock)))
    case _ => w
  }

  function Later(w: World, now: int): World {
    if w.clock <= now then Apply(w, Tick(now)) else w
  }

  /** The Worker after the first n messages: each arrives at its time, or is lost. Nothing else happens to the job. */
  function Replay(w: World, j: JobId, box: seq<Message>, delivered: nat -> bool, at: nat -> int, text: string, n: nat): World
    requires n <= |box|
  {
    if n == 0 then w
    else
      var before := Later(Replay(w, j, box, delivered, at, text, n - 1), at(n - 1));
      if delivered(n - 1) then Handle(before, j, box[n - 1], text) else before
  }

  /** No job but j has changed. */
  ghost predicate OthersUntouched(w: World, w': World, j: JobId) {
    w'.jobs.Keys == w.jobs.Keys && forall i :: i in w.jobs && i != j ==> w'.jobs[i] == w.jobs[i]
  }

  lemma LaterKeeps(w: World, now: int)
    ensures Later(w, now).jobs == w.jobs
  {
    hide RequestsAfter, EventsOf;
  }

  /** One report step touches at most row j. */
  lemma ReportStepRows(w: World, m: ReportStep, j: JobId)
    requires ReportEnabled(w, m)
    requires match m
             case ReportBegin(id, says, sent) => true
             case ReportRead(r) => true
             case ReportWrite(r, text) => w.requests[r].job == j
             case Succeeded(id, stamp, text) => id == j
             case FailedReport(id, stamp) => id == j
    ensures OthersUntouched(w, Apply(w, OfReport(m)), j)
    ensures j in w.jobs ==> Apply(w, OfReport(m)).jobs[j] == Updated(w, OfReport(m), j)
    ensures Apply(w, OfReport(m)).requests == RequestsAfter(w, OfReport(m))
  {
    hide RequestsAfter, EventsOf, NewPercent;
  }

  /** A progress report handled alone does to row j what the handler's arithmetic says. */
  lemma HandleProgressRow(w: World, j: JobId, says: ReportStatus, percent: real, text: string)
    requires j in w.jobs
    ensures var w' := HandleProgress(w, j, says, percent, text);
            && OthersUntouched(w, w', j)
            && w'.jobs[j] == ProgressRow(w.jobs[j], says, w.clock, Instant(w.clock + WEEK_MS, text),
                                         NewPercent(says, w.jobs[j].percent, Some(percent)))
  {
    hide EventsOf, NewPercent, ProgressRow, JobsAfter;
    var r := |w.requests|;
    var begin, read, write := ReportBegin(j, says, Some(percent)), ReportRead(r), ReportWrite(r, text);
    var w1 := Apply(w, OfReport(begin));
    ReportStepRows(w, begin, j);
    assert w1.requests[r] == Report(j, says, Some(percent), w.clock, Arrived) && w1.clock == w.clock;
    var w2 := Apply(w1, OfReport(read));
    ReportStepRows(w1, read, j);
    assert w2.requests[r] == Report(j, says, Some(percent), w.clock, Read(w.jobs[j].percent, w.clock));
    ReportStepRows(w2, write, j);
    hide Apply, RequestsAfter;
  }

  /** An interim message leaves a running job running. */
  lemma InterimKeepsRunning(w: World, j: JobId, m: Message, text: string)
    requires j in w.jobs && w.jobs[j].status == Running
    requires IsInterim(m) && !IsTerminal(m)
    ensures var w' := Handle(w, j, m, text);
            OthersUntouched(w, w', j) && w'.jobs[j].status == Running
  {
    if m.Progress? {
      HandleProgressRow(w, j, m.says, m.percent, text);
    }
    hide HandleProgress, NewPercent;
  }

  /** The terminal report decides the job. */
  lemma TerminalDecides(w: World, j: JobId, m: Message, text: string)
    requires j in w.jobs && w.jobs[j].status == Running && IsTerminal(m)
    ensures var w' := Handle(w, j, m, text);
            && OthersUntouched(w, w', j)
            && w'.jobs[j].finishedAt.Some?
            && w'.jobs[j].status == (if m.ReportSucceeded? then Completed else Failed)
            && (m.ReportSucceeded? ==> w'.jobs[j].percent == 100)
  {
    match m
    case Progress(percent, phase, says) => HandleProgressRow(w, j, says, percent, text);
    case ReportSucceeded => ReportStepRows(w, Succeeded(j, w.clock, text), j);
    case ReportFailed => ReportStepRows(w, FailedReport(j, w.clock), j);
    case _ =>
    hide HandleProgress, Apply, NewPercent;
  }

  lemma {:induction false} InterimReplay(w: World, j: JobId, box: seq<Message>, delivered: nat -> bool,
                                          at: nat -> int, text: string, n: nat)
    requires j in w.jobs && w.jobs[j].status == Running
    requires n <= |box| && forall i :: 0 <= i < n ==> IsInterim(box[i]) && !IsTerminal(box[i])
    ensures var w' := Replay(w, j, box, delivered, at, text, n);
            OthersUntouched(w, w', j) && w'.jobs[j].status == Running
  {
    if n > 0 {
      InterimReplay(w, j, box, delivered, at, text, n - 1);
      var before := Replay(w, j, box, delivered, at, text, n - 1);
      LaterKeeps(before, at(n - 1));
      var later := Later(before, at(n - 1));
      InterimKeepsRunning(later, j, box[n - 1], text);
      hide Handle, Later;
    }
  }

  /** The verdict of the agent is the end of the job: completed at 100% exactly when some engine ended without
      raising, failed otherwise; whichever interim messages are lost, however many engines failed before. */
  lemma VerdictReachesTheJob(w: World, j: JobId, box: seq<Message>, verdict: bool, delivered: nat -> bool,
                             at: nat -> int, text: string)
    requires j in w.jobs && w.jobs[j].status == Running
    requires WellReported(box, verdict)
    requires delivered(|box| - 1)
    ensures var w' := Replay(w, j, box, delivered, at, text, |box|);
            && OthersUntouched(w, w', j)
            && w'.jobs[j].status == (if verdict then Completed else Failed)
            && (verdict ==> w'.jobs[j].percent == 100)
            && w'.jobs[j].finishedAt.Some?
  {
    var n := |box| - 1;
    forall i | 0 <= i < n
      ensures IsInterim(box[i]) && !IsTerminal(box[i])
    {
      assert box[..n][i] == box[i];
    }
    InterimReplay(w, j, box, delivered, at, text, n);
    var before := Replay(w, j, box, delivered, at, text, n);
    LaterKeeps(before, at(n));
    var later := Later(before, at(n));
    TerminalDecides(later, j, box[n], text);
    hide Handle, Later;
  }

  /** The agent runs a claimed job and its messages reach the Worker, any interim ones possibly not. */
  method RunAndReport(w: World, j: JobId, handed: seq<PlainProvider>, settings: Legacy<string>, now: real, setupRaises: bool,
                      hasStats: bool, script: nat -> Script, delivered: nat -> bool, at: nat -> int, text: string)
    returns (w': World)
    requires j in w.jobs && w.jobs[j].status == Running
    ensures w'.jobs.Keys == w.jobs.Keys
    ensures w'.jobs[j].status == Completed <==> !setupRaises && Verdict(EnginesOf(ProvidersOf(handed, settings)), script)
    ensures handed != [] ==> (w'.jobs[j].status == Completed <==> !setupRaises && Verdict(EnginesOf(handed), script))
    ensures w'.jobs[j].status == Completed ==> w'.jobs[j].percent == 100
    ensures w'.jobs[j].status in {Completed, Failed}
  {
    var box, verdict, ran, last := RunJob(handed, settings, now, setupRaises, hasStats, script);
    var arrives := (n: nat) => n + 1 == |box| || delivered(n);
    VerdictReachesTheJob(w, j, box, verdict, arrives, at, text);
    w' := Replay(w, j, box, arrives, at, text, |box|);
  }
}
