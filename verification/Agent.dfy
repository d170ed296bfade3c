/** One claimed job on the agent (pc-api-python/main.py, agent_loop): engines tried in order, progress throttled, one
    terminal report. A translation is any finite event stream that ends or raises. */
module Agent {
  import opened Basics
  import opened Tables
  import opened Engines

  // ---------- events of a translation

  /** The progress value of an event, as Python's float() sees it. */
  datatype Raw = Missing | NotANumber | NotFinite | Number(value: real)

  datatype Kind = ProgressStart | ProgressUpdate | ProgressEnd | Finish | Other

  datatype Event = Event(kind: Kind, raw: Raw, at: real)

  function NormalizeProgress(raw: Raw): Option<real> {
    match raw
    case Number(v) => Some(if v < 0.0 then 0.0 else if v > 100.0 then 100.0 else v)
    case _ => None
  }

  function RAbs(x: real): real {
    if x < 0.0 then -x else x
  }

  /** It has a value exactly for a finite number, which is then the nearest percent to it. */
  lemma NormalizedIsNearest(raw: Raw, other: real)
    ensures NormalizeProgress(raw).Some? <==> raw.Number?
    ensures raw.Number? ==>
      var v := NormalizeProgress(raw).value;
      && 0.0 <= v <= 100.0
      && (0.0 <= raw.value <= 100.0 ==> v == raw.value)
      && (0.0 <= other <= 100.0 ==> RAbs(v - raw.value) <= RAbs(other - raw.value))
  {
  }

  function RMax(a: real, b: real): real {
    if a < b then b else a
  }

  /** What an event is worth as progress: nothing, its normalised percent, or 100 for the finish. */
  function Worth(e: Event): real {
    match e.kind
    case Other => 0.0
    case Finish => 100.0
    case _ =>
      match NormalizeProgress(e.raw)
      case None => 0.0
      case Some(v) => v
  }

  /** The highest progress after more events. */
  function Peak(start: real, events: seq<Event>): real {
    if events == [] then start else RMax(Peak(start, events[..|events| - 1]), Worth(events[|events| - 1]))
  }

  /** It is the maximum of the start and everything the events are worth. */
  lemma {:induction false} PeakIsMaximum(start: real, events: seq<Event>)
    ensures Peak(start, events) >= start
    ensures forall i :: 0 <= i < |events| ==> Peak(start, events) >= Worth(events[i])
    ensures Peak(start, events) == start || exists i :: 0 <= i < |events| && Peak(start, events) == Worth(events[i])
  {
    if events != [] {
      var n := |events| - 1;
      PeakIsMaximum(start, events[..n]);
      if Peak(start, events) == Worth(events[n]) {
      } else if Peak(start, events) != start {
        var i :| 0 <= i < n && Peak(start, events[..n]) == Worth(events[..n][i]);
        assert events[i] == events[..n][i];
      }
    }
  }

  lemma {:induction false} PeakAppend(start: real, a: seq<Event>, b: seq<Event>)
    ensures Peak(Peak(start, a), b) == Peak(start, a + b)
  {
    if b == [] {
      assert a + b == a;
    } else {
      PeakAppend(start, a, b[..|b| - 1]);
      assert (a + b)[..|a + b| - 1] == a + b[..|b| - 1];
    }
  }

  lemma PeakStep(start: real, events: seq<Event>, n: nat)
    requires n <= |events|
    ensures Peak(start, events[..0]) == start
    ensures n < |events| ==> Peak(start, events[..n + 1]) == RMax(Peak(start, events[..n]), Worth(events[n]))
  {
    if n < |events| {
      assert events[..n + 1][..n] == events[..n];
    }
  }

  /** How one engine behaves: its events and whether the stream then raises; the router's consecutive failures when
      it ends; and where the code around it raises. */
  datatype Script = Script(settingsRaise: bool, events: seq<Event>, raises: bool, streak: nat, handlerRaises: bool)

  /** The engine ended without raising; a clean end of the router engine is rejected after three exhausted requests. */
  predicate Clean(e: Engine, s: Script) {
    !s.settingsRaise && !s.raises && !(e.RouterEngine? && s.streak >= 3)
  }

  /** The job is given up at this engine: something raised outside the engine's own try block. */
  predicate GivesUp(e: Engine, s: Script) {
    s.settingsRaise || (!Clean(e, s) && s.handlerRaises)
  }

  /** The events of the first n engines; an engine that is not even set up has none. */
  function EventsRun(script: nat -> Script, n: nat): seq<Event> {
    if n == 0 then []
    else EventsRun(script, n - 1) + if script(n - 1).settingsRaise then [] else script(n - 1).events
  }

  /** The providers of a claimed job: the snapshot rows handed out, or the settings of the job row when there are none. */
  function ProvidersOf(handed: seq<PlainProvider>, settings: Legacy<string>): (providers: seq<PlainProvider>)
    ensures handed != [] ==> providers == handed
    ensures handed == [] ==> |providers| == 1 && LegacyOf(providers[0]) == settings
  {
    if handed != [] then handed
    else [Provider("Legacy", settings.source, settings.baseUrl, settings.model, settings.key, 1, None, None)]
  }

  // ---------- messages to the Worker

  datatype Phase = Claimed | Preparing | Retrying | Working | Finished | EngineFailed | GaveUp

  datatype Message =
    | Progress(percent: real, phase: Phase, says: ReportStatus)
    | Attempt(order: nat, completed: Option<bool>)
    | ProviderStats
    | ReportSucceeded
    | ReportFailed

  predicate IsTerminal(m: Message) {
    m.ReportSucceeded? || m.ReportFailed? || (m.Progress? && m.says == SaysFailed)
  }

  /** A running progress report, or a message that does not concern the job's row. */
  predicate IsInterim(m: Message) {
    m.Progress? ==> m.says == SaysRunning
  }

  /** Reported percents never decrease and stay between low and high. */
  ghost predicate Rising(box: seq<Message>, low: real, high: real) {
    && (forall i :: 0 <= i < |box| && box[i].Progress? ==> low <= box[i].percent <= high)
    && (forall i, j :: 0 <= i < j < |box| && box[i].Progress? && box[j].Progress? ==> box[i].percent <= box[j].percent)
  }

  ghost predicate Interim(box: seq<Message>) {
    forall i :: 0 <= i < |box| ==> IsInterim(box[i]) && !IsTerminal(box[i])
  }

  /** The percent of the last progress report; none counts as 0. */
  function LastReported(box: seq<Message>): real {
    if box == [] then 0.0
    else if box[|box| - 1].Progress? then box[|box| - 1].percent
    else LastReported(box[..|box| - 1])
  }

  lemma LastReportedAppend(box: seq<Message>, m: Message)
    ensures LastReported(box + [m]) == if m.Progress? then m.percent else LastReported(box)
  {
    assert (box + [m])[..|box|] == box;
  }

  /** A message that marks a point of the job, percents left out; the progress of a translation marks none. */
  function Mark(m: Message): seq<Message> {
    match m
    case Progress(percent, phase, says) =>
      if phase == Working || phase == Finished then [] else [Stage(phase, says)]
    case _ => [m]
  }

  function Stage(phase: Phase, says: ReportStatus): Message {
    Progress(0.0, phase, says)
  }

  function Marks(box: seq<Message>): seq<Message> {
    if box == [] then [] else Marks(box[..|box| - 1]) + Mark(box[|box| - 1])
  }

  lemma MarksAppend(box: seq<Message>, m: Message)
    ensures Marks(box + [m]) == Marks(box) + Mark(m)
  {
    assert (box + [m])[..|box|] == box;
  }

  function Tries(order: nat): seq<Message> {
    (if order > 0 then [Stage(Retrying, SaysRunning)] else []) + [Attempt(order + 1, None)]
  }

  /** What one engine reports of itself: that it is tried, after others, and how it ended, unless the job is given up; a
      failed attempt is reported only for a provider that has an id. */
  function AttemptsOf(order: nat, e: Engine, hasId: bool, s: Script): seq<Message> {
    if s.settingsRaise then []
    else
      Tries(order) +
      (if Clean(e, s) then [Attempt(order + 1, Some(true))]
       else if s.handlerRaises then []
       else [Stage(EngineFailed, SaysRunning)] + if hasId then [Attempt(order + 1, Some(false))] else [])
  }

  function AttemptsRun(engines: seq<Engine>, hasIds: bool, script: nat -> Script, n: nat): seq<Message>
    requires n <= |engines|
  {
    if n == 0 then []
    else AttemptsRun(engines, hasIds, script, n - 1) + AttemptsOf(n - 1, engines[n - 1], hasIds, script(n - 1))
  }

  lemma RisingAppend(box: seq<Message>, low: real, high: real, m: Message, high': real)
    requires Rising(box, low, high) && low <= high <= high'
    requires m.Progress? ==> high <= m.percent <= high'
    ensures Rising(box + [m], low, high')
  {
  }

  lemma InterimAppend(box: seq<Message>, m: Message)
    requires Interim(box) && IsInterim(m) && !IsTerminal(m)
    ensures Interim(box + [m])
  {
  }

  /** Does some engine end cleanly before the job is given up? */
  ghost predicate Verdict(engines: seq<Engine>, script: nat -> Script) {
    exists i :: 0 <= i < |engines| && Clean(engines[i], script(i)) && forall k :: 0 <= k < i ==> !GivesUp(engines[k], script(k))
  }

  /** Is the job given up at some engine, all before it having failed? */
  ghost predicate GivenUp(engines: seq<Engine>, script: nat -> Script) {
    exists i :: 0 <= i < |engines| && GivesUp(engines[i], script(i))
                && forall k :: 0 <= k < i ==> !Clean(engines[k], script(k)) && !GivesUp(engines[k], script(k))
  }

  class JobRun {
    var outbox: seq<Message>
    var lastPercent: real
    var lastTime: real
    var success: bool

    constructor (now: real)
      ensures outbox == [] && lastPercent == 15.0 && !success
    {
      outbox, lastPercent, lastTime, success := [], 15.0, now, false;
    }

    /** All reports so far are interim and in order, and the last percent is the last one reported, or still 15. */
    ghost predicate Valid()
      reads this
    {
      && 15.0 <= lastPercent <= 100.0
      && Interim(outbox)
      && Rising(outbox, 0.0, lastPercent)
      && lastPercent == RMax(15.0, LastReported(outbox))
    }

    method Send(m: Message)
      requires Valid() && IsInterim(m) && !IsTerminal(m) && (m.Progress? ==> m.percent == lastPercent)
      modifies this`outbox
      ensures Valid() && outbox == old(outbox) + [m]
      ensures Marks(outbox) == Marks(old(outbox)) + Mark(m)
    {
      MarksAppend(outbox, m);
      RisingAppend(outbox, 0.0, lastPercent, m, lastPercent);
      InterimAppend(outbox, m);
      LastReportedAppend(outbox, m);
      outbox := outbox + [m];
    }

    /** One event of the stream: the last percent becomes the maximum of itself and what the event is worth. It is reported
        exactly if it is a finish, a progress more than half a second after the last report, or an increase: the throttle
        drops no increase, and Valid says that the last percent is the last one reported. */
    method OnEvent(e: Event)
      requires Valid()
      modifies this
      ensures Valid() && success == old(success)
      ensures lastPercent == RMax(old(lastPercent), Worth(e))
      ensures outbox == old(outbox) || exists phase :: outbox == old(outbox) + [Progress(lastPercent, phase, SaysRunning)]
      ensures outbox != old(outbox) <==>
              e.kind == Finish || lastPercent > old(lastPercent) || (e.kind != Other && e.at - old(lastTime) > 0.5)
      ensures lastTime == if outbox != old(outbox) then e.at else old(lastTime)
      ensures Marks(outbox) == Marks(old(outbox))
    {
      hide Marks;
      if e.kind == Other {
        return;
      }
      var newPercent := NormalizeProgress(e.raw);
      var percent := if newPercent.None? then lastPercent else RMax(lastPercent, newPercent.value);
      var phase := Working;
      if e.kind == Finish {
        percent := 100.0;
        phase := Finished;
      }
      if e.kind == Finish || e.at - lastTime > 0.5 || percent > lastPercent {
        RisingAppend(outbox, 0.0, lastPercent, Progress(percent, phase, SaysRunning), percent);
        InterimAppend(outbox, Progress(percent, phase, SaysRunning));
        LastReportedAppend(outbox, Progress(percent, phase, SaysRunning));
        MarksAppend(outbox, Progress(percent, phase, SaysRunning));
        lastTime := e.at;
        lastPercent := percent;
        outbox := outbox + [Progress(percent, phase, SaysRunning)];
      }
    }

    /** The event loop of one engine. */
    method RunEvents(events: seq<Event>)
      requires Valid()
      modifies this
      ensures Valid() && success == old(success) && old(outbox) <= outbox
      ensures lastPercent == Peak(old(lastPercent), events)
      ensures Marks(outbox) == Marks(old(outbox))
    {
      hide Peak, Rising, Interim, LastReported, Marks;
      PeakStep(lastPercent, events, 0);
      for n := 0 to |events|
        invariant Valid() && success == old(success) && old(outbox) <= outbox
        invariant lastPercent == Peak(old(lastPercent), events[..n])
        invariant Marks(outbox) == Marks(old(outbox))
      {
        PeakStep(old(lastPercent), events, n);
        OnEvent(events[n]);
      }
      assert events[..|events|] == events;
    }

    /** The try block around one engine; gaveUp when an exception leaves it. */
    method RunEngine(order: nat, engine: Engine, hasId: bool, s: Script) returns (gaveUp: bool)
      requires Valid() && !success
      modifies this
      ensures Valid() && old(outbox) <= outbox
      ensures success == Clean(engine, s) && gaveUp == GivesUp(engine, s)
      ensures lastPercent == if s.settingsRaise then old(lastPercent) else Peak(old(lastPercent), s.events)
      ensures Marks(outbox) == Marks(old(outbox)) + AttemptsOf(order, engine, hasId, s)
    {
      hide Peak, Rising, Interim, LastReported, Marks;
      if s.settingsRaise {
        return true;
      }
      if order > 0 {
        Send(Progress(lastPercent, Retrying, SaysRunning));
      }
      Send(Attempt(order + 1, None));
      assert Marks(outbox) == Marks(old(outbox)) + Tries(order);
      RunEvents(s.events);
      if s.raises || (engine.RouterEngine? && s.streak >= 3) {
        if s.handlerRaises {
          return true;
        }
        Send(Progress(lastPercent, EngineFailed, SaysRunning));
        if hasId {
          Send(Attempt(order + 1, Some(false)));
        }
        return false;
      }
      success := true;
      Send(Attempt(order + 1, Some(true)));
      return false;
    }
  }

  /** What is true of the engines tried so far: none of them ended the job, or the last one did. */
  ghost predicate Tried(engines: seq<Engine>, script: nat -> Script, ran: nat, success: bool, gaveUp: bool)
    requires ran <= |engines|
  {
    && (success ==> !gaveUp && Verdict(engines, script))
    && (gaveUp ==> !Verdict(engines, script) && GivenUp(engines, script))
    && (success ==> !GivenUp(engines, script))
    && (forall k :: 0 <= k < ran - 1 ==> !Clean(engines[k], script(k)) && !GivesUp(engines[k], script(k)))
    && (!success && !gaveUp ==> forall k :: 0 <= k < ran ==> !Clean(engines[k], script(k)) && !GivesUp(engines[k], script(k)))
  }

  /** The first n engines all failed. */
  ghost predicate AllFell(engines: seq<Engine>, script: nat -> Script, n: int) {
    forall k :: 0 <= k < n && k < |engines| ==> !Clean(engines[k], script(k)) && !GivesUp(engines[k], script(k))
  }

  lemma TriedOneMore(engines: seq<Engine>, script: nat -> Script, n: nat)
    requires n < |engines| && Tried(engines, script, n, false, false)
    ensures Tried(engines, script, n + 1, Clean(engines[n], script(n)), GivesUp(engines[n], script(n)))
  {
  }

  /** Once the loop is over, success is the verdict. */
  lemma TriedAll(engines: seq<Engine>, script: nat -> Script, ran: nat, success: bool, gaveUp: bool)
    requires ran <= |engines| && Tried(engines, script, ran, success, gaveUp)
    requires ran == |engines| || success || gaveUp
    ensures success <==> Verdict(engines, script)
    ensures gaveUp <==> GivenUp(engines, script)
    ensures AllFell(engines, script, ran - 1)
  {
  }

  function EventsAt(script: nat -> Script, n: nat): seq<Event> {
    if script(n).settingsRaise then [] else script(n).events
  }

  lemma PeakOneMore(script: nat -> Script, n: nat, before: real, after: real)
    requires before == Peak(15.0, EventsRun(script, n))
    requires after == if script(n).settingsRaise then before else Peak(before, script(n).events)
    ensures after == Peak(15.0, EventsRun(script, n + 1))
  {
    PeakAppend(15.0, EventsRun(script, n), EventsAt(script, n));
  }

  /** The for loop over the engines. */
  method RunEngines(job: JobRun, engines: seq<Engine>, hasIds: bool, script: nat -> Script) returns (ran: nat, gaveUp: bool)
    requires job.Valid() && !job.success && job.lastPercent == 15.0
    modifies job
    ensures job.Valid() && old(job.outbox) <= job.outbox
    ensures ran <= |engines| && (job.success <==> Verdict(engines, script)) && (gaveUp ==> !job.success)
    ensures gaveUp <==> GivenUp(engines, script)
    ensures ran < |engines| ==> job.success || gaveUp
    ensures job.lastPercent == Peak(15.0, EventsRun(script, ran))
    ensures AllFell(engines, script, ran - 1)
    ensures Marks(job.outbox) == Marks(old(job.outbox)) + AttemptsRun(engines, hasIds, script, ran)
  {
    hide AllFell, Verdict, GivenUp, Peak, EventsRun, Tried, Clean, GivesUp, Rising, Interim, LastReported, Marks, AttemptsOf;
    ran, gaveUp := 0, false;
    NothingTried(engines, script);
    while ran < |engines| && !job.success && !gaveUp
      invariant ran <= |engines| && job.Valid() && old(job.outbox) <= job.outbox
      invariant Tried(engines, script, ran, job.success, gaveUp) && (gaveUp ==> !job.success)
      invariant job.lastPercent == Peak(15.0, EventsRun(script, ran))
      invariant Marks(job.outbox) == Marks(old(job.outbox)) + AttemptsRun(engines, hasIds, script, ran)
    {
      ghost var before := job.lastPercent;
      TriedOneMore(engines, script, ran);
      gaveUp := job.RunEngine(ran, engines[ran], hasIds, script(ran));
      PeakOneMore(script, ran, before, job.lastPercent);
      CleanOrNot(engines[ran], script(ran));
      ran := ran + 1;
    }
    TriedAll(engines, script, ran, job.success, gaveUp);
  }

  lemma NothingTried(engines: seq<Engine>, script: nat -> Script)
    ensures Tried(engines, script, 0, false, false)
    ensures Peak(15.0, EventsRun(script, 0)) == 15.0
  {
  }

  lemma AllFellNone(engines: seq<Engine>, script: nat -> Script)
    ensures AllFell(engines, script, -1)
  {
  }

  lemma CleanOrNot(e: Engine, s: Script)
    ensures !(Clean(e, s) && GivesUp(e, s))
  {
  }

  /** What an outbox must look like for the end of the job to be right. */
  ghost predicate WellReported(box: seq<Message>, verdict: bool) {
    && box != []
    && Interim(box[..|box| - 1])
    && IsTerminal(box[|box| - 1])
    && (box[|box| - 1].ReportSucceeded? <==> verdict)
    && Rising(box, 0.0, 100.0)
  }

  /** How a job ends that was not given up: its statistics, if there are any, and the verdict. */
  function Closing(hasStats: bool, verdict: bool): seq<Message> {
    (if hasStats then [ProviderStats] else []) + [if verdict then ReportSucceeded else ReportFailed]
  }

  /** The whole handling of one claimed job: one terminal report, last of all, and success exactly when some engine
      ended without raising. `ran` engines were run, each only after all before it had failed; `last` is the last
      percent: the maximum of 15 and all that their events are worth. */
  method RunJob(handed: seq<PlainProvider>, settings: Legacy<string>, now: real, setupRaises: bool, hasStats: bool,
                script: nat -> Script)
    returns (box: seq<Message>, verdict: bool, ran: nat, last: real)
    ensures var engines := EnginesOf(ProvidersOf(handed, settings));
            && (verdict <==> !setupRaises && Verdict(engines, script))
            && ran <= |engines| && AllFell(engines, script, ran - 1)
            && (!setupRaises && !verdict && !GivenUp(engines, script) ==> ran == |engines|)
            && Marks(box) ==
               (if setupRaises then [Stage(Claimed, SaysRunning), Stage(GaveUp, SaysFailed)]
                else
                  [Stage(Claimed, SaysRunning), Stage(Preparing, SaysRunning)]
                  + AttemptsRun(engines, handed != [], script, ran)
                  + if GivenUp(engines, script) then [Stage(GaveUp, SaysFailed)] else Closing(hasStats, verdict))
    ensures handed != [] ==> (verdict <==> !setupRaises && Verdict(EnginesOf(handed), script))
    ensures WellReported(box, verdict) && box[0] == Progress(5.0, Claimed, SaysRunning)
    ensures last == Peak(15.0, EventsRun(script, ran)) && last == RMax(15.0, LastReported(box[..|box| - 1]))
  {
    hide Verdict, GivenUp, AllFell, Peak, EventsRun, Rising, Interim, EnginesOf, LastReported, Marks, AttemptsRun;
    var job := new JobRun(now);
    box := [Progress(5.0, Claimed, SaysRunning)];
    verdict, ran, last := false, 0, 15.0;
    NothingTried(EnginesOf(ProvidersOf(handed, settings)), script);
    AllFellNone(EnginesOf(ProvidersOf(handed, settings)), script);
    if setupRaises {
      box := box + [Progress(100.0, GaveUp, SaysFailed)];
      FirstReports();
      assert box[..|box| - 1] == [Progress(5.0, Claimed, SaysRunning)];
      Ending(box[..1], 15.0, Progress(100.0, GaveUp, SaysFailed), false);
      MarksAppend(box[..1], Progress(100.0, GaveUp, SaysFailed));
      return;
    }
    var engines := BuildEngines(ProvidersOf(handed, settings));
    FirstReports();
    job.outbox := box + [Progress(10.0, Preparing, SaysRunning)];
    var gaveUp;
    ran, gaveUp := RunEngines(job, engines, handed != [], script);
    last := job.lastPercent;
    if gaveUp {
      box := job.outbox + [Progress(100.0, GaveUp, SaysFailed)];
    } else {
      if hasStats {
        job.Send(ProviderStats);
      }
      verdict := job.success;
      box := job.outbox + [if job.success then ReportSucceeded else ReportFailed];
    }
    assert box[..|box| - 1] == job.outbox;
    MarksAppend(job.outbox, box[|box| - 1]);
    Ending(job.outbox, job.lastPercent, box[|box| - 1], verdict);
  }

  /** What is reported before the first engine. */
  lemma FirstReports()
    ensures var one := [Progress(5.0, Claimed, SaysRunning)];
            Interim(one) && Rising(one, 0.0, 15.0) && LastReported(one) == 5.0
            && Marks(one) == [Stage(Claimed, SaysRunning)]
    ensures var two := [Progress(5.0, Claimed, SaysRunning)] + [Progress(10.0, Preparing, SaysRunning)];
            Interim(two) && Rising(two, 0.0, 15.0) && LastReported(two) == 10.0
            && Marks(two) == [Stage(Claimed, SaysRunning), Stage(Preparing, SaysRunning)]
  {
    MarksAppend([Progress(5.0, Claimed, SaysRunning)], Progress(10.0, Preparing, SaysRunning));
    LastReportedAppend([Progress(5.0, Claimed, SaysRunning)], Progress(10.0, Preparing, SaysRunning));
  }

  lemma Ending(box: seq<Message>, high: real, m: Message, verdict: bool)
    requires Interim(box) && 0.0 <= high <= 100.0 && Rising(box, 0.0, high)
    requires IsTerminal(m) && (m.ReportSucceeded? <==> verdict) && (m.Progress? ==> m.percent == 100.0)
    ensures WellReported(box + [m], verdict)
  {
    RisingAppend(box, 0.0, high, m, 100.0);
    assert (box + [m])[..|box + [m]| - 1] == box;
    hide Rising, Interim;
  }
}
