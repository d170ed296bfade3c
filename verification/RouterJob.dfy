/** The router state of one job as the object its handlers update in place, one method for each piece of
    handle_router_request between two awaits. */
module RouterJob {
  import opened Basics
  import opened Router

  class Job {
    const backends: seq<Backend>
    var stats: map<string, Stats>
    var active: string
    var streak: nat
    var requests: seq<Request>
    var log: seq<Completion>

    function Now(): State
      reads this
    {
      State(stats, active, streak, requests, log)
    }

    ghost predicate Valid()
      reads this
    {
      RequestsOk(backends, Now())
    }

    constructor (backends: seq<Backend>, name: string)
      ensures Valid() && Now() == Initial(name) && this.backends == backends
    {
      this.backends := backends;
      stats, active, streak, requests, log := map[], name, 0, [], [];
    }

    method CountTotal(id: string)
      modifies this`stats
      ensures stats == AddTotal(old(stats), id)
    {
      if id !in stats {
        stats := stats[id := Stats(0, 0, 0, 0)];
      }
      stats := stats[id := stats[id].(total := stats[id].total + 1)];
    }

    /** The loop over the providers, from the one after the last settled. */
    method NextProvider(r: nat, q: Request)
      requires r < |requests| && |q.trace| <= |backends|
      modifies this
      ensures Now() == Continue(backends, old(Now()), r, q)
    {
      var trace := q.trace;
      while |trace| < |backends| && backends[|trace|].baseUrl == ""
        invariant |q.trace| <= |trace| <= |backends|
        invariant trace == q.trace + Skips(|trace| - |q.trace|)
        invariant NextWithUrl(backends, |trace|) == NextWithUrl(backends, |q.trace|)
        decreases |backends| - |trace|
      {
        trace := trace + [Skipped];
      }
      if |trace| < |backends| {
        CountTotal(backends[|trace|].id);
        requests := requests[r := q.(trace := trace, stage := Checking)];
      } else {
        var code := if q.lastFailure.Some? then q.lastFailure.value else 502;
        streak := streak + 1;
        requests := requests[r := q.(trace := trace, stage := Done(Failure(code)))];
        log := log + [Exhausted];
      }
    }

    method CountFailed(id: string)
      modifies this`stats
      ensures stats == AddFailed(old(stats), id)
    {
      var row := if id in stats then stats[id] else Stats(0, 0, 0, 0);
      stats := stats[id := row.(failed := row.failed + 1)];
    }

    method CountOk(id: string)
      modifies this`stats
      ensures stats == AddOk(old(stats), id)
    {
      var row := if id in stats then stats[id] else Stats(0, 0, 0, 0);
      stats := stats[id := row.(ok := row.ok + 1)];
    }

    method CountLimited(id: string)
      modifies this`stats
      ensures stats == AddLimited(old(stats), id)
    {
      var row := if id in stats then stats[id] else Stats(0, 0, 0, 0);
      stats := stats[id := row.(limited := row.limited + 1)];
    }

    /** A request arrives. */
    method Receive(stream: bool)
      requires Valid()
      modifies this
      ensures Valid() && Now() == Apply(backends, old(Now()), Begin(stream))
    {
      RequestsOkKept(backends, Now(), Begin(stream));
      if backends == [] {
        requests := requests + [Request(stream, [], Done(NoProviders), None)];
      } else {
        var q := Request(stream, [], Checking, None);
        requests := requests + [q];
        NextProvider(|requests| - 1, q);
      }
    }

    /** The address check of the current provider has answered. */
    method OnAddressChecked(r: nat, allowed: bool)
      requires Valid() && Enabled(backends, Now(), Checked(r, allowed))
      modifies this
      ensures Valid() && Now() == Apply(backends, old(Now()), Checked(r, allowed))
    {
      RequestsOkKept(backends, Now(), Checked(r, allowed));
      var q := requests[r];
      if allowed {
        requests := requests[r := q.(stage := Sending)];
      } else {
        CountFailed(backends[|q.trace|].id);
        NextProvider(r, q.(trace := q.trace + [Blocked], lastFailure := Some(400)));
      }
    }

    /** The provider has answered, or sending raised. */
    method OnAnswer(r: nat, answer: Answer)
      requires Valid() && Enabled(backends, Now(), Answered(r, answer))
      modifies this
      ensures Valid() && Now() == Apply(backends, old(Now()), Answered(r, answer))
    {
      RequestsOkKept(backends, Now(), Answered(r, answer));
      var q := requests[r];
      var backend := backends[|q.trace|];
      match answer
      case Raised =>
        CountFailed(backend.id);
        requests := requests[r := q.(stage := ClosingErrored(Errored), lastFailure := Some(502))];
      case Status(code) =>
        if code < 200 || code >= 300 {
          if code == 429 {
            CountLimited(backend.id);
          }
          CountFailed(backend.id);
          requests := requests[r := q.(stage := ClosingRefused(code))];
        } else {
          active := backend.name;
          if !q.stream {
            CountOk(backend.id);
          }
          streak := 0;
          log := log + [Good];
          requests := requests[r := q.(stage := if q.stream then Streaming(code) else ClosingServed(code))];
        }
    }

    /** The connection of the current attempt was closed, or closing it raised. */
    method OnClosed(r: nat, raised: bool)
      requires Valid() && Enabled(backends, Now(), Closed(r, raised))
      modifies this
      ensures Valid() && Now() == Apply(backends, old(Now()), Closed(r, raised))
    {
      RequestsOkKept(backends, Now(), Closed(r, raised));
      var q := requests[r];
      var id := backends[|q.trace|].id;
      match q.stage
      case ClosingErrored(outcome) =>
        if raised {
          requests := requests[r := q.(trace := q.trace + [outcome], stage := Done(Escaped))];
        } else {
          NextProvider(r, q.(trace := q.trace + [outcome]));
        }
      case ClosingRefused(code) =>
        if raised {
          CountFailed(id);
          requests := requests[r := q.(stage := ClosingErrored(Refused(code, true)), lastFailure := Some(502))];
        } else {
          NextProvider(r, q.(trace := q.trace + [Refused(code, false)], lastFailure := Some(code)));
        }
      case ClosingServed(code) =>
        if raised {
          CountFailed(id);
          requests := requests[r := q.(stage := ClosingErrored(ServedThenBroke(code)), lastFailure := Some(502))];
        } else {
          requests := requests[r := q.(trace := q.trace + [Served(code)], stage := Done(Relayed(|q.trace|, code)))];
        }
    }

    /** The stream generator of a relayed answer has ended. */
    method OnStreamEnded(r: nat, clean: bool)
      requires Valid() && Enabled(backends, Now(), StreamEnded(r, clean))
      modifies this
      ensures Valid() && Now() == Apply(backends, old(Now()), StreamEnded(r, clean))
    {
      RequestsOkKept(backends, Now(), StreamEnded(r, clean));
      var q := requests[r];
      var id := backends[|q.trace|].id;
      if clean {
        CountOk(id);
      } else {
        CountFailed(id);
      }
      requests := requests[r := q.(trace := q.trace + [Streamed(clean)], stage := Done(Relayed(|q.trace|, q.stage.code)))];
    }
  }
}
