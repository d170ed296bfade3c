/** The daily quota: reserved by an upsert with a ceiling, rolled back or refunded, whatever the interleaving
    and however stale the pre-check. */
module Quota {
  import opened Basics
  import opened Tables
  import opened Pipeline

  /** A POST that holds a reservation: reserved, and neither refused nor refunded. */
  predicate Holds(q: Request, key: UsageKey) {
    q.Post? && (q.stage == Reserved || q.stage == Answered(Accepted)) && QuotaKey(q) == key
  }

  /** One for each held reservation of this key. */
  function HeldOne(key: UsageKey): Request -> nat {
    (q: Request) => if Holds(q, key) then 1 else 0
  }

  /** The size of each held reservation of this key. */
  function HeldBytes(key: UsageKey): Request -> nat {
    (q: Request) => if Holds(q, key) then q.size else 0
  }

  /** One for each held reservation made without a ceiling. */
  function HeldExempt(key: UsageKey): Request -> nat {
    (q: Request) => if Holds(q, key) && LimitsOf(q).jobsPerDay.None? then 1 else 0
  }

  function Ceiling(key: UsageKey): nat {
    if key.scope == Public then 3 else 10
  }

  ghost predicate QuotaOf(w: World, key: UsageKey) {
    && JobsCreated(w.usage, key) == Tally(w.requests, HeldOne(key))
    && BytesUploaded(w.usage, key) == Tally(w.requests, HeldBytes(key))
    && JobsCreated(w.usage, key) <= Ceiling(key) + Tally(w.requests, HeldExempt(key))
  }

  ghost predicate QuotaOk(w: World) {
    forall key :: QuotaOf(w, key)
  }

  /** A step that neither reserves nor refunds leaves every tally as it was. */
  predicate Accounting(a: Action) {
    a.OfPost? && (a.post.PostReserve? || a.post.PostUploadFailed?)
  }

  lemma MovedTally(w: World, a: Action, r: nat, q: Request, f: Request -> nat)
    requires Enabled(w, a) && r < |w.requests| && RequestsAfter(w, a) == w.requests[r := q]
    ensures Tally(RequestsAfter(w, a), f) + f(w.requests[r]) == Tally(w.requests, f) + f(q)
  {
    TallyUpdate(w.requests, r, q, f);
    hide RequestsAfter, Enabled;
  }

  lemma PostHolding(w: World, p: PostStep, key: UsageKey)
    requires PostEnabled(w, p) && !p.PostBegin? && !p.PostReserve? && !p.PostUploadFailed?
    ensures Holds(PostNext(w, p), key) <==> Holds(w.requests[p.r], key)
    ensures Holds(w.requests[p.r], key) ==>
      PostNext(w, p).size == w.requests[p.r].size && LimitsOf(PostNext(w, p)) == LimitsOf(w.requests[p.r])
  {
  }

  lemma OtherStepsKeepTallies(w: World, a: Action, key: UsageKey)
    requires Enabled(w, a) && !Accounting(a)
    ensures Tally(RequestsAfter(w, a), HeldOne(key)) == Tally(w.requests, HeldOne(key))
    ensures Tally(RequestsAfter(w, a), HeldBytes(key)) == Tally(w.requests, HeldBytes(key))
    ensures Tally(RequestsAfter(w, a), HeldExempt(key)) == Tally(w.requests, HeldExempt(key))
  {
    var after := RequestsAfter(w, a);
    if |after| > |w.requests| {
      var q := after[|w.requests|];
      assert after == w.requests + [q] && !Holds(q, key);
      TallyAppend(w.requests, q, HeldOne(key));
      TallyAppend(w.requests, q, HeldBytes(key));
      TallyAppend(w.requests, q, HeldExempt(key));
    } else if after != w.requests {
      var r := if a.OfPost? then a.post.r else if a.OfClaim? then a.claim.r else a.report.r;
      var q := after[r];
      if a.OfPost? {
        PostHolding(w, a.post, key);
      }
      MovedTally(w, a, r, q, HeldOne(key));
      MovedTally(w, a, r, q, HeldBytes(key));
      MovedTally(w, a, r, q, HeldExempt(key));
    }
    hide PostNext;
  }

  /** What a reservation makes of the row of any key. */
  lemma ReserveRow(table: map<UsageKey, Usage>, mine: UsageKey, size: nat, limit: Option<nat>, key: UsageKey)
    ensures var (after, ok) := Reserve(table, mine, size, limit);
            && JobsCreated(after, key) == JobsCreated(table, key) + (if ok && key == mine then 1 else 0)
            && BytesUploaded(after, key) == BytesUploaded(table, key) + (if ok && key == mine then size else 0)
            && (ok && limit.Some? && mine in table ==> JobsCreated(table, mine) < limit.value)
            && (mine !in table ==> JobsCreated(table, mine) == 0)
  {
  }

  /** And of the request that makes it. */
  lemma ReservedRequest(w: World, r: nat, key: UsageKey)
    requires PostEnabled(w, PostReserve(r))
    ensures var q := w.requests[r];
            var q' := PostNext(w, PostReserve(r));
            var ok := Reserve(w.usage, QuotaKey(q), q.size, LimitsOf(q).jobsPerDay).1;
            && !Holds(q, key) && q'.Post? && q'.size == q.size && LimitsOf(q') == LimitsOf(q)
            && (Holds(q', key) <==> ok && QuotaKey(q) == key)
    ensures var limit := LimitsOf(w.requests[r]).jobsPerDay;
            limit.None? || limit == Some(Ceiling(QuotaKey(w.requests[r])))
  {
    hide Reserve;
  }

  lemma UsageOfReserve(w: World, r: nat)
    requires PostEnabled(w, PostReserve(r))
    ensures var q := w.requests[r];
            var w' := Apply(w, OfPost(PostReserve(r)));
            && w'.usage == Reserve(w.usage, QuotaKey(q), q.size, LimitsOf(q).jobsPerDay).0
            && w'.requests == w.requests[r := PostNext(w, PostReserve(r))]
  {
    hide JobsAfter, Reserve, PostNext;
  }

  lemma ReserveKeeps(w: World, r: nat, key: UsageKey)
    requires PostEnabled(w, PostReserve(r)) && QuotaOf(w, key) && QuotaOf(w, QuotaKey(w.requests[r]))
    ensures QuotaOf(Apply(w, OfPost(PostReserve(r))), key)
  {
    hide JobsAfter, Tally, Reserve, PostNext, Apply, LimitsOf, JobsCreated, BytesUploaded;
    var q := w.requests[r];
    var q' := PostNext(w, PostReserve(r));
    UsageOfReserve(w, r);
    ReserveRow(w.usage, QuotaKey(q), q.size, LimitsOf(q).jobsPerDay, key);
    ReservedRequest(w, r, key);
    TallyUpdate(w.requests, r, q', HeldOne(key));
    TallyUpdate(w.requests, r, q', HeldBytes(key));
    TallyUpdate(w.requests, r, q', HeldExempt(key));
  }

  lemma RefundKeeps(w: World, r: nat, key: UsageKey)
    requires PostEnabled(w, PostUploadFailed(r)) && QuotaOf(w, key)
    ensures QuotaOf(Apply(w, OfPost(PostUploadFailed(r))), key)
  {
    hide JobsAfter, Tally;
    var q := w.requests[r];
    var q' := PostNext(w, PostUploadFailed(r));
    TallyUpdate(w.requests, r, q', HeldOne(key));
    TallyUpdate(w.requests, r, q', HeldBytes(key));
    TallyUpdate(w.requests, r, q', HeldExempt(key));
    TallyAtLeast(w.requests, r, HeldOne(key));
    TallyAtLeast(w.requests, r, HeldBytes(key));
  }

  lemma QuotaOkKept(w: World, a: Action)
    requires Enabled(w, a) && QuotaOk(w)
    ensures QuotaOk(Apply(w, a))
  {
    forall key
      ensures QuotaOf(Apply(w, a), key)
    {
      assert QuotaOf(w, key);
      if !Accounting(a) {
        OtherStepsKeepTallies(w, a, key);
      } else if a.post.PostReserve? {
        assert QuotaOf(w, QuotaKey(w.requests[a.post.r]));
        ReserveKeeps(w, a.post.r, key);
      } else {
        RefundKeeps(w, a.post.r, key);
      }
      hide RequestsAfter, JobsAfter;
    }
  }

  lemma QuotaOkInitially(clock: int)
    ensures QuotaOk(Initial(clock))
  {
  }

  // ---------- what it means

  /** A subject none of whose POSTs is exempt never exceeds its daily limit. */
  lemma NeverOverLimit(w: World, key: UsageKey)
    requires QuotaOk(w)
    requires forall i :: 0 <= i < |w.requests| && w.requests[i].Post? && QuotaKey(w.requests[i]) == key ==>
      !w.requests[i].exempt
    ensures JobsCreated(w.usage, key) <= Ceiling(key)
  {
    assert QuotaOf(w, key);
    TallyZero(w.requests, HeldExempt(key));
  }

  /** The MAX(0, ...) of the refund never clips. */
  lemma RefundNeverClips(w: World, r: nat)
    requires QuotaOk(w) && PostEnabled(w, PostUploadFailed(r))
    ensures var q := w.requests[r];
            JobsCreated(w.usage, QuotaKey(q)) >= 1 && BytesUploaded(w.usage, QuotaKey(q)) >= q.size
  {
    var key := QuotaKey(w.requests[r]);
    assert QuotaOf(w, key);
    TallyAtLeast(w.requests, r, HeldOne(key));
    TallyAtLeast(w.requests, r, HeldBytes(key));
  }
}
