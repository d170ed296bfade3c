/** The public fallback chain from the server's configuration to the agent's engines, through a run of the Worker. */
module Fallback {
  import opened Basics
  import opened Tables
  import opened Pipeline
  import opened Identity
  import opened Snapshots
  import opened Runs
  import Engines
  import Agent
  import Router

  lemma SameOrder(rows: seq<PlainProvider>, answer: seq<PlainProvider>)
    requires OrderedRows(rows, answer, PlainPriority)
    ensures OrderedRows(rows, answer, Engines.ByPriority)
  {
    assert forall p: PlainProvider :: PlainPriority(p) == Engines.ByPriority(p);
  }

  /** A job whose POST took the public fallback with k keys, claimed after its snapshot rows were there: the agent runs
      the chain: its engines are the router, if there is a key, and then the native one, and the router tries keys 0 to
      k-1 in order and nothing after them. Whatever was done to anybody's settings meanwhile does not matter. */
  lemma FallbackReachesTheAgent(ws: seq<World>, acts: seq<Action>, m: nat, k: nat, r: nat, p: nat,
                                hasSecret: bool, source: string, baseUrl: string, model: string, serverKeys: seq<string>)
    requires IsRun(ws, acts) && m < k < |ws|
    requires acts[m].OfClaim? && acts[m].claim.ClaimRead? && acts[m].claim.r == r
    requires r < |ws[k].requests| && ws[k].requests[r].Claim?
    requires ws[k].requests[r].claim.Replied? && ws[k].requests[r].claim.reply.Won?
    requires p < |ws[m].requests| && IsPostOf(ws[m].requests[p], ws[k].requests[r].claim.reply.won)
    requires ws[m].requests[p].stage != JobInserted
    requires source != Engines.NATIVE
    requires Engines.FallbackProviders(true, hasSecret, source, baseUrl, model, serverKeys) == Some(ws[m].requests[p].plan)
    ensures var won := ws[k].requests[r].claim.reply;
            var run := Agent.ProvidersOf(won.providers, won.settings);
            var n := |serverKeys|;
            && |run| == n + 1
            && Engines.EnginesOf(run) == (if n > 0 then [Engines.RouterEngine(0)] else []) + [Engines.Native(n)]
            && (forall i :: 0 <= i < n ==>
                 run[i].key == Some(serverKeys[i]) && run[i].model == model && run[i].baseUrl == baseUrl
                 && Router.NextWithUrl(Engines.Backends(run), i) == i)
            && Router.NextWithUrl(Engines.Backends(run), n) == n + 1
  {
    hide Chained, OrderedRows, Engines.FallbackProviders, Engines.EnginesOf;
    HandsOutWholePlan(ws, acts, m, k, r, p);
    var handed := ws[k].requests[r].claim.reply.providers;
    SameOrder(ws[m].requests[p].plan, handed);
    Engines.FallbackChain(hasSecret, source, baseUrl, model, serverKeys, handed);
  }

  /** A claim that was handed no rows still runs: with the first provider of the plan alone. */
  lemma EmptyHandOutRunsTheFirst(ws: seq<World>, acts: seq<Action>, m: nat, k: nat, r: nat, p: nat)
    requires IsRun(ws, acts) && m < k < |ws|
    requires acts[m].OfClaim? && acts[m].claim.ClaimRead? && acts[m].claim.r == r
    requires r < |ws[k].requests| && ws[k].requests[r].Claim?
    requires ws[k].requests[r].claim.Replied? && ws[k].requests[r].claim.reply.Won?
    requires p < |ws[m].requests| && IsPostOf(ws[m].requests[p], ws[k].requests[r].claim.reply.won)
    requires ws[m].requests[p].stage == JobInserted
    ensures ws[m].requests[p].plan != []
    ensures var won := ws[k].requests[r].claim.reply;
            var run := Agent.ProvidersOf(won.providers, won.settings);
            && |run| == 1
            && LegacyOf(run[0]) == LegacyOf(ws[m].requests[p].plan[0])
            && |Engines.EnginesOf(run)| == 1
  {
    hide Chained, OrderedRows, HandedOut, Unborn;
    HandsOutWholePlan(ws, acts, m, k, r, p);
    StepOf(ws, acts, m);
    assert Rows.RequestOk(ws[m].requests[p]);
    PlanNeverChanges(ws, acts, m, k, p);
    ClaimsHandOutPlans(ws, acts, k, r, p);
    FirstOfHandOut(ws[k].requests[p].plan, ws[k].requests[r].claim.reply.settings, ws[k].requests[r].claim.reply.providers);
    hide Invariant;
    var won := ws[k].requests[r].claim.reply;
    OneEngine(Agent.ProvidersOf(won.providers, won.settings));
  }

  lemma FirstOfHandOut(plan: seq<PlainProvider>, settings: Legacy<string>, providers: seq<PlainProvider>)
    requires HandedOut(plan, settings, providers) && plan != []
    ensures settings == LegacyOf(plan[0])
  {
  }

  lemma OneEngine(ps: seq<PlainProvider>)
    requires |ps| == 1
    ensures |Engines.EnginesOf(ps)| == 1
  {
    assert Engines.EnginesFrom(ps, 1) == [] && Engines.NativesFrom(ps, 1) == [];
  }
}
