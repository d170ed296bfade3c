/** The engine list of the agent, and the public fallback chain end to end: plan, snapshots, sorting, engines, router
    order (worker/src/publicFallback.ts, worker/src/index.ts, pc-api-python/main.py). */
module Engines {
  import opened Basics
  import opened Tables
  import Router

  const NATIVE: string := "siliconflow_free"

  datatype Engine = Native(id: nat) | RouterEngine(id: nat)

  predicate IsNative(p: PlainProvider) {
    p.kind == NATIVE
  }

  /** The native providers among those from index i on, as engines. Providers are named by their index. */
  function NativesFrom(ps: seq<PlainProvider>, i: nat): seq<Engine>
    requires i <= |ps|
    decreases |ps| - i
  {
    if i == |ps| then []
    else (if IsNative(ps[i]) then [Native(i)] else []) + NativesFrom(ps, i + 1)
  }

  /** The engine list: natives in their order, with one router at the place of the first provider that is not. */
  function EnginesOf(ps: seq<PlainProvider>): seq<Engine> {
    EnginesFrom(ps, 0)
  }

  function EnginesFrom(ps: seq<PlainProvider>, i: nat): seq<Engine>
    requires i <= |ps|
    decreases |ps| - i
  {
    if i == |ps| then []
    else if IsNative(ps[i]) then [Native(i)] + EnginesFrom(ps, i + 1)
    else [RouterEngine(i)] + NativesFrom(ps, i + 1)
  }

  predicate HasRouter(engines: seq<Engine>) {
    exists k :: 0 <= k < |engines| && engines[k].RouterEngine?
  }

  lemma HasRouterAppend(engines: seq<Engine>, e: Engine)
    ensures HasRouter(engines + [e]) <==> HasRouter(engines) || e.RouterEngine?
  {
    assert (engines + [e])[|engines|] == e;
    assert forall k :: 0 <= k < |engines| ==> (engines + [e])[k] == engines[k];
  }

  /** Does the list have the router already? */
  method AnyRouter(engines: seq<Engine>) returns (any: bool)
    ensures any <==> HasRouter(engines)
  {
    any := false;
    for k := 0 to |engines|
      invariant any <==> exists m :: 0 <= m < k && engines[m].RouterEngine?
    {
      any := any || engines[k].RouterEngine?;
    }
  }

  /** What the list still has to become from provider i on. */
  function Rest(ps: seq<PlainProvider>, i: nat, routed: bool): seq<Engine>
    requires i <= |ps|
  {
    if routed then NativesFrom(ps, i) else EnginesFrom(ps, i)
  }

  lemma RestStep(ps: seq<PlainProvider>, i: nat, routed: bool)
    requires i < |ps|
    ensures Rest(ps, i, routed) ==
            if IsNative(ps[i]) then [Native(i)] + Rest(ps, i + 1, routed)
            else if routed then Rest(ps, i + 1, true)
            else [RouterEngine(i)] + Rest(ps, i + 1, true)
  {
  }

  /** The loop of the agent that builds the list. */
  method BuildEngines(ps: seq<PlainProvider>) returns (engines: seq<Engine>)
    ensures engines == EnginesOf(ps)
  {
    hide NativesFrom, EnginesFrom, Rest, HasRouter;
    engines := [];
    ghost var routed := false;
    assert !HasRouter([]) by {
      NoRouterYet();
    }
    assert EnginesOf(ps) == Rest(ps, 0, false) by {
      RestStart(ps);
    }
    var i := 0;
    while i < |ps|
      invariant 0 <= i <= |ps|
      invariant routed <==> HasRouter(engines)
      invariant EnginesOf(ps) == engines + Rest(ps, i, routed)
    {
      RestStep(ps, i, routed);
      ghost var before := engines;
      if ps[i].kind == NATIVE {
        HasRouterAppend(engines, Native(i));
        engines := engines + [Native(i)];
        assert before + ([Native(i)] + Rest(ps, i + 1, routed)) == engines + Rest(ps, i + 1, routed);
      } else {
        var any := AnyRouter(engines);
        if !any {
          HasRouterAppend(engines, RouterEngine(i));
          engines := engines + [RouterEngine(i)];
          routed := true;
          assert before + ([RouterEngine(i)] + Rest(ps, i + 1, true)) == engines + Rest(ps, i + 1, true);
        }
      }
      i := i + 1;
    }
    RestEnd(ps, routed);
  }

  lemma NoRouterYet()
    ensures !HasRouter([])
  {
  }

  lemma RestStart(ps: seq<PlainProvider>)
    ensures EnginesOf(ps) == Rest(ps, 0, false)
  {
  }

  lemma RestEnd(ps: seq<PlainProvider>, routed: bool)
    ensures Rest(ps, |ps|, routed) == []
  {
  }

  lemma {:induction false} NativesOnly(ps: seq<PlainProvider>, i: nat)
    requires i <= |ps|
    ensures forall k :: 0 <= k < |NativesFrom(ps, i)| ==>
              var e := NativesFrom(ps, i)[k];
              e.Native? && i <= e.id < |ps| && IsNative(ps[e.id])
    ensures forall k, m :: 0 <= k < m < |NativesFrom(ps, i)| ==> NativesFrom(ps, i)[k].id < NativesFrom(ps, i)[m].id
    decreases |ps| - i
  {
    if i < |ps| {
      NativesOnly(ps, i + 1);
    }
  }

  /** Every native provider has its engine. */
  lemma {:induction false} NativesAll(ps: seq<PlainProvider>, i: nat, n: nat)
    requires i <= n < |ps| && IsNative(ps[n])
    ensures Native(n) in NativesFrom(ps, i)
    decreases |ps| - i
  {
    if i < n {
      NativesAll(ps, i + 1, n);
    }
  }

  /** For any provider list from i on: the list follows provider order, contains every native and nothing else but
      one router, for the first provider that is not native. */
  lemma {:induction false} EnginesShape(ps: seq<PlainProvider>, i: nat)
    requires i <= |ps|
    ensures var es := EnginesFrom(ps, i);
            && (forall k, m :: 0 <= k < m < |es| ==> es[k].id < es[m].id)
            && (forall k :: 0 <= k < |es| ==>
                 && i <= es[k].id < |ps|
                 && (es[k].Native? <==> IsNative(ps[es[k].id]))
                 && (es[k].RouterEngine? ==> forall n :: i <= n < es[k].id ==> IsNative(ps[n])))
    decreases |ps| - i
  {
    if i < |ps| {
      var es := EnginesFrom(ps, i);
      if IsNative(ps[i]) {
        EnginesShape(ps, i + 1);
        assert forall k :: 1 <= k < |es| ==> es[k] == EnginesFrom(ps, i + 1)[k - 1];
      } else {
        NativesOnly(ps, i + 1);
        assert forall k :: 1 <= k < |es| ==> es[k] == NativesFrom(ps, i + 1)[k - 1];
      }
    }
  }

  lemma {:induction false} EnginesCover(ps: seq<PlainProvider>, i: nat, n: nat)
    requires i <= n < |ps|
    requires IsNative(ps[n]) || forall k :: i <= k < n ==> IsNative(ps[k])
    ensures (if IsNative(ps[n]) then Native(n) else RouterEngine(n)) in EnginesFrom(ps, i)
    decreases |ps| - i
  {
    if !IsNative(ps[i]) {
      if i < n {
        NativesAll(ps, i + 1, n);
      }
    } else if i < n {
      EnginesCover(ps, i + 1, n);
    }
  }

  /** The router appears at most once, exactly when some provider is not native, at the first such provider; the
      natives keep their relative order. */
  lemma EngineOrder(ps: seq<PlainProvider>)
    ensures forall k, m :: 0 <= k < m < |EnginesOf(ps)| ==>
              EnginesOf(ps)[k].id < EnginesOf(ps)[m].id
              && !(EnginesOf(ps)[k].RouterEngine? && EnginesOf(ps)[m].RouterEngine?)
    ensures forall n :: 0 <= n < |ps| ==>
              && (IsNative(ps[n]) <==> Native(n) in EnginesOf(ps))
              && (RouterEngine(n) in EnginesOf(ps) <==> !IsNative(ps[n]) && forall k :: 0 <= k < n ==> IsNative(ps[k]))
  {
    EnginesShape(ps, 0);
    var es := EnginesOf(ps);
    assert es == EnginesFrom(ps, 0);
    hide EnginesOf, EnginesFrom, NativesFrom;
    forall k, m | 0 <= k < m < |es|
      ensures es[k].id < es[m].id && !(es[k].RouterEngine? && es[m].RouterEngine?)
    {
      if es[k].RouterEngine? && es[m].RouterEngine? {
        assert false;
      }
    }
    forall n | 0 <= n < |ps|
      ensures IsNative(ps[n]) <==> Native(n) in es
      ensures RouterEngine(n) in es <==> !IsNative(ps[n]) && forall k :: 0 <= k < n ==> IsNative(ps[k])
    {
      if IsNative(ps[n]) || forall k :: 0 <= k < n ==> IsNative(ps[k]) {
        EnginesCover(ps, 0, n);
      }
    }
  }

  // ---------- the public fallback plan

  datatype ConfigError = MissingSource | MissingEndpointOrModel | MissingApiKey

  datatype PlanItem = PlanItem(
    name: string, kind: string, baseUrl: string, model: string, priority: int, keyIndex: Option<nat>)

  /** An undefined or empty setting is "". */
  function ConfigErrorOf(source: string, baseUrl: string, model: string, hasKey: bool): Option<ConfigError> {
    if source == "" then Some(MissingSource)
    else if source == NATIVE then None
    else if baseUrl == "" || model == "" then Some(MissingEndpointOrModel)
    else if source in ["openaicompatible", "openai_compatible", "gemini"] && !hasKey then Some(MissingApiKey)
    else None
  }

  function Digits(n: nat): string {
    if n < 10 then ["0123456789"[n]] else Digits(n / 10) + ["0123456789"[n % 10]]
  }

  function KeyedItem(source: string, baseUrl: string, model: string, keys: nat, i: nat): PlanItem {
    PlanItem(if keys > 1 then "Public Free Tier " + Digits(i + 1) else "Public Free Tier",
             source, baseUrl, model, i + 1, Some(i))
  }

  function Plan(source: string, baseUrl: string, model: string, keys: nat): Option<seq<PlanItem>> {
    if ConfigErrorOf(source, baseUrl, model, keys > 0).Some? then None
    else if source == NATIVE then Some([PlanItem("SiliconFlow Free", NATIVE, "", "", 1, None)])
    else
      Some(seq(keys, i requires 0 <= i < keys => KeyedItem(source, baseUrl, model, keys, i))
           + [PlanItem("SiliconFlow Free Fallback", NATIVE, "", "", keys + 1, None)])
  }

  /** The job's provider rows, with the server's keys; none when a key is needed and there is no secret to seal it. */
  function FallbackProviders(enabled: bool, hasSecret: bool, source: string, baseUrl: string, model: string,
                             serverKeys: seq<string>): Option<seq<PlainProvider>> {
    var plan := Plan(source, baseUrl, model, |serverKeys|);
    if !enabled || plan.None? then None
    else if (exists i :: 0 <= i < |plan.value| && plan.value[i].keyIndex.Some?) && !hasSecret then None
    else Some(seq(|plan.value|, i requires 0 <= i < |plan.value| => PlanRow(plan.value[i], serverKeys)))
  }

  function PlanRow(item: PlanItem, serverKeys: seq<string>): PlainProvider {
    var key := if item.keyIndex.Some? && item.keyIndex.value < |serverKeys| then Some(serverKeys[item.keyIndex.value]) else None;
    Provider(item.name, item.kind, item.baseUrl, item.model, key, item.priority, None, None)
  }

  const ByPriority: PlainProvider -> int := (p: PlainProvider) => p.priority

  /** The chain is stored with priorities 1, 2, 3, ..., so every ORDER BY priority answer is the chain itself. */
  lemma FallbackSorted(enabled: bool, hasSecret: bool, source: string, baseUrl: string, model: string,
                       serverKeys: seq<string>, answer: seq<PlainProvider>)
    requires FallbackProviders(enabled, hasSecret, source, baseUrl, model, serverKeys).Some?
    requires OrderedRows(FallbackProviders(enabled, hasSecret, source, baseUrl, model, serverKeys).value, answer, ByPriority)
    ensures answer == FallbackProviders(enabled, hasSecret, source, baseUrl, model, serverKeys).value
  {
    var rows := FallbackProviders(enabled, hasSecret, source, baseUrl, model, serverKeys).value;
    assert forall i :: 0 <= i < |rows| ==> ByPriority(rows[i]) == i + 1;
    OrderedRowsUnique(rows, answer, ByPriority);
  }

  function Backends(ps: seq<PlainProvider>): seq<Router.Backend> {
    seq(|ps|, i requires 0 <= i < |ps| => Router.Backend("", ps[i].baseUrl, ps[i].name))
  }

  /** For k keys, possibly none: whatever the claim's query answers, the engines are the router, if there is a key,
      followed by the native one, and the router's loop tries keys 0 to k-1 in order and then runs out. */
  lemma FallbackChain(hasSecret: bool, source: string, baseUrl: string, model: string, serverKeys: seq<string>,
                      answer: seq<PlainProvider>)
    requires source != NATIVE
    requires FallbackProviders(true, hasSecret, source, baseUrl, model, serverKeys).Some?
    requires OrderedRows(FallbackProviders(true, hasSecret, source, baseUrl, model, serverKeys).value, answer, ByPriority)
    ensures var k := |serverKeys|;
            && |answer| == k + 1
            && EnginesOf(answer) == (if k > 0 then [RouterEngine(0)] else []) + [Native(k)]
            && (forall i :: 0 <= i < k ==>
                 && answer[i].key == Some(serverKeys[i]) && answer[i].kind == source && answer[i].baseUrl == baseUrl
                 && answer[i].model == model && Router.NextWithUrl(Backends(answer), i) == i)
            && answer[k].kind == NATIVE && answer[k].key.None?
            && Router.NextWithUrl(Backends(answer), k) == k + 1
  {
    FallbackSorted(true, hasSecret, source, baseUrl, model, serverKeys, answer);
    var k := |serverKeys|;
    assert forall i :: 0 <= i < k ==> answer[i].kind == source && answer[i].baseUrl == baseUrl;
    assert answer[k].kind == NATIVE;
    if k > 0 {
      NativesAtEnd(answer, 1, k);
    } else {
      assert EnginesFrom(answer, 1) == [];
    }
  }

  lemma {:induction false} NativesAtEnd(ps: seq<PlainProvider>, i: nat, k: nat)
    requires i <= k && |ps| == k + 1 && IsNative(ps[k])
    requires forall n :: i <= n < k ==> !IsNative(ps[n])
    ensures NativesFrom(ps, i) == [Native(k)]
    decreases k - i
  {
    if i < k {
      NativesAtEnd(ps, i + 1, k);
    } else {
      assert NativesFrom(ps, k + 1) == [];
    }
  }

  /** Exactly when a guest without a key can be served: the chain is configured and its keys can be sealed. */
  lemma FallbackAvailable(enabled: bool, hasSecret: bool, source: string, baseUrl: string, model: string, serverKeys: seq<string>)
    ensures FallbackProviders(enabled, hasSecret, source, baseUrl, model, serverKeys).Some? <==>
            && enabled && source != ""
            && (source != NATIVE ==>
                && baseUrl != "" && model != ""
                && (source in ["openaicompatible", "openai_compatible", "gemini"] ==> serverKeys != [])
                && (serverKeys != [] ==> hasSecret))
  {
    var plan := Plan(source, baseUrl, model, |serverKeys|);
    if plan.Some? && source != NATIVE && serverKeys != [] {
      assert plan.value[0].keyIndex.Some?;
    }
  }
}
