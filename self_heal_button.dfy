/** The bulk self-heal button of src/components/SelfHealButton.tsx: which
    services count as problematic, and `handleHeal`, which heals the first
    three of them one after another while the `isHealing` flag is set. */
module SelfHealButtonModel {
  import opened Basics
  import opened Types
  import opened Store
  import opened SelfHealing

  /** The button's test. Memory is not part of it. */
  predicate Problematic(s: Service)
  {
    s.error_count > 5 || s.cpu_usage > 80.0 || s.status != Running
  }

  function ProblematicServices(services: seq<Service>): (r: seq<Service>)
    ensures forall s :: s in r <==> s in services && Problematic(s)
    ensures SubsequenceOf(r, services)
  {
    FilterIsSubsequence(services, Problematic);
    Filter(services, Problematic)
  }

  /** `!hasIssues || isHealing` */
  predicate ButtonDisabled(services: seq<Service>, isHealing: bool)
  {
    |ProblematicServices(services)| == 0 || isHealing
  }

  /** Every problematic service has something to heal, but not conversely:
      the self-healing diagnosis also reports high memory. */
  lemma ProblematicIsDiagnosed(s: Service)
    ensures Problematic(s) ==> |Diagnose(s)| > 0
    ensures |Diagnose(s)| > 0 && !Problematic(s) <==> s.memory_usage > 1000.0 && !Problematic(s)
  {
    CommandsMatchProblems(s);
  }

  /** With nothing problematic the button is disabled; otherwise exactly
      while a run is in progress. */
  lemma DisabledWhen(services: seq<Service>, isHealing: bool)
    ensures (forall s :: s in services ==> !Problematic(s)) ==> ButtonDisabled(services, isHealing)
    ensures (exists s :: s in services && Problematic(s)) ==> (ButtonDisabled(services, isHealing) <==> isHealing)
  {
    var p := ProblematicServices(services);
    if |p| > 0 {
      assert p[0] in p;
    }
    if exists s :: s in services && Problematic(s) {
      var s :| s in services && Problematic(s);
      assert s in p;
    }
  }

  /** The services `handleHeal` passes on: the first three problematic ones,
      in list order. */
  function Targets(services: seq<Service>): (r: seq<Service>)
    ensures |r| == MinI(|ProblematicServices(services)|, 3)
    ensures forall k :: 0 <= k < |r| ==> r[k] == ProblematicServices(services)[k]
    ensures forall s :: s in r ==> s in services && Problematic(s)
  {
    var p := ProblematicServices(services);
    var r := Take(p, 3);
    assert forall s :: s in r ==> s in p;
    r
  }

  /** The store after healing `targets` one after another, each run awaited
      before the next. */
  function HealAll(st: StoreState, targets: seq<Service>, envs: seq<HealEnv>): StoreState
    requires |envs| >= |targets|
  {
    if targets == [] then st
    else
      var n := |targets| - 1;
      SelfHeal(HealAll(st, targets[..n], envs), targets[n], envs[n]).state
  }

  /** A bulk heal leaves logs, configuration and theme alone, keeps the
      registry's length and adds at most one record per target. */
  lemma {:induction false} HealAllFrame(st: StoreState, targets: seq<Service>, envs: seq<HealEnv>)
    requires |envs| >= |targets|
    ensures var r := HealAll(st, targets, envs);
      && r.logs == st.logs && r.config == st.config && r.theme == st.theme
      && |r.services| == |st.services|
      && |st.workflowHistory| <= |r.workflowHistory| <= |st.workflowHistory| + |targets|
  {
    if targets != [] {
      var n := |targets| - 1;
      HealAllFrame(st, targets[..n], envs);
      var mid := HealAll(st, targets[..n], envs);
      RunFrame(mid, targets[n], Texts(targets[n], envs[n]), envs[n]);
      RunHistoryGrowth(mid, targets[n], Texts(targets[n], envs[n]), envs[n]);
    }
  }

  /** One run adds at most one workflow record. */
  lemma RunHistoryGrowth(st: StoreState, s: Service, t: HealTexts, env: HealEnv)
    ensures |st.workflowHistory| <= |Run(st, s, t, env).state.workflowHistory| <= |st.workflowHistory| + 1
  {
  }

  /** The same fold over `Run`, with the texts of each run given. */
  function RunAll(st: StoreState, targets: seq<Service>, texts: seq<HealTexts>, envs: seq<HealEnv>): StoreState
    requires |envs| >= |targets| && |texts| >= |targets|
  {
    if targets == [] then st
    else
      var n := |targets| - 1;
      Run(RunAll(st, targets[..n], texts, envs), targets[n], texts[n], envs[n]).state
  }

  /** `texts` holds, in order, the texts of each target's run. */
  ghost predicate TextsMatch(targets: seq<Service>, envs: seq<HealEnv>, texts: seq<HealTexts>)
    requires |envs| >= |targets|
  {
    |texts| >= |targets| &&
    forall k {:trigger Texts(targets[k], envs[k])} :: 0 <= k < |targets| ==> texts[k] == Texts(targets[k], envs[k])
  }

  /** Folding `Run` with each target's own texts is folding `SelfHeal`. */
  lemma {:induction false} RunAllIsHealAll(st: StoreState, targets: seq<Service>, texts: seq<HealTexts>, envs: seq<HealEnv>)
    requires |envs| >= |targets| && TextsMatch(targets, envs, texts)
    ensures RunAll(st, targets, texts, envs) == HealAll(st, targets, envs)
  {
    if targets != [] {
      var n := |targets| - 1;
      assert TextsMatch(targets[..n], envs, texts) by {
        forall k | 0 <= k < n
          ensures texts[k] == Texts(targets[..n][k], envs[k])
        {
          assert targets[..n][k] == targets[k];
          assert texts[k] == Texts(targets[k], envs[k]);
        }
      }
      RunAllIsHealAll(st, targets[..n], texts, envs);
      assert texts[n] == Texts(targets[n], envs[n]);
    }
  }

  /** One awaited `onTrigger` call inside the loop of `handleHeal`: the
      `i`-th service of the batch, after the first `i` have been healed. */
  method HealNext(store: AppStore, ghost st0: StoreState, batch: seq<Service>, envs: seq<HealEnv>, ghost texts: seq<HealTexts>, i: nat)
    requires store.Valid() && i < |batch| <= |envs| && TextsMatch(batch, envs, texts)
    requires store.State() == RunAll(st0, batch[..i], texts, envs)
    modifies store
    ensures store.Valid()
    ensures store.State() == RunAll(st0, batch[..i + 1], texts, envs)
  {
    var notified, completionLog := TriggerSelfHeal(store, batch[i], envs[i]);
    assert texts[i] == Texts(batch[i], envs[i]);
    assert batch[..i + 1][..i] == batch[..i];
  }

  class SelfHealButton {
    var isHealing: bool

    constructor ()
      ensures !isHealing
    {
      isHealing := false;
    }

    /** `handleHeal`. Returns the services handed to `onTrigger`, which is
        `triggerSelfHeal`; that call catches its own errors, so the loop
        always runs to the end. */
    method HandleHeal(store: AppStore, services: seq<Service>, envs: seq<HealEnv>)
      returns (triggered: seq<Service>)
      requires store.Valid() && |envs| >= 3
      modifies this, store
      ensures store.Valid()
      ensures triggered == Targets(services)
      ensures store.State() == HealAll(old(store.State()), triggered, envs)
      ensures |ProblematicServices(services)| == 0 ==> triggered == [] && isHealing == old(isHealing)
      ensures |ProblematicServices(services)| > 0 ==> !isHealing
    {
      var problematicServices := ProblematicServices(services);
      if |problematicServices| == 0 {
        return [];
      }
      isHealing := true;
      ghost var st0 := store.State();
      var batch := Take(problematicServices, 3);
      ghost var texts := seq(|batch|, k requires 0 <= k < |batch| => Texts(batch[k], envs[k]));
      triggered := HealBatch(store, batch, envs, texts);
      RunAllIsHealAll(st0, triggered, texts, envs);
      isHealing := false;
    }

    /** The `for` loop of `handleHeal`: one awaited `onTrigger` per service
        of the batch, in order, with the flag set throughout; `texts` are
        the texts of their runs. */
    method HealBatch(store: AppStore, batch: seq<Service>, envs: seq<HealEnv>, ghost texts: seq<HealTexts>)
      returns (triggered: seq<Service>)
      requires isHealing
      requires store.Valid() && |envs| >= |batch|
      requires TextsMatch(batch, envs, texts)
      modifies store
      ensures store.Valid()
      ensures triggered == batch
      ensures store.State() == RunAll(old(store.State()), batch, texts, envs)
    {
      triggered := [];
      ghost var st0 := store.State();
      var i := 0;
      while i < |batch|
        invariant 0 <= i <= |batch|
        invariant store.Valid() && isHealing
        invariant triggered == batch[..i]
        invariant store.State() == RunAll(st0, batch[..i], texts, envs)
      {
        HealNext(store, st0, batch, envs, texts, i);
        triggered := triggered + [batch[i]];
        assert triggered == batch[..i + 1];
        i := i + 1;
      }
      assert batch[..i] == batch;
    }
  }

  /** The button's caption. */
  function ButtonLabel(services: seq<Service>, isHealing: bool): (caption: string)
    ensures isHealing ==> caption == "Healing in Progress..."
    ensures !isHealing && |ProblematicServices(services)| == 0 ==> caption == "AI Self-Heal "
    ensures !isHealing && |ProblematicServices(services)| > 0 ==>
      caption == "AI Self-Heal (" + NatToString(|ProblematicServices(services)|) + ")"
  {
    var n := |ProblematicServices(services)|;
    if isHealing then "Healing in Progress..."
    else "AI Self-Heal " + (if n > 0 then "(" + NatToString(n) + ")" else "")
  }

  /** The note under the button, shown only when something is problematic;
      "service" takes a plural "s" for every count but one. */
  function AttentionNote(services: seq<Service>): (note: Option<string>)
    ensures note.Some? <==> exists s :: s in services && Problematic(s)
    ensures note.Some? ==>
      note.value == NatToString(|ProblematicServices(services)|) + " service" +
                    (if |ProblematicServices(services)| != 1 then "s" else "") + " need attention"
  {
    var n := |ProblematicServices(services)|;
    DisabledWhen(services, false);
    if n > 0 then Some(NatToString(n) + " service" + (if n != 1 then "s" else "") + " need attention")
    else None
  }
}
