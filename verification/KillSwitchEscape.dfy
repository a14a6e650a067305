/**
 * Where the kill switch rests on an assumption: it is pruned ahead of the workloads that
 * go with it, so a pod one of them still starts just then runs without it.
 */
module KillSwitchEscape {
  import opened Basics
  import opened KillSwitch
  import opened KillSwitchRuns
  import opened KillSwitchPass

  /** A pod that workload k starts now runs without the kill switch. */
  predicate Escapes(w: World, id: nat, k: Key, addon: string) {
    k in w.objects && !Guarded(StartPod(w, id, k), addon)
  }

  // ---- in the prune ----

  /** The first i keys go, the kill switch not among them. */
  predicate FirstGo(stale: seq<Key>, answers: seq<PruneAnswer>, i: nat, addon: string)
    requires i <= |stale| == |answers|
  {
    forall j | 0 <= j < i :: stale[j] != PolicyKey(addon) && answers[j].gone
  }

  lemma {:induction false} AfterFirst(w: World, stale: seq<Key>, answers: seq<PruneAnswer>, i: nat, addon: string)
    requires Inv(w, addon) && w.phase == Pruning(stale) && i < |stale| == |answers| && FirstGo(stale, answers, i, addon)
    ensures var w' := Pruned(w, stale, answers, i, addon);
            && w'.phase == Pruning(stale[i..]) && w'.pods == w.pods && Inv(w', addon)
            && w'.objects == w.objects - (set j | 0 <= j < i :: stale[j])
  {
    hide Pruned, Inv, PodsRunning;
    if i == 0 {
      PruneStarts(w, stale, answers, addon);
    } else {
      AfterFirst(w, stale, answers, i - 1, addon);
      PruneOne(w, stale, answers, i - 1, addon);
    }
  }

  /**
   * A prune that reaches the kill switch leaves a workload on the VPN standing without it
   * if and only if the pods were listed, none of them was running, the kill switch was
   * deleted and the workload does not come before it; a pod that starts there escapes.
   */
  lemma PrunedAheadIff(w: World, stale: seq<Key>, answers: seq<PruneAnswer>, p: nat, k: Key, id: nat, addon: string)
    requires Inv(w, addon) && w.phase == Pruning(stale) && p < |stale| == |answers|
    requires FirstGo(stale, answers, p, addon) && stale[p] == PolicyKey(addon) && PolicyStands(w.objects, addon)
    requires k in w.objects && OnVPN(w.objects[k], addon) && id !in w.pods
    ensures var w' := Pruned(w, stale, answers, p + 1, addon);
            var goes := answers[p].listed && !PodsRunning(w.pods, addon) && answers[p].gone;
            && (k in w'.objects <==> k !in stale[..p])
            && (k in w'.objects && !PolicyStands(w'.objects, addon) <==> goes && k !in stale[..p])
            && (Escapes(w', id, k, addon) <==> goes && k !in stale[..p])
  {
    hide Pruned, Inv, PodsRunning, Selects;
    AfterFirst(w, stale, answers, p, addon);
    PruneOne(w, stale, answers, p, addon);
    var w' := Pruned(w, stale, answers, p + 1, addon);
    assert k in stale[..p] <==> k in set j | 0 <= j < p :: stale[j];
    assert w.objects[k].key == k by { WellKeyed(w, k, addon); }
    if k in w'.objects { StartsGuardedIff(w', id, k, addon); }
  }

  lemma WellKeyed(w: World, k: Key, addon: string)
    requires Inv(w, addon) && k in w.objects
    ensures w.objects[k].key == k
  {
  }

  // ---- from a chart ----

  predicate AllTaken(render: seq<Object>, answers: seq<Answer>)
    requires |render| == |answers|
  {
    forall i | 0 <= i < |render| :: Taken(render[i], answers[i])
  }

  /** A whole apply leaves what it does not render. */
  lemma {:induction false} AllApplied(w: World, render: seq<Object>, answers: seq<Answer>, stale: seq<Key>, i: nat, addon: string)
    requires Inv(w, addon) && w.phase == Applying(render, 0, stale, false) && render != []
    requires i <= |render| == |answers| && AllTaken(render, answers)
    ensures var w' := Tried(w, render, answers, i, addon);
            && Inv(w', addon) && w'.pods == w.pods
            && w'.phase == (if i < |render| then Applying(render, i, stale, false) else BeforePrune(stale))
            && (forall k | k in w.objects && !Renders(render, k) :: k in w'.objects && w'.objects[k] == w.objects[k])
  {
    hide Tried, Inv, Run, Do, ApplyEvents;
    if i == 0 {
      TriedNone(w, render, answers, addon);
    } else {
      AllApplied(w, render, answers, stale, i - 1, addon);
      var w1 := Tried(w, render, answers, i - 1, addon);
      TriedNext(w, render, answers, i - 1, addon);
      ApplyStep(w1, render[i - 1], answers[i - 1], addon);
      NoPodWithoutItsKillSwitch(w1, ApplyEvents(render[i - 1], answers[i - 1]), addon);
      assert Renders(render, render[i - 1].key);
    }
  }

  lemma TriedNone(w: World, render: seq<Object>, answers: seq<Answer>, addon: string)
    requires |render| == |answers|
    ensures Tried(w, render, answers, 0, addon) == w
  {
    assert render[..0] == [] && answers[..0] == [];
  }

  function KeyRank(k: Key): nat {
    RankIn(k.kind, APPLIED_KINDS)
  }

  /** The addon's objects, listed kind by kind. */
  ghost predicate Listing(inventory: seq<Key>, objects: map<Key, Object>) {
    && (forall k :: k in inventory <==> k in objects)
    && (forall i, j | 0 <= i < j < |inventory| :: KeyRank(inventory[i]) <= KeyRank(inventory[j]))
  }

  /** What is stale is what is listed and not rendered, in the same order. */
  lemma {:induction false} StaleKeeps(inventory: seq<Key>, render: seq<Object>)
    requires forall i, j | 0 <= i < j < |inventory| :: KeyRank(inventory[i]) <= KeyRank(inventory[j])
    ensures var stale := Stale(inventory, render);
            && (forall k :: k in stale <==> k in inventory && !Renders(render, k))
            && (forall i, j | 0 <= i < j < |stale| :: KeyRank(stale[i]) <= KeyRank(stale[j]))
  {
    hide KeyRank;
    if inventory != [] {
      StaleKeeps(inventory[1..], render);
      var rest := Stale(inventory[1..], render);
      assert inventory == [inventory[0]] + inventory[1..];
      forall k | k in rest
        ensures KeyRank(inventory[0]) <= KeyRank(k)
      {
        assert k in inventory[1..];
      }
    }
  }

  /** Where k comes first. */
  function FirstAt(k: Key, s: seq<Key>): (i: nat)
    requires k in s
    ensures i < |s| && s[i] == k && k !in s[..i]
  {
    if s[0] == k then 0 else
      assert s == [s[0]] + s[1..];
      1 + FirstAt(k, s[1..])
  }

  /** Listed kind by kind, no workload comes before the kill switch. */
  lemma SwitchComesFirst(stale: seq<Key>, addon: string, k: Key)
    requires PolicyKey(addon) in stale && k.kind in {Deployment, Job}
    requires forall i, j | 0 <= i < j < |stale| :: KeyRank(stale[i]) <= KeyRank(stale[j])
    ensures k !in stale[..FirstAt(PolicyKey(addon), stale)]
  {
    var policy := Object(PolicyKey(addon), map[], map[], [], [], 0);
    PolicyRanksFirst(policy, policy.(key := k));
  }

  /** Without a workload on the VPN a chart renders its own objects, and no kill switch. */
  lemma RendersOwn(chart: seq<Object>, guard: Guard, addon: string, cidrs: seq<string>, k: Key)
    requires Planned(chart, guard) && forall i | 0 <= i < |chart| :: !AssignsVPN(chart[i])
    ensures var render := Render(chart, addon, cidrs);
            && render != [] && (Renders(render, k) <==> Renders(chart, k)) && !Renders(render, PolicyKey(addon))
  {
    hide Ordered, Refused, Rank;
    var all := AllDecorated(chart, addon);
    var render := Render(chart, addon, cidrs);
    assert render == Ordered(all);
    SameObjects(all);
    if i :| 0 <= i < |chart| && chart[i].key == k {
      assert all[i] in all && all[i] in render;
    }
    forall i | 0 <= i < |render|
      ensures Renders(chart, render[i].key) && render[i].key.kind != NetworkPolicy
    {
      assert render[i] in render;
      var j :| 0 <= j < |all| && all[j] == render[i];
      NoPolicies(chart[j], guard);
    }
  }

  /**
   * An addon's workload k on the VPN, and the chart that replaces it renders neither it nor
   * another on the VPN. Whatever that chart is, the pass that applies it comes to where
   * the kill switch is gone and k stands, if and only if no pod on the VPN is running when
   * they are listed, the list and the deletion coming through; a pod that k still starts
   * there runs without the kill switch.
   */
  lemma DroppedWorkloadCanEscape(w: World, chart: seq<Object>, guard: Guard, cidrs: seq<string>, inventory: seq<Key>,
                                 taken: seq<Answer>, answers: seq<PruneAnswer>, k: Key, id: nat, addon: string)
    requires Inv(w, addon) && w.phase.Idle? && Listing(inventory, w.objects)
    requires k in w.objects && OnVPN(w.objects[k], addon) && k !in w.retired && id !in w.pods
    requires Planned(chart, guard) && !Renders(chart, k) && forall i | 0 <= i < |chart| :: !AssignsVPN(chart[i])
    requires |taken| == |Render(chart, addon, cidrs)| && AllTaken(Render(chart, addon, cidrs), taken)
    requires var stale := Stale(inventory, Render(chart, addon, cidrs));
             |answers| == |stale| && forall i | 0 <= i < |stale| && stale[i] != PolicyKey(addon) :: answers[i].gone
    ensures var render := Render(chart, addon, cidrs);
            var stale := Stale(inventory, render);
            && PolicyKey(addon) in stale
            && var p := FirstAt(PolicyKey(addon), stale);
               var w1 := Tried(Do(w, Begins(chart, guard, cidrs, inventory), addon), render, taken, |render|, addon);
               var w2 := Pruned(w1, stale, answers, p + 1, addon);
               var goes := answers[p].listed && !PodsRunning(w.pods, addon) && answers[p].gone;
               && k in w2.objects && (PolicyStands(w2.objects, addon) <==> !goes)
               && (Escapes(w2, id, k, addon) <==> goes)
  {
    hide *;
    var render := Render(chart, addon, cidrs);
    var stale := Stale(inventory, render);
    RendersOwn(chart, guard, addon, cidrs, k);
    SwitchStands(w, k, addon);
    StaleOf(inventory, w.objects, render, k, addon);
    PassBegins(w, chart, guard, cidrs, inventory, addon);
    var w0 := Do(w, Begins(chart, guard, cidrs, inventory), addon);
    AllApplied(w0, render, taken, stale, |render|, addon);
    var w1 := Tried(w0, render, taken, |render|, addon);
    var p := FirstAt(PolicyKey(addon), stale);
    SwitchComesFirst(stale, addon, k);
    FirstOnesGo(stale, answers, p, addon);
    StandsStill(w.objects, w1.objects, addon);
    PrunedAheadIff(w1, stale, answers, p, k, id, addon);
  }

  lemma PassBegins(w: World, chart: seq<Object>, guard: Guard, cidrs: seq<string>, inventory: seq<Key>, addon: string)
    requires Inv(w, addon) && w.phase.Idle? && Planned(chart, guard) && Render(chart, addon, cidrs) != []
    ensures var w0 := Do(w, Begins(chart, guard, cidrs, inventory), addon);
            var render := Render(chart, addon, cidrs);
            w0 == w.(phase := Applying(render, 0, Stale(inventory, render), false)) && Inv(w0, addon)
  {
    hide Render, Inv, Planned, Stale;
    EventKeeps(w, Begins(chart, guard, cidrs, inventory), addon);
  }

  lemma StaleOf(inventory: seq<Key>, objects: map<Key, Object>, render: seq<Object>, k: Key, addon: string)
    requires Listing(inventory, objects) && PolicyKey(addon) in objects && !Renders(render, PolicyKey(addon))
    requires k in objects && !Renders(render, k)
    ensures var stale := Stale(inventory, render);
            && PolicyKey(addon) in stale && k in stale
            && (forall i, j | 0 <= i < j < |stale| :: KeyRank(stale[i]) <= KeyRank(stale[j]))
  {
    StaleKeeps(inventory, render);
  }

  lemma SwitchStands(w: World, k: Key, addon: string)
    requires Inv(w, addon) && k in w.objects && OnVPN(w.objects[k], addon) && k !in w.retired
    ensures PolicyStands(w.objects, addon) && PolicyKey(addon) in w.objects && k.kind in {Deployment, Job}
  {
  }

  lemma StandsStill(before: map<Key, Object>, after: map<Key, Object>, addon: string)
    requires PolicyStands(before, addon) && PolicyKey(addon) in after && after[PolicyKey(addon)] == before[PolicyKey(addon)]
    ensures PolicyStands(after, addon)
  {
  }

  lemma FirstOnesGo(stale: seq<Key>, answers: seq<PruneAnswer>, p: nat, addon: string)
    requires p < |stale| == |answers| && PolicyKey(addon) !in stale[..p]
    requires forall i | 0 <= i < |stale| && stale[i] != PolicyKey(addon) :: answers[i].gone
    ensures FirstGo(stale, answers, p, addon) && BeforePrune(stale) == Pruning(stale)
  {
    assert forall j | 0 <= j < p :: stale[j] == stale[..p][j];
  }
}
