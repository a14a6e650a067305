/**
 * An addon's passes step by step, with pods coming and going between any two steps: no
 * pod on the VPN ever runs without its kill switch.
 */
module KillSwitchRuns {
  import opened Basics
  import opened Sorting
  import opened KillSwitch

  datatype Pod = Pod(labels: Labels, stopped: bool)

  /** Where a pass stands; `again` says the Job to apply next was just deleted to be replaced. */
  datatype Phase =
    | Idle
    | Applying(render: seq<Object>, next: nat, stale: seq<Key>, again: bool)
    | Pruning(stale: seq<Key>)
    | Deleting(stale: seq<Key>)

  /**
   * The objects the addon has in the cluster, and its pods. `retired` are the workloads
   * with pods on the VPN that the last whole apply dropped, or took off the VPN.
   */
  datatype World = World(objects: map<Key, Object>, pods: map<nat, Pod>, retired: set<Key>, phase: Phase)

  datatype Event =
    | Begins(chart: seq<Object>, guard: Guard, cidrs: seq<string>, inventory: seq<Key>)
    | Applies
    | ApplyFails
    | Immutable(deleted: bool)
    | Lists(ok: bool)
    | Deletes(ok: bool)
    | PodStarts(id: nat, owner: Key)
    | PodStops(pod: nat)
    | PodGoes(gone: nat)

  /** A workload whose pods the kill switch selects. */
  predicate OnVPN(o: Object, addon: string) {
    IsWorkload(o) && Selects(PodSelector(addon), o.labels)
  }

  predicate Runs(p: Pod, addon: string) {
    !p.stopped && Selects(PodSelector(addon), p.labels)
  }

  predicate PodsRunning(pods: map<nat, Pod>, addon: string) {
    exists id | id in pods :: Runs(pods[id], addon)
  }

  // ---- the pass ----

  function AllDecorated(objs: seq<Object>, addon: string): seq<Object> {
    seq(|objs|, i requires 0 <= i < |objs| => Decorated(objs[i], addon))
  }

  /** What the operator applies for a chart, in order: the chart's objects and their kill switch. */
  ghost function Render(chart: seq<Object>, addon: string, cidrs: seq<string>): seq<Object> {
    var policy := Policy(chart, addon, cidrs);
    Ordered(AllDecorated(if policy.Some? then chart + [policy.value] else chart, addon))
  }

  predicate Renders(render: seq<Object>, k: Key) {
    exists i :: 0 <= i < |render| && render[i].key == k
  }

  /** What was applied before and is rendered no longer. */
  function Stale(inventory: seq<Key>, render: seq<Object>): (r: seq<Key>)
    ensures forall k | k in r :: forall i | 0 <= i < |render| :: render[i].key != k
  {
    if inventory == [] then []
    else if Renders(render, inventory[0]) then Stale(inventory[1..], render)
    else [inventory[0]] + Stale(inventory[1..], render)
  }

  function Retired(objects: map<Key, Object>, render: seq<Object>, addon: string): set<Key> {
    set k | k in objects && OnVPN(objects[k], addon)
            && forall i | 0 <= i < |render| :: render[i].key == k ==> !OnVPN(render[i], addon)
  }

  /** On to the next object, to the prune, or to the end. */
  function Proceed(w: World, addon: string): World {
    match w.phase
    case Applying(render, next, stale, _) =>
      if next < |render| then w
      else
        var retired := Retired(w.objects, render, addon);
        w.(retired := retired, phase := if stale == [] then Idle else Pruning(stale))
    case Pruning(stale) => if stale == [] then w.(phase := Idle) else w
    case _ => w
  }

  predicate AtPolicy(w: World, addon: string) {
    w.phase.Pruning? && w.phase.stale != [] && w.phase.stale[0] == PolicyKey(addon)
  }

  function Deleted(w: World, addon: string, ok: bool): World
    requires (w.phase.Pruning? || w.phase.Deleting?) && w.phase.stale != []
  {
    if !ok then w.(phase := Idle)
    else Proceed(w.(objects := w.objects - {w.phase.stale[0]}, phase := Pruning(w.phase.stale[1..])), addon)
  }

  /** One step of a pass, or of the cluster; one that cannot happen now changes nothing. */
  ghost function Do(w: World, e: Event, addon: string): World {
    match e
    case Begins(chart, guard, cidrs, inventory) =>
      if !w.phase.Idle? || !Planned(chart, guard) then w
      else
        var render := Render(chart, addon, cidrs);
        Proceed(w.(phase := Applying(render, 0, Stale(inventory, render), false)), addon)
    case Applies =>
      if w.phase.Applying? && w.phase.next < |w.phase.render| then
        var o := w.phase.render[w.phase.next];
        Proceed(w.(objects := w.objects[o.key := o], retired := w.retired - {o.key},
                   phase := w.phase.(next := w.phase.next + 1, again := false)), addon)
      else w
    case ApplyFails => if w.phase.Applying? then w.(phase := Idle) else w
    case Immutable(deleted) =>
      if w.phase.Applying? && !w.phase.again && w.phase.next < |w.phase.render| && w.phase.render[w.phase.next].key.kind == Job then
        if deleted then w.(objects := w.objects - {w.phase.render[w.phase.next].key}, phase := w.phase.(again := true))
        else w.(phase := Idle)
      else w
    case Lists(ok) =>
      if !AtPolicy(w, addon) then w
      else if !ok then w.(phase := Idle)
      else if PodsRunning(w.pods, addon) then Proceed(w.(phase := Pruning(w.phase.stale[1..])), addon)
      else w.(phase := Deleting(w.phase.stale))
    case Deletes(ok) =>
      if (w.phase.Deleting? || (w.phase.Pruning? && !AtPolicy(w, addon))) && w.phase.stale != []
      then Deleted(w, addon, ok) else w
    case PodStarts(id, owner) =>
      if owner in w.objects && owner !in w.retired then StartPod(w, id, owner) else w
    case PodStops(id) => if id in w.pods then w.(pods := w.pods[id := w.pods[id].(stopped := true)]) else w
    case PodGoes(id) => w.(pods := w.pods - {id})
  }

  function StartPod(w: World, id: nat, owner: Key): World
    requires owner in w.objects
  {
    if id !in w.pods && IsWorkload(w.objects[owner])
    then w.(pods := w.pods[id := Pod(w.objects[owner].labels, false)]) else w
  }

  ghost function Run(w: World, events: seq<Event>, addon: string): World
    decreases |events|
  {
    if events == [] then w else Run(Do(w, events[0], addon), events[1..], addon)
  }

  // ---- the invariant ----

  predicate PolicyStands(objects: map<Key, Object>, addon: string) {
    PolicyKey(addon) in objects && objects[PolicyKey(addon)].selector == PodSelector(addon)
  }

  /** While a pod of the addon runs on the VPN, the kill switch stands. */
  predicate Guarded(w: World, addon: string) {
    PodsRunning(w.pods, addon) ==> PolicyStands(w.objects, addon)
  }

  /** So has every workload that may still start one. */
  ghost predicate Covered(objects: map<Key, Object>, retired: set<Key>, addon: string) {
    forall k | k in objects && OnVPN(objects[k], addon) && k !in retired :: PolicyStands(objects, addon)
  }

  ghost predicate Rested(objects: map<Key, Object>, retired: set<Key>, addon: string) {
    forall k | k in objects && OnVPN(objects[k], addon) :: k in retired
  }

  /** A render holds no policy but the kill switch, and it comes before the first pod that needs it. */
  ghost predicate InOrder(render: seq<Object>, next: nat, objects: map<Key, Object>, addon: string) {
    && (forall i | 0 <= i < |render| && render[i].key.kind == NetworkPolicy ::
          render[i].key == PolicyKey(addon) && render[i].selector == PodSelector(addon))
    && (forall i | 0 <= i < |render| && OnVPN(render[i], addon) ::
          PolicyStands(objects, addon) || (next <= i && exists j :: next <= j < i && render[j].key == PolicyKey(addon)))
  }

  ghost predicate PhaseInv(w: World, addon: string) {
    match w.phase
    case Idle => true
    case Applying(render, next, stale, _) =>
      && next <= |render| && InOrder(render, next, w.objects, addon)
      && (PolicyKey(addon) in stale ==> forall i | 0 <= i < |render| :: !OnVPN(render[i], addon))
    case Pruning(stale) => PolicyKey(addon) in stale ==> Rested(w.objects, w.retired, addon)
    case Deleting(stale) => Rested(w.objects, w.retired, addon) && !PodsRunning(w.pods, addon)
  }

  ghost predicate Inv(w: World, addon: string) {
    && (forall k | k in w.objects :: w.objects[k].key == k)
    && Guarded(w, addon) && Covered(w.objects, w.retired, addon) && PhaseInv(w, addon)
  }

  // ---- each step keeps it ----

  /** A chart's objects and, where one of them is on the VPN, the policy. */
  ghost predicate Rendered(objs: seq<Object>, chart: seq<Object>, addon: string, cidrs: seq<string>) {
    var policy := Policy(chart, addon, cidrs);
    && (forall o | o in objs && IsWorkload(o) && OnVPN(o, addon) :: policy.Some?)
    && (forall o | o in objs && o.key.kind == NetworkPolicy :: policy.Some? && o == policy.value)
    && (policy.Some? ==> policy.value in objs && exists o :: o in objs && OnVPN(o, addon))
  }

  lemma DecoratedRendered(chart: seq<Object>, guard: Guard, addon: string, cidrs: seq<string>)
    requires Allowed(chart, guard)
    ensures var policy := Policy(chart, addon, cidrs);
            Rendered(AllDecorated(if policy.Some? then chart + [policy.value] else chart, addon), chart, addon, cidrs)
  {
    hide Selects, Refused;
    var policy := Policy(chart, addon, cidrs);
    var all := if policy.Some? then chart + [policy.value] else chart;
    var decorated := AllDecorated(all, addon);
    forall i | 0 <= i < |all|
      ensures IsWorkload(decorated[i]) ==> i < |chart| && (OnVPN(decorated[i], addon) <==> AssignsVPN(chart[i]))
      ensures decorated[i].key.kind == NetworkPolicy ==> policy.Some? && decorated[i] == policy.value
    {
      if IsWorkload(all[i]) { DecorateSelects(all[i], addon); }
      if i < |chart| { NoPolicies(chart[i], guard); }
    }
    if policy.Some? {
      var c :| 0 <= c < |chart| && AssignsVPN(chart[c]);
      assert decorated[c] in decorated && decorated[|chart|] in decorated;
    }
  }

  lemma NoPolicies(o: Object, guard: Guard)
    requires !Refused(o, guard)
    ensures o.key.kind != NetworkPolicy
  {
  }

  lemma SortedRendered(objs: seq<Object>, chart: seq<Object>, addon: string, cidrs: seq<string>)
    requires Rendered(objs, chart, addon, cidrs)
    ensures Rendered(Ordered(objs), chart, addon, cidrs)
  {
    hide OnVPN, Ordered;
    SameObjects(objs);
  }

  lemma SameObjects(objs: seq<Object>)
    ensures |Ordered(objs)| == |objs|
    ensures forall o :: o in Ordered(objs) <==> o in objs
    ensures forall i, j | 0 <= i < |objs| && 0 <= j < |objs| && Rank(Ordered(objs)[i]) < Rank(Ordered(objs)[j]) :: i < j
  {
    hide StableSort;
    SortedHolds(objs, (o: Object) => Rank(o) as int);
  }

  /** The render of a chart the guardrails let through is in order, and has the policy if and only if a workload is on the VPN. */
  lemma RenderInOrder(chart: seq<Object>, guard: Guard, addon: string, cidrs: seq<string>, objects: map<Key, Object>)
    requires Allowed(chart, guard)
    ensures var render := Render(chart, addon, cidrs);
            && InOrder(render, 0, objects, addon)
            && ((exists i :: 0 <= i < |render| && render[i].key == PolicyKey(addon)) <==>
                (exists i :: 0 <= i < |render| && OnVPN(render[i], addon)))
  {
    hide Selects, Ordered, AllDecorated, Allowed, Rank;
    var policy := Policy(chart, addon, cidrs);
    var decorated := AllDecorated(if policy.Some? then chart + [policy.value] else chart, addon);
    var render := Ordered(decorated);
    DecoratedRendered(chart, guard, addon, cidrs);
    SortedRendered(decorated, chart, addon, cidrs);
    SameObjects(decorated);
    forall i | 0 <= i < |render| && OnVPN(render[i], addon)
      ensures exists j :: 0 <= j < i && render[j].key == PolicyKey(addon)
    {
      var j :| 0 <= j < |render| && render[j] == policy.value;
      PolicyRanksFirst(policy.value, render[i]);
      assert Rank(render[j]) < Rank(render[i]);
    }
  }

  lemma ProceedKeeps(w: World, addon: string)
    requires Inv(w, addon)
    ensures Inv(Proceed(w, addon), addon)
  {
    hide Selects, IsWorkload;
    if w.phase.Applying? && w.phase.next >= |w.phase.render| {
      var retired := Retired(w.objects, w.phase.render, addon);
      assert Covered(w.objects, retired, addon);
    }
  }

  lemma BeginsKeeps(w: World, chart: seq<Object>, guard: Guard, cidrs: seq<string>, inventory: seq<Key>, addon: string)
    requires Inv(w, addon) && w.phase.Idle? && Planned(chart, guard)
    ensures Inv(Do(w, Begins(chart, guard, cidrs, inventory), addon), addon)
  {
    hide Render, Proceed, InOrder;
    var render := Render(chart, addon, cidrs);
    RenderInOrder(chart, guard, addon, cidrs, w.objects);
    ProceedKeeps(w.(phase := Applying(render, 0, Stale(inventory, render), false)), addon);
  }

  lemma AppliesKeeps(w: World, addon: string)
    requires Inv(w, addon) && w.phase.Applying? && w.phase.next < |w.phase.render|
    ensures Inv(Do(w, Applies, addon), addon)
  {
    hide Selects, Proceed;
    var o := w.phase.render[w.phase.next];
    var w' := w.(objects := w.objects[o.key := o], retired := w.retired - {o.key},
                 phase := w.phase.(next := w.phase.next + 1, again := false));
    assert PolicyStands(w.objects, addon) ==> PolicyStands(w'.objects, addon);
    assert o.key == PolicyKey(addon) ==> PolicyStands(w'.objects, addon);
    ProceedKeeps(w', addon);
  }

  lemma DeletesKeeps(w: World, ok: bool, addon: string)
    requires Inv(w, addon) && (w.phase.Deleting? || (w.phase.Pruning? && !AtPolicy(w, addon))) && w.phase.stale != []
    ensures Inv(Deleted(w, addon, ok), addon)
  {
    hide Selects, Proceed;
    if ok {
      ProceedKeeps(w.(objects := w.objects - {w.phase.stale[0]}, phase := Pruning(w.phase.stale[1..])), addon);
    }
  }

  lemma EventKeeps(w: World, e: Event, addon: string)
    requires Inv(w, addon)
    ensures Inv(Do(w, e, addon), addon)
  {
    hide Selects, Proceed, Render, InOrder, Deleted;
    match e
    case Begins(chart, guard, cidrs, inventory) =>
      if w.phase.Idle? && Planned(chart, guard) { BeginsKeeps(w, chart, guard, cidrs, inventory, addon); }
    case Applies =>
      if w.phase.Applying? && w.phase.next < |w.phase.render| { AppliesKeeps(w, addon); }
    case Immutable(deleted) => ImmutableKeeps(w, deleted, addon);
    case Lists(ok) => ListsKeeps(w, ok, addon);
    case Deletes(ok) =>
      if (w.phase.Deleting? || (w.phase.Pruning? && !AtPolicy(w, addon))) && w.phase.stale != [] { DeletesKeeps(w, ok, addon); }
    case _ =>
  }

  lemma ImmutableKeeps(w: World, deleted: bool, addon: string)
    requires Inv(w, addon)
    ensures Inv(Do(w, Immutable(deleted), addon), addon)
  {
    hide Selects, Proceed;
    var w' := Do(w, Immutable(deleted), addon);
    assert PolicyStands(w'.objects, addon) <==> PolicyStands(w.objects, addon);
  }

  lemma ListsKeeps(w: World, ok: bool, addon: string)
    requires Inv(w, addon)
    ensures Inv(Do(w, Lists(ok), addon), addon)
  {
    hide Selects, Proceed;
    if AtPolicy(w, addon) && ok && PodsRunning(w.pods, addon) {
      ProceedKeeps(w.(phase := Pruning(w.phase.stale[1..])), addon);
    }
  }

  /**
   * After every step of every run — applies, prunes and lists that fail midway among them —
   * each pod of the addon on the VPN that has not stopped has its kill switch.
   */
  lemma {:induction false} NoPodWithoutItsKillSwitch(w: World, events: seq<Event>, addon: string)
    requires Inv(w, addon)
    ensures Inv(Run(w, events, addon), addon) && Guarded(Run(w, events, addon), addon)
    decreases |events|
  {
    hide Do, Guarded, Covered, PhaseInv;
    if events != [] {
      EventKeeps(w, events[0], addon);
      NoPodWithoutItsKillSwitch(Do(w, events[0], addon), events[1..], addon);
    }
  }

  /** A new addon has nothing in the cluster yet. */
  const NOTHING_YET := World(map[], map[], {}, Idle)

  /** From there on, in every run, no pod runs on the VPN without the kill switch. */
  lemma FromANewAddon(events: seq<Event>, addon: string)
    ensures var w := Run(NOTHING_YET, events, addon);
            Inv(w, addon) && forall id | id in w.pods && Runs(w.pods[id], addon) :: PolicyStands(w.objects, addon)
  {
    hide Run;
    NoPodWithoutItsKillSwitch(NOTHING_YET, events, addon);
  }

  // ---- where those pods may go ----

  /** This is the kill switch in full, for networks that some pass had. */
  ghost predicate IsSwitch(o: Object, addon: string, given: set<seq<string>>) {
    && o.key == Key(NetworkPolicy, "zaentrum-addon-" + addon + "-vpn") && o.peers in given
    && o.selector == map["zaentrum.io/addon" := addon, "zaentrum.io/vpn" := "true"]
  }

  /** The policies among these objects are. */
  ghost predicate SwitchesAlone(objects: map<Key, Object>, addon: string, given: set<seq<string>>) {
    forall k | k in objects && objects[k].key.kind == NetworkPolicy :: k == objects[k].key && IsSwitch(objects[k], addon, given)
  }

  ghost predicate PeersInv(w: World, addon: string, given: set<seq<string>>) {
    && SwitchesAlone(w.objects, addon, given)
    && (w.phase.Applying? ==> forall i | 0 <= i < |w.phase.render| && w.phase.render[i].key.kind == NetworkPolicy ::
          IsSwitch(w.phase.render[i], addon, given))
  }

  lemma ProceedKeepsPeers(w: World, addon: string, given: set<seq<string>>)
    requires PeersInv(w, addon, given)
    ensures PeersInv(Proceed(w, addon), addon, given)
  {
    hide Retired, IsSwitch;
  }

  lemma EventKeepsPeers(w: World, e: Event, addon: string, given: set<seq<string>>)
    requires PeersInv(w, addon, given) && (e.Begins? ==> e.cidrs in given)
    ensures PeersInv(Do(w, e, addon), addon, given)
  {
    hide Render, Proceed, IsSwitch, Planned, Stale;
    match e
    case Begins(chart, guard, cidrs, inventory) =>
      if w.phase.Idle? && Planned(chart, guard) {
        RenderedPolicies(chart, guard, addon, cidrs, given);
        var render := Render(chart, addon, cidrs);
        ProceedKeepsPeers(w.(phase := Applying(render, 0, Stale(inventory, render), false)), addon, given);
      }
    case Applies =>
      if w.phase.Applying? && w.phase.next < |w.phase.render| {
        var o := w.phase.render[w.phase.next];
        ProceedKeepsPeers(w.(objects := w.objects[o.key := o], retired := w.retired - {o.key},
                             phase := w.phase.(next := w.phase.next + 1, again := false)), addon, given);
      }
    case Lists(ok) =>
      if AtPolicy(w, addon) { ProceedKeepsPeers(w.(phase := Pruning(w.phase.stale[1..])), addon, given); }
    case Deletes(ok) =>
      if (w.phase.Deleting? || w.phase.Pruning?) && w.phase.stale != [] {
        ProceedKeepsPeers(w.(objects := w.objects - {w.phase.stale[0]}, phase := Pruning(w.phase.stale[1..])), addon, given);
      }
    case _ =>
  }

  lemma RenderedPolicies(chart: seq<Object>, guard: Guard, addon: string, cidrs: seq<string>, given: set<seq<string>>)
    requires Planned(chart, guard) && cidrs in given
    ensures var render := Render(chart, addon, cidrs);
            forall i | 0 <= i < |render| && render[i].key.kind == NetworkPolicy :: IsSwitch(render[i], addon, given)
  {
    hide Ordered, AllDecorated, Rank;
    var policy := Policy(chart, addon, cidrs);
    var decorated := AllDecorated(if policy.Some? then chart + [policy.value] else chart, addon);
    DecoratedRendered(chart, guard, addon, cidrs);
    SortedRendered(decorated, chart, addon, cidrs);
  }

  lemma {:induction false} RunKeepsPeers(w: World, events: seq<Event>, addon: string, given: set<seq<string>>)
    requires PeersInv(w, addon, given) && forall i | 0 <= i < |events| && events[i].Begins? :: events[i].cidrs in given
    ensures PeersInv(Run(w, events, addon), addon, given)
    decreases |events|
  {
    hide Do, PeersInv;
    if events != [] {
      EventKeepsPeers(w, events[0], addon, given);
      RunKeepsPeers(Do(w, events[0], addon), events[1..], addon, given);
    }
  }

  /**
   * Over every run from a new addon: while a pod of it runs on the VPN, the kill switch that
   * stands selects this pod and lets it reach just the cluster's networks, as one of
   * the passes had them.
   */
  lemma PodsReachTheClusterAlone(events: seq<Event>, addon: string, given: set<seq<string>>)
    requires forall i | 0 <= i < |events| && events[i].Begins? :: events[i].cidrs in given
    ensures var w := Run(NOTHING_YET, events, addon);
            && (forall k | k in w.objects && w.objects[k].key.kind == NetworkPolicy :: IsSwitch(w.objects[k], addon, given))
            && forall id | id in w.pods && Runs(w.pods[id], addon) ::
                 var k := Key(NetworkPolicy, "zaentrum-addon-" + addon + "-vpn");
                 k in w.objects && w.objects[k].peers in given && Selects(w.objects[k].selector, w.pods[id].labels)
  {
    hide Run, Selects;
    FromANewAddon(events, addon);
    RunKeepsPeers(NOTHING_YET, events, addon, given);
  }

  // ---- the assumption about retired workloads ----

  /** A pod that starts is without its kill switch if and only if it is on the VPN and the policy is gone. */
  lemma StartsGuardedIff(w: World, id: nat, owner: Key, addon: string)
    requires Inv(w, addon) && owner in w.objects && id !in w.pods
    ensures Guarded(StartPod(w, id, owner), addon) <==>
            PolicyStands(w.objects, addon) || !OnVPN(w.objects[owner], addon)
  {
    hide Selects;
    var w' := StartPod(w, id, owner);
    if IsWorkload(w.objects[owner]) {
      assert w'.pods[id] == Pod(w.objects[owner].labels, false);
      if OnVPN(w.objects[owner], addon) { assert Runs(w'.pods[id], addon); }
    }
    if PodsRunning(w.pods, addon) {
      var p :| p in w.pods && Runs(w.pods[p], addon);
      assert Runs(w'.pods[p], addon);
    }
  }

  /**
   * After any run, a pod may start anywhere but at a workload that the last whole apply
   * dropped or took off the VPN: only there can one escape, and only once no other pod on
   * the VPN is running.
   */
  lemma OnlyRetiredWorkloadsEscape(w: World, events: seq<Event>, id: nat, owner: Key, addon: string)
    requires Inv(w, addon)
    ensures var w' := Run(w, events, addon);
            owner in w'.objects && !Guarded(StartPod(w', id, owner), addon) ==>
              owner in w'.retired && OnVPN(w'.objects[owner], addon) && !PodsRunning(w'.pods, addon)
  {
    hide Run, PhaseInv, Selects;
    NoPodWithoutItsKillSwitch(w, events, addon);
    var w' := Run(w, events, addon);
    if owner in w'.objects && id !in w'.pods { StartsGuardedIff(w', id, owner, addon); }
  }
}
