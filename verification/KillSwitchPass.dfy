/**
 * The apply and the prune of an addon, as the loops they are: each is a run of the steps
 * of KillSwitchRuns, so what holds at every step holds inside them.
 */
module KillSwitchPass {
  import opened Basics
  import opened KillSwitch
  import opened KillSwitchRuns

  /** How the API server answers an apply; the last three refuse a Job whose pod template changed. */
  datatype Answer = Accepted | Rejected | Replaced | Stuck | Lost

  function ApplyEvents(o: Object, a: Answer): seq<Event> {
    match a
    case Accepted => [Applies]
    case Rejected => [ApplyFails]
    case _ =>
      if o.key.kind != Job then [ApplyFails]
      else if a.Replaced? then [Immutable(true), Applies]
      else if a.Stuck? then [Immutable(false)]
      else [Immutable(true), ApplyFails]
  }

  function AllApplyEvents(render: seq<Object>, answers: seq<Answer>): seq<Event>
    requires |render| == |answers|
  {
    if render == [] then []
    else AllApplyEvents(render[..|render| - 1], answers[..|render| - 1]) + ApplyEvents(render[|render| - 1], answers[|render| - 1])
  }

  /** How it answers the prune of one object: the list of the pods on the VPN, and the deletion. */
  datatype PruneAnswer = PruneAnswer(listed: bool, gone: bool)

  function PruneEvents(k: Key, a: PruneAnswer, running: bool, addon: string): seq<Event> {
    if k != PolicyKey(addon) then [Deletes(a.gone)]
    else if !a.listed || running then [Lists(a.listed)]
    else [Lists(true), Deletes(a.gone)]
  }

  function AllPruneEvents(stale: seq<Key>, answers: seq<PruneAnswer>, running: bool, addon: string): seq<Event>
    requires |stale| == |answers|
  {
    if stale == [] then []
    else AllPruneEvents(stale[..|stale| - 1], answers[..|stale| - 1], running, addon)
         + PruneEvents(stale[|stale| - 1], answers[|stale| - 1], running, addon)
  }

  lemma {:induction false} RunAppends(w: World, a: seq<Event>, b: seq<Event>, addon: string)
    ensures Run(w, a + b, addon) == Run(Run(w, a, addon), b, addon)
    decreases |a|
  {
    hide Do;
    if a == [] {
      assert a + b == b;
    } else {
      assert (a + b)[0] == a[0] && (a + b)[1..] == a[1..] + b;
      RunAppends(Do(w, a[0], addon), a[1..], b, addon);
    }
  }

  /** Where a pass stands once its render is applied. */
  function BeforePrune(stale: seq<Key>): Phase {
    if stale == [] then Idle else Pruning(stale)
  }

  /** The world once the first i objects of a render have been tried. */
  ghost function Tried(w: World, render: seq<Object>, answers: seq<Answer>, i: nat, addon: string): World
    requires i <= |render| == |answers|
  {
    Run(w, AllApplyEvents(render[..i], answers[..i]), addon)
  }

  predicate Taken(o: Object, a: Answer) {
    a.Accepted? || (o.key.kind == Job && a.Replaced?)
  }

  function Answered(objects: map<Key, Object>, o: Object, a: Answer): map<Key, Object> {
    if Taken(o, a) then objects[o.key := o] else if o.key.kind == Job && a.Lost? then objects - {o.key} else objects
  }

  /** One object's answer, as steps. */
  lemma ApplyStep(w: World, o: Object, a: Answer, addon: string)
    requires w.phase.Applying? && w.phase.next < |w.phase.render| && w.phase.render[w.phase.next] == o && !w.phase.again
    ensures var w' := Run(w, ApplyEvents(o, a), addon);
            && w'.objects == Answered(w.objects, o, a) && w'.pods == w.pods
            && (if !Taken(o, a) then w'.phase == Idle
                else if w.phase.next + 1 < |w.phase.render| then w'.phase == w.phase.(next := w.phase.next + 1)
                else w'.phase == BeforePrune(w.phase.stale))
  {
    hide Retired;
    var events := ApplyEvents(o, a);
    if |events| == 1 {
      assert events[1..] == [];
      assert Run(w, events, addon) == Do(w, events[0], addon);
    } else {
      var w1 := Do(w, Immutable(true), addon);
      assert events[0] == Immutable(true) && events[1..] == [events[1]] && events[1..][1..] == [];
      assert Run(w1, events[1..], addon) == Do(w1, events[1], addon);
      assert (w.objects - {o.key})[o.key := o] == w.objects[o.key := o];
    }
  }

  lemma TriedNext(w: World, render: seq<Object>, answers: seq<Answer>, i: nat, addon: string)
    requires i < |render| == |answers|
    ensures Tried(w, render, answers, i + 1, addon) == Run(Tried(w, render, answers, i, addon), ApplyEvents(render[i], answers[i]), addon)
  {
    hide Run, ApplyEvents;
    assert render[..i + 1][..i] == render[..i] && answers[..i + 1][..i] == answers[..i];
    RunAppends(w, AllApplyEvents(render[..i], answers[..i]), ApplyEvents(render[i], answers[i]), addon);
  }

  ghost function Pruned(w: World, stale: seq<Key>, answers: seq<PruneAnswer>, i: nat, addon: string): World
    requires i <= |stale| == |answers|
  {
    Run(w, AllPruneEvents(stale[..i], answers[..i], PodsRunning(w.pods, addon), addon), addon)
  }

  /** Whether the prune of k lets the next one come, and whether it deletes. */
  predicate Passed(k: Key, a: PruneAnswer, running: bool, addon: string) {
    if k == PolicyKey(addon) then a.listed && (running || a.gone) else a.gone
  }

  predicate Goes(k: Key, a: PruneAnswer, running: bool, addon: string) {
    Passed(k, a, running, addon) && !(k == PolicyKey(addon) && running)
  }

  /** What a prune of these deletes, while pods on the VPN are running or not. */
  function Doomed(stale: seq<Key>, running: bool, addon: string): set<Key> {
    set k | k in stale && !(k == PolicyKey(addon) && running)
  }

  predicate Holds(stale: seq<Key>, answers: seq<PruneAnswer>, addon: string)
    requires |stale| <= |answers|
  {
    exists i :: 0 <= i < |stale| && stale[i] == PolicyKey(addon) && answers[i].listed
  }

  lemma DoomedNext(objects: map<Key, Object>, stale: seq<Key>, answers: seq<PruneAnswer>, i: nat, running: bool, addon: string)
    requires i < |stale| == |answers|
    ensures Passed(stale[i], answers[i], running, addon) ==>
              objects - Doomed(stale[..i + 1], running, addon)
              == if Goes(stale[i], answers[i], running, addon)
                 then objects - Doomed(stale[..i], running, addon) - {stale[i]} else objects - Doomed(stale[..i], running, addon)
    ensures Holds(stale[..i + 1], answers, addon) <==>
            Holds(stale[..i], answers, addon) || (stale[i] == PolicyKey(addon) && answers[i].listed)
  {
    assert stale[..i + 1] == stale[..i] + [stale[i]];
    assert forall j | 0 <= j < i :: stale[..i + 1][j] == stale[..i][j];
    assert stale[..i + 1][i] == stale[i];
  }

  /** One more key tried. */
  lemma PruneOne(start: World, stale: seq<Key>, answers: seq<PruneAnswer>, i: nat, addon: string)
    requires i < |stale| == |answers|
    requires var w := Pruned(start, stale, answers, i, addon);
             w.phase == Pruning(stale[i..]) && w.pods == start.pods && Inv(w, addon)
    ensures var w, w' := Pruned(start, stale, answers, i, addon), Pruned(start, stale, answers, i + 1, addon);
            var running := PodsRunning(start.pods, addon);
            && w'.objects == (if Goes(stale[i], answers[i], running, addon) then w.objects - {stale[i]} else w.objects)
            && w'.pods == w.pods && Inv(w', addon)
            && w'.phase == if !Passed(stale[i], answers[i], running, addon) || i + 1 == |stale| then Idle else Pruning(stale[i + 1..])
  {
    hide Run, Do, Inv, PodsRunning, PruneEvents;
    var w := Pruned(start, stale, answers, i, addon);
    assert stale[i..][1..] == stale[i + 1..];
    PruneStep(w, answers[i], addon);
    PrunedNext(start, stale, answers, i, addon);
    NoPodWithoutItsKillSwitch(w, PruneEvents(stale[i], answers[i], PodsRunning(w.pods, addon), addon), addon);
  }

  lemma PruneStep(w: World, a: PruneAnswer, addon: string)
    requires w.phase.Pruning? && w.phase.stale != []
    ensures var k, rest := w.phase.stale[0], w.phase.stale[1..];
            var running := PodsRunning(w.pods, addon);
            var w' := Run(w, PruneEvents(k, a, running, addon), addon);
            && w'.objects == (if Goes(k, a, running, addon) then w.objects - {k} else w.objects) && w'.pods == w.pods
            && w'.phase == if !Passed(k, a, running, addon) || rest == [] then Idle else Pruning(rest)
  {
    var events := PruneEvents(w.phase.stale[0], a, PodsRunning(w.pods, addon), addon);
    if |events| == 1 {
      assert events[1..] == [];
      assert Run(w, events, addon) == Do(w, events[0], addon);
    } else {
      var w1 := Do(w, Lists(true), addon);
      assert events[0] == Lists(true) && events[1..] == [events[1]] && events[1..][1..] == [];
      assert Run(w1, events[1..], addon) == Do(w1, events[1], addon);
    }
  }

  lemma PrunedNext(w: World, stale: seq<Key>, answers: seq<PruneAnswer>, i: nat, addon: string)
    requires i < |stale| == |answers|
    ensures Pruned(w, stale, answers, i + 1, addon)
         == Run(Pruned(w, stale, answers, i, addon), PruneEvents(stale[i], answers[i], PodsRunning(w.pods, addon), addon), addon)
  {
    hide Run, PruneEvents;
    assert stale[..i + 1][..i] == stale[..i] && answers[..i + 1][..i] == answers[..i];
    RunAppends(w, AllPruneEvents(stale[..i], answers[..i], PodsRunning(w.pods, addon), addon),
               PruneEvents(stale[i], answers[i], PodsRunning(w.pods, addon), addon), addon);
  }

  class Cluster {
    const addon: string
    var objects: map<Key, Object>
    var pods: map<nat, Pod>
    ghost var retired: set<Key>
    ghost var phase: Phase

    ghost function Now(): World
      reads this
    {
      World(objects, pods, retired, phase)
    }

    constructor (addon: string)
      ensures this.addon == addon && Now() == World(map[], map[], {}, Idle) && Inv(Now(), addon)
    {
      this.addon, objects, pods, retired, phase := addon, map[], map[], {}, Idle;
    }

    /** Applies a render in its order, stopping at the first error: `tried` objects were sent. */
    method Apply(render: seq<Object>, answers: seq<Answer>, ghost stale: seq<Key>) returns (ok: bool, tried: nat)
      requires |render| == |answers| && Inv(Now(), addon)
      requires phase == if render == [] then BeforePrune(stale) else Applying(render, 0, stale, false)
      modifies this`objects, this`retired, this`phase
      ensures tried <= |render| && Now() == Tried(old(Now()), render, answers, tried, addon)
      ensures Inv(Now(), addon)
      ensures ok ==> tried == |render| && forall i | 0 <= i < tried :: Taken(render[i], answers[i])
      ensures !ok ==> 0 < tried && phase.Idle? && !Taken(render[tried - 1], answers[tried - 1])
                      && forall i | 0 <= i < tried - 1 :: Taken(render[i], answers[i])
      ensures ok ==> phase == BeforePrune(stale)
    {
      hide Run, Do, Inv;
      ghost var start := Now();
      assert render[..0] == [] && answers[..0] == [];
      assert Tried(start, render, answers, 0, addon) == start by { NoEvents(start, addon); }
      ok, tried := true, 0;
      while tried < |render| && ok
        invariant tried <= |render|
        invariant Now() == Tried(start, render, answers, tried, addon) && Inv(Now(), addon)
        invariant forall i | 0 <= i < tried - 1 :: Taken(render[i], answers[i])
        invariant if ok then (tried > 0 ==> Taken(render[tried - 1], answers[tried - 1]))
                  else 0 < tried && phase.Idle? && !Taken(render[tried - 1], answers[tried - 1])
        invariant ok ==> phase == if tried < |render| then Applying(render, tried, stale, false) else BeforePrune(stale)
        decreases |render| - tried
      {
        var o, a := render[tried], answers[tried];
        ApplyStep(Now(), o, a, addon);
        TriedNext(start, render, answers, tried, addon);
        NoPodWithoutItsKillSwitch(Now(), ApplyEvents(o, a), addon);
        ghost var next := Tried(start, render, answers, tried + 1, addon);
        if Taken(o, a) {
          objects := objects[o.key := o];
        } else {
          if o.key.kind == Job && a.Lost? { objects := objects - {o.key}; }
          ok := false;
        }
        retired, phase := next.retired, next.phase;
        tried := tried + 1;
      }
    }

    /** Deletes what is rendered no longer, stopping at the first error; the kill switch is held while a pod needs it. */
    method Prune(stale: seq<Key>, answers: seq<PruneAnswer>) returns (ok: bool, held: bool, tried: nat)
      requires phase == BeforePrune(stale) && |stale| == |answers| && Inv(Now(), addon)
      modifies this`objects, this`retired, this`phase
      ensures tried <= |answers| && Now() == Pruned(old(Now()), stale, answers, tried, addon)
      ensures Inv(Now(), addon) && phase.Idle?
      ensures held <==> PodsRunning(pods, addon) && Holds(stale[..tried], answers, addon)
      ensures held ==> PolicyStands(objects, addon)
      ensures ok ==> objects == old(objects) - Doomed(stale, PodsRunning(pods, addon), addon)
      ensures ok <==> forall i | 0 <= i < |stale| :: Passed(stale[i], answers[i], PodsRunning(pods, addon), addon)
    {
      hide Pruned, Run, Do, Inv, PodsRunning, Doomed, Holds, Guarded;
      ghost var start := Now();
      var running := PodsRunning(pods, addon);
      PruneStarts(start, stale, answers, addon);
      ok, held, tried := true, false, 0;
      while tried < |stale| && ok
        invariant tried <= |stale|
        invariant Now() == Pruned(start, stale, answers, tried, addon) && Inv(Now(), addon)
        invariant held <==> running && Holds(stale[..tried], answers, addon)
        invariant ok ==> objects == start.objects - Doomed(stale[..tried], running, addon)
        invariant ok ==> phase == if tried < |stale| then Pruning(stale[tried..]) else Idle
        invariant ok ==> forall i | 0 <= i < tried :: Passed(stale[i], answers[i], running, addon)
        invariant !ok ==> 0 < tried && phase.Idle? && !Passed(stale[tried - 1], answers[tried - 1], running, addon)
        decreases |stale| - tried, ok
      {
        var k, a := stale[tried], answers[tried];
        PruneOne(start, stale, answers, tried, addon);
        DoomedNext(start.objects, stale, answers, tried, running, addon);
        ghost var next := Pruned(start, stale, answers, tried + 1, addon);
        if k == PolicyKey(addon) && !a.listed {
          ok := false;
        } else if k == PolicyKey(addon) && running {
          held := true;
        } else if a.gone {
          objects := objects - {k};
        } else {
          ok := false;
        }
        retired, phase := next.retired, next.phase;
        tried := tried + 1;
      }
      assert stale[..|stale|] == stale;
      InvGuards(Now(), addon);
    }
  }

  lemma PruneStarts(w: World, stale: seq<Key>, answers: seq<PruneAnswer>, addon: string)
    requires |stale| == |answers|
    ensures Pruned(w, stale, answers, 0, addon) == w
    ensures w.objects - Doomed(stale[..0], PodsRunning(w.pods, addon), addon) == w.objects
    ensures !Holds(stale[..0], answers, addon)
  {
    assert stale[..0] == [] && answers[..0] == [];
  }

  lemma InvGuards(w: World, addon: string)
    requires Inv(w, addon)
    ensures PodsRunning(w.pods, addon) ==> PolicyStands(w.objects, addon)
  {
  }

  lemma NoEvents(w: World, addon: string)
    ensures Run(w, [], addon) == w
  {
  }
}
