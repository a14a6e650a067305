/**
 * Removing what was once applied for a platform and has left its render.
 */
module Prune {
  import opened Basics

  datatype Kind =
    | Deployment | Service | ServiceAccount | Route | Ingress | CronJob | Role | RoleBinding | Certificate
    | OtherKind(name: string)

  const PRUNE_KINDS: seq<Kind> :=
    [Deployment, Service, ServiceAccount, Route, Ingress, CronJob, Role, RoleBinding, Certificate]

  /** For this long a kind found unserved is not asked for again. */
  const UNSERVED_RECHECK: Time := 600

  const POSTGRES := "postgres"

  datatype Key = Key(kind: Kind, namespace: string, name: string)

  /** `platform` is its zaentrum.io/platform label; `keep` says it is marked to be kept. */
  datatype Object = Object(platform: string, controller: Option<nat>, deleting: bool, keep: bool)

  type Objects = map<Key, Object>

  datatype Zaentrum = Zaentrum(namespace: string, platform: string, uid: nat)

  /** What a render carries: kinds and names, in the platform's namespace or none. */
  type Render = set<(Kind, string)>

  /** How the API server answers a pass: the kinds it serves, the lists and the removals that fail. */
  datatype Api = Api(serves: set<Kind>, unlisted: set<Kind>, stuck: set<Key>)

  /** Labelled for the Zaentrum and controlled by it, in its namespace. */
  predicate Ours(z: Zaentrum, k: Key, o: Object) {
    k.namespace == z.namespace && o.platform == z.platform && o.controller == Some(z.uid)
  }

  predicate Labelled(z: Zaentrum, k: Key, o: Object) {
    k.namespace == z.namespace && o.platform == z.platform
  }

  /** What a pass is to remove. */
  predicate Stale(z: Zaentrum, k: Key, o: Object, render: Render) {
    && k.kind in PRUNE_KINDS && Ours(z, k, o) && !o.deleting && !o.keep
    && !(k.kind.Deployment? && k.name == POSTGRES)
    && (k.kind, k.name) !in render
  }

  /**
   * What a pass removes, field by field: what carries the platform's label, is in its
   * namespace and controlled by it, of a kind the operator prunes, neither on its way out
   * nor kept, neither rendered nor the bundled Postgres.
   */
  lemma StaleIff(z: Zaentrum, k: Key, o: Object, render: Render)
    ensures Stale(z, k, o, render) <==>
            && k.namespace == z.namespace && o.platform == z.platform && o.controller == Some(z.uid)
            && !k.kind.OtherKind? && !o.deleting && !o.keep && !(k.kind == Deployment && k.name == "postgres") && (k.kind, k.name) !in render
  {
    KindsPruned(k.kind);
  }

  lemma KindsPruned(kind: Kind)
    ensures kind in PRUNE_KINDS <==> !kind.OtherKind?
  {
    assert PRUNE_KINDS[0] == Deployment && PRUNE_KINDS[1] == Service && PRUNE_KINDS[2] == ServiceAccount && PRUNE_KINDS[3] == Route
        && PRUNE_KINDS[4] == Ingress && PRUNE_KINDS[5] == CronJob && PRUNE_KINDS[6] == Role && PRUNE_KINDS[7] == RoleBinding
        && PRUNE_KINDS[8] == Certificate;
  }

  predicate Renders(render: Render, kind: Kind) {
    exists r | r in render :: r.0 == kind
  }

  /** Deleted in the background: on its way out. */
  function Removed(objects: Objects, keys: set<Key>): Objects {
    map k | k in objects :: if k in keys then objects[k].(deleting := true) else objects[k]
  }

  function UnservedLately(unserved: map<Kind, Time>, kind: Kind, now: Time): bool {
    kind in unserved && now - unserved[kind] < UNSERVED_RECHECK
  }

  /** The kinds a pass lists: all but those it does not render and knows to be unserved. */
  predicate Asked(unserved: map<Kind, Time>, render: Render, kind: Kind, now: Time) {
    Renders(render, kind) || !UnservedLately(unserved, kind, now)
  }

  predicate Listed(unserved: map<Kind, Time>, render: Render, kind: Kind, now: Time, api: Api) {
    Asked(unserved, render, kind, now) && kind in api.serves && kind !in api.unlisted
  }

  /** What the pass removes. */
  function Gone(objects: Objects, unserved: map<Kind, Time>, z: Zaentrum, render: Render, now: Time, api: Api): set<Key> {
    set k | k in objects && Stale(z, k, objects[k], render) && Listed(unserved, render, k.kind, now, api) && k !in api.stuck
  }

  /** What it knows afterwards about a kind it prunes. */
  predicate Learns(unserved: map<Kind, Time>, unserved': map<Kind, Time>, render: Render, kind: Kind, now: Time, api: Api) {
    if !Asked(unserved, render, kind, now) then Same(unserved, unserved', kind)
    else if kind !in api.serves then kind in unserved' && unserved'[kind] == now
    else if kind in api.unlisted then Same(unserved, unserved', kind)
    else kind !in unserved'
  }

  predicate Same(m: map<Kind, Time>, m': map<Kind, Time>, kind: Kind) {
    (kind in m <==> kind in m') && (kind in m ==> m'[kind] == m[kind])
  }

  class Pruner {
    var objects: Objects
    var unserved: map<Kind, Time>

    constructor (objects: Objects)
      ensures this.objects == objects && unserved == map[]
    {
      this.objects, unserved := objects, map[];
    }

    /** The keys of a kind's objects labelled for the Zaentrum in its namespace, each once. */
    method List(kind: Kind, z: Zaentrum) returns (items: seq<Key>)
      ensures forall k :: k in items <==> k in objects && k.kind == kind && Labelled(z, k, objects[k])
    {
      items := [];
      var left := objects.Keys;
      while left != {}
        invariant left <= objects.Keys
        invariant forall k :: k in items <==> k in objects && k !in left && k.kind == kind && Labelled(z, k, objects[k])
        decreases |left|
      {
        var k :| k in left;
        left := left - {k};
        if k.kind == kind && Labelled(z, k, objects[k]) { items := items + [k]; }
      }
    }

    /** What a list says of the kind: remembered while the cluster does not serve it. */
    method Served(kind: Kind, yes: bool, now: Time)
      modifies this`unserved
      ensures unserved == if yes then old(unserved) - {kind} else old(unserved)[kind := now]
    {
      unserved := if yes then unserved - {kind} else unserved[kind := now];
    }

    /** Asks about one kind, unless it is known to be unserved and not rendered. */
    method Ask(kind: Kind, z: Zaentrum, render: Render, now: Time, api: Api) returns (items: seq<Key>, failed: bool)
      modifies this`unserved
      ensures forall k :: k in items <==> k in objects && k.kind == kind && Labelled(z, k, objects[k]) && Listed(old(unserved), render, kind, now, api)
      ensures Learns(old(unserved), unserved, render, kind, now, api)
      ensures forall other | other != kind :: Same(old(unserved), unserved, other)
      ensures failed <==> Asked(old(unserved), render, kind, now) && kind in api.serves && kind in api.unlisted
    {
      hide Labelled, Renders;
      items, failed := [], false;
      if !Renders(render, kind) && UnservedLately(unserved, kind, now) { return; }
      if kind !in api.serves {
        Served(kind, false, now);
      } else if kind in api.unlisted {
        failed := true;
      } else {
        Served(kind, true, now);
        items := List(kind, z);
      }
    }

    /** Lists every kind that may hold something; `errors` counts the lists that failed. */
    method Live(z: Zaentrum, render: Render, now: Time, api: Api) returns (live: seq<Key>, errors: nat)
      modifies this`unserved
      ensures forall k :: k in live <==> k in objects && k.kind in PRUNE_KINDS && Labelled(z, k, objects[k])
                                         && Listed(old(unserved), render, k.kind, now, api)
      ensures forall kind :: if kind in PRUNE_KINDS then Learns(old(unserved), unserved, render, kind, now, api) else Same(old(unserved), unserved, kind)
      ensures errors == 0 <==> forall kind | kind in PRUNE_KINDS && Asked(old(unserved), render, kind, now) && kind in api.serves :: kind !in api.unlisted
    {
      hide *;
      live, errors := [], 0;
      EachSame(unserved);
      ghost var before := unserved;
      for i := 0 to |PRUNE_KINDS|
        invariant forall k :: k in live <==> k in objects && k.kind in PRUNE_KINDS[..i] && Labelled(z, k, objects[k]) && Listed(before, render, k.kind, now, api)
        invariant forall kind | kind in PRUNE_KINDS[..i] :: Learns(before, unserved, render, kind, now, api)
        invariant forall kind | kind !in PRUNE_KINDS[..i] :: Same(before, unserved, kind)
        invariant errors == 0 <==> forall kind | kind in PRUNE_KINDS[..i] && Asked(before, render, kind, now) && kind in api.serves :: kind !in api.unlisted
      {
        var kind := PRUNE_KINDS[i];
        NextKind(i);
        ghost var now' := unserved;
        AsksTheSame(before, unserved, render, kind, now, api);
        var items, failed := Ask(kind, z, render, now, api);
        LearnsTheSame(before, now', unserved, render, kind, now, api);
        forall other | other in PRUNE_KINDS[..i]
          ensures Learns(before, unserved, render, other, now, api)
        {
          StillLearnt(before, now', unserved, render, other, now, api);
        }
        forall other | other !in PRUNE_KINDS[..i + 1]
          ensures Same(before, unserved, other)
        {
          StillSame(before, now', unserved, other);
        }
        live := live + items;
        if failed { errors := errors + 1; }
      }
      assert PRUNE_KINDS[..|PRUNE_KINDS|] == PRUNE_KINDS;
    }

    /** Those of the listed objects a pass is to remove. */
    method StaleOf(live: seq<Key>, z: Zaentrum, render: Render) returns (doomed: seq<Key>)
      ensures forall k :: k in doomed <==> k in live && k in objects && Stale(z, k, objects[k], render)
    {
      hide Stale;
      doomed := [];
      for i := 0 to |live|
        invariant forall k :: k in doomed <==> k in live[..i] && k in objects && Stale(z, k, objects[k], render)
      {
        assert live[..i + 1] == live[..i] + [live[i]];
        if live[i] in objects && Stale(z, live[i], objects[live[i]], render) { doomed := doomed + [live[i]]; }
      }
      assert live[..|live|] == live;
    }

    /**
     * Removes what is stale of what could be listed, each that can be; a list or a removal
     * that fails stops nothing else.
     */
    method Prune(z: Zaentrum, render: Render, dryRun: bool, now: Time, api: Api) returns (removed: set<Key>, errors: nat)
      modifies this
      ensures removed == Gone(old(objects), old(unserved), z, render, now, if dryRun then api.(stuck := {}) else api)
      ensures objects == if dryRun then old(objects) else Removed(old(objects), removed)
      ensures forall kind :: if kind in PRUNE_KINDS then Learns(old(unserved), unserved, render, kind, now, api) else Same(old(unserved), unserved, kind)
      ensures errors == 0 <==>
                && (forall kind | kind in PRUNE_KINDS && Asked(old(unserved), render, kind, now) && kind in api.serves :: kind !in api.unlisted)
                && (dryRun || forall k | k in old(objects) && Stale(z, k, old(objects)[k], render)
                                         && Listed(old(unserved), render, k.kind, now, api) :: k !in api.stuck)
    {
      hide Stale, Labelled, Asked, Listed, Learns;
      ghost var before, knew := objects, unserved;
      var live, failed := Live(z, render, now, api);
      ghost var knows := unserved;
      var doomed := StaleOf(live, z, render);
      removed, errors := {}, failed;
      NoneRemoved(objects);
      for i := 0 to |doomed|
        invariant forall k :: k in removed <==> k in doomed[..i] && (dryRun || k !in api.stuck)
        invariant objects == (if dryRun then before else Removed(before, removed)) && unserved == knows
        invariant errors >= failed && (errors == failed <==> dryRun || forall k | k in doomed[..i] :: k !in api.stuck)
      {
        var k := doomed[i];
        assert doomed[..i + 1] == doomed[..i] + [k];
        if dryRun {
          removed := removed + {k};
        } else if k in api.stuck {
          errors := errors + 1;
        } else {
          OneMoreRemoved(before, removed, k);
          objects := objects[k := objects[k].(deleting := true)];
          removed := removed + {k};
        }
      }
      assert doomed[..|doomed|] == doomed;
      forall k | k in before && Stale(z, k, before[k], render)
        ensures k.kind in PRUNE_KINDS && Labelled(z, k, before[k])
      {
        StaleIsLabelled(z, k, before[k], render);
      }
      ListingIgnoresStuck(knew, render, now, api);
    }
  }

  lemma NextKind(i: nat)
    requires i < |PRUNE_KINDS|
    ensures PRUNE_KINDS[..i + 1] == PRUNE_KINDS[..i] + [PRUNE_KINDS[i]]
    ensures PRUNE_KINDS[i] !in PRUNE_KINDS[..i] && PRUNE_KINDS[i] in PRUNE_KINDS
  {
  }

  lemma AsksTheSame(m: map<Kind, Time>, m': map<Kind, Time>, render: Render, kind: Kind, now: Time, api: Api)
    requires Same(m, m', kind)
    ensures Asked(m, render, kind, now) <==> Asked(m', render, kind, now)
    ensures Listed(m, render, kind, now, api) <==> Listed(m', render, kind, now, api)
  {
  }

  lemma LearnsTheSame(m: map<Kind, Time>, m': map<Kind, Time>, m'': map<Kind, Time>, render: Render, kind: Kind, now: Time, api: Api)
    requires Same(m, m', kind) && Learns(m', m'', render, kind, now, api)
    ensures Learns(m, m'', render, kind, now, api)
  {
  }

  lemma StillLearnt(m: map<Kind, Time>, m': map<Kind, Time>, m'': map<Kind, Time>, render: Render, kind: Kind, now: Time, api: Api)
    requires Learns(m, m', render, kind, now, api) && Same(m', m'', kind)
    ensures Learns(m, m'', render, kind, now, api)
  {
  }

  lemma EachSame(m: map<Kind, Time>)
    ensures forall kind :: Same(m, m, kind)
  {
  }

  lemma StillSame(m: map<Kind, Time>, m': map<Kind, Time>, m'': map<Kind, Time>, kind: Kind)
    requires Same(m, m', kind) && Same(m', m'', kind)
    ensures Same(m, m'', kind)
  {
  }

  lemma NoneRemoved(objects: Objects)
    ensures Removed(objects, {}) == objects
  {
  }

  lemma OneMoreRemoved(objects: Objects, keys: set<Key>, k: Key)
    requires k in objects
    ensures k in Removed(objects, keys)
    ensures Removed(objects, keys + {k}) == Removed(objects, keys)[k := Removed(objects, keys)[k].(deleting := true)]
  {
  }

  lemma StaleIsLabelled(z: Zaentrum, k: Key, o: Object, render: Render)
    requires Stale(z, k, o, render)
    ensures k.kind in PRUNE_KINDS && Labelled(z, k, o)
  {
  }

  lemma ListingIgnoresStuck(unserved: map<Kind, Time>, render: Render, now: Time, api: Api)
    ensures forall kind :: Listed(unserved, render, kind, now, api) <==> Listed(unserved, render, kind, now, api.(stuck := {}))
  {
  }

  // ---- what a pass leaves, and what it leaves alone ----

  ghost predicate Answers(unserved: map<Kind, Time>, render: Render, now: Time, api: Api) {
    && (forall kind | kind in PRUNE_KINDS && Asked(unserved, render, kind, now) && kind in api.serves :: kind !in api.unlisted)
    && api.stuck == {}
  }

  /** A kind remembered as unserved, or not served now, has none of the platform's objects. */
  ghost predicate Truthful(objects: Objects, unserved: map<Kind, Time>, z: Zaentrum, serves: set<Kind>) {
    forall k | k in objects && k.kind in PRUNE_KINDS && Ours(z, k, objects[k]) :: k.kind !in unserved && k.kind in serves
  }

  /** Nothing is ever removed but what is stale. */
  lemma OnlyTheStaleGo(objects: Objects, unserved: map<Kind, Time>, z: Zaentrum, render: Render, now: Time, api: Api, k: Key)
    requires k in objects
    ensures var after := Removed(objects, Gone(objects, unserved, z, render, now, api));
            k in after && (after[k] != objects[k] ==> Stale(z, k, objects[k], render) && after[k] == objects[k].(deleting := true))
  {
  }

  /**
   * A pass whose lists and removals all succeed leaves none of the platform's objects of a
   * prunable kind that the render does not carry, but those kept, the Postgres and those
   * on their way out; and another pass with the same render removes nothing.
   */
  lemma PassLeavesNothingStale(objects: Objects, unserved: map<Kind, Time>, z: Zaentrum, render: Render, now: Time, api: Api)
    requires Answers(unserved, render, now, api) && Truthful(objects, unserved, z, api.serves)
    ensures var after := Removed(objects, Gone(objects, unserved, z, render, now, api));
            && (forall k | k in after && k.kind in PRUNE_KINDS && Ours(z, k, after[k]) ::
                  (k.kind, k.name) in render || after[k].keep || after[k].deleting || (k.kind == Deployment && k.name == POSTGRES))
            && forall unserved', now', api' :: Gone(after, unserved', z, render, now', api') == {}
  {
    var gone := Gone(objects, unserved, z, render, now, api);
    var after := Removed(objects, gone);
    forall k | k in after
      ensures !Stale(z, k, after[k], render)
    {
      if k !in gone { assert after[k] == objects[k]; }
    }
  }

  /** Skipping the kinds remembered as unserved removes just what listing them would. */
  lemma SkippingIsListing(objects: Objects, unserved: map<Kind, Time>, z: Zaentrum, render: Render, now: Time, api: Api)
    requires Truthful(objects, unserved, z, api.serves)
    ensures Gone(objects, unserved, z, render, now, api) == Gone(objects, map[], z, render, now, api)
  {
  }

  /** Where a memory is wrong, a stale object is missed if and only if the memory is recent: ten minutes at the most. */
  lemma MissedIffRemembered(objects: Objects, unserved: map<Kind, Time>, z: Zaentrum, render: Render, now: Time, api: Api, k: Key)
    requires k in objects && Stale(z, k, objects[k], render) && k.kind in api.serves && k.kind !in api.unlisted && k !in api.stuck
    ensures k !in Gone(objects, unserved, z, render, now, api) <==>
            (forall name :: (k.kind, name) !in render) && k.kind in unserved && now - unserved[k.kind] < 600
  {
    assert Renders(render, k.kind) <==> exists name :: (k.kind, name) in render by {
      if r :| r in render && r.0 == k.kind { assert (k.kind, r.1) in render; }
      if name :| (k.kind, name) in render { assert (k.kind, name).0 == k.kind; }
    }
  }

  // ---- the memory over every run ----

  datatype World = World(now: Time, objects: Objects, unserved: map<Kind, Time>, serves: set<Kind>)

  /** A pass applies some of its render — all of it, if it comes to its prune. */
  datatype Event =
    | Pass(render: Render, applied: Objects, prunes: bool, unlisted: set<Kind>, stuck: set<Key>)
    | Starts(served: Kind)
    | Stops(dropped: Kind)
    | Other(key: Key, other: Option<Object>)
    | Tick(seconds: nat)

  function Forget(render: Render, unserved: map<Kind, Time>, now: Time, api: Api): map<Kind, Time> {
    var asked := set kind | kind in PRUNE_KINDS && Asked(unserved, render, kind, now);
    (map kind | kind in unserved && !(kind in asked && kind in api.serves && kind !in api.unlisted) :: unserved[kind])
    + (map kind | kind in asked && kind !in api.serves :: now)
  }

  function Do(w: World, e: Event, z: Zaentrum): World {
    match e
    case Pass(render, applied, prunes, unlisted, stuck) =>
      var api := Api(w.serves, unlisted, stuck);
      var after := w.(objects := w.objects + map k | k in applied && (k.kind, k.name) in render && k.kind in w.serves :: applied[k]);
      if !prunes then after
      else after.(objects := Removed(after.objects, Gone(after.objects, w.unserved, z, render, w.now, api)),
                  unserved := Forget(render, w.unserved, w.now, api))
    case Starts(kind) => w.(serves := w.serves + {kind})
    case Stops(kind) => w.(serves := w.serves - {kind}, objects := map k | k in w.objects && k.kind != kind :: w.objects[k])
    case Other(k, o) =>
      if o.None? then w.(objects := w.objects - {k})
      else if k.kind in w.serves && !Ours(z, k, o.value) then w.(objects := w.objects[k := o.value]) else w
    case Tick(seconds) => w.(now := w.now + seconds)
  }

  ghost function Run(w: World, events: seq<Event>, z: Zaentrum): World
    decreases |events|
  {
    if events == [] then w else Run(Do(w, events[0], z), events[1..], z)
  }

  /** What the prune remembers is what its specification says it learns. */
  lemma ForgetIsLearning(render: Render, unserved: map<Kind, Time>, now: Time, api: Api, kind: Kind)
    ensures if kind in PRUNE_KINDS then Learns(unserved, Forget(render, unserved, now, api), render, kind, now, api)
            else Same(unserved, Forget(render, unserved, now, api), kind)
  {
  }

  /** Every pass that renders a kind comes to its prune and can list that kind. */
  predicate Reaches(e: Event) {
    e.Pass? ==> e.prunes && forall kind | kind in e.unlisted :: !Renders(e.render, kind)
  }

  lemma EventKeepsTruth(w: World, e: Event, z: Zaentrum)
    requires Truthful(w.objects, w.unserved, z, w.serves) && Reaches(e)
    ensures var w' := Do(w, e, z); Truthful(w'.objects, w'.unserved, z, w'.serves)
  {
    hide PRUNE_KINDS;
    var w' := Do(w, e, z);
    if e.Pass? {
      forall k | k in w'.objects && k.kind in PRUNE_KINDS && Ours(z, k, w'.objects[k])
        ensures k.kind !in w'.unserved && k.kind in w'.serves
      {
        if k in e.applied && (k.kind, k.name) in e.render && k.kind in w.serves {
          assert Renders(e.render, k.kind);
        }
      }
    }
  }

  /**
   * While every pass that renders a kind reaches and lists it, the memory stays truthful,
   * so that no pass ever misses anything by it.
   */
  lemma {:induction false} MemoryStaysTruthful(w: World, events: seq<Event>, z: Zaentrum)
    requires Truthful(w.objects, w.unserved, z, w.serves)
    requires forall i | 0 <= i < |events| :: Reaches(events[i])
    ensures var w' := Run(w, events, z);
            && Truthful(w'.objects, w'.unserved, z, w'.serves)
            && forall render, now, unlisted, stuck ::
                 Gone(w'.objects, w'.unserved, z, render, now, Api(w'.serves, unlisted, stuck))
                 == Gone(w'.objects, map[], z, render, now, Api(w'.serves, unlisted, stuck))
    decreases |events|
  {
    hide Do, Truthful, Gone;
    if events == [] {
      forall render, now, unlisted, stuck
        ensures Gone(w.objects, w.unserved, z, render, now, Api(w.serves, unlisted, stuck))
             == Gone(w.objects, map[], z, render, now, Api(w.serves, unlisted, stuck))
      {
        SkippingIsListing(w.objects, w.unserved, z, render, now, Api(w.serves, unlisted, stuck));
      }
    } else {
      EventKeepsTruth(w, events[0], z);
      MemoryStaysTruthful(Do(w, events[0], z), events[1..], z);
    }
  }

  /**
   * How a memory becomes wrong. A pass finds the kind unserved; then the cluster serves it,
   * and a pass renders an object of it, reaching its prune or not. A pass some time later
   * that renders the object no longer leaves it if and only if that prune was not reached
   * and the ten minutes are not over.
   */
  lemma WrongMemoryIff(w: World, z: Zaentrum, k: Key, o: Object, reached: bool, seconds: nat)
    requires k.kind in PRUNE_KINDS && k.kind !in w.serves && w.unserved == map[] && k !in w.objects
    requires Stale(z, k, o, {})
    ensures var events := [Pass({}, map[], true, {}, {}), Starts(k.kind), Pass({(k.kind, k.name)}, map[k := o], reached, {}, {}),
                           Tick(seconds), Pass({}, map[], true, {}, {})];
            var w' := Run(w, events, z);
            && k in w'.objects && k.kind in w'.serves
            && (w'.objects[k] == o <==> !reached && seconds < 600)
            && (w'.objects[k] == o || w'.objects[k] == o.(deleting := true))
  {
    hide *;
    var e := [Pass({}, map[], true, {}, {}), Starts(k.kind), Pass({(k.kind, k.name)}, map[k := o], reached, {}, {}),
              Tick(seconds), Pass({}, map[], true, {}, {})];
    var w1 := Do(w, e[0], z);
    FindsUnserved(w, z, k);
    var w2 := Do(w1, e[1], z);
    Started(w1, z, k.kind);
    var w3 := Do(w2, e[2], z);
    RendersOne(w2, z, k, o, reached);
    var w4 := Do(w3, e[3], z);
    Ticked(w3, z, seconds);
    LastPass(w4, z, k, o);
    RunOf(w, e, z);
  }

  lemma FindsUnserved(w: World, z: Zaentrum, k: Key)
    requires k.kind in PRUNE_KINDS && k.kind !in w.serves && w.unserved == map[] && k !in w.objects
    ensures var w' := Do(w, Pass({}, map[], true, {}, {}), z);
            k !in w'.objects && k.kind in w'.unserved && w'.unserved[k.kind] == w.now && w'.now == w.now
  {
    hide PRUNE_KINDS;
  }

  lemma Started(w: World, z: Zaentrum, kind: Kind)
    ensures var w' := Do(w, Starts(kind), z);
            kind in w'.serves && w' == w.(serves := w'.serves)
  {
  }

  lemma Ticked(w: World, z: Zaentrum, seconds: nat)
    ensures Do(w, Tick(seconds), z) == w.(now := w.now + seconds)
  {
  }

  lemma RendersOne(w: World, z: Zaentrum, k: Key, o: Object, reached: bool)
    requires k.kind in PRUNE_KINDS && k.kind in w.serves && k.kind in w.unserved
    ensures var w' := Do(w, Pass({(k.kind, k.name)}, map[k := o], reached, {}, {}), z);
            && k in w'.objects && w'.objects[k] == o && w'.now == w.now && w'.serves == w.serves
            && (if reached then k.kind !in w'.unserved else w'.unserved == w.unserved)
  {
    hide PRUNE_KINDS, Renders;
    RendersOnly(k.kind, k.name);
  }

  lemma LastPass(w: World, z: Zaentrum, k: Key, o: Object)
    requires k in w.objects && w.objects[k] == o && Stale(z, k, o, {}) && k.kind in w.serves
    ensures var w' := Do(w, Pass({}, map[], true, {}, {}), z);
            && k in w'.objects && k.kind in w'.serves
            && (w'.objects[k] == o <==> k.kind in w.unserved && w.now - w.unserved[k.kind] < 600)
            && (w'.objects[k] == o || w'.objects[k] == o.(deleting := true))
  {
    hide PRUNE_KINDS, Renders;
    RendersOnly(k.kind, k.name);
    MissedIffRemembered(w.objects, w.unserved, z, {}, w.now, Api(w.serves, {}, {}), k);
  }

  lemma RendersOnly(kind: Kind, name: string)
    ensures Renders({(kind, name)}, kind) && forall other :: !Renders({}, other)
  {
    assert (kind, name) in {(kind, name)};
  }

  lemma RunOf(w: World, e: seq<Event>, z: Zaentrum)
    requires |e| == 5
    ensures Run(w, e, z) == Do(Do(Do(Do(Do(w, e[0], z), e[1], z), e[2], z), e[3], z), e[4], z)
  {
    hide Do;
    assert e[1..][1..] == e[2..] && e[2..][1..] == e[3..] && e[3..][1..] == e[4..] && e[4..][1..] == [];
    assert Run(w, e, z) == Run(Do(w, e[0], z), e[1..], z);
    var w1 := Do(w, e[0], z);
    assert Run(w1, e[1..], z) == Run(Do(w1, e[1], z), e[2..], z);
    var w2 := Do(w1, e[1], z);
    assert Run(w2, e[2..], z) == Run(Do(w2, e[2], z), e[3..], z);
    var w3 := Do(w2, e[2], z);
    assert Run(w3, e[3..], z) == Run(Do(w3, e[3], z), e[4..], z);
    var w4 := Do(w3, e[3], z);
    assert Run(w4, e[4..], z) == Run(Do(w4, e[4], z), [], z);
  }
}
