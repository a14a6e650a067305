/**
 * Kept values over every run: what an addon's removal has kept, nothing the operator does
 * later deletes, owns or changes, for the addon of that name or any other.
 */
module ValuesSecretsRuns {
  import opened Basics
  import opened ValuesSecrets

  /** One namespace. `others` are the uids of what is there besides addons; `used` those ever given to an addon. */
  datatype World = World(now: Time, secrets: Secrets, addons: map<string, Addon>, used: set<nat>, others: set<nat>)

  datatype Event =
    | Collects(collected: string, reached: set<string>)
    | Sweeps(swept: set<string>)
    | Adopts(adopting: string, adopted: set<string>)
    | Generates(generating: string, missing: map<string, string>)
    | Finalizes(addon: string, keepable: bool, kept: set<string>)
    | Garbage(garbage: string)
    | Creates(created: string, uid: nat, valuesFrom: set<string>)
    | Edits(edited: string, readsFrom: set<string>, keepValues: bool)
    | Comes(comes: nat)
    | Leaves(leaves: nat)
    | Meddles(meddled: string, secret: Option<Secret>)
    | Tick(seconds: nat)

  function Alive(w: World): set<nat> {
    w.others + set n | n in w.addons :: w.addons[n].uid
  }

  /** The garbage collector takes an object all of whose owners are gone. */
  predicate IsGarbage(w: World, s: Secret) {
    s.owners != [] && forall o | o in s.owners :: o.uid !in Alive(w)
  }

  /**
   * An addon being removed: its values are kept first where it asks for that and there is
   * a platform to keep them for; it goes once every one of them could be.
   */
  function Finalized(w: World, addon: string, keepable: bool, reached: set<string>): World
    requires addon in w.addons
  {
    var a := w.addons[addon];
    if !a.keepValues || !keepable then w.(addons := w.addons - {addon})
    else
      var after := w.(secrets := AllKept(w.secrets, addon, a.uid, reached));
      if forall n | n in w.secrets && Keepable(addon, n, w.secrets[n]) :: n in reached
      then after.(addons := w.addons - {addon}) else after
  }

  /** Values are stored only for keys the generated Secret lacks. */
  predicate MayStore(w: World, addon: string, missing: map<string, string>) {
    addon in w.addons && (GeneratedName(addon) in w.secrets ==> missing.Keys !! w.secrets[GeneratedName(addon)].data.Keys)
  }

  function Do(w: World, e: Event): World {
    match e
    case Collects(addon, reached) =>
      if addon in w.addons then w.(secrets := Collected(w.secrets, addon, w.addons[addon], w.now, reached)) else w
    case Sweeps(reached) => w.(secrets := Swept(w.secrets, w.addons, w.now, reached))
    case Adopts(addon, reached) =>
      if addon in w.addons then w.(secrets := AllAdopted(w.secrets, addon, w.addons[addon], reached)) else w
    case Generates(addon, missing) =>
      if MayStore(w, addon, missing) then w.(secrets := Stored(w.secrets, addon, w.addons[addon].uid, missing, w.now)) else w
    case Finalizes(addon, keepable, reached) =>
      if addon in w.addons then Finalized(w, addon, keepable, reached) else w
    case Garbage(n) =>
      if n in w.secrets && IsGarbage(w, w.secrets[n]) then w.(secrets := w.secrets - {n}) else w
    case Creates(addon, uid, valuesFrom) =>
      if addon !in w.addons && uid !in w.used && uid !in w.others
      then w.(addons := w.addons[addon := Addon(uid, valuesFrom, false)], used := w.used + {uid}) else w
    case Edits(addon, valuesFrom, keepValues) =>
      if addon in w.addons
      then w.(addons := w.addons[addon := w.addons[addon].(valuesFrom := valuesFrom, keepValues := keepValues)]) else w
    case Comes(uid) => if uid !in w.used then w.(others := w.others + {uid}) else w
    case Leaves(uid) => w.(others := w.others - {uid})
    case Meddles(n, secret) =>
      w.(secrets := if secret.Some? then w.secrets[n := secret.value] else w.secrets - {n})
    case Tick(seconds) => w.(now := w.now + seconds)
  }

  function Run(w: World, events: seq<Event>): World
    decreases |events|
  {
    if events == [] then w else Run(Do(w, events[0]), events[1..])
  }

  // ---- what is kept stays ----

  /** Kept, and owned by nothing. */
  predicate Free(w: World, n: string) {
    n in w.secrets && w.secrets[n].keep && w.secrets[n].owners == []
  }

  /** The same Secret, perhaps with values generated into it. */
  predicate Same(s: Secret, s': Secret) {
    && s'.(data := s.data) == s
    && forall k | k in s.data :: k in s'.data && s'.data[k] == s.data[k]
  }

  lemma EventKeepsFree(w: World, e: Event, n: string)
    requires Free(w, n) && !(e.Meddles? && e.meddled == n)
    ensures Free(Do(w, e), n) && Same(w.secrets[n], Do(w, e).secrets[n])
  {
    hide Without, SetOwner, RemoveOwner, Alive;
    match e
    case Finalizes(addon, keepable, reached) =>
      assert Without([], 0) == [] by { NoOwners(0); }
      if addon in w.addons { NoOwners(w.addons[addon].uid); }
    case _ =>
  }

  lemma NoOwners(uid: nat)
    ensures Without([], uid) == []
  {
  }

  /** Whatever the operator does afterwards, for whichever addons there come to be. */
  lemma {:induction false} KeptForGood(w: World, events: seq<Event>, n: string)
    requires Free(w, n)
    requires forall i | 0 <= i < |events| :: !(events[i].Meddles? && events[i].meddled == n)
    ensures Free(Run(w, events), n) && Same(w.secrets[n], Run(w, events).secrets[n])
    decreases |events|
  {
    hide Do;
    if events != [] {
      EventKeepsFree(w, events[0], n);
      KeptForGood(Do(w, events[0]), events[1..], n);
    }
  }

  // ---- what a removal keeps ----

  /** A removal that is to keep its values, with all of them reached. */
  predicate Keeps(w: World, addon: string, reached: set<string>) {
    && addon in w.addons && w.addons[addon].keepValues
    && forall n | n in w.secrets && Keepable(addon, n, w.secrets[n]) :: n in reached
  }

  /** It keeps every values Secret and the generated one; it frees those nothing else owned. */
  lemma RemovalKeeps(w: World, addon: string, reached: set<string>, n: string)
    requires Keeps(w, addon, reached) && n in w.secrets && Keepable(addon, n, w.secrets[n])
    ensures var w' := Do(w, Finalizes(addon, true, reached));
            && addon !in w'.addons && n in w'.secrets
            && w'.secrets[n] == Kept(w.secrets[n], w.addons[addon].uid)
            && (Free(w', n) <==> OwnedOnlyBy(w.secrets[n], w.addons[addon].uid))
  {
    var uid := w.addons[addon].uid;
    var owners := Without(w.secrets[n].owners, uid);
    if owners != [] { assert owners[0] in owners; }
  }

  /** Kept in one step, and for good. */
  lemma RemovalKeepsForGood(w: World, addon: string, reached: set<string>, n: string, events: seq<Event>)
    requires Keeps(w, addon, reached) && n in w.secrets && Keepable(addon, n, w.secrets[n])
    requires OwnedOnlyBy(w.secrets[n], w.addons[addon].uid)
    requires forall i | 0 <= i < |events| :: !(events[i].Meddles? && events[i].meddled == n)
    ensures var w' := Run(Do(w, Finalizes(addon, true, reached)), events);
            Free(w', n) && w'.secrets[n].labelled == addon
            && forall k | k in w.secrets[n].data :: k in w'.secrets[n].data && w'.secrets[n].data[k] == w.secrets[n].data[k]
  {
    hide Do, Run;
    RemovalKeeps(w, addon, reached, n);
    KeptForGood(Do(w, Finalizes(addon, true, reached)), events, n);
  }

  /**
   * A Secret that something else owned as well — an earlier addon of the name, which
   * adopting may not have replaced — is garbage after the removal that was to keep it, if
   * and only if none of those other owners is there any more.
   */
  lemma KeptIsGarbageIffOrphaned(w: World, addon: string, reached: set<string>, n: string)
    requires Keeps(w, addon, reached) && n in w.secrets && Keepable(addon, n, w.secrets[n])
    requires forall m | m in w.addons && m != addon :: w.addons[m].uid != w.addons[addon].uid
    ensures var w' := Do(w, Finalizes(addon, true, reached));
            var uid := w.addons[addon].uid;
            n !in Do(w', Garbage(n)).secrets <==>
              !OwnedOnlyBy(w.secrets[n], uid)
              && forall o | o in w.secrets[n].owners && o.uid != uid :: o.uid !in Alive(w)
  {
    var w' := Do(w, Finalizes(addon, true, reached));
    var uid := w.addons[addon].uid;
    RemovalKeeps(w, addon, reached, n);
    var owners := Without(w.secrets[n].owners, uid);
    assert w'.secrets[n].owners == owners;
    if owners != [] { assert owners[0] in owners; }
    AliveAfterRemoval(w, w', addon);
  }

  lemma AliveAfterRemoval(w: World, w': World, addon: string)
    requires addon in w.addons && w'.addons == w.addons - {addon} && w'.others == w.others
    ensures forall u | u != w.addons[addon].uid :: u in Alive(w') <==> u in Alive(w)
  {
    forall u | u != w.addons[addon].uid
      ensures u in Alive(w') <==> u in Alive(w)
    {
      if u in Alive(w) && u !in w.others {
        var m :| m in w.addons && w.addons[m].uid == u;
        assert m in w'.addons && w'.addons[m].uid == u;
      }
    }
  }

  /** An addon made anew under the same name generates into the Secret left behind without owning it. */
  lemma GeneratingDoesNotOwn(w: World, addon: string, missing: map<string, string>)
    requires MayStore(w, addon, missing) && GeneratedName(addon) in w.secrets
    ensures var n := GeneratedName(addon);
            var w' := Do(w, Generates(addon, missing));
            n in w'.secrets && Same(w.secrets[n], w'.secrets[n])
            && forall k | k in missing :: k in w'.secrets[n].data && w'.secrets[n].data[k] == missing[k]
  {
  }

  // ---- a generated value never changes ----

  predicate HasValue(w: World, n: string, k: string, v: string) {
    n in w.secrets && k in w.secrets[n].data && w.secrets[n].data[k] == v
  }

  /** While the Secret is there, whatever charts and values the addon comes to have. */
  lemma {:induction false} GeneratedValuesNeverChange(w: World, events: seq<Event>, n: string, k: string, v: string)
    requires HasValue(w, n, k, v)
    requires forall i | 0 <= i < |events| :: !(events[i].Meddles? && events[i].meddled == n)
    requires forall i | 0 <= i <= |events| :: n in Run(w, events[..i]).secrets
    ensures HasValue(Run(w, events), n, k, v)
    decreases |events|
  {
    hide Do;
    if events != [] {
      assert Run(w, events[..1]) == Do(w, events[0]) by { assert events[..1][1..] == []; }
      EventKeepsValue(w, events[0], n, k, v);
      forall i | 0 <= i <= |events| - 1
        ensures n in Run(Do(w, events[0]), events[1..][..i]).secrets
      {
        assert events[..i + 1][1..] == events[1..][..i];
        assert n in Run(w, events[..i + 1]).secrets;
      }
      GeneratedValuesNeverChange(Do(w, events[0]), events[1..], n, k, v);
    }
  }

  lemma EventKeepsValue(w: World, e: Event, n: string, k: string, v: string)
    requires HasValue(w, n, k, v) && !(e.Meddles? && e.meddled == n) && n in Do(w, e).secrets
    ensures HasValue(Do(w, e), n, k, v)
  {
    hide Without, SetOwner, RemoveOwner, Alive, IsValuesName;
  }

  // ---- which Secret goes, and which stays ----

  predicate Begins(name: string, prefix: string) {
    prefix <= name
  }

  /**
   * A collection deletes a Secret if and only if it gets to one that is labelled for the
   * addon and named as its values, that the addon does not read, that is not kept, has no
   * owner but the addon, and is ten minutes old; every other stays as it is.
   */
  lemma CollectedIff(secrets: Secrets, addon: string, a: Addon, now: Time, reached: set<string>, n: string)
    requires n in secrets
    ensures var s := secrets[n];
            n !in Collected(secrets, addon, a, now, reached) <==>
              && n in reached && s.labelled == addon && Begins(n, "zaentrum-addon-" + addon + "-values")
              && n != "zaentrum-addon-" + addon + "-generated" && n !in a.valuesFrom && !s.keep
              && (forall o | o in s.owners :: o.uid == a.uid) && 600 <= now - s.created
    ensures n in Collected(secrets, addon, a, now, reached) ==> Collected(secrets, addon, a, now, reached)[n] == secrets[n]
  {
  }

  /** One not yet old enough, but for that to be deleted, is due when its ten minutes are over and a second more. */
  lemma WaitIs(secrets: Secrets, addon: string, a: Addon, now: Time, n: string)
    requires n in secrets
    ensures var s, wait := secrets[n], Wait(secrets, addon, a, now, n);
            && (wait != 0 <==> now - s.created < 600 && n !in Collected(secrets, addon, a, s.created + 600, {n}))
            && (wait != 0 ==> n !in Collected(secrets, addon, a, now + wait, {n}) && wait == 601 - (now - s.created))
  {
  }

  /**
   * A sweep deletes a Secret if and only if it gets to one that is labelled for an addon
   * there is none of, named as that addon's values, not kept, without an owner that is no
   * addon, and an hour old.
   */
  lemma SweptIff(secrets: Secrets, addons: map<string, Addon>, now: Time, reached: set<string>, n: string)
    requires n in secrets
    ensures var s := secrets[n];
            n !in Swept(secrets, addons, now, reached) <==>
              && n in reached && s.labelled != "" && s.labelled !in addons && Begins(n, "zaentrum-addon-" + s.labelled + "-values")
              && !s.keep && (forall o | o in s.owners :: o.addon) && 3600 <= now - s.created
    ensures n in Swept(secrets, addons, now, reached) ==> Swept(secrets, addons, now, reached)[n] == secrets[n]
  {
  }

  /** Keeping changes the Secrets with the addon's values and its generated ones: each is marked, and owned by it no more. */
  lemma KeptIs(secrets: Secrets, addon: string, uid: nat, reached: set<string>, n: string)
    requires n in secrets
    ensures var s, after := secrets[n], AllKept(secrets, addon, uid, reached);
            && n in after
            && if n in reached && s.labelled == addon && (Begins(n, "zaentrum-addon-" + addon + "-values") || n == "zaentrum-addon-" + addon + "-generated")
               then after[n].(owners := s.owners, keep := s.keep) == s && after[n].keep
                    && forall o :: o in after[n].owners <==> o in s.owners && o.uid != uid
               else after[n] == s
  {
  }

  /** The first reference to an addon of that name. */
  predicate FirstTo(owners: seq<Owner>, addon: string, i: nat) {
    && i < |owners| && owners[i].addon && owners[i].name == addon
    && forall j | 0 <= j < i :: !(owners[j].addon && owners[j].name == addon)
  }

  lemma {:induction false} OwnersAre(owners: seq<Owner>, addon: string, uid: nat, i: nat)
    requires i <= |owners| && (i < |owners| ==> FirstTo(owners, addon, i))
    requires forall j | 0 <= j < i :: !(owners[j].addon && owners[j].name == addon)
    ensures SetOwner(owners, addon, uid) == if i < |owners| then owners[i := Owner(true, addon, uid)] else owners + [Owner(true, addon, uid)]
    ensures RemoveOwner(owners, addon) == if i < |owners| then owners[..i] + owners[i + 1..] else owners
  {
    if i > 0 {
      OwnersAre(owners[1..], addon, uid, i - 1);
      assert owners == [owners[0]] + owners[1..];
    }
  }

  /**
   * Adopting what the addon reads, labelled for it and named as its own: one that is not
   * kept and not owned by it gets a reference, in place of the first to an addon of the
   * name; one that is kept and owned loses that reference; any other stays as it is.
   */
  lemma AdoptedIs(secrets: Secrets, addon: string, a: Addon, reached: set<string>, n: string, i: nat)
    requires n in secrets && i <= |secrets[n].owners| && (i < |secrets[n].owners| ==> FirstTo(secrets[n].owners, addon, i))
    requires forall j | 0 <= j < i :: !(secrets[n].owners[j].addon && secrets[n].owners[j].name == addon)
    ensures var s, after := secrets[n], AllAdopted(secrets, addon, a, reached);
            var owned := exists o | o in s.owners :: o.uid == a.uid;
            && n in after && after[n].(owners := s.owners) == s
            && after[n].owners ==
               if !(n in reached && n in a.valuesFrom && Begins(n, "zaentrum-addon-" + addon + "-") && s.labelled == addon) then s.owners
               else if !s.keep && !owned then
                 (if i < |s.owners| then s.owners[i := Owner(true, addon, a.uid)] else s.owners + [Owner(true, addon, a.uid)])
               else if s.keep && owned && i < |s.owners| then s.owners[..i] + s.owners[i + 1..]
               else s.owners
  {
    OwnersAre(secrets[n].owners, addon, a.uid, i);
  }

  /** Storing makes the generated Secret, the addon's own and labelled for it, or adds keys; no other is touched. */
  lemma StoredIs(secrets: Secrets, addon: string, uid: nat, missing: map<string, string>, now: Time)
    ensures var n, after := "zaentrum-addon-" + addon + "-generated", Stored(secrets, addon, uid, missing, now);
            && (forall m | m in secrets && m != n :: m in after && after[m] == secrets[m]) && (forall m | m in after :: m in secrets || m == n)
            && if missing == map[] then after == secrets
               else n in after && if n in secrets then after[n] == secrets[n].(data := secrets[n].data + missing)
                                  else after[n] == Secret(addon, false, [Owner(true, addon, uid)], now, missing)
  {
  }

  /** The addon a Secret is labelled for reads it. */
  predicate Referenced(w: World, n: string, addon: string) {
    addon in w.addons && n in w.addons[addon].valuesFrom
  }

  lemma EventKeepsReferenced(w: World, e: Event, n: string)
    requires n in w.secrets && Referenced(w, n, w.secrets[n].labelled)
    requires !(e.Meddles? && e.meddled == n) && !(e.Garbage? && e.garbage == n)
    ensures var s, w' := w.secrets[n], Do(w, e);
            && n in w'.secrets && w'.secrets[n].labelled == s.labelled && w'.secrets[n].created == s.created
            && forall k | k in s.data :: k in w'.secrets[n].data && w'.secrets[n].data[k] == s.data[k]
  {
    hide Without, SetOwner, RemoveOwner, Alive, IsValuesName;
  }

  /**
   * A Secret that its addon reads throughout survives every collection and sweep, of this
   * addon and of others, with all its values, in every run in which nobody deletes or
   * rewrites it and the garbage collector, which asks for its owners alone, does not take it.
   */
  lemma {:induction false} ReferencedSurvives(w: World, events: seq<Event>, n: string)
    requires n in w.secrets && forall i | 0 <= i < |events| :: Referenced(Run(w, events[..i]), n, w.secrets[n].labelled)
    requires forall i | 0 <= i < |events| :: !(events[i].Meddles? && events[i].meddled == n) && !(events[i].Garbage? && events[i].garbage == n)
    ensures var s, w' := w.secrets[n], Run(w, events);
            && n in w'.secrets && w'.secrets[n].labelled == s.labelled
            && forall k | k in s.data :: k in w'.secrets[n].data && w'.secrets[n].data[k] == s.data[k]
    decreases |events|
  {
    hide Do, Referenced;
    if events != [] {
      var addon := w.secrets[n].labelled;
      assert Run(w, events[..0]) == w by { assert events[..0] == []; }
      assert Referenced(Run(w, events[..0]), n, addon);
      EventKeepsReferenced(w, events[0], n);
      var w1 := Do(w, events[0]);
      forall i | 0 <= i < |events| - 1
        ensures Referenced(Run(w1, events[1..][..i]), n, w1.secrets[n].labelled)
      {
        assert events[..i + 1][1..] == events[1..][..i];
        assert Referenced(Run(w, events[..i + 1]), n, addon);
      }
      ReferencedSurvives(w1, events[1..], n);
    }
  }
}
