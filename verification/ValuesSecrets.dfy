/**
 * The Secrets that hold an addon's values: collected, swept, adopted, generated into, and
 * kept when the addon goes.
 */
module ValuesSecrets {
  import opened Basics
  import G = Generate
  import Values

  const COLLECT_GRACE: Time := 600
  const SWEEP_GRACE: Time := 3600
  const PREFIX := "zaentrum-addon-"

  /** An owner reference: to a ZaentrumAddon, or to something else. */
  datatype Owner = Owner(addon: bool, name: string, uid: nat)

  /** `labelled` is its zaentrum.io/addon label, "" without; `keep` says zaentrum.io/keep is "true". */
  datatype Secret = Secret(labelled: string, keep: bool, owners: seq<Owner>, created: Time, data: map<string, string>)

  type Secrets = map<string, Secret>

  datatype Addon = Addon(uid: nat, valuesFrom: set<string>, keepValues: bool)

  function ObjectPrefix(addon: string): string {
    PREFIX + addon + "-"
  }

  function GeneratedName(addon: string): string {
    PREFIX + addon + "-generated"
  }

  predicate IsValuesName(addon: string, name: string) {
    PREFIX + addon + "-values" <= name
  }

  predicate OwnedOnlyBy(s: Secret, uid: nat) {
    forall o | o in s.owners :: o.uid == uid
  }

  predicate OwnedByOtherThanAddons(s: Secret) {
    exists o | o in s.owners :: !o.addon
  }

  // ---- which Secret each step is for ----

  predicate Unread(addon: string, a: Addon, name: string, s: Secret) {
    && s.labelled == addon && IsValuesName(addon, name) && name != GeneratedName(addon)
    && name !in a.valuesFrom && !s.keep && OwnedOnlyBy(s, a.uid)
  }

  predicate Collectable(addon: string, a: Addon, name: string, s: Secret, now: Time) {
    Unread(addon, a, name, s) && now - s.created >= COLLECT_GRACE
  }

  predicate Orphaned(addons: map<string, Addon>, name: string, s: Secret, now: Time) {
    && s.labelled != "" && IsValuesName(s.labelled, name) && !s.keep && s.labelled !in addons
    && now - s.created >= SWEEP_GRACE && !OwnedByOtherThanAddons(s)
  }

  predicate Keepable(addon: string, name: string, s: Secret) {
    s.labelled == addon && (IsValuesName(addon, name) || name == GeneratedName(addon))
  }

  predicate Adoptable(addon: string, a: Addon, name: string, s: Secret) {
    name in a.valuesFrom && ObjectPrefix(addon) <= name && s.labelled == addon
  }

  /** Its ownership is to change: not kept and not owned by the addon, or kept and owned. */
  predicate ToAdopt(addon: string, a: Addon, name: string, s: Secret) {
    Adoptable(addon, a, name, s) && (s.keep <==> exists o | o in s.owners :: o.uid == a.uid)
  }

  // ---- what each step does to the Secrets it reaches ----

  function Without(owners: seq<Owner>, uid: nat): (r: seq<Owner>)
    ensures forall o :: o in r <==> o in owners && o.uid != uid
  {
    if owners == [] then []
    else (if owners[0].uid != uid then [owners[0]] else []) + Without(owners[1..], uid)
  }

  /** The first reference to the addon of that name becomes one to it, or one is added. */
  function SetOwner(owners: seq<Owner>, addon: string, uid: nat): seq<Owner> {
    if owners == [] then [Owner(true, addon, uid)]
    else if owners[0].addon && owners[0].name == addon then [Owner(true, addon, uid)] + owners[1..]
    else [owners[0]] + SetOwner(owners[1..], addon, uid)
  }

  /** Without the first reference to an addon of that name. */
  function RemoveOwner(owners: seq<Owner>, addon: string): (r: seq<Owner>)
    ensures forall o | o in r :: o in owners
  {
    if owners == [] then []
    else if owners[0].addon && owners[0].name == addon then owners[1..]
    else [owners[0]] + RemoveOwner(owners[1..], addon)
  }

  function Collected(secrets: Secrets, addon: string, a: Addon, now: Time, reached: set<string>): Secrets {
    secrets - set n | n in secrets && n in reached && Collectable(addon, a, n, secrets[n], now)
  }

  function Swept(secrets: Secrets, addons: map<string, Addon>, now: Time, reached: set<string>): Secrets {
    secrets - set n | n in secrets && n in reached && Orphaned(addons, n, secrets[n], now)
  }

  function Kept(s: Secret, uid: nat): Secret {
    s.(owners := Without(s.owners, uid), keep := true)
  }

  function AllKept(secrets: Secrets, addon: string, uid: nat, reached: set<string>): Secrets {
    map n | n in secrets :: if n in reached && Keepable(addon, n, secrets[n]) then Kept(secrets[n], uid) else secrets[n]
  }

  /** An owner reference while it is not kept, and none once it is. */
  function Adopted(s: Secret, addon: string, uid: nat): Secret {
    var owned := exists o | o in s.owners :: o.uid == uid;
    if s.keep != owned then s
    else if s.keep then s.(owners := RemoveOwner(s.owners, addon))
    else s.(owners := SetOwner(s.owners, addon, uid))
  }

  function AllAdopted(secrets: Secrets, addon: string, a: Addon, reached: set<string>): Secrets {
    map n | n in secrets ::
      if n in reached && Adoptable(addon, a, n, secrets[n]) then Adopted(secrets[n], addon, a.uid) else secrets[n]
  }

  /** Missing values stored: keys added to the generated Secret, or the Secret made with them. */
  function Stored(secrets: Secrets, addon: string, uid: nat, missing: map<string, string>, now: Time): Secrets {
    var n := GeneratedName(addon);
    if missing == map[] then secrets
    else if n in secrets then secrets[n := secrets[n].(data := secrets[n].data + missing)]
    else secrets[n := Secret(addon, false, [Owner(true, addon, uid)], now, missing)]
  }

  // ---- the same steps as loops over what the API server lists ----

  /** The Secrets labelled for the addon, in the API server's order. */
  ghost predicate Lists(listing: seq<string>, secrets: Secrets, addon: string) {
    && (forall n | n in listing :: n in secrets && secrets[n].labelled == addon)
    && (forall n | n in secrets && secrets[n].labelled == addon :: n in listing)
    && (forall i, j | 0 <= i < j < |listing| :: listing[i] != listing[j])
  }

  function Sooner(a: Time, b: Time): Time {
    if a == 0 then b else if b == 0 || a < b then a else b
  }

  function Prefix(listing: seq<string>, n: nat): set<string>
    requires n <= |listing|
  {
    set i | 0 <= i < n :: listing[i]
  }

  /** How long the Secret keeps from being collected for its age alone, 0 for not at all. */
  function Wait(secrets: Secrets, addon: string, a: Addon, now: Time, n: string): Time {
    if n in secrets && Unread(addon, a, n, secrets[n]) && now - secrets[n].created < COLLECT_GRACE
    then COLLECT_GRACE - (now - secrets[n].created) + 1 else 0
  }

  function FirstDue(secrets: Secrets, addon: string, a: Addon, now: Time, listing: seq<string>): Time {
    if listing == [] then 0
    else Sooner(FirstDue(secrets, addon, a, now, listing[..|listing| - 1]), Wait(secrets, addon, a, now, listing[|listing| - 1]))
  }

  /** The soonest wait of all, and none if and only if nothing waits. */
  lemma {:induction false} FirstDueIsSoonest(secrets: Secrets, addon: string, a: Addon, now: Time, listing: seq<string>)
    ensures var due := FirstDue(secrets, addon, a, now, listing);
            && (forall n | n in listing && Wait(secrets, addon, a, now, n) != 0 :: 0 < due <= Wait(secrets, addon, a, now, n))
            && (due != 0 ==> exists n :: n in listing && due == Wait(secrets, addon, a, now, n))
  {
    if listing != [] {
      var last := |listing| - 1;
      FirstDueIsSoonest(secrets, addon, a, now, listing[..last]);
      assert listing == listing[..last] + [listing[last]];
    }
  }

  lemma CollectNext(before: Secrets, addon: string, a: Addon, now: Time, listing: seq<string>, i: nat)
    requires i < |listing| && listing[i] in before && forall j | 0 <= j < i :: listing[j] != listing[i]
    ensures var n := listing[i];
            var now' := Collected(before, addon, a, now, Prefix(listing, i));
            && n in now' && now'[n] == before[n]
            && Collected(before, addon, a, now, Prefix(listing, i + 1)) == if Collectable(addon, a, n, before[n], now) then now' - {n} else now'
  {
    hide Collectable;
    assert listing[i] !in Prefix(listing, i) && Prefix(listing, i + 1) == Prefix(listing, i) + {listing[i]};
  }

  lemma KeepNext(before: Secrets, addon: string, uid: nat, listing: seq<string>, i: nat)
    requires i < |listing| && listing[i] in before && forall j | 0 <= j < i :: listing[j] != listing[i]
    ensures var n := listing[i];
            var now' := AllKept(before, addon, uid, Prefix(listing, i));
            && n in now' && now'[n] == before[n]
            && AllKept(before, addon, uid, Prefix(listing, i + 1)) == if Keepable(addon, n, before[n]) then now'[n := Kept(before[n], uid)] else now'
  {
    hide Keepable, Kept;
    assert listing[i] !in Prefix(listing, i) && Prefix(listing, i + 1) == Prefix(listing, i) + {listing[i]};
  }

  function DataOf(secrets: Secrets, n: string): map<string, string> {
    if n in secrets then secrets[n].data else map[]
  }

  /** Storing what is missing is what a pass of generating does. */
  lemma StoresMissing(before: Secrets, addon: string, uid: nat, fields: seq<G.Field>, user: Values.Tree, missing: map<string, string>, now: Time)
    requires var existing := DataOf(before, GeneratedName(addon));
             forall p :: p in missing <==> exists i :: 0 <= i < |fields| && G.Needs(fields[i], user, existing) && fields[i].path == p
    ensures var existing, after := DataOf(before, GeneratedName(addon)), Stored(before, addon, uid, missing, now);
            && missing.Keys !! existing.Keys
            && G.Generates(fields, user, existing, DataOf(after, GeneratedName(addon)))
            && (missing == map[] ==> after == before)
  {
    hide G.Needs, GeneratedName;
    var existing := DataOf(before, GeneratedName(addon));
    forall i | 0 <= i < |fields| && G.Needs(fields[i], user, existing)
      ensures fields[i].path in missing && fields[i].path !in existing
    {
      NeedsIsMissing(fields[i], user, existing);
    }
    assert DataOf(Stored(before, addon, uid, missing, now), GeneratedName(addon)) == existing + missing;
  }

  lemma NeedsIsMissing(f: G.Field, user: Values.Tree, existing: map<string, string>)
    requires G.Needs(f, user, existing)
    ensures f.path !in existing
  {
  }

  /** Something is stored if and only if a field needs it. */
  lemma MissingIsNeeded(fields: seq<G.Field>, user: Values.Tree, existing: map<string, string>, missing: map<string, string>)
    requires forall p :: p in missing <==> exists i :: 0 <= i < |fields| && G.Needs(fields[i], user, existing) && fields[i].path == p
    ensures missing != map[] <==> exists i :: 0 <= i < |fields| && G.Needs(fields[i], user, existing)
  {
    hide G.Needs;
    if missing != map[] {
      var p :| p in missing;
    }
    if i :| 0 <= i < |fields| && G.Needs(fields[i], user, existing) {
      assert fields[i].path in missing;
    }
  }

  lemma IsStored(before: Secrets, addon: string, uid: nat, missing: map<string, string>, now: Time, after: Secrets)
    requires var n := GeneratedName(addon);
             after == if missing == map[] then before
                      else if n in before then before[n := before[n].(data := before[n].data + missing)]
                      else before[n := Secret(addon, false, [Owner(true, addon, uid)], now, missing)]
    ensures after == Stored(before, addon, uid, missing, now)
  {
  }

  lemma SweepNothing(before: Secrets, addons: map<string, Addon>, now: Time, listing: seq<string>)
    ensures Swept(before, addons, now, Prefix(listing, 0)) == before
  {
  }

  lemma SweepNext(before: Secrets, addons: map<string, Addon>, now: Time, listing: seq<string>, i: nat)
    requires i < |listing| && listing[i] in before && forall j | 0 <= j < i :: listing[j] != listing[i]
    ensures var n := listing[i];
            var now' := Swept(before, addons, now, Prefix(listing, i));
            && n in now' && now'[n] == before[n]
            && Swept(before, addons, now, Prefix(listing, i + 1)) == if Orphaned(addons, n, before[n], now) then now' - {n} else now'
  {
    hide Orphaned;
    assert listing[i] !in Prefix(listing, i) && Prefix(listing, i + 1) == Prefix(listing, i) + {listing[i]};
  }

  class Vault {
    var secrets: Secrets

    constructor (secrets: Secrets)
      ensures this.secrets == secrets
    {
      this.secrets := secrets;
    }

    /**
     * Deletes what is collectable of the addon's values Secrets, up to the first deletion
     * that fails; `again` says when the first of those too young for it comes due, 0 for none.
     */
    method CollectValuesSecrets(addon: string, a: Addon, now: Time, listing: seq<string>, failing: set<string>)
      returns (ok: bool, done: nat, again: Time)
      requires Lists(listing, secrets, addon)
      modifies this
      ensures done <= |listing| && secrets == Collected(old(secrets), addon, a, now, Prefix(listing, done))
      ensures ok ==> done == |listing|
      ensures !ok ==> done < |listing| && listing[done] in failing && Collectable(addon, a, listing[done], old(secrets)[listing[done]], now)
      ensures forall i | 0 <= i < done && Collectable(addon, a, listing[i], old(secrets)[listing[i]], now) :: listing[i] !in failing
      ensures again == FirstDue(old(secrets), addon, a, now, listing[..done])
    {
      hide Collected, Prefix, IsValuesName, OwnedOnlyBy;
      ghost var before := secrets;
      CollectNothing(before, addon, a, now, listing);
      ok, done, again := true, 0, 0;
      while done < |listing|
        invariant done <= |listing| && ok
        invariant secrets == Collected(before, addon, a, now, Prefix(listing, done))
        invariant again == FirstDue(before, addon, a, now, listing[..done])
        invariant forall i | 0 <= i < done && Collectable(addon, a, listing[i], before[listing[i]], now) :: listing[i] !in failing
      {
        var n := listing[done];
        CollectNext(before, addon, a, now, listing, done);
        assert listing[..done + 1][..done] == listing[..done];
        var s := secrets[n];
        if Unread(addon, a, n, s) {
          var age := now - s.created;
          if age < COLLECT_GRACE {
            again := Sooner(again, COLLECT_GRACE - age + 1);
          } else if n in failing {
            return false, done, again;
          } else {
            secrets := secrets - {n};
          }
        }
        done := done + 1;
      }
    }

    /** Deletes every values Secret left without an addon, up to the first deletion that fails. */
    method SweepOrphanedValues(addons: map<string, Addon>, now: Time, listing: seq<string>, failing: set<string>) returns (ok: bool, done: nat)
      requires forall i | 0 <= i < |listing| :: listing[i] in secrets
      requires forall i, j | 0 <= i < j < |listing| :: listing[i] != listing[j]
      modifies this
      ensures done <= |listing| && secrets == Swept(old(secrets), addons, now, Prefix(listing, done))
      ensures ok ==> done == |listing|
      ensures !ok ==> done < |listing| && listing[done] in failing && Orphaned(addons, listing[done], old(secrets)[listing[done]], now)
      ensures forall i | 0 <= i < done && Orphaned(addons, listing[i], old(secrets)[listing[i]], now) :: listing[i] !in failing
    {
      hide Swept, Prefix, IsValuesName;
      ghost var before := secrets;
      SweepNothing(before, addons, now, listing);
      ok, done := true, 0;
      while done < |listing|
        invariant done <= |listing| && ok
        invariant secrets == Swept(before, addons, now, Prefix(listing, done))
        invariant forall i | 0 <= i < done && Orphaned(addons, listing[i], before[listing[i]], now) :: listing[i] !in failing
      {
        var n := listing[done];
        SweepNext(before, addons, now, listing, done);
        if Orphaned(addons, n, secrets[n], now) {
          if n in failing { return false, done; }
          secrets := secrets - {n};
        }
        done := done + 1;
      }
    }

    /**
     * Stores a value for every generated field that has none, making the Secret where there
     * is none. `read` and `stored` say whether the Secret can be read and whether the API
     * server takes the write; None where something fails, and then nothing is stored.
     */
    method GeneratedValues(addon: string, uid: nat, fields: seq<G.Field>, user: Values.Tree, random: seq<Option<string>>,
                           read: bool, stored: bool, now: Time)
      returns (values: Option<map<string, string>>, ghost missing: map<string, string>)
      requires |random| == |fields|
      modifies this
      ensures values.None? <==>
                || (fields != [] && !read)
                || exists i :: 0 <= i < |fields| && G.Needs(fields[i], user, DataOf(old(secrets), GeneratedName(addon))) && (random[i].None? || !stored)
      ensures values.None? ==> secrets == old(secrets)
      ensures values.Some? ==>
                && missing.Keys !! DataOf(old(secrets), GeneratedName(addon)).Keys
                && secrets == Stored(old(secrets), addon, uid, missing, now)
                && G.Generates(fields, user, DataOf(old(secrets), GeneratedName(addon)), DataOf(secrets, GeneratedName(addon)))
                && (forall p | p in missing :: exists i :: 0 <= i < |fields| && fields[i].path == p && random[i] == Some(missing[p]))
                && (forall p :: p in values.value <==> p in DataOf(secrets, GeneratedName(addon)) && exists i :: 0 <= i < |fields| && fields[i].path == p)
                && forall p | p in values.value :: values.value[p] == DataOf(secrets, GeneratedName(addon))[p]
    {
      hide *;
      missing := map[];
      ghost var before := secrets;
      var n := GeneratedName(addon);
      var existing := DataOf(secrets, n);
      if fields == [] {
        StoresMissing(before, addon, uid, fields, user, missing, now);
        return Some(map[]), missing;
      }
      if !read { return None, missing; }
      var generated, errs := G.GenerateMissing(fields, user, existing, random);
      if generated.None? { return None, missing; }
      MissingIsNeeded(fields, user, existing, generated.value);
      if generated.value != map[] {
        if !stored { return None, missing; }
        if n in secrets {
          secrets := secrets[n := secrets[n].(data := secrets[n].data + generated.value)];
        } else {
          secrets := secrets[n := Secret(addon, false, [Owner(true, addon, uid)], now, generated.value)];
        }
      }
      missing := generated.value;
      StoresMissing(before, addon, uid, fields, user, missing, now);
      IsStored(before, addon, uid, missing, now, secrets);
      var picked := G.GeneratedValues(fields, DataOf(secrets, n));
      values := Some(picked);
    }

    /** Frees the Secrets with the addon's values of its ownership, and marks them kept. */
    method KeepValues(addon: string, uid: nat, listing: seq<string>, failing: set<string>) returns (ok: bool, done: nat)
      requires Lists(listing, secrets, addon)
      modifies this
      ensures done <= |listing| && secrets == AllKept(old(secrets), addon, uid, Prefix(listing, done))
      ensures ok ==> done == |listing| && secrets == AllKept(old(secrets), addon, uid, old(secrets).Keys)
      ensures !ok ==> done < |listing| && listing[done] in failing && Keepable(addon, listing[done], old(secrets)[listing[done]])
      ensures forall i | 0 <= i < done && Keepable(addon, listing[i], old(secrets)[listing[i]]) :: listing[i] !in failing
    {
      hide AllKept, Prefix, IsValuesName;
      ghost var before := secrets;
      KeepNothing(before, addon, uid, listing);
      ok, done := true, 0;
      while done < |listing|
        invariant done <= |listing| && ok
        invariant secrets == AllKept(before, addon, uid, Prefix(listing, done))
        invariant forall i | 0 <= i < done && Keepable(addon, listing[i], before[listing[i]]) :: listing[i] !in failing
      {
        var n := listing[done];
        KeepNext(before, addon, uid, listing, done);
        if IsValuesName(addon, n) || n == GeneratedName(addon) {
          if n in failing { return false, done; }
          secrets := secrets[n := secrets[n].(owners := Without(secrets[n].owners, uid), keep := true)];
        }
        done := done + 1;
      }
      KeepAll(before, addon, uid, listing);
    }

    /** Ties the addon's values Secrets to it, up to the first that fails; a kept one is let go. */
    method AdoptValues(addon: string, a: Addon, listing: seq<string>, failing: set<string>) returns (ok: bool, done: nat)
      requires forall i | 0 <= i < |listing| :: listing[i] in secrets
      requires forall i, j | 0 <= i < j < |listing| :: listing[i] != listing[j]
      requires forall i | 0 <= i < |listing| :: listing[i] in a.valuesFrom
      modifies this
      ensures done <= |listing| && secrets == AllAdopted(old(secrets), addon, a, Prefix(listing, done))
      ensures ok ==> done == |listing|
      ensures !ok ==> done < |listing| && listing[done] in failing && ToAdopt(addon, a, listing[done], old(secrets)[listing[done]])
      ensures forall i | 0 <= i < done && ToAdopt(addon, a, listing[i], old(secrets)[listing[i]]) :: listing[i] !in failing
    {
      hide AllAdopted, Prefix, Adoptable, ToAdopt, Adopted;
      ghost var before := secrets;
      AdoptNothing(before, addon, a, listing);
      ok, done := true, 0;
      while done < |listing|
        invariant done <= |listing| && ok
        invariant secrets == AllAdopted(before, addon, a, Prefix(listing, done))
        invariant forall i | 0 <= i < done && ToAdopt(addon, a, listing[i], before[listing[i]]) :: listing[i] !in failing
      {
        var n := listing[done];
        AdoptNext(before, addon, a, listing, done);
        var s := secrets[n];
        IsToAdopt(addon, a, n, s);
        if ObjectPrefix(addon) <= n && s.labelled == addon {
          var owned := false;
          for i := 0 to |s.owners|
            invariant owned <==> exists j :: 0 <= j < i && s.owners[j].uid == a.uid
          {
            owned := owned || s.owners[i].uid == a.uid;
          }
          if s.keep == owned {
            if n in failing { return false, done; }
            var owners := if s.keep then RemoveOwner(s.owners, addon) else SetOwner(s.owners, addon, a.uid);
            secrets := secrets[n := s.(owners := owners)];
          }
        }
        done := done + 1;
      }
    }
  }

  lemma IsToAdopt(addon: string, a: Addon, n: string, s: Secret)
    requires n in a.valuesFrom
    ensures Adoptable(addon, a, n, s) <==> ObjectPrefix(addon) <= n && s.labelled == addon
    ensures ToAdopt(addon, a, n, s) <==> Adoptable(addon, a, n, s) && (s.keep <==> exists j :: 0 <= j < |s.owners| && s.owners[j].uid == a.uid)
    ensures var owned := exists j :: 0 <= j < |s.owners| && s.owners[j].uid == a.uid;
            Adopted(s, addon, a.uid) == if s.keep != owned then s
                                        else s.(owners := if s.keep then RemoveOwner(s.owners, addon) else SetOwner(s.owners, addon, a.uid))
  {
  }

  lemma CollectNothing(before: Secrets, addon: string, a: Addon, now: Time, listing: seq<string>)
    ensures Collected(before, addon, a, now, Prefix(listing, 0)) == before
  {
  }

  lemma KeepNothing(before: Secrets, addon: string, uid: nat, listing: seq<string>)
    ensures AllKept(before, addon, uid, Prefix(listing, 0)) == before
  {
  }

  lemma AdoptNothing(before: Secrets, addon: string, a: Addon, listing: seq<string>)
    ensures AllAdopted(before, addon, a, Prefix(listing, 0)) == before
  {
  }

  lemma KeepAll(before: Secrets, addon: string, uid: nat, listing: seq<string>)
    requires Lists(listing, before, addon)
    ensures AllKept(before, addon, uid, Prefix(listing, |listing|)) == AllKept(before, addon, uid, before.Keys)
  {
    forall n | n in before && Keepable(addon, n, before[n])
      ensures n in Prefix(listing, |listing|)
    {
    }
  }

  lemma AdoptNext(before: Secrets, addon: string, a: Addon, listing: seq<string>, i: nat)
    requires i < |listing| && listing[i] in before && listing[i] in a.valuesFrom && forall j | 0 <= j < i :: listing[j] != listing[i]
    ensures var n := listing[i];
            var now' := AllAdopted(before, addon, a, Prefix(listing, i));
            && n in now' && now'[n] == before[n]
            && AllAdopted(before, addon, a, Prefix(listing, i + 1))
               == if ObjectPrefix(addon) <= n && before[n].labelled == addon then now'[n := Adopted(before[n], addon, a.uid)] else now'
  {
    hide Adopted;
    assert listing[i] !in Prefix(listing, i) && Prefix(listing, i + 1) == Prefix(listing, i) + {listing[i]};
  }
}
