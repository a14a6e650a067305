/**
 * The kill switch over an addon's pods on the VPN, through every intermediate
 * state of the addon's passes: rendered with the pods, applied before them, stopped at
 * the first error, and pruned after the last of them has stopped.
 */
module KillSwitch {
  import opened Basics
  import opened Sorting

  datatype Kind =
    | ServiceAccount | Secret | ConfigMap | PersistentVolumeClaim | Service
    | NetworkPolicy | Deployment | Job | OtherKind

  /** The order objects are applied in, and listed back in. */
  const APPLIED_KINDS: seq<Kind> :=
    [ServiceAccount, Secret, ConfigMap, PersistentVolumeClaim, Service, NetworkPolicy, Deployment, Job]

  /** What a chart may render. */
  const ALLOWED_KINDS: seq<Kind> :=
    [ServiceAccount, Secret, ConfigMap, PersistentVolumeClaim, Service, Deployment, Job]

  const LABEL_ADDON := "zaentrum.io/addon"
  const LABEL_VPN := "zaentrum.io/vpn"
  const VPN_ASSIGNED := "true"
  const RESERVED_NAME_PREFIX := "zaentrum-addon-"

  type Labels = map<string, string>

  datatype Key = Key(kind: Kind, name: string)

  /**
   * `labels` are a workload's pod template's; `selector` and `peers` a policy's; `ports` a
   * Service's. `faults` counts what the guardrails refuse of its own content: its
   * namespace, metadata, Secret type, Service, claim and pod specs.
   */
  datatype Object = Object(key: Key, labels: Labels, selector: Labels, peers: seq<string>, ports: seq<int>, faults: nat)

  predicate IsWorkload(o: Object) {
    o.key.kind == Deployment || o.key.kind == Job
  }

  predicate AssignsVPN(o: Object) {
    IsWorkload(o) && LABEL_VPN in o.labels && o.labels[LABEL_VPN] == VPN_ASSIGNED
  }

  function PolicyKey(addon: string): Key {
    Key(NetworkPolicy, RESERVED_NAME_PREFIX + addon + "-vpn")
  }

  function PodSelector(addon: string): Labels {
    map[LABEL_ADDON := addon, LABEL_VPN := VPN_ASSIGNED]
  }

  predicate Selects(selector: Labels, labels: Labels) {
    forall k | k in selector :: k in labels && labels[k] == selector[k]
  }

  /** The policy that goes with a render, if one of its workloads is on the VPN. */
  method VPNPolicy(objs: seq<Object>, addon: string, cidrs: seq<string>) returns (policy: Option<Object>)
    ensures policy == Policy(objs, addon, cidrs)
  {
    var found := false;
    for i := 0 to |objs|
      invariant found <==> exists j :: 0 <= j < i && AssignsVPN(objs[j])
    {
      found := found || AssignsVPN(objs[i]);
    }
    policy := if found then Some(Object(PolicyKey(addon), map[], PodSelector(addon), cidrs, [], 0)) else None;
  }

  ghost function Policy(objs: seq<Object>, addon: string, cidrs: seq<string>): Option<Object> {
    if exists j :: 0 <= j < |objs| && AssignsVPN(objs[j])
    then Some(Object(PolicyKey(addon), map[], PodSelector(addon), cidrs, [], 0)) else None
  }

  /**
   * The kill switch in full: it is rendered for a pod template labelled for the VPN and for
   * nothing else, under its addon's name, for its addon's pods on the VPN alone, and lets
   * them reach the cluster's networks and no other address.
   */
  lemma PolicyIs(objs: seq<Object>, addon: string, cidrs: seq<string>)
    ensures Policy(objs, addon, cidrs).Some? <==>
              exists i :: 0 <= i < |objs| && (objs[i].key.kind == Deployment || objs[i].key.kind == Job)
                          && "zaentrum.io/vpn" in objs[i].labels && objs[i].labels["zaentrum.io/vpn"] == "true"
    ensures Policy(objs, addon, cidrs).Some? ==>
              var p := Policy(objs, addon, cidrs).value;
              && p.key == Key(NetworkPolicy, "zaentrum-addon-" + addon + "-vpn") && p.peers == cidrs
              && (forall labels: Labels :: Selects(p.selector, labels) <==>
                    && "zaentrum.io/addon" in labels && labels["zaentrum.io/addon"] == addon
                    && "zaentrum.io/vpn" in labels && labels["zaentrum.io/vpn"] == "true")
  {
    if exists i :: 0 <= i < |objs| && AssignsVPN(objs[i]) {
      forall labels: Labels
        ensures Selects(PodSelector(addon), labels) <==>
                && LABEL_ADDON in labels && labels[LABEL_ADDON] == addon && LABEL_VPN in labels && labels[LABEL_VPN] == VPN_ASSIGNED
      {
        SelectorIs(addon, labels);
      }
    }
  }

  lemma SelectorIs(addon: string, labels: Labels)
    ensures Selects(PodSelector(addon), labels) <==>
            && LABEL_ADDON in labels && labels[LABEL_ADDON] == addon && LABEL_VPN in labels && labels[LABEL_VPN] == VPN_ASSIGNED
  {
    var selector := PodSelector(addon);
    assert LABEL_ADDON != LABEL_VPN by { assert LABEL_ADDON[12] != LABEL_VPN[12]; }
    assert LABEL_VPN in selector && LABEL_ADDON in selector;
    assert forall k | k in selector :: k == LABEL_VPN || k == LABEL_ADDON;
  }

  // ---- the guardrails that matter here ----

  predicate Reserved(name: string) {
    RESERVED_NAME_PREFIX <= name
  }

  /** What a render is checked against: the platform's VPN, the chart's primary Service, the values' names. */
  datatype Guard = Guard(vpn: bool, primary: string, reserved: set<Key>)

  predicate LabelRefused(o: Object, vpn: bool) {
    IsWorkload(o) && LABEL_VPN in o.labels && (o.labels[LABEL_VPN] != VPN_ASSIGNED || !vpn)
  }

  predicate Refused(o: Object, guard: Guard) {
    || o.key.kind !in ALLOWED_KINDS || o.key.name == "" || Reserved(o.key.name) || o.key in guard.reserved
    || LabelRefused(o, guard.vpn) || o.faults != 0
  }

  const WEB_PORT := 80

  /** The primary Service, where the chart names one, is rendered and serves the web. */
  ghost predicate PrimaryServes(objs: seq<Object>, primary: string) {
    primary != "" ==> exists i :: 0 <= i < |objs| && objs[i].key == Key(Service, primary) && WEB_PORT in objs[i].ports
  }

  ghost predicate EachAllowed(objs: seq<Object>, guard: Guard) {
    && (forall i | 0 <= i < |objs| :: !Refused(objs[i], guard))
    && (forall i, j | 0 <= i < j < |objs| :: objs[i].key != objs[j].key)
  }

  ghost predicate Allowed(objs: seq<Object>, guard: Guard) {
    EachAllowed(objs, guard) && PrimaryServes(objs, guard.primary)
  }

  /** A chart that names no primary Service breaks the conventions, whatever it renders. */
  ghost predicate Planned(objs: seq<Object>, guard: Guard) {
    guard.primary != "" && Allowed(objs, guard)
  }

  /** The count of refusals of a render: none if and only if it may be applied. */
  method Violations(objs: seq<Object>, guard: Guard) returns (count: nat)
    ensures count == 0 <==> Allowed(objs, guard)
  {
    count := 0;
    var seen: set<Key> := {};
    for i := 0 to |objs|
      invariant count == 0 ==> seen == set j | 0 <= j < i :: objs[j].key
      invariant count == 0 <==> EachAllowed(objs[..i], guard)
    {
      var o := objs[i];
      AllowedNext(objs, i, guard);
      if o.key.kind !in ALLOWED_KINDS || o.key.name == "" {
        count := count + 1;
      } else {
        if o.key in seen { count := count + 1; }
        seen := seen + {o.key};
        if Reserved(o.key.name) || o.key in guard.reserved { count := count + 1; }
        if LabelRefused(o, guard.vpn) { count := count + 1; }
        count := count + o.faults;
      }
    }
    assert objs[..|objs|] == objs;
    var missing := PrimaryViolations(objs, guard.primary);
    count := count + missing;
  }

  /** The first Service of that name decides. */
  method PrimaryViolations(objs: seq<Object>, primary: string) returns (count: nat)
    ensures count <= 1
    ensures count == 0 ==> PrimaryServes(objs, primary)
    ensures PrimaryServes(objs, primary) && (forall i, j | 0 <= i < j < |objs| :: objs[i].key != objs[j].key) ==> count == 0
  {
    if primary == "" { return 0; }
    for i := 0 to |objs|
      invariant forall j | 0 <= j < i :: objs[j].key != Key(Service, primary)
    {
      if objs[i].key == Key(Service, primary) {
        return if WEB_PORT in objs[i].ports then 0 else 1;
      }
    }
    count := 1;
  }

  /**
   * Which renders may be applied: every object of a kind a chart may render, under a name
   * of its own, on the VPN only by the label "true" and only where the platform has one,
   * no key twice, and the primary Service, where one is named, among them on port 80.
   */
  lemma AllowedIff(objs: seq<Object>, guard: Guard)
    ensures Allowed(objs, guard) <==>
            && (forall i | 0 <= i < |objs| ::
                  var o := objs[i];
                  && o.key.kind != NetworkPolicy && o.key.kind != OtherKind && o.key.name != "" && o.faults == 0
                  && !("zaentrum-addon-" <= o.key.name) && o.key !in guard.reserved
                  && ((o.key.kind == Deployment || o.key.kind == Job) && "zaentrum.io/vpn" in o.labels ==>
                        guard.vpn && o.labels["zaentrum.io/vpn"] == "true"))
            && (forall i, j | 0 <= i < j < |objs| :: objs[i].key != objs[j].key)
            && (guard.primary != "" ==>
                  exists i :: 0 <= i < |objs| && objs[i].key.kind == Service && objs[i].key.name == guard.primary && 80 in objs[i].ports)
  {
    forall o: Object
      ensures o.key.kind in ALLOWED_KINDS <==> o.key.kind != NetworkPolicy && o.key.kind != OtherKind
    {
      KindAllowed(o.key.kind);
    }
    assert forall o: Object :: o.key == Key(Service, guard.primary) <==> o.key.kind == Service && o.key.name == guard.primary;
  }

  lemma KindAllowed(kind: Kind)
    ensures kind in ALLOWED_KINDS <==> kind != NetworkPolicy && kind != OtherKind
  {
    assert ALLOWED_KINDS[0] == ServiceAccount && ALLOWED_KINDS[1] == Secret && ALLOWED_KINDS[2] == ConfigMap
        && ALLOWED_KINDS[3] == PersistentVolumeClaim && ALLOWED_KINDS[4] == Service && ALLOWED_KINDS[5] == Deployment
        && ALLOWED_KINDS[6] == Job;
  }

  lemma AllowedNext(objs: seq<Object>, i: nat, guard: Guard)
    requires i < |objs|
    ensures EachAllowed(objs[..i + 1], guard) <==>
            EachAllowed(objs[..i], guard) && !Refused(objs[i], guard) && forall j | 0 <= j < i :: objs[j].key != objs[i].key
  {
    assert forall j | 0 <= j < i :: objs[..i + 1][j] == objs[..i][j] == objs[j];
    assert objs[..i + 1][i] == objs[i];
  }

  /** Every applied pod template says whose addon it is, whatever the chart wrote. */
  function Decorated(o: Object, addon: string): Object {
    if IsWorkload(o) then o.(labels := o.labels[LABEL_ADDON := addon]) else o
  }

  /** Nothing else of it changes, and nothing of what is no workload. */
  lemma DecoratedIs(o: Object, addon: string)
    ensures var d := Decorated(o, addon);
            && d == o.(labels := d.labels)
            && (o.key.kind != Deployment && o.key.kind != Job ==> d == o)
            && (o.key.kind == Deployment || o.key.kind == Job ==>
                  "zaentrum.io/addon" in d.labels && d.labels["zaentrum.io/addon"] == addon)
            && forall k | k != "zaentrum.io/addon" :: (k in d.labels <==> k in o.labels) && (k in o.labels ==> d.labels[k] == o.labels[k])
  {
  }

  /** The switch selects exactly the pods of the workloads it is rendered for. */
  lemma DecorateSelects(o: Object, addon: string)
    requires IsWorkload(o)
    ensures Selects(PodSelector(addon), Decorated(o, addon).labels) <==> AssignsVPN(o)
  {
    assert LABEL_ADDON != LABEL_VPN by { assert LABEL_ADDON[12] != LABEL_VPN[12]; }
    var selector, labels := PodSelector(addon), Decorated(o, addon).labels;
    assert LABEL_VPN in selector && LABEL_ADDON in selector;
    assert forall k | k in selector :: k == LABEL_VPN || k == LABEL_ADDON;
  }

  // ---- the order of the apply ----

  function RankIn(kind: Kind, kinds: seq<Kind>): (r: nat)
    ensures r <= |kinds|
  {
    if kinds == [] || kinds[0] == kind then 0 else 1 + RankIn(kind, kinds[1..])
  }

  lemma {:induction false} RankIsFirst(kind: Kind, kinds: seq<Kind>, i: nat)
    requires i < |kinds| && kinds[i] == kind && forall j | 0 <= j < i :: kinds[j] != kind
    ensures RankIn(kind, kinds) == i
  {
    if i != 0 { RankIsFirst(kind, kinds[1..], i - 1); }
  }

  function Rank(o: Object): nat {
    RankIn(o.key.kind, APPLIED_KINDS)
  }

  function Ordered(objs: seq<Object>): seq<Object> {
    StableSort(objs, (o: Object) => Rank(o) as int)
  }

  method ApplyOrder(objs: array<Object>)
    modifies objs
    ensures objs[..] == Ordered(old(objs[..]))
  {
    StableSortInPlace(objs, (o: Object) => Rank(o) as int);
  }

  /** Accounts, Secrets, configuration, claims and Services first, then the kill switch, then the workloads. */
  lemma RankIs(o: Object)
    ensures Rank(o) == match o.key.kind
                       case ServiceAccount => 0 case Secret => 1 case ConfigMap => 2 case PersistentVolumeClaim => 3
                       case Service => 4 case NetworkPolicy => 5 case Deployment => 6 case Job => 7 case OtherKind => 8
  {
    hide RankIn;
    match o.key.kind
    case ServiceAccount => RankIsFirst(ServiceAccount, APPLIED_KINDS, 0);
    case Secret => RankIsFirst(Secret, APPLIED_KINDS, 1);
    case ConfigMap => RankIsFirst(ConfigMap, APPLIED_KINDS, 2);
    case PersistentVolumeClaim => RankIsFirst(PersistentVolumeClaim, APPLIED_KINDS, 3);
    case Service => RankIsFirst(Service, APPLIED_KINDS, 4);
    case NetworkPolicy => RankIsFirst(NetworkPolicy, APPLIED_KINDS, 5);
    case Deployment => RankIsFirst(Deployment, APPLIED_KINDS, 6);
    case Job => RankIsFirst(Job, APPLIED_KINDS, 7);
    case OtherKind => RankOfNone(OtherKind, APPLIED_KINDS);
  }

  lemma {:induction false} RankOfNone(kind: Kind, kinds: seq<Kind>)
    requires forall i | 0 <= i < |kinds| :: kinds[i] != kind
    ensures RankIn(kind, kinds) == |kinds|
  {
    if kinds != [] { RankOfNone(kind, kinds[1..]); }
  }

  lemma PolicyRanksFirst(p: Object, w: Object)
    requires p.key.kind == NetworkPolicy && IsWorkload(w)
    ensures Rank(p) < Rank(w)
  {
    RankIs(p);
    RankIs(w);
  }
}
