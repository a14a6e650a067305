/**
 * The runs that configure the bundled realm: one Job at a time, begun only while no
 * verification, copy or restore is under way.
 */
module RealmRun {
  import opened Basics
  import opened Jobs

  /** The pause after a run that failed. */
  const RETRY_AFTER: Time := 600

  datatype Api = Api(listed: bool, deletable: set<Name>, creates: bool, name: Name)

  /** The Keycloak Deployment: its spec's replicas, and whether its rollout is the current one. */
  datatype Keycloak = NoKeycloak | Keycloak(desired: nat, observed: bool, updated: nat, available: nat)

  predicate KeycloakAvailable(k: Keycloak) {
    k.Keycloak? && 1 <= k.desired && k.observed && k.desired <= k.updated && k.desired <= k.available
  }

  datatype Configured = Configured(jobs: Table, soon: bool)

  datatype Verdict = Run | Rest | Busy

  /** What the latest run says about another. */
  ghost function Latest(fingerprint: string, jobs: Table, now: Time): Verdict {
    var runs := RealmRuns(jobs);
    if runs == {} then Run
    else
      var latest := jobs[Newest(jobs, runs)];
      match latest.outcome
      case Unfinished => Busy
      case Complete(_) => if latest.purpose.realmFingerprint != fingerprint then Run else Rest
      case Failed(at) =>
        if latest.purpose.realmFingerprint != fingerprint || at + RETRY_AFTER <= now then Run else Rest
  }

  /**
   * `hook` is the fingerprint of the rendered realm Job, if one is rendered; `hold` says
   * a copy or a restore keeps a run back, `verifying` that a verification run is in flight.
   */
  ghost function ConfigureRealm(hook: Option<string>, jobs: Table, keycloak: Keycloak, hold: bool,
                                verifying: bool, now: Time, api: Api): Configured {
    if hook.None? then Configured(jobs, false)
    else if !api.listed then Configured(jobs, true)
    else match Latest(hook.value, jobs, now)
      case Busy => Configured(jobs, true)
      case Rest => Configured(jobs, false)
      case Run =>
        var runs := RealmRuns(jobs);
        if !KeycloakAvailable(keycloak) then Configured(jobs, false)
        else if hold || verifying then Configured(jobs, true)
        else
          var left := Delete(jobs, runs * api.deletable);
          if !(runs <= api.deletable) || !api.creates || api.name in left then Configured(left, true)
          else Configured(left[api.name := Made(RealmJob(hook.value), now)], true)
  }
}
