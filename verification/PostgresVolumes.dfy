/**
 * The volumes of the running Postgres Deployment: where its data is, and the patch that
 * moves it.
 */
module PostgresVolumes {
  import opened Basics
  import J = Jobs

  const DATA_VOLUME := "data"

  /** A volume's sources; the API server refuses two at once, but a field manager may leave one beside another. */
  datatype Volume = Volume(name: string, emptyDir: bool, claim: Option<string>, other: bool)

  datatype Located = NoVolume | UnknownSource | At(volume: J.Volume)

  function SourceOf(v: Volume): Located {
    if v.emptyDir then At(J.EmptyDir)
    else if v.claim.Some? && v.claim.value != "" then At(J.Claim(v.claim.value))
    else UnknownSource
  }

  /** The position of the data volume, the length of the list where there is none. */
  function DataIndex(volumes: seq<Volume>): (i: nat)
    ensures i <= |volumes| && (i < |volumes| ==> volumes[i].name == DATA_VOLUME)
    ensures forall j | 0 <= j < i :: volumes[j].name != DATA_VOLUME
  {
    if volumes == [] || volumes[0].name == DATA_VOLUME then 0 else 1 + DataIndex(volumes[1..])
  }

  function Locate(volumes: seq<Volume>): Located {
    var i := DataIndex(volumes);
    if i < |volumes| then SourceOf(volumes[i]) else NoVolume
  }

  /** Where the data is: the first volume of that name decides, an emptyDir before a claim. */
  lemma LocateIs(volumes: seq<Volume>, i: nat)
    requires i < |volumes| && volumes[i].name == "data" && forall j | 0 <= j < i :: volumes[j].name != "data"
    ensures Locate(volumes) == At(J.EmptyDir) <==> volumes[i].emptyDir
    ensures forall claim :: Locate(volumes) == At(J.Claim(claim)) <==> !volumes[i].emptyDir && claim != "" && volumes[i].claim == Some(claim)
    ensures Locate(volumes) == UnknownSource <==> !volumes[i].emptyDir && (volumes[i].claim.None? || volumes[i].claim.value == "")
  {
    FirstIndex(volumes, i);
  }

  lemma LocateNone(volumes: seq<Volume>)
    ensures Locate(volumes) == NoVolume <==> forall v | v in volumes :: v.name != "data"
  {
  }

  class Deployment {
    const volumes: array<Volume>

    constructor (volumes: array<Volume>)
      ensures this.volumes == volumes
    {
      this.volumes := volumes;
    }

    /** The volume under the applied Postgres. */
    method PostgresVolume() returns (at: Located)
      ensures at == Locate(volumes[..])
    {
      for i := 0 to volumes.Length
        invariant forall j | 0 <= j < i :: volumes[j].name != DATA_VOLUME
      {
        if volumes[i].name == DATA_VOLUME {
          assert DataIndex(volumes[..]) == i by { FirstIndex(volumes[..], i); }
          return SourceOf(volumes[i]);
        }
      }
      assert DataIndex(volumes[..]) == volumes.Length by { FirstIndex(volumes[..], volumes.Length); }
      at := NoVolume;
    }

    /** Replaces the data volume, whatever its sources, by the claim; without one it fails. */
    method SwitchPostgres(claim: string) returns (ok: bool)
      requires claim != ""
      modifies volumes
      ensures ok <==> old(Locate(volumes[..])) != NoVolume
      ensures ok ==> Locate(volumes[..]) == At(J.Claim(claim))
      ensures ok ==> forall i | 0 <= i < volumes.Length && old(volumes[i]) != volumes[i] ::
                       volumes[i] == Volume("data", false, Some(claim), false)
      ensures forall i | 0 <= i < volumes.Length && i != DataIndex(old(volumes[..])) :: volumes[i] == old(volumes[i])
      ensures ok ==> DataIndex(volumes[..]) == DataIndex(old(volumes[..]))
    {
      for i := 0 to volumes.Length
        invariant forall j | 0 <= j < i :: volumes[j].name != DATA_VOLUME
        invariant volumes[..] == old(volumes[..])
      {
        var v := volumes[i];
        if v.name == DATA_VOLUME {
          FirstIndex(volumes[..], i);
          if !v.emptyDir && v.claim == Some(claim) { return true; }
          volumes[i] := Volume(DATA_VOLUME, false, Some(claim), false);
          FirstIndex(volumes[..], i);
          return true;
        }
      }
      FirstIndex(volumes[..], volumes.Length);
      ok := false;
    }
  }

  lemma {:induction false} FirstIndex(volumes: seq<Volume>, i: nat)
    requires i <= |volumes| && (i < |volumes| ==> volumes[i].name == DATA_VOLUME)
    requires forall j | 0 <= j < i :: volumes[j].name != DATA_VOLUME
    ensures DataIndex(volumes) == i
  {
    if i > 0 { FirstIndex(volumes[1..], i - 1); }
  }
}
