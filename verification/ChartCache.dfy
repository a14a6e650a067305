/**
 * The cache of fetched chart archives: by digest and by alias, bounded in bytes, the oldest
 * archives going first.
 */
module ChartCache {
  import opened Basics

  const REF_TTL: Time := 300
  const MAX_CACHED: nat := 32 * 1024 * 1024
  const MAX_ARCHIVE: nat := 10 * 1024 * 1024

  datatype Archive = Archive(data: string, digest: string)

  /** A chart reference that passed validation; an empty digest pins nothing. */
  datatype Chart = Chart(ref: string, version: string, digest: string)

  datatype Download = Failed | Got(archive: Archive, aliases: seq<string>)

  datatype Ref = Ref(digest: string, at: Time)

  function RefKey(c: Chart): string {
    if "oci://" <= c.ref then c.ref + ":" + c.version else c.ref
  }

  /** A version tells two charts of one OCI reference apart, and none of any other. */
  lemma VersionsApart(ref: string, version: string, version': string)
    ensures RefKey(Chart(ref, version, "")) == RefKey(Chart(ref, version', "")) <==> version == version' || !("oci://" <= ref)
  {
    var n := |ref| + 1;
    if "oci://" <= ref {
      assert (ref + ":" + version)[n..] == version && (ref + ":" + version')[n..] == version';
    }
  }

  /** Charts share a key if and only if they have the reference in common and, where it is OCI's, the version. */
  lemma KeysApart(c: Chart, d: Chart)
    requires ':' !in c.version && ':' !in d.version
    ensures RefKey(c) == RefKey(d) <==> c.ref == d.ref && ("oci://" <= c.ref ==> c.version == d.version)
  {
    if RefKey(c) == RefKey(d) {
      var key := RefKey(c);
      assert "oci://" <= c.ref <==> "oci://" <= key;
      assert "oci://" <= d.ref <==> "oci://" <= key;
      if "oci://" <= key {
        LastColon(c.ref, c.version, d.ref, d.version);
        LastColon(d.ref, d.version, c.ref, c.version);
        assert key[..|c.ref|] == c.ref && key[..|d.ref|] == d.ref;
        assert key[|c.ref| + 1..] == c.version && key[|d.ref| + 1..] == d.version;
      }
    }
  }

  lemma LastColon(a: string, v: string, b: string, w: string)
    requires a + ":" + v == b + ":" + w && ':' !in w
    ensures |a| <= |b|
  {
    var key := a + ":" + v;
    assert key[|a|] == ':';
    assert forall i | |b| < i < |key| :: key[i] == w[i - |b| - 1];
  }

  /** One archive in the cache, under however many keys. */
  class Cached {
    const archive: Archive
    const at: Time

    constructor (archive: Archive, at: Time)
      ensures this.archive == archive && this.at == at
    {
      this.archive, this.at := archive, at;
    }
  }

  // ---- the bytes of a set of archives ----

  ghost function Bytes(s: set<Cached>): nat {
    if s == {} then 0 else
      var e :| e in s;
      |e.archive.data| + Bytes(s - {e})
  }

  lemma {:induction false} BytesWithout(s: set<Cached>, e: Cached)
    requires e in s
    ensures Bytes(s) == |e.archive.data| + Bytes(s - {e})
    decreases |s|
  {
    var x :| x in s && Bytes(s) == |x.archive.data| + Bytes(s - {x});
    if x != e {
      BytesWithout(s - {x}, e);
      BytesWithout(s - {e}, x);
      assert s - {x} - {e} == s - {e} - {x};
    }
  }

  function Entries(archives: map<string, Cached>): set<Cached> {
    set d | d in archives :: archives[d]
  }

  function Without(archives: map<string, Cached>, e: Cached): map<string, Cached> {
    map d | d in archives && archives[d] != e :: archives[d]
  }

  function Seen(archives: map<string, Cached>, left: set<string>): set<Cached> {
    set d | d in archives && d !in left :: archives[d]
  }

  lemma SeenNothing(archives: map<string, Cached>)
    ensures Seen(archives, archives.Keys) == {} && Bytes({}) == 0
  {
  }

  lemma SeenNext(archives: map<string, Cached>, left: set<string>, d: string)
    requires d in left && d in archives
    ensures Seen(archives, left - {d}) == Seen(archives, left) + {archives[d]}
    ensures archives[d] !in Seen(archives, left) ==>
              Bytes(Seen(archives, left) + {archives[d]}) == Bytes(Seen(archives, left)) + |archives[d].archive.data|
    ensures archives[d] in Seen(archives, left) ==> Seen(archives, left) + {archives[d]} == Seen(archives, left)
  {
    hide Bytes;
    var seen, e := Seen(archives, left), archives[d];
    BytesWithout(seen + {e}, e);
    assert e !in seen ==> seen + {e} - {e} == seen;
  }

  lemma SeenAll(archives: map<string, Cached>)
    ensures Seen(archives, {}) == Entries(archives)
    ensures Entries(archives) == {} <==> archives == map[]
  {
    if archives != map[] {
      var d :| d in archives;
      assert archives[d] in Entries(archives);
    }
  }

  /** One archive under all of these keys. */
  function Put(archives: map<string, Cached>, keys: seq<string>, e: Cached): map<string, Cached> {
    map d | d in archives.Keys + (set i | 0 <= i < |keys| :: keys[i]) :: if d in keys then e else archives[d]
  }

  /**
   * What an eviction leaves: archives that fit, or one, each under all the keys it had;
   * none that went is newer than one that stayed, and the last to go did not fit with these.
   */
  ghost predicate EvictedTo(before: map<string, Cached>, after: map<string, Cached>) {
    && after.Keys <= before.Keys && (forall d | d in after :: after[d] == before[d])
    && (Bytes(Entries(after)) <= 33554432 || |Entries(after)| <= 1)
    && (forall d | d in before :: d in after <==> before[d] in Entries(after))
    && (forall gone, kept | gone in Entries(before) - Entries(after) && kept in Entries(after) :: gone.at <= kept.at)
    && (Entries(after) == {} ==> Entries(before) == {})
    && (after != before ==> exists last :: last in Entries(before) - Entries(after) && 33554432 < Bytes(Entries(after) + {last}))
  }

  lemma PutFirst(archives: map<string, Cached>, digest: string, aliases: seq<string>, e: Cached)
    ensures Put(archives, [digest] + aliases[..0], e) == archives[digest := e]
  {
    assert [digest] + aliases[..0] == [digest];
    assert [digest][0] == digest;
  }

  lemma PutNext(archives: map<string, Cached>, digest: string, aliases: seq<string>, i: nat, e: Cached)
    requires i < |aliases|
    ensures Put(archives, [digest] + aliases[..i + 1], e) == Put(archives, [digest] + aliases[..i], e)[aliases[i] := e]
  {
    var keys, keys' := [digest] + aliases[..i], [digest] + aliases[..i + 1];
    assert keys' == keys + [aliases[i]];
    assert forall j | 0 <= j < |keys| :: keys'[j] == keys[j];
    assert keys'[|keys|] == aliases[i];
  }

  lemma PutHolds(archives: map<string, Cached>, keys: seq<string>, e: Cached)
    requires keys != []
    ensures var after := Put(archives, keys, e);
            && (forall i | 0 <= i < |keys| :: keys[i] in after && after[keys[i]] == e)
            && (forall d | d in after :: (after[d] == e && d in keys) || (d in archives && after[d] == archives[d]))
            && e in Entries(after) && (forall x | x in Entries(after) && x != e :: x in Entries(archives))
  {
    var after := Put(archives, keys, e);
    assert keys[0] in after && after[keys[0]] == e;
  }

  class Fetcher {
    var archives: map<string, Cached>
    var refs: map<string, Ref>
    const ttl: Time
    /** Whether a digest is one an archive has been fetched under: its own, or its manifest's. */
    ghost const names: (string, Archive) -> bool

    constructor (ttl: Time, ghost names: (string, Archive) -> bool)
      ensures Valid() && archives == map[] && refs == map[] && this.names == names
      ensures this.ttl == if ttl > 0 then ttl else 300
    {
      this.ttl := if ttl > 0 then ttl else REF_TTL;
      this.names := names;
      archives, refs := map[], map[];
    }

    /** Every key holds an archive fetched under it, none is too large, and all of them fit. */
    ghost predicate Valid()
      reads this
    {
      && (forall d | d in archives :: names(d, archives[d].archive) && |archives[d].archive.data| <= MAX_ARCHIVE)
      && Bytes(Entries(archives)) <= MAX_CACHED
    }

    ghost predicate Before(now: Time)
      reads this
    {
      forall d | d in archives :: archives[d].at < now
    }

    method CachedDigest(digest: string) returns (a: Option<Archive>)
      ensures a == if digest in archives then Some(archives[digest].archive) else None
    {
      a := if digest in archives then Some(archives[digest].archive) else None;
    }

    /** What the key resolved to last, while that archive is cached and — unless a stale one will do — not too old. */
    method CachedRef(key: string, allowStale: bool, now: Time) returns (a: Option<Archive>)
      ensures a.Some? <==> key in refs && (allowStale || now - refs[key].at <= ttl) && refs[key].digest in archives
      ensures a.Some? ==> a.value == archives[refs[key].digest].archive
    {
      if key !in refs || (!allowStale && now - refs[key].at > ttl) { return None; }
      a := CachedDigest(refs[key].digest);
    }

    /** The distinct archives, the bytes they take, and the oldest of them. */
    method Measure() returns (total: nat, count: nat, oldest: Cached?)
      ensures total == Bytes(Entries(archives)) && count == |Entries(archives)|
      ensures oldest == null <==> archives == map[]
      ensures oldest != null ==> oldest in Entries(archives) && forall e | e in Entries(archives) :: oldest.at <= e.at
    {
      hide *;
      total, oldest := 0, null;
      var seen: set<Cached> := {};
      var left := archives.Keys;
      SeenNothing(archives);
      while left != {}
        invariant left <= archives.Keys
        invariant seen == Seen(archives, left) && total == Bytes(seen)
        invariant oldest == null <==> seen == {}
        invariant oldest != null ==> oldest in seen && forall e | e in seen :: oldest.at <= e.at
        decreases |left|
      {
        var d :| d in left;
        var e := archives[d];
        SeenNext(archives, left, d);
        left := left - {d};
        if e in seen { continue; }
        seen := seen + {e};
        total := total + |e.archive.data|;
        if oldest == null || e.at < oldest.at { oldest := e; }
      }
      SeenAll(archives);
      count := |seen|;
    }

    /**
     * Drops the oldest archives, each under all its keys, until the rest fit or one is left.
     * Nothing older than what goes stays, and no more goes than has to.
     */
    method Evict()
      modifies this`archives
      ensures EvictedTo(old(archives), archives)
    {
      hide Bytes, EvictedTo;
      ghost var before := archives;
      ghost var last: Cached? := null;
      while true
        invariant archives.Keys <= before.Keys && forall d | d in archives :: archives[d] == before[d]
        invariant forall d | d in before :: d in archives <==> before[d] in Entries(archives)
        invariant forall gone, kept | gone in Entries(before) - Entries(archives) && kept in Entries(archives) :: gone.at <= kept.at
        invariant Entries(archives) == {} ==> Entries(before) == {}
        invariant archives != before ==> last != null && last in Entries(before) - Entries(archives) && MAX_CACHED < Bytes(Entries(archives) + {last})
        decreases |Entries(archives)|
      {
        var total, count, oldest := Measure();
        if total <= MAX_CACHED || count <= 1 {
          HasEvicted(before, archives, last);
          return;
        }
        EvictOne(archives, oldest);
        last := oldest;
        archives := map d | d in archives && archives[d] != oldest :: archives[d];
      }
    }

    /**
     * Keeps the archive under its digest, its aliases and its reference, and of the others
     * only what was there. It may be evicted at once only for one that is no older: never
     * where the clock has moved on since the last store.
     */
    method Store(key: string, a: Archive, aliases: seq<string>, now: Time) returns (ghost entry: Cached)
      requires Valid() && |a.data| <= MAX_ARCHIVE
      requires names(a.digest, a) && forall i | 0 <= i < |aliases| :: names(aliases[i], a)
      modifies this
      ensures Valid() && (old(Before(now)) ==> Before(now + 1))
      ensures forall d | d in archives ::
                if d == a.digest || d in aliases then archives[d].archive == a && archives[d].at == now
                else d in old(archives) && archives[d] == old(archives)[d]
      ensures forall i | 0 <= i < |aliases| :: aliases[i] in archives <==> a.digest in archives
      ensures a.digest !in archives ==> exists d :: d in archives && now <= archives[d].at
      ensures old(Before(now)) ==> a.digest in archives
      ensures refs == old(refs)[key := Ref(a.digest, now)]
      ensures fresh(entry) && entry.archive == a && entry.at == now && EvictedTo(Put(old(archives), [a.digest] + aliases, entry), archives)
    {
      hide Bytes, Entries, Put, EvictedTo;
      ghost var before := archives;
      var e := new Cached(a, now);
      archives := archives[a.digest := e];
      PutFirst(before, a.digest, aliases, e);
      for i := 0 to |aliases|
        invariant archives == Put(before, [a.digest] + aliases[..i], e) && refs == old(refs)
      {
        PutNext(before, a.digest, aliases, i, e);
        archives := archives[aliases[i] := e];
      }
      refs := refs[key := Ref(a.digest, now)];
      assert aliases[..|aliases|] == aliases;
      entry := e;
      Evict();
      Evicts(Put(before, [a.digest] + aliases, e), archives);
      StoreLeaves(before, a.digest, aliases, e, archives);
      OneFits(archives);
    }

    /**
     * A cached archive answers for its pin with no download, for a reference while it
     * is young unless a fresh one is wanted; where the fetch of an unpinned one fails, the
     * one last fetched for it, while it is in the cache.
     */
    method Fetch(c: Chart, anew: bool, download: Download, now: Time) returns (a: Option<Archive>, asked: bool, ghost entry: Cached?)
      requires Valid()
      requires download.Got? ==>
                 && |download.archive.data| <= MAX_ARCHIVE && names(download.archive.digest, download.archive)
                 && forall i | 0 <= i < |download.aliases| :: names(download.aliases[i], download.archive)
      modifies this
      ensures Valid() && Bytes(Entries(archives)) <= 33554432 && (old(Before(now)) ==> Before(now + 1))
      ensures c.digest != "" && a.Some? ==> names(c.digest, a.value)
      ensures c.digest != "" && c.digest in old(archives) ==> !asked && a == Some(old(archives)[c.digest].archive)
      ensures c.digest == "" && !anew && RefKey(c) in old(refs) && now - old(refs)[RefKey(c)].at <= ttl && old(refs)[RefKey(c)].digest in old(archives)
              ==> !asked && a == Some(old(archives)[old(refs)[RefKey(c)].digest].archive)
      ensures asked && download.Failed? ==>
                (a.Some? <==> c.digest == "" && RefKey(c) in old(refs) && old(refs)[RefKey(c)].digest in old(archives))
      ensures asked && download.Got? ==>
                (a == Some(download.archive) <==> c.digest == "" || c.digest == download.archive.digest || c.digest in download.aliases)
      ensures c.digest == "" && a.Some? && !(asked && download.Got?) ==> RefKey(c) in old(refs) && names(old(refs)[RefKey(c)].digest, a.value)
      ensures !asked || download.Failed? || a.None? ==> archives == old(archives) && refs == old(refs)
      ensures asked && download.Got? && a.Some? ==>
                && refs == old(refs)[RefKey(c) := Ref(download.archive.digest, now)]
                && entry != null && fresh(entry) && entry.archive == download.archive && entry.at == now
                && EvictedTo(Put(old(archives), [download.archive.digest] + download.aliases, entry), archives)
    {
      hide EvictedTo;
      entry := null;
      var key := RefKey(c);
      asked := false;
      if c.digest != "" {
        a := CachedDigest(c.digest);
        if a.Some? { return; }
      } else if !anew {
        a := CachedRef(key, false, now);
        if a.Some? { return; }
      }
      asked, a := true, None;
      if download.Failed? {
        if c.digest == "" { a := CachedRef(key, true, now); }
        return;
      }
      if c.digest != "" && c.digest != download.archive.digest && c.digest !in download.aliases { return; }
      entry := Store(key, download.archive, download.aliases, now);
      a := Some(download.archive);
    }
  }

  lemma HasEvicted(before: map<string, Cached>, after: map<string, Cached>, last: Cached?)
    requires after.Keys <= before.Keys && (forall d | d in after :: after[d] == before[d])
    requires Bytes(Entries(after)) <= MAX_CACHED || |Entries(after)| <= 1
    requires forall d | d in before :: d in after <==> before[d] in Entries(after)
    requires forall gone, kept | gone in Entries(before) - Entries(after) && kept in Entries(after) :: gone.at <= kept.at
    requires Entries(after) == {} ==> Entries(before) == {}
    requires after != before ==> last != null && last in Entries(before) - Entries(after) && MAX_CACHED < Bytes(Entries(after) + {last})
    ensures EvictedTo(before, after)
  {
    hide Bytes, Entries;
  }

  lemma Evicts(before: map<string, Cached>, after: map<string, Cached>)
    requires EvictedTo(before, after)
    ensures after.Keys <= before.Keys && (forall d | d in after :: after[d] == before[d])
    ensures Bytes(Entries(after)) <= MAX_CACHED || |Entries(after)| <= 1
    ensures forall d | d in before :: d in after <==> before[d] in Entries(after)
    ensures forall gone, kept | gone in Entries(before) - Entries(after) && kept in Entries(after) :: gone.at <= kept.at
    ensures Entries(after) == {} ==> Entries(before) == {}
  {
    hide Bytes, Entries;
  }

  lemma EvictOne(archives: map<string, Cached>, oldest: Cached)
    requires oldest in Entries(archives) && MAX_CACHED < Bytes(Entries(archives))
    ensures Entries(Without(archives, oldest)) == Entries(archives) - {oldest}
    ensures Entries(Without(archives, oldest)) + {oldest} == Entries(archives)
    ensures |Entries(Without(archives, oldest))| == |Entries(archives)| - 1
  {
    hide Bytes;
    forall e | e in Entries(archives) - {oldest}
      ensures e in Entries(Without(archives, oldest))
    {
      var d :| d in archives && archives[d] == e;
      assert d in Without(archives, oldest);
    }
  }

  /** An archive is evicted only where one that is no older stays, and then under all its keys. */
  lemma NewestStays(before: map<string, Cached>, after: map<string, Cached>, e: Cached)
    requires e in Entries(before) && EvictedTo(before, after)
    ensures forall d | d in before && before[d] == e :: d in after <==> e in Entries(after)
    ensures e in Entries(after) || exists d :: d in after && after[d] != e && e.at <= after[d].at
  {
    hide Bytes;
    assert Entries(after) != {};
    var kept :| kept in Entries(after);
    var d :| d in after && after[d] == kept;
    assert e !in Entries(after) ==> after[d] != e && e.at <= after[d].at;
  }

  /** What a store leaves: the new archive under all its keys or none, and of the others only what was there. */
  lemma StoredStays(before: map<string, Cached>, keys: seq<string>, e: Cached, after: map<string, Cached>)
    requires keys != [] && EvictedTo(Put(before, keys, e), after)
    ensures forall d | d in after :: if d in keys then after[d] == e else d in before && after[d] == before[d]
    ensures forall i | 0 <= i < |keys| :: keys[i] in after <==> e in Entries(after)
    ensures e in Entries(after) || exists d :: d in after && d in before && after[d] == before[d] && e.at <= before[d].at
  {
    hide Put, EvictedTo;
    PutHolds(before, keys, e);
    Evicts(Put(before, keys, e), after);
    NewestStays(Put(before, keys, e), after, e);
  }

  lemma StoreLeaves(before: map<string, Cached>, digest: string, aliases: seq<string>, e: Cached, after: map<string, Cached>)
    requires EvictedTo(Put(before, [digest] + aliases, e), after)
    ensures forall d | d in after :: if d == digest || d in aliases then after[d] == e else d in before && after[d] == before[d]
    ensures forall i | 0 <= i < |aliases| :: aliases[i] in after <==> digest in after
    ensures digest in after || exists d :: d in after && d in before && after[d] == before[d] && e.at <= before[d].at
  {
    hide Put, Entries, EvictedTo;
    var keys := [digest] + aliases;
    StoredStays(before, keys, e, after);
    assert keys[0] == digest && forall i | 0 <= i < |aliases| :: keys[i + 1] == aliases[i];
    assert digest in after <==> e in Entries(after);
  }

  /** One archive alone fits. */
  lemma OneFits(archives: map<string, Cached>)
    requires forall d | d in archives :: |archives[d].archive.data| <= MAX_ARCHIVE
    requires Bytes(Entries(archives)) <= MAX_CACHED || |Entries(archives)| <= 1
    ensures Bytes(Entries(archives)) <= MAX_CACHED
  {
    var s := Entries(archives);
    if |s| == 1 {
      var e :| e in s;
      assert s - {e} == {} by { assert |s - {e}| == 0; }
      BytesWithout(s, e);
    }
  }
}
