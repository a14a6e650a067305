/**
 * Image references and the digests they are pinned to.
 */
module ImageDigest {
  import opened Basics

  datatype Ref = Ref(registry: string, repo: string, tag: string, digest: string)

  // ---- Go's strings.Index and LastIndex, for one character ----

  function Index(s: string, c: char): (i: int)
    ensures -1 <= i < |s|
    ensures i >= 0 ==> s[i] == c && c !in s[..i]
    ensures i < 0 <==> c !in s
  {
    if s == "" then -1
    else if s[0] == c then 0
    else
      var i := Index(s[1..], c);
      assert i >= 0 ==> s[..i + 1] == [s[0]] + s[1..][..i];
      if i < 0 then -1 else i + 1
  }

  function LastIndex(s: string, c: char): (i: int)
    ensures -1 <= i < |s|
    ensures i >= 0 ==> s[i] == c && c !in s[i + 1..]
    ensures i < 0 <==> c !in s
  {
    if s == "" then -1
    else if s[|s| - 1] == c then |s| - 1
    else
      var n := |s| - 1;
      var i := LastIndex(s[..n], c);
      assert i >= 0 ==> s[i + 1..] == s[..n][i + 1..] + [s[n]];
      i
  }

  // ---- references ----

  predicate IsHost(first: string) {
    '.' in first || ':' in first || first == "localhost"
  }

  const DOCKER := "docker.io"

  /** The registry, and what follows it. */
  function SplitRegistry(rest: string): (string, string) {
    var slash := Index(rest, '/');
    if slash >= 0 && IsHost(rest[..slash]) then (rest[..slash], rest[slash + 1..]) else (DOCKER, rest)
  }

  /** The repository, and its tag: what follows the last colon, unless a slash comes after it. */
  function SplitTag(rest: string): (string, string) {
    var i := LastIndex(rest, ':');
    if i >= 0 && '/' !in rest[i..] then (rest[..i], rest[i + 1..]) else (rest, "")
  }

  function Parse(image: string): Ref {
    var at := Index(image, '@');
    var (rest, digest) := if at >= 0 then (image[..at], image[at + 1..]) else (image, "");
    var (registry, path) := SplitRegistry(rest);
    var (repo, tag) := SplitTag(path);
    Ref(registry, repo, tag, digest)
  }

  predicate Pinned(r: Ref) {
    r.digest != ""
  }

  function PinTo(r: Ref, digest: string): string {
    r.registry + "/" + r.repo + "@" + digest
  }

  /** What comes before a digest and after a registry. */
  function AfterRegistry(image: string): string {
    var at := Index(image, '@');
    SplitRegistry(if at >= 0 then image[..at] else image).1
  }

  /** Two colons in the last segment of the path. */
  predicate TwoColons(path: string) {
    exists i, j :: 0 <= i < j < |path| && path[i] == ':' && path[j] == ':' && '/' !in path[i..]
  }

  lemma DockerIsHost()
    ensures IsHost(DOCKER) && '@' !in DOCKER && '/' !in DOCKER
  {
    assert DOCKER[6] == '.';
    assert forall i | 0 <= i < |DOCKER| :: DOCKER[i] != '@' && DOCKER[i] != '/';
  }

  lemma SplitParts(rest: string)
    requires '@' !in rest
    ensures var (registry, path) := SplitRegistry(rest);
            '@' !in registry && '@' !in path && '/' !in registry && IsHost(registry)
    ensures '@' !in SplitTag(rest).0
  {
    hide Index, LastIndex, DOCKER, IsHost;
    DockerIsHost();
  }

  lemma ParsedParts(image: string)
    ensures var r := Parse(image);
            '@' !in r.registry && '@' !in r.repo && '/' !in r.registry && IsHost(r.registry)
  {
    hide Index, IsHost, SplitRegistry, SplitTag;
    var at := Index(image, '@');
    var rest := if at >= 0 then image[..at] else image;
    SplitParts(rest);
    SplitParts(SplitRegistry(rest).1);
  }

  /** The part before a character it does not hold. */
  lemma {:induction false} IndexOf(a: string, c: char, b: string)
    requires c !in a
    ensures Index(a + [c] + b, c) == |a|
  {
    if a == "" {
      assert a + [c] + b == [c] + b;
    } else {
      IndexOf(a[1..], c, b);
      assert (a + [c] + b)[1..] == a[1..] + [c] + b;
    }
  }

  /** The tag of a path without two colons leaves nothing that looks like another, and the tag of one with them does. */
  lemma SecondTag(path: string)
    ensures SplitTag(SplitTag(path).0).0 != SplitTag(path).0 <==> TwoColons(path)
  {
    hide LastIndex;
    var i := LastIndex(path, ':');
    if i >= 0 && '/' !in path[i..] {
      var repo := path[..i];
      var k := LastIndex(repo, ':');
      if k >= 0 && '/' !in repo[k..] {
        assert path[k..] == repo[k..] + path[i..];
        assert path[k] == ':' && path[i] == ':';
      }
      if TwoColons(path) {
        SecondOfTwo(path, i, k);
      }
    } else {
      OneOfTwo(path, i);
    }
  }

  lemma NoneAfter(s: string, c: char, i: int)
    requires -1 <= i < |s| && c !in s[i + 1..]
    ensures forall j | i < j < |s| :: s[j] != c
  {
    forall j | i < j < |s|
      ensures s[j] != c
    {
      assert s[j] == s[i + 1..][j - i - 1];
    }
  }

  lemma SecondOfTwo(path: string, i: int, k: int)
    requires TwoColons(path) && 0 <= i < |path| && ':' !in path[i + 1..]
    requires k == LastIndex(path[..i], ':')
    ensures k >= 0 && '/' !in path[..i][k..]
  {
    hide LastIndex;
    var m, j :| 0 <= m < j < |path| && path[m] == ':' && path[j] == ':' && '/' !in path[m..];
    NoneAfter(path, ':', i);
    assert path[..i][m] == ':';
    NoneAfter(path[..i], ':', k);
    forall x | k <= x < i
      ensures path[x] != '/'
    {
      assert path[m..][x - m] == path[x];
    }
  }

  lemma OneOfTwo(path: string, i: int)
    requires i == LastIndex(path, ':') && !(i >= 0 && '/' !in path[i..])
    ensures !TwoColons(path)
  {
    hide LastIndex;
    if i >= 0 { NoneAfter(path, ':', i); }
    forall m, j | 0 <= m < j < |path| && path[m] == ':' && path[j] == ':'
      ensures '/' in path[m..]
    {
      assert path[i..] == path[m..][i - m..];
    }
  }

  /**
   * A pin reads back as the digest, the registry and the repository it was made of — but
   * for an image with two colons in its last segment, and only that.
   */
  lemma PinKeepsReference(image: string, digest: string)
    ensures var r, p := Parse(image), Parse(PinTo(Parse(image), digest));
            && p.registry == r.registry && p.digest == digest && p.repo == SplitTag(r.repo).0
            && (p.repo == r.repo <==> !TwoColons(AfterRegistry(image)))
  {
    hide Index, IsHost, SplitTag, TwoColons;
    SecondTag(AfterRegistry(image));
    var r := Parse(image);
    ParsedParts(image);
    var rest := r.registry + "/" + r.repo;
    IndexOf(rest, '@', digest);
    assert PinTo(r, digest) == rest + ['@'] + digest;
    assert PinTo(r, digest)[..|rest|] == rest && PinTo(r, digest)[|rest| + 1..] == digest;
    IndexOf(r.registry, '/', r.repo);
    assert rest == r.registry + ['/'] + r.repo;
    assert rest[..|r.registry|] == r.registry && rest[|r.registry| + 1..] == r.repo;
  }

  /** With one colon at the most after the registry a pin keeps the repository. */
  lemma OneColonKeepsRepository(image: string, digest: string)
    requires forall i, j | 0 <= i < j < |AfterRegistry(image)| :: !(AfterRegistry(image)[i] == ':' && AfterRegistry(image)[j] == ':')
    ensures Parse(PinTo(Parse(image), digest)).repo == Parse(image).repo
  {
    hide Parse, AfterRegistry;
    PinKeepsReference(image, digest);
  }

  lemma ParseOf(registry: string, path: string)
    requires '@' !in registry && '@' !in path && '/' !in registry && IsHost(registry)
    ensures var image := registry + "/" + path;
            AfterRegistry(image) == path && Parse(image).registry == registry && Parse(image).repo == SplitTag(path).0
  {
    hide Index, SplitTag, IsHost;
    var image := registry + "/" + path;
    assert image == registry + ['/'] + path;
    IndexOf(registry, '/', path);
    assert image[..|registry|] == registry && image[|registry| + 1..] == path;
  }

  lemma SplitTagOf(repo: string, tag: string)
    requires ':' !in tag && '/' !in tag
    ensures SplitTag(repo + ":" + tag) == (repo, tag)
  {
    hide LastIndex;
    var path := repo + ":" + tag;
    assert path[|repo|..] == ":" + tag && path[|repo| + 1..] == tag;
    assert path[|repo|] == ':' && path[..|repo|] == repo;
    var i := LastIndex(path, ':');
    NoneAfter(path, ':', |repo|);
    if i >= 0 { NoneAfter(path, ':', i); }
    assert i == |repo| && '/' !in ":" + tag;
  }

  /** A reference written out; an empty host, tag or digest is left out. */
  function Written(host: string, repo: string, tag: string, digest: string): string {
    (if host == "" then "" else host + "/") + repo + (if tag == "" then "" else ":" + tag) + (if digest == "" then "" else "@" + digest)
  }

  /**
   * A reference reads back as what it was written from, under docker.io where it names no
   * registry: a first segment is one if and only if there is a dot or a colon in it, or it
   * reads "localhost".
   */
  lemma ReadsBack(host: string, repo: string, tag: string, digest: string)
    requires host != "" ==> ('.' in host || ':' in host || host == "localhost") && '/' !in host && '@' !in host
    requires host == "" ==> forall n | 0 <= n < |repo| && repo[n] == '/' && '/' !in repo[..n] ::
                              '.' !in repo[..n] && repo[..n] != "localhost"
    requires '@' !in repo && ':' !in repo && '@' !in tag && '/' !in tag && ':' !in tag
    ensures Parse(Written(host, repo, tag, digest)) == Ref(if host == "" then "docker.io" else host, repo, tag, digest)
  {
    hide *;
    var path := if tag == "" then repo else repo + ":" + tag;
    var rest := if host == "" then path else host + "/" + path;
    if tag == "" { UntaggedOf(repo); } else { SplitTagOf(repo, tag); }
    SplitRegistryOf(host, repo, tag);
    WrittenWhole(host, repo, tag, digest);
    ParseWhole(rest, digest);
  }

  lemma WrittenWhole(host: string, repo: string, tag: string, digest: string)
    ensures var path := if tag == "" then repo else repo + ":" + tag;
            var rest := if host == "" then path else host + "/" + path;
            && Written(host, repo, tag, digest) == rest + (if digest == "" then "" else "@" + digest)
            && ('@' in rest ==> '@' in host || '@' in repo || '@' in tag)
  {
    if host == "" {
      assert "" + repo == repo;
    } else {
      assert host + "/" + repo + ":" + tag == host + "/" + (repo + ":" + tag);
    }
  }

  lemma ParseWhole(rest: string, digest: string)
    requires '@' !in rest
    ensures var (registry, path) := SplitRegistry(rest);
            var (repo, tag) := SplitTag(path);
            Parse(rest + (if digest == "" then "" else "@" + digest)) == Ref(registry, repo, tag, digest)
  {
    hide Index, SplitRegistry, SplitTag;
    if digest == "" {
      assert rest + "" == rest;
    } else {
      var image := rest + ['@'] + digest;
      assert rest + "@" + digest == image && rest + ("@" + digest) == image;
      IndexOf(rest, '@', digest);
      assert image[..|rest|] == rest && image[|rest| + 1..] == digest;
    }
  }

  lemma UntaggedOf(repo: string)
    requires ':' !in repo
    ensures SplitTag(repo) == (repo, "")
  {
  }

  lemma SplitRegistryOf(host: string, repo: string, tag: string)
    requires host != "" ==> ('.' in host || ':' in host || host == "localhost") && '/' !in host
    requires host == "" ==> forall n | 0 <= n < |repo| && repo[n] == '/' && '/' !in repo[..n] ::
                              '.' !in repo[..n] && repo[..n] != "localhost"
    requires ':' !in repo && '/' !in tag
    ensures var path := if tag == "" then repo else repo + ":" + tag;
            SplitRegistry(if host == "" then path else host + "/" + path) == (if host == "" then "docker.io" else host, path)
  {
    hide SplitRegistry;
    var path := if tag == "" then repo else repo + ":" + tag;
    if host == "" {
      FirstSegment(repo, tag);
      NoHostNamed(path);
    } else {
      HostNamed(host, path);
    }
  }

  lemma HostNamed(host: string, path: string)
    requires IsHost(host) && '/' !in host
    ensures SplitRegistry(host + "/" + path) == (host, path)
  {
    hide Index, IsHost;
    var rest := host + ['/'] + path;
    assert host + "/" + path == rest;
    IndexOf(host, '/', path);
    assert rest[..|host|] == host && rest[|host| + 1..] == path;
  }

  lemma NoHostNamed(path: string)
    requires Index(path, '/') >= 0 ==> !IsHost(path[..Index(path, '/')])
    ensures SplitRegistry(path) == ("docker.io", path)
  {
    hide Index, IsHost;
  }

  /** The first segment of a path is its repository's, and no host where that is none. */
  lemma FirstSegment(repo: string, tag: string)
    requires forall n | 0 <= n < |repo| && repo[n] == '/' && '/' !in repo[..n] :: '.' !in repo[..n] && repo[..n] != "localhost"
    requires ':' !in repo && '/' !in tag
    ensures var path := if tag == "" then repo else repo + ":" + tag;
            var n := Index(path, '/');
            n >= 0 ==> !IsHost(path[..n])
  {
    hide Index;
    var path := if tag == "" then repo else repo + ":" + tag;
    var n := Index(path, '/');
    if n >= 0 {
      InRepo(repo, tag, n);
      assert path[..n] == repo[..n] && repo[n] == '/';
    }
  }

  lemma InRepo(repo: string, tag: string, n: nat)
    requires '/' !in tag
    requires var path := if tag == "" then repo else repo + ":" + tag; n < |path| && path[n] == '/'
    ensures n < |repo|
  {
    var path := if tag == "" then repo else repo + ":" + tag;
    assert forall k | |repo| < k < |path| :: path[k] == tag[k - |repo| - 1];
  }

  /** The inputs that fail: pinned, an image with two tags loses the first from its repository. */
  lemma TwoTagsLoseTheFirst(registry: string, repo: string, first: string, second: string, digest: string)
    requires '@' !in registry && '/' !in registry && IsHost(registry) && '@' !in repo
    requires forall c | c in ['@', '/', ':'] :: c !in first && c !in second
    ensures var image := registry + "/" + (repo + ":" + first + ":" + second);
            && TwoColons(AfterRegistry(image))
            && Parse(image).repo == repo + ":" + first
            && Parse(PinTo(Parse(image), digest)).repo == repo
  {
    hide Parse, SplitTag, AfterRegistry, IsHost, LastIndex, Index;
    assert '@' in ['@', '/', ':'] && '/' in ['@', '/', ':'] && ':' in ['@', '/', ':'];
    var path := repo + ":" + first + ":" + second;
    ParseOf(registry, path);
    SplitTagOf(repo + ":" + first, second);
    SplitTagOf(repo, first);
    PinKeepsReference(registry + "/" + path, digest);
    assert |repo| != |repo + ":" + first|;
  }

  lemma PinIsPinned(image: string, digest: string)
    requires digest != ""
    ensures Pinned(Parse(PinTo(Parse(image), digest)))
  {
    hide Parse, PinTo, AfterRegistry, TwoColons, SplitTag;
    PinKeepsReference(image, digest);
  }

  /** The platform's own images. */
  predicate ZaentrumImage(r: Ref) {
    r.registry == "ghcr.io" && "zaentrum/" <= r.repo
  }

  /** The platform's own images are those whose reference begins like this. */
  lemma ZaentrumImageIff(image: string)
    ensures ZaentrumImage(Parse(image)) <==> "ghcr.io/zaentrum/" <= (if '@' in image then image[..Index(image, '@')] else image)
  {
    hide Index, SplitTag, SplitRegistry;
    var at := Index(image, '@');
    var rest := if at >= 0 then image[..at] else image;
    RegistryIff(rest);
    var path := SplitRegistry(rest).1;
    if "zaentrum/" <= path {
      assert path[8] == '/';
      TagAfterSlash(path, 8);
    }
    TagAfterAll(path);
  }

  lemma RegistryIff(rest: string)
    ensures var (registry, path) := SplitRegistry(rest);
            "ghcr.io/zaentrum/" <= rest <==> registry == "ghcr.io" && "zaentrum/" <= path
  {
    hide SplitRegistry;
    if "ghcr.io/zaentrum/" <= rest { RegistryOfOurs(rest); }
    RegistryBefore(rest);
  }

  lemma RegistryOfOurs(rest: string)
    requires "ghcr.io/zaentrum/" <= rest
    ensures SplitRegistry(rest) == ("ghcr.io", rest[8..]) && "zaentrum/" <= rest[8..]
  {
    hide Index;
    assert rest == "ghcr.io" + ['/'] + rest[8..];
    assert '/' !in "ghcr.io" && "ghcr.io"[4] == '.';
    IndexOf("ghcr.io", '/', rest[8..]);
    assert rest[..7] == "ghcr.io";
  }

  lemma RegistryBefore(rest: string)
    ensures SplitRegistry(rest).0 == DOCKER || rest == SplitRegistry(rest).0 + "/" + SplitRegistry(rest).1
    ensures "ghcr.io" != DOCKER && forall path: string | "zaentrum/" <= path :: "ghcr.io/zaentrum/" <= "ghcr.io" + "/" + path
  {
    hide Index;
    assert "ghcr.io" + "/" + "zaentrum/" == "ghcr.io/zaentrum/";
    forall path: string | "zaentrum/" <= path
      ensures "ghcr.io/zaentrum/" <= "ghcr.io" + "/" + path
    {
      assert path == "zaentrum/" + path[9..];
      assert "ghcr.io" + "/" + path == "ghcr.io/zaentrum/" + path[9..];
    }
  }

  lemma TagAfterAll(path: string)
    ensures SplitTag(path).0 <= path
  {
    hide LastIndex;
  }

  /** A slash is never part of a tag. */
  lemma TagAfterSlash(path: string, n: nat)
    requires n < |path| && path[n] == '/'
    ensures SplitTag(path).0 <= path && n < |SplitTag(path).0|
  {
    hide LastIndex;
    var i := LastIndex(path, ':');
    assert 0 <= i <= n ==> path[i..][n - i] == '/';
  }

  /** What is pinned of the platform's images is one of them still. */
  lemma PinIsStillOurs(image: string, digest: string)
    requires ZaentrumImage(Parse(image))
    ensures ZaentrumImage(Parse(PinTo(Parse(image), digest)))
  {
    hide Parse;
    PinKeepsReference(image, digest);
    var repo := Parse(image).repo;
    var i := LastIndex(repo, ':');
    if i >= 0 && '/' !in repo[i..] {
      assert repo[8] == '/';
      forall k | i <= k < |repo|
        ensures repo[k] != '/'
      {
        assert repo[k] == repo[i..][k - i];
      }
      assert "zaentrum/" <= repo[..i];
    }
  }

  // ---- the resolver ----

  const TTL: Time := 60

  datatype Entry = Entry(pin: string, at: Time)

  type Cache = map<string, Entry>

  /** How the registry answers this pass: an image's digest, or nothing where it cannot be asked. */
  type Registry = string -> Option<string>

  predicate Answers(registry: Registry, image: string) {
    registry(image).Some? ==> registry(image).value != ""
  }

  function Cached(cache: Cache, image: string, allowStale: bool, now: Time): Option<string> {
    if image in cache && (allowStale || now - cache[image].at <= TTL) then Some(cache[image].pin) else None
  }

  /** Whether the registry is asked, and answers. */
  predicate LooksUp(cache: Cache, image: string, registry: Registry, now: Time) {
    !Pinned(Parse(image)) && Cached(cache, image, false, now).None? && registry(image).Some?
  }

  function Resolution(cache: Cache, image: string, registry: Registry, now: Time): Option<string> {
    if Pinned(Parse(image)) then Some(image)
    else if LooksUp(cache, image, registry, now) then Some(PinTo(Parse(image), registry(image).value))
    else Cached(cache, image, true, now)
  }

  predicate Wanted(image: string, matches: Ref -> bool) {
    image != "" && !Pinned(Parse(image)) && matches(Parse(image))
  }

  /** What an image field holds after a pass. */
  function PinOf(cache: Cache, image: string, matches: Ref -> bool, registry: Registry, now: Time): string {
    var r := Resolution(cache, image, registry, now);
    if Wanted(image, matches) && r.Some? then r.value else image
  }

  /**
   * The registry is asked for an image without a digest that no lookup of the last minute
   * has answered for; what it answers is the pin, and where it does not, the last pin there
   * has been.
   */
  lemma ResolutionIs(cache: Cache, image: string, registry: Registry, now: Time)
    ensures var r := Parse(image);
            var young := image in cache && now - cache[image].at <= 60;
            && (LooksUp(cache, image, registry, now) <==> r.digest == "" && !young && registry(image).Some?)
            && Resolution(cache, image, registry, now) ==
                 if r.digest != "" then Some(image)
                 else if !young && registry(image).Some? then Some(r.registry + "/" + r.repo + "@" + registry(image).value)
                 else if image in cache then Some(cache[image].pin) else None
  {
    hide Parse;
  }

  /** A field changes only where it holds an image that is wanted, has no digest and resolves. */
  lemma PinOfIs(cache: Cache, image: string, matches: Ref -> bool, registry: Registry, now: Time)
    ensures var r, pin := Resolution(cache, image, registry, now), PinOf(cache, image, matches, registry, now);
            if image != "" && Parse(image).digest == "" && matches(Parse(image)) && r.Some? then pin == r.value else pin == image
  {
    hide Parse, Resolution;
  }

  class Container {
    var image: string

    constructor (image: string)
      ensures this.image == image
    {
      this.image := image;
    }
  }

  function Store(cache: Cache, image: string, registry: Registry, now: Time): Cache {
    if LooksUp(cache, image, registry, now)
    then cache[image := Entry(PinTo(Parse(image), registry(image).value), now)] else cache
  }

  /** A lookup changes what no image resolves to within the pass. */
  lemma StoreAgrees(cache: Cache, image: string, registry: Registry, now: Time, other: string)
    ensures Resolution(Store(cache, image, registry, now), other, registry, now) == Resolution(cache, other, registry, now)
  {
    hide Parse;
  }

  ghost predicate Agrees(cache: Cache, cache': Cache, registry: Registry, now: Time) {
    forall image :: Resolution(cache', image, registry, now) == Resolution(cache, image, registry, now)
  }

  lemma StillAgrees(cache: Cache, cache': Cache, image: string, registry: Registry, now: Time)
    requires Agrees(cache, cache', registry, now)
    ensures Agrees(cache, Store(cache', image, registry, now), registry, now)
    ensures Resolution(cache', image, registry, now) == Resolution(cache, image, registry, now)
  {
    forall other
      ensures Resolution(Store(cache', image, registry, now), other, registry, now) == Resolution(cache, other, registry, now)
    {
      StoreAgrees(cache', image, registry, now, other);
    }
  }

  predicate Sound(cache: Cache) {
    forall i | i in cache :: Pinned(Parse(cache[i].pin))
  }

  lemma ResolvedIsPinned(cache: Cache, image: string, registry: Registry, now: Time)
    requires Sound(cache) && Answers(registry, image)
    ensures var r := Resolution(cache, image, registry, now); r.Some? ==> Pinned(Parse(r.value))
  {
    if LooksUp(cache, image, registry, now) { PinIsPinned(image, registry(image).value); }
  }

  /** Pinning twice is pinning once: what is pinned is left, and what could not be is as it was. */
  lemma PinningIsIdempotent(cache: Cache, image: string, matches: Ref -> bool, registry: Registry, now: Time)
    requires Sound(cache) && Answers(registry, image)
    ensures var once := PinOf(cache, image, matches, registry, now);
            PinOf(cache, once, matches, registry, now) == once
  {
    hide Parse;
    ResolvedIsPinned(cache, image, registry, now);
  }

  /** Once every wanted image has resolved, no later pass changes a field, whatever the registry says then. */
  lemma PinnedStaysPinned(cache: Cache, image: string, matches: Ref -> bool, registry: Registry, now: Time,
                          cache': Cache, registry': Registry, now': Time)
    requires Sound(cache) && Answers(registry, image)
    requires Wanted(image, matches) ==> Resolution(cache, image, registry, now).Some?
    ensures var once := PinOf(cache, image, matches, registry, now);
            PinOf(cache', once, matches, registry', now') == once
  {
    hide Parse;
    ResolvedIsPinned(cache, image, registry, now);
  }

  /** A pin made now keeps the registry and, with one colon at the most, the repository. */
  lemma PinningKeepsReference(cache: Cache, image: string, matches: Ref -> bool, registry: Registry, now: Time)
    requires Answers(registry, image) && Wanted(image, matches) && LooksUp(cache, image, registry, now)
    ensures var r, p := Parse(image), Parse(PinOf(cache, image, matches, registry, now));
            p.registry == r.registry && p.digest == registry(image).value && (p.repo == r.repo <==> !TwoColons(AfterRegistry(image)))
  {
    PinKeepsReference(image, registry(image).value);
  }

  class Resolver {
    var cache: Cache
    /** The pin of each image's most recent successful lookup. */
    ghost var latest: map<string, string>

    constructor ()
      ensures Valid() && cache == map[] && latest == map[]
    {
      cache, latest := map[], map[];
    }

    ghost predicate Valid()
      reads this
    {
      && cache.Keys == latest.Keys && (forall i | i in cache :: cache[i].pin == latest[i])
      && Sound(cache)
    }

    /**
     * The pin of the most recent successful lookup, this one's if it makes one; it fails
     * only for an image no lookup has ever succeeded for.
     */
    method Resolve(image: string, registry: Registry, now: Time) returns (pin: Option<string>)
      requires Valid() && Answers(registry, image)
      modifies this
      ensures Valid() && pin == Resolution(old(cache), image, registry, now)
      ensures latest == if LooksUp(old(cache), image, registry, now)
                        then old(latest)[image := PinTo(Parse(image), registry(image).value)] else old(latest)
      ensures cache == Store(old(cache), image, registry, now)
      ensures Pinned(Parse(image)) ==> pin == Some(image)
      ensures !Pinned(Parse(image)) ==> pin == if image in latest then Some(latest[image]) else None
      ensures image in old(latest) ==> pin.Some?
      ensures pin.Some? ==> Pinned(Parse(pin.value))
    {
      hide Parse, PinTo;
      var ref := Parse(image);
      if Pinned(ref) { return Some(image); }
      pin := Cached(cache, image, false, now);
      if pin.Some? { return; }
      var digest := registry(image);
      if digest.None? { return Cached(cache, image, true, now); }
      PinIsPinned(image, digest.value);
      pin := Some(PinTo(ref, digest.value));
      cache := cache[image := Entry(pin.value, now)];
      latest := latest[image := pin.value];
    }

    /** Pins one container's image field, if it is wanted and can be. */
    method PinContainer(c: Container, matches: Ref -> bool, registry: Registry, now: Time) returns (changed: bool, failed: bool)
      requires Valid() && Answers(registry, c.image)
      modifies this, c`image
      ensures Valid() && cache == (if Wanted(old(c.image), matches) then Store(old(cache), old(c.image), registry, now) else old(cache))
      ensures c.image == PinOf(old(cache), old(c.image), matches, registry, now)
      ensures changed <==> c.image != old(c.image)
      ensures failed <==> Wanted(old(c.image), matches) && Resolution(old(cache), old(c.image), registry, now).None?
    {
      hide Resolution, Sound, Store, LooksUp, Parse;
      changed, failed := false, false;
      if c.image == "" || Pinned(Parse(c.image)) || !matches(Parse(c.image)) { return; }
      var pin := Resolve(c.image, registry, now);
      if pin.None? {
        failed := true;
      } else if pin.value != c.image {
        c.image := pin.value;
        changed := true;
      }
    }

    /** Pins what the live containers of the pod templates run; `pinned` counts the fields changed, `failed` those that could not be. */
    method PinImages(containers: seq<Container>, matches: Ref -> bool, registry: Registry, now: Time) returns (pinned: nat, failed: nat)
      requires Valid() && forall image :: Answers(registry, image)
      modifies this, containers
      ensures Valid() && Agrees(old(cache), cache, registry, now)
      ensures forall c | c in containers :: c.image == PinOf(old(cache), old(c.image), matches, registry, now)
      ensures pinned == 0 ==> forall c | c in containers :: c.image == old(c.image)
      ensures failed == 0 <==> forall c | c in containers && Wanted(old(c.image), matches) :: Resolution(old(cache), old(c.image), registry, now).Some?
    {
      hide *;
      ghost var before := cache;
      ValidSound();
      AgreesWithItself(before, registry, now);
      pinned, failed := 0, 0;
      for i := 0 to |containers|
        invariant Valid() && Agrees(before, cache, registry, now)
        invariant forall c | c in containers :: c.image == if c in containers[..i] then PinOf(before, old(c.image), matches, registry, now) else old(c.image)
        invariant pinned == 0 ==> forall c | c in containers :: c.image == old(c.image)
        invariant failed == 0 <==> forall c | c in containers[..i] && Wanted(old(c.image), matches) :: Resolution(before, old(c.image), registry, now).Some?
      {
        var c := containers[i];
        assert containers[..i + 1] == containers[..i] + [c];
        PinningIsIdempotent(before, old(c.image), matches, registry, now);
        PinsTheSame(before, cache, c.image, matches, registry, now);
        FailsAgain(before, old(c.image), matches, registry, now);
        StillAgrees(before, cache, c.image, registry, now);
        var changed, fails := PinContainer(c, matches, registry, now);
        if changed { pinned := pinned + 1; }
        if fails { failed := failed + 1; }
      }
    }

    lemma ValidSound()
      requires Valid()
      ensures Sound(cache)
    {
    }
  }

  lemma AgreesWithItself(cache: Cache, registry: Registry, now: Time)
    ensures Agrees(cache, cache, registry, now)
  {
  }

  /** A field whose pin cannot be found is as it was; one that was found needs none. */
  lemma FailsAgain(cache: Cache, image: string, matches: Ref -> bool, registry: Registry, now: Time)
    requires Sound(cache) && Answers(registry, image)
    ensures var once := PinOf(cache, image, matches, registry, now);
            (Wanted(once, matches) && Resolution(cache, once, registry, now).None?)
            <==> (Wanted(image, matches) && Resolution(cache, image, registry, now).None?)
  {
    hide Parse;
    ResolvedIsPinned(cache, image, registry, now);
  }

  lemma PinsTheSame(cache: Cache, cache': Cache, image: string, matches: Ref -> bool, registry: Registry, now: Time)
    requires Agrees(cache, cache', registry, now)
    ensures PinOf(cache', image, matches, registry, now) == PinOf(cache, image, matches, registry, now)
  {
    hide Resolution, Wanted;
  }
}
