/**
 * Values as the operator holds them: maps and slices on the heap, merged and set in place,
 * and copied so that the layers of an addon's values share none of them.
 */
module ValuesInPlace {
  import opened Basics
  import opened Sorting
  import opened Values

  datatype Item = Nil | Text(text: string) | Many(slice: Slice) | Sub(table: Table)

  /** A slice; `parts` are what its elements are made of. */
  class Slice {
    var items: seq<Item>
    ghost var parts: seq<set<object>>

    constructor (items: seq<Item>, ghost parts: seq<set<object>>)
      ensures this.items == items && this.parts == parts
    {
      this.items, this.parts := items, parts;
    }
  }

  /** A map; `parts` are what is under each of its keys. */
  class Table {
    var entries: map<string, Item>
    ghost var parts: map<string, set<object>>

    constructor ()
      ensures entries == map[] && parts == map[]
    {
      entries, parts := map[], map[];
    }
  }

  /** The item is the value, made of objects of r alone, each in one place. */
  ghost predicate Holds(i: Item, v: Value, r: set<object>)
    reads r
    decreases v
  {
    match v
    case Null => i.Nil?
    case Leaf(text) => i == Text(text)
    case List(vs) => i.Many? && i.slice in r && HoldsSlice(i.slice, vs, r)
    case Map(e) => i.Sub? && i.table in r && HoldsTable(i.table, e, r)
  }

  ghost predicate HoldsSlice(s: Slice, vs: seq<Value>, r: set<object>)
    requires s in r
    reads r
    decreases List(vs), 0
  {
    && |s.items| == |s.parts| == |vs|
    && (forall k | 0 <= k < |vs| :: s.parts[k] <= r - {s})
    && (forall k, l | 0 <= k < l < |vs| :: s.parts[k] !! s.parts[l])
    && (forall k | 0 <= k < |vs| :: Holds(s.items[k], vs[k], s.parts[k]))
  }

  ghost predicate HoldsTable(t: Table, e: Tree, r: set<object>)
    requires t in r
    reads r
    decreases Map(e), 0
  {
    && t.entries.Keys == e.Keys && Apart(t.parts, e.Keys, r - {t})
    && (forall k | k in e :: Holds(t.entries[k], e[k], t.parts[k]))
  }

  /** One part for each key, none shared. */
  ghost predicate Apart(parts: map<string, set<object>>, keys: set<string>, r: set<object>) {
    && parts.Keys == keys
    && (forall k | k in keys :: parts[k] <= r)
    && (forall k, l | k in keys && l in keys && k != l :: parts[k] !! parts[l])
  }

  lemma ApartPut(parts: map<string, set<object>>, keys: set<string>, r: set<object>, k: string, part: set<object>, r': set<object>)
    requires Apart(parts, keys, r) && r <= r' && part <= r'
    requires forall l | l in keys && l != k :: parts[l] !! part
    ensures Apart(parts[k := part], keys + {k}, r')
  {
  }

  // ---- copying ----

  function Restrict(e: Tree, keys: set<string>): Tree {
    map k | k in e && k in keys :: e[k]
  }

  /** A copy made of new maps and slices alone. */
  method CopyValue(i: Item, ghost v: Value, ghost r: set<object>) returns (c: Item, ghost part: set<object>)
    requires Holds(i, v, r)
    ensures Holds(c, v, part) && fresh(part)
    decreases v, 1
  {
    match i
    case Nil => c, part := Nil, {};
    case Text(text) => c, part := Text(text), {};
    case Many(s) =>
      var copy, fp := CopySlice(s, v.items, r);
      c, part := Many(copy), fp;
    case Sub(t) =>
      var copy, fp := CopyMap(t, v.entries, r);
      c, part := Sub(copy), fp;
  }

  method CopySlice(s: Slice, ghost vs: seq<Value>, ghost r: set<object>) returns (c: Slice, ghost part: set<object>)
    requires s in r && HoldsSlice(s, vs, r)
    ensures c in part && HoldsSlice(c, vs, part) && fresh(part)
    decreases List(vs), 0
  {
    var items: seq<Item> := [];
    ghost var parts: seq<set<object>> := [];
    ghost var all: set<object> := {};
    for k := 0 to |s.items|
      invariant |items| == |parts| == k && fresh(all)
      invariant forall j | 0 <= j < k :: parts[j] <= all
      invariant forall j, l | 0 <= j < l < k :: parts[j] !! parts[l]
      invariant forall j | 0 <= j < k :: Holds(items[j], vs[j], parts[j])
    {
      var item, fp := CopyValue(s.items[k], vs[k], s.parts[k]);
      items, parts, all := items + [item], parts + [fp], all + fp;
    }
    c := new Slice(items, parts);
    part := all + {c};
  }

  /** All of it but what is under one key. */
  ghost predicate HoldsBut(t: Table, e: Tree, r: set<object>, k: string)
    requires t in r
    reads r
  {
    && t.entries.Keys == e.Keys && Apart(t.parts, e.Keys, r - {t})
    && (forall l | l in e && l != k :: Holds(t.entries[l], e[l], t.parts[l]))
  }

  /** Sets one key, whatever was there. */
  method Put(t: Table, k: string, i: Item, ghost v: Value, ghost part: set<object>, ghost e: Tree, ghost r: set<object>)
    requires t in r && HoldsBut(t, e, r, k)
    requires t !in part && Holds(i, v, part) && forall l | l in e && l != k :: t.parts[l] !! part
    modifies t
    ensures HoldsTable(t, e[k := v], r + part)
    ensures t.entries == old(t.entries)[k := i] && t.parts == old(t.parts)[k := part]
  {
    hide Apart;
    ApartPut(t.parts, e.Keys, r - {t}, k, part, r + part - {t});
    PartsElsewhere(t.parts, e.Keys, r - {t});
    t.entries, t.parts := t.entries[k := i], t.parts[k := part];
    assert e[k := v].Keys == e.Keys + {k};
    assert Holds(i, v, part);
    assert forall l | l in e && l != k :: Holds(t.entries[l], e[l], t.parts[l]);
  }

  lemma PartsElsewhere(parts: map<string, set<object>>, keys: set<string>, r: set<object>)
    requires Apart(parts, keys, r)
    ensures parts.Keys == keys && forall k | k in keys :: parts[k] <= r
  {
  }

  lemma RestrictNext(e: Tree, left: set<string>, k: string)
    requires k in left && left <= e.Keys
    ensures Restrict(e, e.Keys - (left - {k})) == Restrict(e, e.Keys - left)[k := e[k]]
    ensures k !in Restrict(e, e.Keys - left)
  {
  }

  lemma RestrictEnds(e: Tree)
    ensures Restrict(e, e.Keys - e.Keys) == map[] && Restrict(e, e.Keys - {}) == e
  {
  }

  method CopyMap(t: Table, ghost e: Tree, ghost r: set<object>) returns (c: Table, ghost part: set<object>)
    requires t in r && HoldsTable(t, e, r)
    ensures c in part && HoldsTable(c, e, part) && fresh(part)
    decreases Map(e), 0
  {
    hide Restrict, Apart;
    c := new Table();
    NothingHeld(c, {c});
    PartsElsewhere(t.parts, e.Keys, r - {t});
    part := {c};
    var left := t.entries.Keys;
    RestrictEnds(e);
    while left != {}
      invariant left <= t.entries.Keys && c in part && fresh(part)
      invariant HoldsTable(c, Restrict(e, e.Keys - left), part)
      decreases |left|
    {
      var k :| k in left;
      var item, fp := CopyValue(t.entries[k], e[k], t.parts[k]);
      RestrictNext(e, left, k);
      PartsElsewhere(c.parts, Restrict(e, e.Keys - left).Keys, part - {c});
      Put(c, k, item, e[k], fp, Restrict(e, e.Keys - left), part);
      left, part := left - {k}, part + fp;
    }
  }

  lemma PartDisjoint(parts: map<string, set<object>>, keys: set<string>, r: set<object>, k: string)
    requires Apart(parts, keys, r) && k in keys
    ensures forall l | l in keys && l != k :: parts[k] !! parts[l]
  {
  }

  lemma NothingHeld(t: Table, r: set<object>)
    requires t in r && t.entries == map[] && t.parts == map[]
    ensures HoldsTable(t, map[], r)
  {
  }

  // ---- merging ----

  lemma MergeNext(d: Tree, s: Tree, left: set<string>, k: string)
    requires k in left && left <= s.Keys
    ensures var before, after := Merge(d, Restrict(s, s.Keys - left)), Merge(d, Restrict(s, s.Keys - (left - {k})));
            && after == before[k := if s[k].Map? then Map(Merge(Below(d, k), s[k].entries)) else s[k]]
            && (k in before <==> k in d) && (k in d ==> before[k] == d[k])
  {
  }

  lemma MergeEnds(d: Tree, s: Tree)
    ensures Merge(d, Restrict(s, s.Keys - s.Keys)) == d && Merge(d, Restrict(s, s.Keys - {})) == Merge(d, s)
  {
    RestrictEnds(s);
  }

  /** What each part of the destination may share with the source: what the merge put there. */
  predicate Shares(parts: map<string, set<object>>, from: map<string, set<object>>, left: set<string>, rs: set<object>) {
    forall l | l in parts :: parts[l] * rs <= if l in from && l !in left then from[l] else {}
  }

  /** Merges the source over the destination, in place; slices of the source may end up in it. */
  method MergeInto(dst: Table, src: Table, ghost d: Tree, ghost s: Tree, ghost rd: set<object>, ghost rs: set<object>)
    returns (ghost r: set<object>)
    requires dst in rd && HoldsTable(dst, d, rd) && src in rs && HoldsTable(src, s, rs) && rd !! rs
    modifies rd
    ensures dst in r && HoldsTable(dst, Merge(d, s), r) && fresh(r - rd - rs)
    decreases Map(s), 1
  {
    hide Merge, Restrict, Apart, Shares;
    r := rd;
    var left := src.entries.Keys;
    MergeEnds(d, s);
    SharesNothing(dst.parts, d.Keys, rd - {dst}, src.parts, left, rs);
    while left != {}
      invariant left <= s.Keys && dst in r && fresh(r - rd - rs)
      invariant HoldsTable(dst, Merge(d, Restrict(s, s.Keys - left)), r)
      invariant Shares(dst.parts, src.parts, left, rs)
      invariant forall l | l in left && l in dst.parts :: dst.parts[l] <= rd
      decreases |left|
    {
      var k :| k in left;
      ghost var e := Merge(d, Restrict(s, s.Keys - left));
      MergeNext(d, s, left, k);
      r := MergeKey(dst, src, k, d, s, e, rd, rs, r, left);
      left := left - {k};
    }
  }

  lemma SharesNothing(parts: map<string, set<object>>, keys: set<string>, r: set<object>, from: map<string, set<object>>,
                      left: set<string>, rs: set<object>)
    requires Apart(parts, keys, r) && r !! rs
    ensures Shares(parts, from, left, rs) && forall l | l in parts :: parts[l] <= r
  {
  }

  /** A part made of the old one, of the source's under the key and of new objects meets no other part. */
  lemma SharesNext(parts: map<string, set<object>>, keys: set<string>, rp: set<object>, from: map<string, set<object>>, fromKeys: set<string>, rf: set<object>,
                   left: set<string>, rs: set<object>, k: string, part: set<object>, old': set<object>, rest: set<object>)
    requires Apart(parts, keys, rp) && Apart(from, fromKeys, rf) && Shares(parts, from, left, rs) && k in left && k in from && rf <= rs
    requires part <= old' + from[k] + rest && rest !! rp && rest !! rs && old' !! rs
    requires forall l | l in keys && l != k :: old' !! parts[l]
    ensures forall l | l in keys && l != k :: parts[l] !! part
    ensures Shares(parts[k := part], from, left - {k}, rs)
  {
    forall l, x | l in keys && l != k && x in parts[l]
      ensures x !in from[k]
    {
      if x in rs {
        assert x in parts[l] * rs;
        assert l in from && l !in left && x in from[l];
        assert from[l] !! from[k];
      }
    }
    assert forall l | l in keys && l != k :: parts[l] !! from[k];
  }

  /** One key of the source, over what the destination has there. */
  method MergeKey(dst: Table, src: Table, k: string, ghost d: Tree, ghost s: Tree, ghost e: Tree,
                  ghost rd: set<object>, ghost rs: set<object>, ghost r: set<object>, ghost left: set<string>)
    returns (ghost r': set<object>)
    requires dst in rd && dst in r && src in rs && HoldsTable(dst, e, r) && HoldsTable(src, s, rs) && rd !! rs
    requires k in s && k in left && (k in e <==> k in d) && (k in d ==> e[k] == d[k])
    requires Shares(dst.parts, src.parts, left, rs) && (forall l | l in left && l in dst.parts :: dst.parts[l] <= rd)
    modifies rd
    ensures dst in r' && fresh(r' - r - rs)
    ensures HoldsTable(dst, e[k := if s[k].Map? then Map(Merge(Below(d, k), s[k].entries)) else s[k]], r')
    ensures Shares(dst.parts, src.parts, left - {k}, rs)
    ensures forall l | l in left - {k} && l in dst.parts :: dst.parts[l] <= rd
    decreases Map(s), 0
  {
    hide Merge, Apart, Shares;
    ghost var parts, from := dst.parts, src.parts;
    PartsElsewhere(from, s.Keys, rs - {src});
    PartsElsewhere(parts, e.Keys, r - {dst});
    var v := src.entries[k];
    if v.Sub? {
      var dm: Table;
      ghost var below, was := Below(d, k), {};
      if k in e {
        PartDisjoint(parts, e.Keys, r - {dst}, k);
        assert Holds(dst.entries[k], e[k], parts[k]);
      }
      assert Holds(v, s[k], from[k]);
      if k in dst.entries && dst.entries[k].Sub? {
        dm := dst.entries[k].table;
        was := dst.parts[k];
      } else {
        dm := new Table();
        was := {dm};
        NothingHeld(dm, was);
      }
      ghost var part := MergeInto(dm, v.table, below, s[k].entries, was, from[k]);
      SharesNext(parts, e.Keys, r - {dst}, from, s.Keys, rs - {src}, left, rs, k, part, was, part - was - from[k]);
      Put(dst, k, Sub(dm), Map(Merge(below, s[k].entries)), part, e, r);
      r' := r + part;
    } else {
      SharesNext(parts, e.Keys, r - {dst}, from, s.Keys, rs - {src}, left, rs, k, from[k], {}, {});
      Put(dst, k, v, s[k], from[k], e, r);
      r' := r + from[k];
    }
  }

  // ---- setting and getting ----

  /** The map under a key, or a new one where there is none. */
  method Descend(m: Table, k: string, ghost t: Tree, ghost r: set<object>) returns (next: Table, ghost below: set<object>)
    requires m in r && HoldsTable(m, t, r)
    ensures next in below && HoldsTable(next, Below(t, k), below) && m !in below
    ensures below <= r || fresh(below)
    ensures forall l | l in t && l != k :: m.parts[l] !! below
  {
    hide Apart;
    ghost var parts := m.parts;
    PartsElsewhere(parts, t.Keys, r - {m});
    if k in t {
      PartDisjoint(parts, t.Keys, r - {m}, k);
      assert Holds(m.entries[k], t[k], parts[k]);
    }
    if k in m.entries && m.entries[k].Sub? {
      next, below := m.entries[k].table, parts[k];
    } else {
      next := new Table();
      below := {next};
      NothingHeld(next, below);
    }
  }

  /** Puts any value in at keys. On the way down a map is made wherever there is none, over whatever is there. */
  method SetPath(m: Table, keys: Path, i: Item, ghost v: Value, ghost part: set<object>, ghost t: Tree, ghost r: set<object>)
    returns (ghost r': set<object>)
    requires keys != [] && m in r && HoldsTable(m, t, r) && Holds(i, v, part) && r !! part
    modifies r
    ensures m in r' && fresh(r' - r - part) && HoldsTable(m, Values.SetPath(t, keys, v), r')
    decreases |keys|
  {
    hide Apart;
    var k := keys[0];
    ghost var parts := m.parts;
    PartsElsewhere(parts, t.Keys, r - {m});
    if |keys| == 1 {
      Put(m, k, i, v, part, t, r);
      r' := r + part;
    } else {
      var next, below := Descend(m, k, t, r);
      ghost var after := SetPath(next, keys[1..], i, v, part, Below(t, k), below);
      Put(m, k, Sub(next), Map(Values.SetPath(Below(t, k), keys[1..], v)), after, t, r);
      r' := r + after;
    }
  }

  /** The value at keys; the walk ends where there is no map to go on through. */
  method GetPath(m: Table, keys: Path, ghost t: Tree, ghost r: set<object>) returns (found: bool, cur: Item, ghost part: set<object>)
    requires m in r && HoldsTable(m, t, r)
    ensures found <==> Values.GetPath(t, keys).Some?
    ensures found ==> part <= r && Holds(cur, Values.GetPath(t, keys).value, part)
  {
    ghost var v := Map(t);
    cur, part := Sub(m), r;
    for i := 0 to |keys|
      invariant Holds(cur, v, part) && part <= r
      invariant if keys[i..] == [] then Values.GetPath(t, keys) == Some(v)
                else Values.GetPath(t, keys) == (if v.Map? then Values.GetPath(v.entries, keys[i..]) else None)
    {
      if !cur.Sub? { return false, cur, part; }
      var next := cur.table;
      if keys[i] !in next.entries { return false, cur, part; }
      assert keys[i..][0] == keys[i] && keys[i..][1..] == keys[i + 1..];
      v, part, cur := v.entries[keys[i]], next.parts[keys[i]], next.entries[keys[i]];
    }
    found := true;
  }

  // ---- the layers ----

  /** The keys in the order of Go's strings. */
  method SortedKeys(generated: map<string, string>) returns (order: seq<string>)
    ensures Increasing(order) && forall p :: p in order <==> p in generated
  {
    var paths: seq<string> := [];
    var left := generated.Keys;
    while left != {}
      invariant left <= generated.Keys && NoDuplicates(paths)
      invariant forall p :: p in paths <==> p in generated && p !in left
      decreases |left|
    {
      var p :| p in left;
      left := left - {p};
      paths := paths + [p];
    }
    order := SortBy(paths, Less);
    forall p
      ensures p in order <==> p in generated
    {
      assert p in multiset(order) <==> p in multiset(paths);
    }
    LessOrders(generated.Keys);
    SortByAscends(paths, Less, generated.Keys);
  }

  lemma LessOrders(keys: set<string>)
    ensures Orders(keys, Less)
  {
    forall a, b | a in keys && b in keys && a != b
      ensures Less(a, b) || Less(b, a)
    {
      LessIsTotal(a, b);
    }
    forall a, b, c | a in keys && b in keys && c in keys && Less(a, b) && Less(b, c)
      ensures Less(a, c)
    {
      LessIsTransitive(a, b, c);
    }
  }

  /**
   * The generated values at the bottom, the user's over them, the platform's block on top.
   * Neither the user's nor the platform's is changed, and the result is made of new maps
   * and slices alone, so that no later write into it can reach them.
   */
  method LayerValues(generated: map<string, string>, user: Table, platform: Table,
                     ghost u: Tree, ghost p: Tree, ghost ru: set<object>, ghost rp: set<object>)
    returns (out: Table, ghost order: seq<string>, ghost r: set<object>)
    requires user in ru && HoldsTable(user, u, ru) && platform in rp && HoldsTable(platform, p, rp)
    ensures Increasing(order) && forall q :: q in order <==> q in generated
    ensures out in r && HoldsTable(out, Layered(order, generated, u, p), r)
    ensures fresh(r)
  {
    hide *;
    out, order, r := Seed(generated);
    ghost var seeded := Seeded(order, generated);
    var copy, rc := CopyMap(user, u, ru);
    r := MergeInto(out, copy, seeded, u, r, rc);
    var block, rb := CopyMap(platform, p, rp);
    AllBut(out, Merge(seeded, u), r, PLATFORM_KEY);
    TableItem(block, p, rb);
    Put(out, PLATFORM_KEY, Sub(block), Map(p), rb, Merge(seeded, u), r);
    r := r + rb;
    IsLayered(order, generated, u, p);
  }

  /** The generated values alone, each set at its path. */
  method Seed(generated: map<string, string>) returns (out: Table, ghost order: seq<string>, ghost r: set<object>)
    ensures Increasing(order) && forall q :: q in order <==> q in generated
    ensures out in r && fresh(r) && HoldsTable(out, Seeded(order, generated), r)
  {
    hide *;
    out := new Table();
    r := {out};
    NothingHeld(out, r);
    var paths := SortedKeys(generated);
    order := paths;
    SeedNothing(paths, generated);
    for i := 0 to |paths|
      invariant out in r && fresh(r) && HoldsTable(out, Seeded(paths[..i], generated), r)
    {
      SeedNext(paths, generated, i);
      var keys := SplitPath(paths[i]);
      if keys.Some? {
        ghost var text := Leaf(generated[paths[i]]);
        TextItem(generated[paths[i]]);
        r := SetPath(out, keys.value, Text(generated[paths[i]]), text, {}, Seeded(paths[..i], generated), r);
      }
    }
    assert paths[..|paths|] == paths;
  }

  lemma AllBut(t: Table, e: Tree, r: set<object>, k: string)
    requires t in r && HoldsTable(t, e, r)
    ensures HoldsBut(t, e, r, k) && forall l | l in e :: l in t.parts && t.parts[l] <= r
  {
  }

  lemma TableItem(t: Table, e: Tree, r: set<object>)
    requires t in r && HoldsTable(t, e, r)
    ensures Holds(Sub(t), Map(e), r)
  {
  }

  lemma TextItem(text: string)
    ensures Holds(Text(text), Leaf(text), {})
  {
  }

  lemma IsLayered(order: seq<string>, generated: map<string, string>, u: Tree, p: Tree)
    requires forall q | q in order :: q in generated
    ensures Layered(order, generated, u, p) == Merge(Seeded(order, generated), u)[PLATFORM_KEY := Map(p)]
  {
  }

  lemma SeedNothing(order: seq<string>, generated: map<string, string>)
    ensures Seeded(order[..0], generated) == map[]
  {
  }

  lemma SeedNext(order: seq<string>, generated: map<string, string>, i: nat)
    requires i < |order| && forall q | q in order :: q in generated
    ensures var before, after := Seeded(order[..i], generated), Seeded(order[..i + 1], generated);
            var keys := SplitPath(order[i]);
            after == if keys.None? then before else Values.SetPath(before, keys.value, Leaf(generated[order[i]]))
    ensures SplitPath(order[i]).Some? ==> SplitPath(order[i]).value != []
  {
    assert order[..i + 1][..i] == order[..i];
  }
}
