/**
 * An addon's values: trees of maps, merged key by key, read and set by path.
 */
module Values {
  import opened Basics

  datatype Value = Null | Leaf(text: string) | List(items: seq<Value>) | Map(entries: Tree)

  type Tree = map<string, Value>

  type Path = seq<string>

  // ---- paths ----

  /** The pieces between the dots: one more than there are dots. */
  function Split(p: string): (r: seq<string>)
    ensures |r| >= 1
  {
    if p == "" then [""]
    else
      var rest := Split(p[1..]);
      if p[0] == '.' then [""] + rest else [[p[0]] + rest[0]] + rest[1..]
  }

  function Join(keys: seq<string>): string {
    if keys == [] then "" else if |keys| == 1 then keys[0] else keys[0] + "." + Join(keys[1..])
  }

  predicate IsPath(keys: Path) {
    keys != [] && forall i | 0 <= i < |keys| :: keys[i] != ""
  }

  /** The keys of a dotted path, unless one would be empty. */
  function SplitPath(p: string): Option<Path> {
    if IsPath(Split(p)) then Some(Split(p)) else None
  }

  // ---- reading and writing ----

  /** The value at keys; a path through anything but a map leads nowhere. */
  function GetPath(t: Tree, keys: Path): Option<Value>
    decreases |keys|
  {
    if keys == [] then Some(Map(t))
    else if keys[0] !in t then None
    else if |keys| == 1 then Some(t[keys[0]])
    else if t[keys[0]].Map? then GetPath(t[keys[0]].entries, keys[1..])
    else None
  }

  function Below(t: Tree, k: string): Tree {
    if k in t && t[k].Map? then t[k].entries else map[]
  }

  function SetPath(t: Tree, keys: Path, v: Value): Tree
    requires keys != []
    decreases |keys|
  {
    t[keys[0] := if |keys| == 1 then v else Map(SetPath(Below(t, keys[0]), keys[1..], v))]
  }

  /** Two maps join, key after key; a source that is no map takes the place of what was there. */
  function Merge(dst: Tree, src: Tree): Tree
    decreases Map(src)
  {
    map k | k in dst.Keys + src.Keys ::
      if k !in src then dst[k]
      else if src[k].Map? then Map(Merge(Below(dst, k), src[k].entries))
      else src[k]
  }

  // ---- what is where: leaves, and maps ----

  function LeafAt(t: Tree, p: Path): Option<Value> {
    var v := GetPath(t, p);
    if v.Some? && !v.value.Map? then v else None
  }

  predicate MapAt(t: Tree, p: Path) {
    var v := GetPath(t, p);
    v.Some? && v.value.Map?
  }

  /** A leaf of t stands at p or on the way to it. */
  predicate Cuts(t: Tree, p: Path) {
    exists n | 0 < n <= |p| :: LeafAt(t, p[..n]).Some?
  }

  lemma CutsBelow(t: Tree, p: Path)
    requires |p| > 1
    ensures Cuts(t, p) <==> (p[0] in t && (!t[p[0]].Map? || Cuts(t[p[0]].entries, p[1..])))
  {
    if p[0] in t && t[p[0]].Map? {
      var below := t[p[0]].entries;
      if Cuts(t, p) {
        var n :| 0 < n <= |p| && LeafAt(t, p[..n]).Some?;
        assert p[..n][1..] == p[1..][..n - 1];
      }
      if Cuts(below, p[1..]) {
        var n :| 0 < n <= |p| - 1 && LeafAt(below, p[1..][..n]).Some?;
        assert p[..n + 1][1..] == p[1..][..n];
        assert LeafAt(t, p[..n + 1]).Some?;
      }
    } else if p[0] in t {
      assert LeafAt(t, p[..1]).Some?;
    }
  }

  /** Point by point: source leaves stay, source maps stay maps, and elsewhere the destination shows through. */
  lemma {:induction false} MergePointwise(dst: Tree, src: Tree, p: Path)
    ensures LeafAt(Merge(dst, src), p) ==
            if LeafAt(src, p).Some? then LeafAt(src, p)
            else if MapAt(src, p) || Cuts(src, p) then None else LeafAt(dst, p)
    ensures MapAt(Merge(dst, src), p) <==> MapAt(src, p) || (MapAt(dst, p) && !Cuts(src, p))
    decreases |p|
  {
    if p == [] {
    } else if |p| == 1 {
      assert p[..1] == p;
      assert Cuts(src, p) <==> LeafAt(src, p).Some?;
    } else {
      CutsBelow(src, p);
      if p[0] in src && src[p[0]].Map? {
        MergePointwise(Below(dst, p[0]), src[p[0]].entries, p[1..]);
      }
    }
  }

  /** The leaves and the maps are the whole tree. */
  lemma {:induction false} SameEverywhere(a: Tree, b: Tree)
    requires forall p: Path :: LeafAt(a, p) == LeafAt(b, p) && (MapAt(a, p) <==> MapAt(b, p))
    ensures a == b
    decreases Map(a)
  {
    forall k | k in a
      ensures k in b && a[k] == b[k]
    {
      assert LeafAt(a, [k]) == LeafAt(b, [k]) && (MapAt(a, [k]) <==> MapAt(b, [k]));
      if a[k].Map? {
        forall p: Path
          ensures LeafAt(a[k].entries, p) == LeafAt(b[k].entries, p) && (MapAt(a[k].entries, p) <==> MapAt(b[k].entries, p))
        {
          assert ([k] + p)[1..] == p;
          assert p == [] ==> [k] + p == [k];
          assert LeafAt(a, [k] + p) == LeafAt(b, [k] + p) && (MapAt(a, [k] + p) <==> MapAt(b, [k] + p));
        }
        SameEverywhere(a[k].entries, b[k].entries);
      }
    }
    forall k | k in b
      ensures k in a
    {
      assert LeafAt(a, [k]) == LeafAt(b, [k]) && (MapAt(a, [k]) <==> MapAt(b, [k]));
    }
  }

  /** Sources fold left to right: merging them among themselves first loses what a leaf in between cut off. */
  lemma MergeIsNotAssociative()
    ensures exists a: Tree, b: Tree, c: Tree :: Merge(Merge(a, b), c) != Merge(a, Merge(b, c))
  {
    var a: Tree, b: Tree, c: Tree := map["k" := Map(map["x" := Leaf("1")])], map["k" := Leaf("2")], map["k" := Map(map[])];
    assert Merge(Merge(a, b), c)["k"] == Map(Merge(map[], map[]));
    assert Merge(b, c)["k"] == Map(Merge(map[], map[]));
    assert Merge(a, Merge(b, c))["k"] == Map(Merge(a["k"].entries, Merge(b, c)["k"].entries));
    assert "x" in Merge(a, Merge(b, c))["k"].entries && "x" !in Merge(Merge(a, b), c)["k"].entries;
  }

  // ---- set, then get ----

  lemma {:induction false} SetThenGet(t: Tree, keys: Path, v: Value)
    requires keys != []
    ensures GetPath(SetPath(t, keys, v), keys) == Some(v)
    decreases |keys|
  {
    if |keys| > 1 { SetThenGet(Below(t, keys[0]), keys[1..], v); }
  }

  predicate Unrelated(p: Path, q: Path) {
    !(p <= q) && !(q <= p)
  }

  /** A path that neither leads to the one set nor goes on from it reads as before. */
  lemma {:induction false} SetElsewhere(t: Tree, keys: Path, v: Value, p: Path)
    requires keys != [] && p != [] && Unrelated(p, keys)
    ensures GetPath(SetPath(t, keys, v), p) == GetPath(t, p)
    decreases |keys|
  {
    if p[0] == keys[0] {
      assert |p| > 1 && |keys| > 1;
      assert p == [p[0]] + p[1..] && keys == [keys[0]] + keys[1..];
      SetElsewhere(Below(t, keys[0]), keys[1..], v, p[1..]);
    }
  }

  lemma {:induction false} SetOnTheWay(t: Tree, keys: Path, v: Value, p: Path)
    requires keys != [] && p != [] && p < keys
    ensures MapAt(SetPath(t, keys, v), p)
    decreases |keys|
  {
    if |p| > 1 {
      SetOnTheWay(Below(t, keys[0]), keys[1..], v, p[1..]);
    }
  }

  // ---- the generated values at the bottom ----

  lemma {:induction false} JoinSplit(p: string)
    ensures Join(Split(p)) == p
  {
    if p != "" {
      JoinSplit(p[1..]);
      var rest := Split(p[1..]);
      assert p == [p[0]] + p[1..];
      if p[0] == '.' {
        assert Split(p)[1..] == rest;
      } else {
        assert Split(p)[1..] == rest[1..];
        assert Join(Split(p)) == [p[0]] + Join(rest);
      }
    }
  }

  predicate DotFree(k: string) {
    '.' !in k
  }

  lemma {:induction false} SplitJoin(keys: Path)
    requires keys != [] && forall i | 0 <= i < |keys| :: DotFree(keys[i])
    ensures Split(Join(keys)) == keys
  {
    hide Split, Join;
    JoinNext(keys);
    if |keys| == 1 {
      SplitNothing();
      SplitKey(keys[0], "", [""]);
      assert keys[0] + "" == keys[0];
    } else {
      SplitJoin(keys[1..]);
      SplitDot(Join(keys[1..]));
      SplitKey(keys[0], "." + Join(keys[1..]), [""] + keys[1..]);
      assert ([""] + keys[1..])[1..] == keys[1..];
    }
  }

  lemma JoinNext(keys: Path)
    requires keys != []
    ensures Join(keys) == if |keys| == 1 then keys[0] else keys[0] + ("." + Join(keys[1..]))
  {
  }

  lemma SplitNothing()
    ensures Split("") == [""]
  {
  }

  lemma SplitDot(rest: string)
    ensures Split("." + rest) == [""] + Split(rest)
  {
    assert ("." + rest)[1..] == rest;
  }

  /** A key without a dot goes before the first piece. */
  lemma {:induction false} SplitKey(k: string, rest: string, pieces: seq<string>)
    requires DotFree(k) && Split(rest) == pieces && pieces[0] == ""
    ensures Split(k + rest) == [k] + pieces[1..]
  {
    if k == "" {
      assert k + rest == rest;
    } else {
      SplitKey(k[1..], rest, pieces);
      assert (k + rest)[1..] == k[1..] + rest;
      assert k == [k[0]] + k[1..];
    }
  }

  /** Before in the order of Go's strings. */
  predicate Less(a: string, b: string) {
    if b == "" then false
    else if a == "" then true
    else a[0] < b[0] || (a[0] == b[0] && Less(a[1..], b[1..]))
  }

  /** A proper prefix goes first, and otherwise the lower character where two strings first differ. */
  lemma {:induction false} LessIff(a: string, b: string)
    ensures Less(a, b) <==> a < b || exists n :: 0 <= n < |a| && n < |b| && a[..n] == b[..n] && a[n] < b[n]
  {
    if a != "" && b != "" {
      var x, y := a[1..], b[1..];
      LessIff(x, y);
      assert a == [a[0]] + x && b == [b[0]] + y;
      if a[0] < b[0] {
        assert a[..0] == b[..0];
      } else if a[0] == b[0] {
        if n :| 0 <= n < |x| && n < |y| && x[..n] == y[..n] && x[n] < y[n] {
          assert a[..n + 1] == [a[0]] + x[..n] && b[..n + 1] == [b[0]] + y[..n];
        }
        if n :| 0 <= n < |a| && n < |b| && a[..n] == b[..n] && a[n] < b[n] {
          assert n > 0 && x[..n - 1] == a[..n][1..] && y[..n - 1] == b[..n][1..];
        }
      } else {
        assert forall n | 0 < n < |a| && n < |b| :: a[..n][0] != b[..n][0];
      }
    }
  }

  lemma {:induction false} LessIsTotal(a: string, b: string)
    ensures (Less(a, b) || a == b || Less(b, a)) && !(Less(a, b) && Less(b, a)) && !Less(a, a)
  {
    if a != "" && b != "" { LessIsTotal(a[1..], b[1..]); }
    if a != "" {
      LessIsTotal(a[1..], a[1..]);
      if b != "" { assert a == [a[0]] + a[1..] && b == [b[0]] + b[1..]; }
    }
  }

  lemma {:induction false} LessIsTransitive(a: string, b: string, c: string)
    requires Less(a, b) && Less(b, c)
    ensures Less(a, c)
  {
    if a != "" && a[0] == b[0] == c[0] { LessIsTransitive(a[1..], b[1..], c[1..]); }
  }

  lemma {:induction false} PrefixIsLess(a: string, b: string)
    requires a < b
    ensures Less(a, b)
  {
    if a != "" { PrefixIsLess(a[1..], b[1..]); }
  }

  /** The pieces of a shorter path are a shorter string. */
  lemma {:induction false} JoinOfPrefix(p: Path, q: Path)
    requires p != [] && p < q
    ensures Join(p) < Join(q)
  {
    if |p| > 1 {
      JoinOfPrefix(p[1..], q[1..]);
      var a, b := p[0] + "." + Join(p[1..]), q[0] + "." + Join(q[1..]);
      assert a == b[..|a|];
    } else {
      assert Join(q) == p[0] + ("." + Join(q[1..]));
    }
  }

  predicate Increasing(order: seq<string>) {
    forall i, j | 0 <= i < j < |order| :: Less(order[i], order[j])
  }

  /** The generated values, set one path after the other. */
  function Seeded(order: seq<string>, generated: map<string, string>): Tree
    requires forall p | p in order :: p in generated
  {
    if order == [] then map[]
    else
      var n := |order| - 1;
      var before := Seeded(order[..n], generated);
      var keys := SplitPath(order[n]);
      if keys.None? then before else SetPath(before, keys.value, Leaf(generated[order[n]]))
  }

  /** A generated path goes on from p. */
  predicate GoesOn(order: seq<string>, p: Path) {
    exists i | 0 <= i < |order| :: SplitPath(order[i]).Some? && p < SplitPath(order[i]).value
  }

  predicate EndsAt(order: seq<string>, p: Path) {
    Join(p) in order && SplitPath(Join(p)) == Some(p)
  }

  /** In order, each generated value ends up at its path, unless another goes on from there. */
  lemma {:induction false} SeededPointwise(order: seq<string>, generated: map<string, string>, p: Path)
    requires (forall q | q in order :: q in generated) && Increasing(order) && p != []
    ensures LeafAt(Seeded(order, generated), p) ==
            if EndsAt(order, p) && !GoesOn(order, p) then Some(Leaf(generated[Join(p)])) else None
    ensures MapAt(Seeded(order, generated), p) <==> GoesOn(order, p)
    decreases |order|
  {
    hide Split, SplitPath, Join, Less, SetPath, GetPath, LeafAt, MapAt, GoesOn, EndsAt;
    if order == [] {
      NothingSeeded(p);
    } else {
      var n := |order| - 1;
      SeededPointwise(order[..n], generated, p);
      GoesOnNext(order, p);
      EndsAtNext(order, p);
      var keys := SplitPath(order[n]);
      if keys.Some? {
        SplitIsPath(order[n]);
        NothingGoesOn(order, keys.value);
        SetPointwise(Seeded(order[..n], generated), keys.value, Leaf(generated[order[n]]), p);
        if p == keys.value {
          assert EndsAt(order, p) && Join(p) == order[n];
        } else if keys.value < p {
          NothingPast(order, p);
        } else {
          assert SplitPath(order[n]) != Some(p);
          assert EndsAt(order, p) <==> EndsAt(order[..n], p);
        }
      }
    }
  }

  lemma NothingSeeded(p: Path)
    requires p != []
    ensures LeafAt(map[], p).None? && !MapAt(map[], p) && !GoesOn([], p) && !EndsAt([], p)
  {
  }

  lemma SplitIsPath(q: string)
    requires SplitPath(q).Some?
    ensures SplitPath(q).value != [] && Join(SplitPath(q).value) == q
  {
    JoinSplit(q);
  }

  lemma EndsAtNext(order: seq<string>, p: Path)
    requires order != []
    ensures var n := |order| - 1;
            && (EndsAt(order, p) <==> EndsAt(order[..n], p) || SplitPath(order[n]) == Some(p))
            && (SplitPath(order[n]) == Some(p) ==> Join(p) == order[n])
  {
    hide Split, Join;
    var n := |order| - 1;
    assert order == order[..n] + [order[n]];
    if SplitPath(order[n]).Some? { SplitIsPath(order[n]); }
  }

  lemma GoesOnNext(order: seq<string>, p: Path)
    requires order != []
    ensures var n := |order| - 1;
            GoesOn(order, p) <==> GoesOn(order[..n], p) || (SplitPath(order[n]).Some? && p < SplitPath(order[n]).value)
  {
    var n := |order| - 1;
    assert forall i | 0 <= i < n :: order[i] == order[..n][i];
  }

  /** What one write leaves to be read, wherever one looks. */
  lemma SetPointwise(t: Tree, keys: Path, v: Value, p: Path)
    requires keys != [] && p != [] && !v.Map?
    ensures var t' := SetPath(t, keys, v);
            && (p == keys ==> LeafAt(t', p) == Some(v) && !MapAt(t', p))
            && (p < keys ==> MapAt(t', p) && LeafAt(t', p).None?)
            && (keys < p ==> !MapAt(t', p) && LeafAt(t', p).None?)
            && (Unrelated(p, keys) ==> LeafAt(t', p) == LeafAt(t, p) && (MapAt(t', p) <==> MapAt(t, p)))
  {
    if p == keys {
      SetThenGet(t, keys, v);
    } else if p < keys {
      SetOnTheWay(t, keys, v, p);
    } else if keys < p {
      SetThenGet(t, keys, v);
      NothingBelowALeaf(SetPath(t, keys, v), keys, p);
    } else {
      assert Unrelated(p, keys);
      SetElsewhere(t, keys, v, p);
    }
  }

  lemma {:induction false} NothingBelowALeaf(t: Tree, keys: Path, p: Path)
    requires keys != [] && keys < p && LeafAt(t, keys).Some?
    ensures GetPath(t, p).None?
    decreases |keys|
  {
    if |keys| > 1 {
      NothingBelowALeaf(t[keys[0]].entries, keys[1..], p[1..]);
    }
  }

  /** The last path of an increasing order is none that an earlier one goes on from. */
  lemma NothingGoesOn(order: seq<string>, keys: Path)
    requires order != [] && Increasing(order) && SplitPath(order[|order| - 1]) == Some(keys)
    ensures !GoesOn(order[..|order| - 1], keys)
  {
    var n := |order| - 1;
    forall i | 0 <= i < n && SplitPath(order[..n][i]).Some?
      ensures !(keys < SplitPath(order[..n][i]).value)
    {
      var q := SplitPath(order[i]).value;
      if keys < q {
        JoinOfPrefix(keys, q);
        JoinSplit(order[i]);
        JoinSplit(order[n]);
        PrefixIsLess(order[n], order[i]);
        LessIsTotal(order[i], order[n]);
        assert false;
      }
    }
  }

  lemma NothingPast(order: seq<string>, p: Path)
    requires order != [] && Increasing(order) && SplitPath(order[|order| - 1]).Some? && SplitPath(order[|order| - 1]).value < p
    ensures !GoesOn(order, p) && !EndsAt(order, p)
  {
    var n := |order| - 1;
    var keys := SplitPath(order[n]).value;
    NothingGoesOn(order, keys);
    GoesOnNext(order, p);
  }

  // ---- the layers ----

  const PLATFORM_KEY := "zaentrum"

  /** Generated values, the user's over them, and the platform's block alone under its key. */
  function Layered(order: seq<string>, generated: map<string, string>, user: Tree, platform: Tree): Tree
    requires forall p | p in order :: p in generated
  {
    Merge(Seeded(order, generated), user)[PLATFORM_KEY := Map(platform)]
  }

  /** What every path of an addon's values reads. */
  lemma LayeredPointwise(order: seq<string>, generated: map<string, string>, user: Tree, platform: Tree, p: Path)
    requires (forall q | q in order :: q in generated) && Increasing(order) && p != []
    ensures var out := Layered(order, generated, user, platform);
            if p[0] == PLATFORM_KEY then GetPath(out, p) == GetPath(platform, p[1..])
            else
              && LeafAt(out, p) == (if LeafAt(user, p).Some? then LeafAt(user, p)
                                    else if MapAt(user, p) || Cuts(user, p) || GoesOn(order, p) || !EndsAt(order, p) then None
                                    else Some(Leaf(generated[Join(p)])))
              && (MapAt(out, p) <==> MapAt(user, p) || (GoesOn(order, p) && !Cuts(user, p)))
  {
    MergePointwise(Seeded(order, generated), user, p);
    SeededPointwise(order, generated, p);
  }
}
