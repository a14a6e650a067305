/**
 * The values an operator generates for an addon: which schema properties ask for one, and
 * which still need one.
 */
module Generate {
  import opened Basics
  import opened Sorting
  import opened Values

  /** A values schema node, or something else where a node should stand. */
  datatype Schema = NoNode | Node(generate: Option<string>, properties: map<string, Schema>)

  datatype Field = Field(path: string, generator: string)

  const RANDOM_BASE64 := "random-base64-32"
  const RANDOM_HEX := "random-hex-32"

  predicate Known(generator: string) {
    generator == RANDOM_BASE64 || generator == RANDOM_HEX
  }

  predicate Addressable(name: string) {
    name != "" && DotFree(name)
  }

  /** What generates the property under these names, if they lead to one that asks for it. */
  function GeneratorAt(node: Schema, names: Path): Option<string>
    requires node.Node?
    decreases |names|
  {
    if names == [] || names[0] !in node.properties || !Addressable(names[0]) || !node.properties[names[0]].Node? then None
    else if |names| == 1 then node.properties[names[0]].generate
    else GeneratorAt(node.properties[names[0]], names[1..])
  }

  /**
   * These nodes lead from one to a property that asks for the generator: each is a property
   * of the one before, under a name that can be addressed.
   */
  ghost predicate LeadsTo(nodes: seq<Schema>, node: Schema, names: Path, generator: string) {
    && names != [] && |nodes| == |names| + 1 && nodes[0] == node && (forall i | 0 <= i < |nodes| :: nodes[i].Node?)
    && (forall i | 0 <= i < |names| ::
          names[i] != "" && '.' !in names[i] && names[i] in nodes[i].properties && nodes[i + 1] == nodes[i].properties[names[i]])
    && nodes[|names|].generate == Some(generator)
  }

  /** What generates a property is what the node asks for that its names lead to. */
  lemma {:induction false} GeneratorAtIff(node: Schema, names: Path, generator: string)
    requires node.Node?
    ensures GeneratorAt(node, names) == Some(generator) <==> exists nodes: seq<Schema> :: LeadsTo(nodes, node, names, generator)
    decreases |names|
  {
    if |names| == 1 && GeneratorAt(node, names) == Some(generator) {
      assert LeadsTo([node, node.properties[names[0]]], node, names, generator);
    } else if |names| > 1 {
      forall nodes: seq<Schema> | LeadsTo(nodes, node, names, generator)
        ensures GeneratorAt(node, names) == Some(generator)
      {
        var below := nodes[1..];
        assert LeadsTo(below, nodes[1], names[1..], generator) by {
          assert forall i | 0 <= i < |names| - 1 :: names[1..][i] == names[i + 1] && below[i] == nodes[i + 1];
        }
        GeneratorAtIff(nodes[1], names[1..], generator);
      }
      if GeneratorAt(node, names) == Some(generator) {
        var child := node.properties[names[0]];
        GeneratorAtIff(child, names[1..], generator);
        var rest: seq<Schema> :| LeadsTo(rest, child, names[1..], generator);
        LeadsFrom(node, rest, names, generator);
      }
    }
  }

  lemma LeadsFrom(node: Schema, rest: seq<Schema>, names: Path, generator: string)
    requires |names| > 1 && node.Node? && Addressable(names[0]) && names[0] in node.properties
    requires LeadsTo(rest, node.properties[names[0]], names[1..], generator)
    ensures LeadsTo([node] + rest, node, names, generator)
  {
    var nodes := [node] + rest;
    forall i | 0 <= i < |names|
      ensures names[i] != "" && '.' !in names[i] && names[i] in nodes[i].properties && nodes[i + 1] == nodes[i].properties[names[i]]
    {
      if i > 0 { assert names[i] == names[1..][i - 1] && nodes[i] == rest[i - 1]; }
    }
  }

  lemma {:induction false} GeneratedNamesAreKeys(node: Schema, names: Path)
    requires node.Node? && GeneratorAt(node, names).Some?
    ensures names != [] && forall i | 0 <= i < |names| :: Addressable(names[i])
    decreases |names|
  {
    if |names| > 1 { GeneratedNamesAreKeys(node.properties[names[0]], names[1..]); }
  }

  /** A generated path splits back into the names it was built from. */
  lemma PathSplitsBack(node: Schema, names: Path)
    requires node.Node? && GeneratorAt(node, names).Some?
    ensures SplitPath(Join(names)) == Some(names)
  {
    GeneratedNamesAreKeys(node, names);
    SplitJoin(names);
  }

  /** Distinct properties have distinct paths. */
  lemma PathsAreDistinct(node: Schema, names: Path, names': Path)
    requires node.Node? && GeneratorAt(node, names).Some? && GeneratorAt(node, names').Some?
    ensures Join(names) == Join(names') <==> names == names'
  {
    PathSplitsBack(node, names);
    PathSplitsBack(node, names');
  }

  lemma {:induction false} JoinSnoc(keys: Path, name: string)
    ensures Join(keys + [name]) == if keys == [] then name else Join(keys) + "." + name
  {
    if keys == [] {
      assert keys + [name] == [name];
    } else {
      JoinSnoc(keys[1..], name);
      assert (keys + [name])[1..] == keys[1..] + [name];
      if |keys| > 1 {
        assert keys[0] + "." + (Join(keys[1..]) + "." + name) == keys[0] + "." + Join(keys[1..]) + "." + name;
      }
    }
  }

  // ---- collecting ----

  ghost predicate FieldUnder(node: Schema, prefix: Path, f: Field)
    requires node.Node?
  {
    exists names :: GeneratorAt(node, names) == Some(f.generator) && f.path == Join(prefix + names)
  }

  /** Exactly the fields under the node, each once. */
  ghost predicate Collects(node: Schema, prefix: Path, fields: seq<Field>)
    requires node.Node?
  {
    (forall f :: f in fields <==> FieldUnder(node, prefix, f)) && NoDuplicates(fields)
  }

  /** Exactly the fields under these of the node's properties. */
  ghost predicate FieldOfChild(node: Schema, prefix: Path, done: set<string>, f: Field)
    requires node.Node?
  {
    exists names :: names != [] && names[0] in done && GeneratorAt(node, names) == Some(f.generator) && f.path == Join(prefix + names)
  }

  ghost predicate CollectsSome(node: Schema, prefix: Path, done: set<string>, fields: seq<Field>)
    requires node.Node?
  {
    (forall f :: f in fields <==> FieldOfChild(node, prefix, done, f)) && NoDuplicates(fields)
  }

  predicate AllKeys(prefix: Path) {
    forall i | 0 <= i < |prefix| :: Addressable(prefix[i])
  }

  /** Appends to `out` every field under the node, whatever the order of its properties. */
  method CollectGenerated(node: Schema, prefix: string, ghost names: Path, out: seq<Field>) returns (r: seq<Field>)
    requires node.Node? && AllKeys(names) && prefix == Join(names)
    ensures |out| <= |r| && r[..|out|] == out && Collects(node, names, r[|out|..])
    decreases node
  {
    hide GeneratorAt, CollectsSome, Collects, Join, DotFree;
    r := out;
    var left := node.properties.Keys;
    ghost var done, added: seq<Field> := {}, [];
    NothingCollected(node, names);
    PrefixEmpty(names);
    while left != {}
      invariant left !! done && left + done == node.properties.Keys
      invariant r == out + added && CollectsSome(node, names, done, added)
      decreases |left|
    {
      var name :| name in left;
      left := left - {name};
      var child := node.properties[name];
      if child.Node? && Addressable(name) {
        JoinSnoc(names, name);
        var path := if prefix == "" then name else prefix + "." + name;
        var own := if child.generate.Some? then [Field(path, child.generate.value)] else [];
        var all := CollectGenerated(child, path, names + [name], r + own);
        ghost var below := all[|r + own|..];
        Appended(all, out, added, own);
        ChildCollected(node, names, done, name, added, own, below);
        r, added := all, added + own + below;
      } else {
        ChildSkipped(node, names, done, name, added);
      }
      done := done + {name};
    }
    AllCollected(node, names, added);
    assert r[..|out|] == out && r[|out|..] == added;
  }

  lemma Appended<T>(all: seq<T>, out: seq<T>, added: seq<T>, own: seq<T>)
    requires var before := out + added + own; |before| <= |all| && all[..|before|] == before
    ensures all == out + (added + own + all[|out + added + own|..])
  {
  }

  lemma PrefixEmpty(names: Path)
    requires AllKeys(names)
    ensures Join(names) == "" <==> names == []
  {
  }

  lemma NothingCollected(node: Schema, prefix: Path)
    requires node.Node?
    ensures CollectsSome(node, prefix, {}, [])
  {
  }

  lemma ChildSkipped(node: Schema, prefix: Path, done: set<string>, name: string, before: seq<Field>)
    requires node.Node? && name in node.properties && (!node.properties[name].Node? || !Addressable(name))
    requires CollectsSome(node, prefix, done, before)
    ensures CollectsSome(node, prefix, done + {name}, before)
  {
    forall f | FieldOfChild(node, prefix, done + {name}, f)
      ensures FieldOfChild(node, prefix, done, f)
    {
      var names :| names != [] && names[0] in done + {name} && GeneratorAt(node, names) == Some(f.generator) && f.path == Join(prefix + names);
      assert names[0] in done;
    }
  }

  lemma AllCollected(node: Schema, prefix: Path, fields: seq<Field>)
    requires node.Node? && CollectsSome(node, prefix, node.properties.Keys, fields)
    ensures Collects(node, prefix, fields)
  {
  }

  /** The names under the prefix are told by the path. */
  lemma NamesFromPath(node: Schema, prefix: Path, names: Path, names': Path)
    requires node.Node? && AllKeys(prefix) && GeneratorAt(node, names).Some? && GeneratorAt(node, names').Some?
    requires Join(prefix + names) == Join(prefix + names')
    ensures names == names'
  {
    GeneratedNamesAreKeys(node, names);
    GeneratedNamesAreKeys(node, names');
    SplitJoin(prefix + names);
    SplitJoin(prefix + names');
    assert names == (prefix + names)[|prefix|..] && names' == (prefix + names')[|prefix|..];
  }

  /** A field of the property itself, or one under it. */
  lemma FieldsOfChild(node: Schema, prefix: Path, name: string, f: Field)
    requires node.Node? && name in node.properties && node.properties[name].Node? && Addressable(name)
    ensures FieldOfChild(node, prefix, {name}, f) <==>
            (node.properties[name].generate == Some(f.generator) && f.path == Join(prefix + [name]))
            || FieldUnder(node.properties[name], prefix + [name], f)
  {
    var child := node.properties[name];
    if FieldOfChild(node, prefix, {name}, f) {
      var names :| names != [] && names[0] in {name} && GeneratorAt(node, names) == Some(f.generator) && f.path == Join(prefix + names);
      if |names| > 1 {
        assert prefix + names == prefix + [name] + names[1..];
        assert GeneratorAt(child, names[1..]) == Some(f.generator);
      } else {
        assert names == [name];
      }
    }
    if child.generate == Some(f.generator) && f.path == Join(prefix + [name]) {
      assert GeneratorAt(node, [name]) == Some(f.generator);
    }
    if FieldUnder(child, prefix + [name], f) {
      var rest :| GeneratorAt(child, rest) == Some(f.generator) && f.path == Join(prefix + [name] + rest);
      assert ([name] + rest)[1..] == rest && prefix + [name] + rest == prefix + ([name] + rest);
      assert GeneratorAt(node, [name] + rest) == Some(f.generator);
    }
  }

  lemma ChildCollected(node: Schema, prefix: Path, done: set<string>, name: string, before: seq<Field>, own: seq<Field>, below: seq<Field>)
    requires node.Node? && AllKeys(prefix) && name in node.properties && node.properties[name].Node? && Addressable(name) && name !in done
    requires CollectsSome(node, prefix, done, before)
    requires own == if node.properties[name].generate.Some?
                    then [Field(Join(prefix + [name]), node.properties[name].generate.value)] else []
    requires Collects(node.properties[name], prefix + [name], below)
    ensures CollectsSome(node, prefix, done + {name}, before + own + below)
  {
    hide GeneratorAt, Join;
    var all := before + own + below;
    forall f
      ensures f in all <==> FieldOfChild(node, prefix, done + {name}, f)
      ensures f in own + below <==> FieldOfChild(node, prefix, {name}, f)
    {
      FieldsOfChild(node, prefix, name, f);
      ChildrenSplit(node, prefix, done, name, f);
    }
    forall f | f in before
      ensures f !in own + below
    {
      Apart(node, prefix, done, name, f);
    }
    forall f | f in own
      ensures f !in below
    {
      OwnApart(node, prefix, name, f);
    }
    NoneTwice(own, below);
    NoneTwice(before, own + below);
    assert all == before + (own + below);
  }

  lemma NoneTwice<T>(a: seq<T>, b: seq<T>)
    requires NoDuplicates(a) && NoDuplicates(b) && forall x | x in a :: x !in b
    ensures NoDuplicates(a + b)
  {
    forall i, j | 0 <= i < j < |a + b|
      ensures (a + b)[i] != (a + b)[j]
    {
      if i < |a| <= j { assert (a + b)[i] in a && (a + b)[j] in b; }
    }
  }

  lemma ChildrenSplit(node: Schema, prefix: Path, done: set<string>, name: string, f: Field)
    requires node.Node?
    ensures FieldOfChild(node, prefix, done + {name}, f) <==> FieldOfChild(node, prefix, done, f) || FieldOfChild(node, prefix, {name}, f)
  {
    hide GeneratorAt, Join;
  }

  /** A field of one property is none of another's. */
  lemma Apart(node: Schema, prefix: Path, done: set<string>, name: string, f: Field)
    requires node.Node? && AllKeys(prefix) && name !in done && FieldOfChild(node, prefix, done, f)
    ensures !FieldOfChild(node, prefix, {name}, f)
  {
    hide Join;
    var a :| a != [] && a[0] in done && GeneratorAt(node, a) == Some(f.generator) && f.path == Join(prefix + a);
    forall b | b != [] && b[0] in {name} && GeneratorAt(node, b) == Some(f.generator)
      ensures f.path != Join(prefix + b)
    {
      if Join(prefix + a) == Join(prefix + b) { NamesFromPath(node, prefix, a, b); }
    }
  }

  /** A property's own field is none of those below it. */
  lemma OwnApart(node: Schema, prefix: Path, name: string, f: Field)
    requires node.Node? && AllKeys(prefix) && name in node.properties && node.properties[name].Node? && Addressable(name)
    requires node.properties[name].generate == Some(f.generator) && f.path == Join(prefix + [name])
    ensures !FieldUnder(node.properties[name], prefix + [name], f)
  {
    hide Join;
    forall rest | GeneratorAt(node.properties[name], rest) == Some(f.generator)
      ensures f.path != Join(prefix + [name] + rest)
    {
      assert rest != [];
      assert prefix + [name] + rest == prefix + ([name] + rest) && ([name] + rest)[1..] == rest;
      if Join(prefix + [name]) == Join(prefix + ([name] + rest)) { NamesFromPath(node, prefix, [name], [name] + rest); }
    }
  }

  /** Every property that asks to be generated, in the order of the paths. */
  method GeneratedFields(root: Schema) returns (fields: seq<Field>)
    requires root.Node?
    ensures forall f :: f in fields <==> FieldAt(root, f)
    ensures Ascending(fields, ByPath)
  {
    hide GeneratorAt, Join;
    PrefixEmpty([]);
    var all := CollectGenerated(root, "", [], []);
    assert all[0..] == all;
    fields := SortBy(all, ByPath);
    forall f
      ensures f in fields <==> FieldAt(root, f)
      ensures f in all <==> FieldAt(root, f)
    {
      assert f in multiset(fields) <==> f in multiset(all);
      Unprefixed(root, f);
    }
    PathsOrder(root, set f | f in all);
    SortByAscends(all, ByPath, set f | f in all);
  }

  /** A property at the field's path generates it. */
  ghost predicate FieldAt(root: Schema, f: Field)
    requires root.Node?
  {
    exists names :: GeneratorAt(root, names) == Some(f.generator) && f.path == Join(names)
  }

  lemma Unprefixed(root: Schema, f: Field)
    requires root.Node?
    ensures FieldUnder(root, [], f) <==> FieldAt(root, f)
  {
    assert forall names: Path :: [] + names == names;
  }

  predicate ByPath(a: Field, b: Field) {
    Less(a.path, b.path)
  }

  /** The paths tell a schema's fields apart. */
  lemma PathsOrder(root: Schema, fields: set<Field>)
    requires root.Node? && forall f | f in fields :: FieldAt(root, f)
    ensures Orders(fields, ByPath)
  {
    forall a, b | a in fields && b in fields && a != b
      ensures ByPath(a, b) || ByPath(b, a)
    {
      var x :| GeneratorAt(root, x) == Some(a.generator) && a.path == Join(x);
      var y :| GeneratorAt(root, y) == Some(b.generator) && b.path == Join(y);
      PathsAreDistinct(root, x, y);
      LessIsTotal(a.path, b.path);
    }
    forall a, b, c | a in fields && b in fields && c in fields && ByPath(a, b) && ByPath(b, c)
      ensures ByPath(a, c)
    {
      LessIsTransitive(a.path, b.path, c.path);
    }
  }

  // ---- generating ----

  /** A value the user has given; an empty string is none. */
  predicate Supplied(v: Option<Value>) {
    v.Some? && v.value != Null && v.value != Leaf("")
  }

  predicate Needs(f: Field, user: Tree, existing: map<string, string>) {
    && Known(f.generator) && f.path !in existing
    && SplitPath(f.path).Some? && !Supplied(GetPath(user, SplitPath(f.path).value))
  }

  /**
   * Which fields are given a value: those of the two generators known that have none stored
   * and for which the user has put nothing, null or an empty string at the path.
   */
  lemma NeedsIff(f: Field, user: Tree, existing: map<string, string>)
    ensures Needs(f, user, existing) <==>
            && (f.generator == "random-base64-32" || f.generator == "random-hex-32") && f.path !in existing
            && SplitPath(f.path).Some?
            && var v := GetPath(user, SplitPath(f.path).value); v == None || v == Some(Null) || v == Some(Leaf(""))
  {
  }

  /**
   * Values for the fields that have none. `random` is what the generator gives each field,
   * None where it fails, and then nothing is generated at all.
   */
  method GenerateMissing(fields: seq<Field>, user: Tree, existing: map<string, string>, random: seq<Option<string>>)
    returns (generated: Option<map<string, string>>, errs: seq<string>)
    requires |random| == |fields|
    ensures generated.None? <==> exists i :: 0 <= i < |fields| && Needs(fields[i], user, existing) && random[i].None?
    ensures generated.Some? ==>
              && (forall p :: p in generated.value <==> exists i :: 0 <= i < |fields| && Needs(fields[i], user, existing) && fields[i].path == p)
              && (forall p | p in generated.value ::
                    exists i :: 0 <= i < |fields| && fields[i].path == p && random[i] == Some(generated.value[p]))
              && (forall p :: p in errs <==> exists i :: 0 <= i < |fields| && !Known(fields[i].generator) && fields[i].path == p)
  {
    errs := [];
    var out: map<string, string> := map[];
    for i := 0 to |fields|
      invariant forall j | 0 <= j < i && Needs(fields[j], user, existing) :: random[j].Some?
      invariant forall p :: p in out <==> exists j :: 0 <= j < i && Needs(fields[j], user, existing) && fields[j].path == p
      invariant forall p | p in out :: exists j :: 0 <= j < i && fields[j].path == p && random[j] == Some(out[p])
      invariant forall p :: p in errs <==> exists j :: 0 <= j < i && !Known(fields[j].generator) && fields[j].path == p
    {
      var f := fields[i];
      if !Known(f.generator) {
        errs := errs + [f.path];
        continue;
      }
      if f.path in existing { continue; }
      var keys := SplitPath(f.path);
      if keys.None? { continue; }
      if Supplied(GetPath(user, keys.value)) { continue; }
      if random[i].None? { return None, []; }
      out := out[f.path := random[i].value];
    }
    generated := Some(out);
  }

  /** One pass's effect on the Secret: keys are added, or, where generating fails, nothing is. */
  ghost predicate Generates(fields: seq<Field>, user: Tree, existing: map<string, string>, stored: map<string, string>) {
    && existing.Keys <= stored.Keys && (forall p | p in existing :: stored[p] == existing[p])
    && (forall p | p in stored && p !in existing :: exists i :: 0 <= i < |fields| && Needs(fields[i], user, existing) && fields[i].path == p)
    && (forall i | 0 <= i < |fields| && Needs(fields[i], user, existing) :: fields[i].path in stored)
  }

  /** With the same fields and the same values there is nothing left to generate. */
  lemma SecondPassGeneratesNothing(fields: seq<Field>, user: Tree, existing: map<string, string>, stored: map<string, string>)
    requires Generates(fields, user, existing, stored)
    ensures forall i | 0 <= i < |fields| :: !Needs(fields[i], user, stored)
    ensures forall again :: Generates(fields, user, stored, again) ==> again == stored
  {
    forall i | 0 <= i < |fields|
      ensures !Needs(fields[i], user, stored)
    {
      if fields[i].path !in stored { assert !Needs(fields[i], user, existing); }
    }
  }

  /** What is stored, as far as the schema still asks for it. */
  method GeneratedValues(fields: seq<Field>, data: map<string, string>) returns (values: map<string, string>)
    ensures forall p :: p in values <==> p in data && exists i :: 0 <= i < |fields| && fields[i].path == p
    ensures forall p | p in values :: values[p] == data[p]
  {
    values := map[];
    for i := 0 to |fields|
      invariant forall p :: p in values <==> p in data && exists j :: 0 <= j < i && fields[j].path == p
      invariant forall p | p in values :: values[p] == data[p]
    {
      if fields[i].path in data { values := values[fields[i].path := data[fields[i].path]]; }
    }
  }

  /** A generated field's value is stored and layered, and no other goes on from its path. */
  ghost predicate Laid(f: Field, order: seq<string>, generated: map<string, string>) {
    && (forall q | q in order :: q in generated) && Increasing(order)
    && SplitPath(f.path).Some? && f.path in order && generated[f.path] != ""
    && SplitPath(f.path).value[0] != PLATFORM_KEY && !GoesOn(order, SplitPath(f.path).value)
  }

  /**
   * A field that needed a value reads the one generated for it if and only if the user has
   * nothing at its path and no leaf on the way to it.
   */
  lemma GeneratedShowsIff(f: Field, user: Tree, platform: Tree, existing: map<string, string>,
                          order: seq<string>, generated: map<string, string>)
    requires Needs(f, user, existing) && Laid(f, order, generated)
    ensures var keys := SplitPath(f.path).value;
            LeafAt(Layered(order, generated, user, platform), keys) == Some(Leaf(generated[f.path])) <==>
              GetPath(user, keys).None? && !Cuts(user, keys)
  {
    var keys := SplitPath(f.path).value;
    SplitIsPath(f.path);
    LayeredPointwise(order, generated, user, platform, keys);
  }

  /** The user has an empty string or null at the path, or a leaf on the way to it. */
  predicate Hides(user: Tree, keys: Path) {
    || GetPath(user, keys) == Some(Leaf("")) || GetPath(user, keys) == Some(Null)
    || exists n :: 0 < n < |keys| && LeafAt(user, keys[..n]).Some?
  }

  /** Each of these counts as no value when values are generated, and hides the one generated. */
  lemma GeneratedButHidden(f: Field, user: Tree, platform: Tree, existing: map<string, string>,
                           order: seq<string>, generated: map<string, string>)
    requires Known(f.generator) && f.path !in existing && Laid(f, order, generated)
    requires Hides(user, SplitPath(f.path).value)
    ensures Needs(f, user, existing)
    ensures LeafAt(Layered(order, generated, user, platform), SplitPath(f.path).value) != Some(Leaf(generated[f.path]))
  {
    var keys := SplitPath(f.path).value;
    if n :| 0 < n < |keys| && LeafAt(user, keys[..n]).Some? {
      NothingBelowALeaf(user, keys[..n], keys);
    }
    GeneratedShowsIff(f, user, platform, existing, order, generated);
  }

  /** For the field config.key: each of the three. */
  lemma HidingInputs()
    ensures var keys := ["config", "key"];
            && Hides(map["config" := Map(map["key" := Leaf("")])], keys)
            && Hides(map["config" := Map(map["key" := Null])], keys)
            && Hides(map["config" := Leaf("x")], keys)
  {
    var keys := ["config", "key"];
    assert keys[..1] == ["config"] && keys[1..] == ["key"];
    assert LeafAt(map["config" := Leaf("x")], keys[..1]).Some?;
  }
}
