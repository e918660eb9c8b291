/** `nested_sort_entry`: the `nested` clause of a sort on a field inside
    nested containers, for the Elasticsearch version given. */
module Compat {
  import opened Wrappers
  import opened Dicts
  import opened Strs
  import opened Values

  /** The level of the chain for the first `k` components of the path: its
      `path` joins them with dots, and it holds the level for `k + 1`
      components under `nested` unless it is the innermost. */
  function NestedLevel(parts: seq<string>, k: nat): Value
    requires 1 <= k <= |parts|
    decreases |parts| - k
  {
    var here := ("path", Str(Join(parts[..k], ".")));
    if k == |parts| then Obj([here]) else Obj([here, ("nested", NestedLevel(parts, k + 1))])
  }

  /** What `nested_sort_entry(path)` returns: before version 6.1 the flat
      `nested_path` form, from then on the chain of levels. */
  function NestedSortSpec(path: string, major: int, minor: int): Value {
    if major < 6 || (major == 6 && minor < 1) then Obj([("nested_path", Str(path))])
    else Obj([("nested", NestedLevel(Split(path, "."), 1))])
  }

  /** The loop of `nested_sort_entry`: it walks the components from the last
      to the first, wrapping the chain built so far under `nested`, and
      drops the last component after each step. */
  method NestedSortEntry(path: string, major: int, minor: int) returns (r: Value)
    ensures r == NestedSortSpec(path, major, minor)
  {
    if major < 6 || (major == 6 && minor < 1) {
      return Obj([("nested_path", Str(path))]);
    }
    var nestedPath := Obj([]);
    var pathList := Split(path, ".");
    var parts := pathList;
    while pathList != []
      invariant pathList == parts[..|pathList|]
      invariant |pathList| == |parts| ==> nestedPath == Obj([])
      invariant |pathList| < |parts| ==> nestedPath == NestedLevel(parts, |pathList| + 1)
      decreases |pathList|
    {
      var k := |pathList|;
      assert pathList == parts[..k];
      if Truthy(nestedPath) {
        nestedPath := Obj([("path", Str(Join(pathList, "."))), ("nested", nestedPath)]);
      } else {
        nestedPath := Obj([("path", Str(Join(pathList, ".")))]);
      }
      assert nestedPath == NestedLevel(parts, k);
      pathList := pathList[..k - 1];
      assert parts[..k][..k - 1] == parts[..k - 1];
    }
    r := Obj([("nested", nestedPath)]);
  }

  /** The path of a level and whether it has an inner one. */
  function LevelPath(v: Value): string {
    if v.Obj? && |v.fields| >= 1 && v.fields[0].1.Str? then v.fields[0].1.s else ""
  }

  /** A level holds a further level exactly when it is not the innermost,
      so the chain has one level per component. */
  lemma NestedLevelShape(parts: seq<string>, k: nat)
    requires 1 <= k <= |parts|
    ensures NestedLevel(parts, k).Obj?
    ensures HasField(NestedLevel(parts, k), "nested") <==> k < |parts|
    ensures k < |parts| ==> Field(NestedLevel(parts, k), "nested") == Some(NestedLevel(parts, k + 1))
    ensures Field(NestedLevel(parts, k), "path") == Some(Str(Join(parts[..k], ".")))
  {
    var fields := NestedLevel(parts, k).fields;
    FindUnique(fields, "path", 0);
    FindUnique(fields, "nested", 1);
  }

  /** The outermost level's path is the first component, and the innermost
      level's path is the whole path. */
  lemma {:induction false} ChainEnds(path: string)
    ensures var parts := Split(path, ".");
      && LevelPath(NestedLevel(parts, 1)) == parts[0]
      && LevelPath(NestedLevel(parts, |parts|)) == path
  {
    var parts := Split(path, ".");
    assert parts[..1] == [parts[0]];
    assert parts[..|parts|] == parts;
    SplitJoin(path, ".");
  }

  /** Each level's path extends its parent's by a dot and exactly one
      component. */
  lemma ChainStep(parts: seq<string>, k: nat)
    requires 1 <= k < |parts|
    ensures LevelPath(NestedLevel(parts, k + 1)) == LevelPath(NestedLevel(parts, k)) + "." + parts[k]
  {
    assert parts[..k + 1] == parts[..k] + [parts[k]];
    JoinSnoc(parts[..k], parts[k], ".");
  }

  /** A path with no dot gives a single level holding the whole path. */
  lemma SingleComponent(path: string, major: int, minor: int)
    requires !Contains(path, ".")
    requires !(major < 6 || (major == 6 && minor < 1))
    ensures NestedSortSpec(path, major, minor) == Obj([("nested", Obj([("path", Str(path))]))])
  {
    SplitUnsplit(path, ".");
    assert [path][..1] == [path];
  }

  /** `a.b.c` splits into three components. */
  lemma SplitThree()
    ensures Split("a.b.c", ".") == ["a", "b", "c"]
  {
    assert "c"[0..1] == "c";
    assert IndexFrom("c", ".", 0) == 1;
    assert Split("c", ".") == ["c"];
    assert "b.c"[1..2] == "." && "b.c"[0..1] == "b";
    assert IndexFrom("b.c", ".", 1) == 1;
    assert IndexFrom("b.c", ".", 0) == 1;
    assert "b.c"[2..] == "c" && "b.c"[..1] == "b";
    assert Split("b.c", ".") == ["b", "c"];
    assert "a.b.c"[1..2] == "." && "a.b.c"[0..1] == "a";
    assert IndexFrom("a.b.c", ".", 1) == 1;
    assert IndexFrom("a.b.c", ".", 0) == 1;
    assert "a.b.c"[2..] == "b.c" && "a.b.c"[..1] == "a";
  }

  /** `a.b.c` on a recent version nests three levels. */
  lemma ThreeComponents()
    ensures NestedSortSpec("a.b.c", 7, 0)
      == Obj([("nested", Obj([("path", Str("a")), ("nested",
           Obj([("path", Str("a.b")), ("nested",
             Obj([("path", Str("a.b.c"))]))]))]))])
  {
    SplitThree();
    ThreeLevels();
  }

  /** The three levels of `["a", "b", "c"]`. */
  lemma ThreeLevels()
    ensures NestedLevel(["a", "b", "c"], 1)
      == Obj([("path", Str("a")), ("nested",
           Obj([("path", Str("a.b")), ("nested",
             Obj([("path", Str("a.b.c"))]))]))])
  {
    var parts := ["a", "b", "c"];
    assert parts[..1] == ["a"] && parts[..2] == ["a", "b"] && parts[..3] == parts;
    JoinTwo();
    assert NestedLevel(parts, 3) == Obj([("path", Str("a.b.c"))]);
    assert NestedLevel(parts, 2) == Obj([("path", Str("a.b")), ("nested", NestedLevel(parts, 3))]);
  }

  /** The two joins the example needs. */
  lemma JoinTwo()
    ensures Join(["a", "b"], ".") == "a.b" && Join(["a", "b", "c"], ".") == "a.b.c"
  {
    assert ["a", "b"][1..] == ["b"];
    assert ["a", "b", "c"][1..] == ["b", "c"] && ["b", "c"][1..] == ["c"];
  }
}
