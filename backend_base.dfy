/** `BaseBackend`, the common part of every filter backend: construction,
    the argument-name helpers, the schema contribution of a backend, the
    separator splits and the two ways a clause reaches the request. */
module BackendBase {
  import opened Wrappers
  import opened Dicts
  import opened Strs
  import opened Values
  import opened Query
  import C = Constants

  /** A backend instance: its class-level `prefix` and the arguments of the
      request. */
  datatype Backend = Backend(prefix: string, args: Dict<string, Value>)

  /** `BaseBackend.__init__`: `args or {}`, then `assert self.prefix`
      (a `None` prefix is `None` here). */
  function NewBackend(prefix: Option<string>, args: Option<Dict<string, Value>>): (r: Result<Backend>)
    ensures r.Ok? <==> prefix.Some? && prefix.value != ""
    ensures r.Err? ==> r.error == AssertionError
    ensures r.Ok? ==> r.value.prefix == prefix.value
    ensures r.Ok? && args.Some? ==> r.value.args == args.value
    ensures r.Ok? && args.None? ==> r.value.args == []
  {
    if prefix.None? || prefix.value == "" then Err(AssertionError)
    else Ok(Backend(prefix.value, args.GetOr([])))
  }

  /** `add_arg_prefix`: `"{prefix}_{arg}"`. */
  function AddArgPrefix(prefix: string, arg: string): (r: string)
    ensures |r| == |prefix| + 1 + |arg|
    ensures StartsWith(r, prefix + "_") && r[|prefix| + 1..] == arg
  {
    prefix + "_" + arg
  }

  /** `get_field_name` as written: `arg.lstrip(prefix + "_")` when `arg` starts
      with `prefix`. `lstrip` removes characters of a SET, so the result never
      starts with a letter of the prefix or `_`. */
  function GetFieldNameAsWritten(prefix: string, arg: string): (r: Option<string>)
    ensures r.None? <==> !StartsWith(arg, prefix)
    ensures r.Some? ==> |r.value| <= |arg| && r.value == arg[|arg| - |r.value|..]
    ensures r.Some? && r.value != "" ==> r.value[0] !in prefix + "_"
  {
    if StartsWith(arg, prefix) then Some(LStrip(arg, prefix + "_")) else None
  }

  /** With the prefix `filter`, the argument `filter_title` loses all of
      `title` too, since every letter of it is in `filter_`. */
  lemma GetFieldNameAsWrittenLosesName()
    ensures GetFieldNameAsWritten("filter", AddArgPrefix("filter", "title")) == Some("")
  {
    var s := AddArgPrefix("filter", "title");
    assert s == "filter_title";
    assert forall i :: 0 <= i < |s| ==> s[i] in "filter_";
  }

  /** `get_field_name` as intended: the argument name with the `prefix_`
      prefix removed, or None when it does not carry that prefix. */
  function GetFieldName(prefix: string, arg: string): (r: Option<string>)
    ensures r.Some? <==> StartsWith(arg, prefix + "_")
    ensures r.Some? ==> AddArgPrefix(prefix, r.value) == arg
  {
    if StartsWith(arg, prefix + "_") then Some(arg[|prefix| + 1..]) else None
  }

  /** Prefixing and taking the field name back are inverse. */
  lemma FieldNameRoundTrip(prefix: string, field: string)
    ensures GetFieldName(prefix, AddArgPrefix(prefix, field)) == Some(field)
  {
    var arg := AddArgPrefix(prefix, field);
    assert arg[..|prefix| + 1] == prefix + "_";
  }

  /** `arg_belongs_to`: false when there is no field name or it is empty,
      otherwise the backend's `field_belongs_to` on that name. The name is
      the one `get_field_name` computes as written. */
  function ArgBelongsTo(prefix: string, arg: string, belongs: string -> bool): (r: bool)
    ensures r <==> exists f :: GetFieldNameAsWritten(prefix, arg) == Some(f) && f != "" && belongs(f)
    ensures r ==> StartsWith(arg, prefix)
  {
    var name := GetFieldNameAsWritten(prefix, arg);
    if name.Some? && name.value != "" then belongs(name.value) else false
  }

  /** As written, `filter_title` never belongs to the `filter` backend,
      whatever its fields, and `searching_x` is tested as `ing_x` by the
      `search` backend. */
  lemma ArgBelongsToAsWritten(belongs: string -> bool)
    ensures !ArgBelongsTo("filter", "filter_title", belongs)
    ensures ArgBelongsTo("search", "searching_x", belongs) == belongs("ing_x")
  {
    GetFieldNameAsWrittenLosesName();
    SearchingStrip();
  }

  /** `"searching_x".lstrip("search_")` stops at the first `i`. */
  lemma SearchingStrip()
    ensures GetFieldNameAsWritten("search", "searching_x") == Some("ing_x")
  {
    var s, p := "searching_x", "search";
    assert s[..|p|] == p;
    assert p + "_" == "search_";
    SearchingLStrip();
  }

  lemma SearchingLStrip()
    ensures LStrip("searching_x", "search_") == "ing_x"
  {
    var s := "searching_x";
    assert s[6] == 'i';
    assert forall i :: 0 <= i < 6 ==> s[i] in "search_";
    LStripStopsAt(s, "search_", 6);
    assert s[6..] == "ing_x";
  }

  /** The parameters a backend contributes to the schema: its defaults,
      updated with one entry per item that is filterable and belongs to the
      backend, in item order. */
  function BackendParams<T, D>(defaults: Dict<string, D>, items: seq<(string, T)>,
                               filterable: string -> bool, belongs: string -> bool,
                               fieldType: (string, T) -> D): Dict<string, D>
    decreases |items|
  {
    if items == [] then defaults
    else
      var (k, v) := items[0];
      var params := if filterable(k) && belongs(k) then Put(defaults, k, fieldType(k, v)) else defaults;
      BackendParams(params, items[1..], filterable, belongs, fieldType)
  }

  /** A key is a parameter iff it is a default or an item that is filterable
      and belongs to the backend. */
  lemma {:induction false} BackendParamsKeys<T, D>(defaults: Dict<string, D>, items: seq<(string, T)>,
                                                   filterable: string -> bool, belongs: string -> bool,
                                                   fieldType: (string, T) -> D, k: string)
    ensures HasKey(BackendParams(defaults, items, filterable, belongs, fieldType), k) <==>
      HasKey(defaults, k) ||
      exists i :: 0 <= i < |items| && items[i].0 == k && filterable(k) && belongs(k)
    decreases |items|
  {
    if items != [] {
      var (k0, v0) := items[0];
      var params := if filterable(k0) && belongs(k0) then Put(defaults, k0, fieldType(k0, v0)) else defaults;
      PutHasKey(defaults, k0, fieldType(k0, v0), k);
      assert HasKey(params, k) <==> HasKey(defaults, k) || (k0 == k && filterable(k) && belongs(k));
      BackendParamsKeys(params, items[1..], filterable, belongs, fieldType, k);
      var inTail := exists i :: 0 <= i < |items[1..]| && items[1..][i].0 == k && filterable(k) && belongs(k);
      var inAll := exists i :: 0 <= i < |items| && items[i].0 == k && filterable(k) && belongs(k);
      if inTail {
        var i :| 0 <= i < |items[1..]| && items[1..][i].0 == k && filterable(k) && belongs(k);
        assert items[i + 1].0 == k;
      }
      if inAll {
        var i :| 0 <= i < |items| && items[i].0 == k && filterable(k) && belongs(k);
        if i > 0 {
          assert items[1..][i - 1].0 == k;
        }
      }
      assert inAll <==> inTail || (k0 == k && filterable(k) && belongs(k));
    }
  }

  /** A default that no item overrides keeps its default descriptor. */
  lemma {:induction false} BackendParamsKeepsDefault<T, D>(defaults: Dict<string, D>, items: seq<(string, T)>,
                                                           filterable: string -> bool, belongs: string -> bool,
                                                           fieldType: (string, T) -> D, k: string)
    requires forall i :: 0 <= i < |items| ==> items[i].0 != k
    ensures Get(BackendParams(defaults, items, filterable, belongs, fieldType), k) == Get(defaults, k)
    decreases |items|
  {
    if items != [] {
      var (k0, v0) := items[0];
      PutGet(defaults, k0, fieldType(k0, v0), k);
      var params := if filterable(k0) && belongs(k0) then Put(defaults, k0, fieldType(k0, v0)) else defaults;
      BackendParamsKeepsDefault(params, items[1..], filterable, belongs, fieldType, k);
    }
  }

  /** `get_backend_fields`: the loop that fills `params`, returned under the
      single key `prefix`. */
  method GetBackendFields<T, D>(prefix: string, defaults: Dict<string, D>, items: seq<(string, T)>,
                                filterable: string -> bool, belongs: string -> bool,
                                fieldType: (string, T) -> D)
    returns (r: Dict<string, Dict<string, D>>)
    ensures r == [(prefix, BackendParams(defaults, items, filterable, belongs, fieldType))]
  {
    var params := defaults;
    var i := 0;
    while i < |items|
      invariant 0 <= i <= |items|
      invariant BackendParams(params, items[i..], filterable, belongs, fieldType) ==
        BackendParams(defaults, items, filterable, belongs, fieldType)
    {
      var (k, v) := items[i];
      assert items[i..][1..] == items[i + 1..];
      if filterable(k) {
        if belongs(k) {
          params := Put(params, k, fieldType(k, v));
        }
      }
      i := i + 1;
    }
    r := [(prefix, params)];
  }

  /** `get_backend_query_fields` of the faceted-search, aggregations and
      highlight backends: the requestable names form an enum whose members
      are the filterable configured fields, each its own value, under the
      single argument named after the prefix. */
  method EnumQueryFields<T>(prefix: string, items: seq<(string, T)>, filterable: string -> bool, config: Value)
    returns (r: Dict<string, Dict<string, string>>)
    ensures |r| == 1 && r[0].0 == prefix
    ensures forall k :: HasKey(r[0].1, k) <==> exists i :: 0 <= i < |items| && items[i].0 == k && filterable(k) && HasField(config, k)
    ensures forall k :: HasKey(r[0].1, k) ==> Get(r[0].1, k) == Some(k)
  {
    r := GetBackendFields(prefix, [], items, filterable, n => HasField(config, n), (k, v) => k);
    forall k ensures HasKey(r[0].1, k) <==> exists i :: 0 <= i < |items| && items[i].0 == k && filterable(k) && HasField(config, k) {
      BackendParamsKeys([], items, filterable, n => HasField(config, n), (k, v) => k, k);
    }
    forall k | HasKey(r[0].1, k) ensures Get(r[0].1, k) == Some(k) {
      EnumValuesAreNames([], items, filterable, n => HasField(config, n), k);
    }
  }

  /** Every member of the enum maps to its own name. */
  lemma {:induction false} EnumValuesAreNames<T>(defaults: Dict<string, string>, items: seq<(string, T)>,
                                                 filterable: string -> bool, belongs: string -> bool, k: string)
    requires forall j :: HasKey(defaults, j) ==> Get(defaults, j) == Some(j)
    ensures HasKey(BackendParams(defaults, items, filterable, belongs, (k, v) => k), k) ==>
      Get(BackendParams(defaults, items, filterable, belongs, (k, v) => k), k) == Some(k)
    decreases |items|
  {
    if items != [] {
      var (k0, v0) := items[0];
      PutProperties(defaults, k0, k0);
      var params := if filterable(k0) && belongs(k0) then Put(defaults, k0, k0) else defaults;
      EnumValuesAreNames(params, items[1..], filterable, belongs, k);
    }
  }

  /** `split_lookup_name`. The pieces joined with the separator give the value
      back, and no piece contains the separator. */
  function SplitLookupName(value: string): (parts: seq<string>)
    ensures |parts| >= 1 && Join(parts, C.SEPARATOR_LOOKUP_NAME) == value
    ensures forall i :: 0 <= i < |parts| ==> !Contains(parts[i], C.SEPARATOR_LOOKUP_NAME)
    ensures forall i :: 0 <= i < |parts| - 1 ==> !Contains(parts[i] + "_", C.SEPARATOR_LOOKUP_NAME)
  {
    SplitJoin(value, C.SEPARATOR_LOOKUP_NAME);
    SplitPiecesFree(value, C.SEPARATOR_LOOKUP_NAME);
    SplitLeftmost(value, C.SEPARATOR_LOOKUP_NAME);
    assert C.SEPARATOR_LOOKUP_NAME[..1] == "_";
    Split(value, C.SEPARATOR_LOOKUP_NAME)
  }

  /** A run of three underscores is cut at its first two: `a___b` names
      `a` and `_b`, not `a_` and `b`. */
  lemma SplitLookupNameLeftmost()
    ensures SplitLookupName("a___b") == ["a", "_b"]
  {
    var s := "a___b";
    assert s[0..2] != "__" by { assert s[0..2][0] == 'a'; }
    assert s[1..3] == "__";
    assert IndexFrom(s, "__", 0) == 1;
    assert s[3..] == "_b";
    assert "_b"[0..2] != "__" by { assert "_b"[0..2][1] == 'b'; }
    assert IndexFrom("_b", "__", 0) == 2;
    assert Split("_b", "__") == ["_b"];
    assert s[..1] == "a";
    assert Split(s, "__") == [s[..1]] + Split(s[3..], "__");
  }

  /** `split_lookup_filter`. */
  function SplitLookupFilter(value: string): (parts: seq<string>)
    ensures |parts| >= 1 && Join(parts, C.SEPARATOR_LOOKUP_FILTER) == value
    ensures forall i :: 0 <= i < |parts| ==> !Contains(parts[i], C.SEPARATOR_LOOKUP_FILTER)
  {
    SplitJoin(value, C.SEPARATOR_LOOKUP_FILTER);
    SplitPiecesFree(value, C.SEPARATOR_LOOKUP_FILTER);
    Split(value, C.SEPARATOR_LOOKUP_FILTER)
  }

  /** `split_lookup_complex_value`. */
  function SplitLookupComplexValue(value: string): (parts: seq<string>)
    ensures |parts| >= 1 && Join(parts, C.SEPARATOR_LOOKUP_COMPLEX_VALUE) == value
    ensures forall i :: 0 <= i < |parts| ==> !Contains(parts[i], C.SEPARATOR_LOOKUP_COMPLEX_VALUE)
  {
    SplitJoin(value, C.SEPARATOR_LOOKUP_COMPLEX_VALUE);
    SplitPiecesFree(value, C.SEPARATOR_LOOKUP_COMPLEX_VALUE);
    Split(value, C.SEPARATOR_LOOKUP_COMPLEX_VALUE)
  }

  /** `split_lookup_complex_multiple_value`. */
  function SplitLookupComplexMultipleValue(value: string): (parts: seq<string>)
    ensures |parts| >= 1 && Join(parts, C.SEPARATOR_LOOKUP_COMPLEX_MULTIPLE_VALUE) == value
    ensures forall i :: 0 <= i < |parts| ==> !Contains(parts[i], C.SEPARATOR_LOOKUP_COMPLEX_MULTIPLE_VALUE)
  {
    SplitJoin(value, C.SEPARATOR_LOOKUP_COMPLEX_MULTIPLE_VALUE);
    SplitPiecesFree(value, C.SEPARATOR_LOOKUP_COMPLEX_MULTIPLE_VALUE);
    Split(value, C.SEPARATOR_LOOKUP_COMPLEX_MULTIPLE_VALUE)
  }

  /** `apply_filter`: missing `args`/`kwargs` are empty; the clause goes to
      filter context and nothing else in the request changes. */
  function ApplyFilter(qs: Search, args: Option<seq<Arg>>, kwargs: Option<Dict<string, Value>>): (r: Result<Search>)
    ensures var q := MakeQ(args.GetOr([]), kwargs.GetOr([]));
      (r.Ok? <==> q.Ok?) &&
      (r.Ok? ==> r.value == qs.(filters := qs.filters + [q.value]))
  {
    FilterCall(qs, args.GetOr([]), kwargs.GetOr([]))
  }

  /** `apply_query`: the same in query context. */
  function ApplyQuery(qs: Search, args: Option<seq<Arg>>, kwargs: Option<Dict<string, Value>>): (r: Result<Search>)
    ensures var q := MakeQ(args.GetOr([]), kwargs.GetOr([]));
      (r.Ok? <==> q.Ok?) &&
      (r.Ok? ==> r.value == qs.(queries := qs.queries + [q.value]))
  {
    QueryCall(qs, args.GetOr([]), kwargs.GetOr([]))
  }
}
