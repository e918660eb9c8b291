/** `SearchFilterBackend` and the match-style query backends: normalising
    `search_fields`, building one match clause per searched field, and adding
    them to the request as a single `bool` query. The `match` and
    `match_phrase_prefix` query backends run the same construction with a
    different clause kind, so it is written once, parameterised by `kind`. */
module SearchCommon {
  import opened Wrappers
  import opened Dicts
  import opened Values
  import opened Query
  import opened FilteringCommon
  import opened BackendBase
  import C = Constants

  const PREFIX := "search"
  const MATCH := "match"
  const MATCH_PHRASE_PREFIX := "match_phrase_prefix"

  /** One configured search field after `prepare_search_fields`: `None` or a
      string becomes `{"field": options or name}`; a dict keeps its keys and
      gains `field = name` when it has none. Other values fail the
      `"field" in options` test or the item assignment. */
  function PreparedEntry(name: string, options: Value): (r: Result<Value>)
    ensures options.Null? ==> r == Ok(Obj([("field", Str(name))]))
    ensures options.Str? ==> r == Ok(Obj([("field", if options.s != "" then options else Str(name))]))
    ensures options.Obj? ==> (r.Ok? && r.value.Obj? &&
      Get(r.value.fields, "field") == (if HasField(options, "field") then Get(options.fields, "field") else Some(Str(name))) &&
      forall k :: k != "field" ==> Get(r.value.fields, k) == Get(options.fields, k))
    ensures options.Bool? || options.Int? ==> r == Err(TypeError)
  {
    if options.Null? then Ok(Obj([("field", Str(name))]))
    else if options.Str? then Ok(Obj([("field", if options.s != "" then options else Str(name))]))
    else
      var has :- PyContains(options, "field");
      if has then Ok(options)
      else if options.Obj? then
        PutProperties(options.fields, "field", Str(name));
        Ok(Obj(Put(options.fields, "field", Str(name))))
      else Err(TypeError)
  }

  /** The configured option after preparation: `prepare_search_fields` adds
      `field` to a dict option in place, since it stores the configured dict
      itself rather than a copy. */
  function MutatedOption(name: string, options: Value): Value {
    if options.Obj? && !HasField(options, "field") then Obj(Put(options.fields, "field", Str(name))) else options
  }

  /** The in-place addition does not change what preparation yields, and it
      happens at most once. */
  lemma MutationIsStable(name: string, options: Value)
    ensures PreparedEntry(name, MutatedOption(name, options)) == PreparedEntry(name, options)
    ensures MutatedOption(name, MutatedOption(name, options)) == MutatedOption(name, options)
  {
    if options.Obj? && !HasField(options, "field") {
      PutProperties(options.fields, "field", Str(name));
    }
  }

  /** The loop of `prepare_search_fields` over the configured entries. */
  function PrepareFrom(acc: Dict<string, Value>, entries: Dict<string, Value>): (r: Result<Dict<string, Value>>)
    decreases |entries|
  {
    if entries == [] then Ok(acc)
    else
      var e :- PreparedEntry(entries[0].0, entries[0].1);
      PrepareFrom(Put(acc, entries[0].0, e), entries[1..])
  }

  /** `prepare_search_fields`: `{}` without a truthy `search` bucket;
      otherwise every configured field, prepared. */
  function SearchFields(args: Dict<string, Value>, prefix: string, config: Value): (r: Result<Dict<string, Value>>)
    ensures !Truthy(GetOr(args, prefix, Null)) ==> r == Ok([])
    ensures Truthy(GetOr(args, prefix, Null)) && !config.Obj? ==> r == Err(AttributeError)
  {
    if !Truthy(GetOr(args, prefix, Null)) then Ok([])
    else if !config.Obj? then Err(AttributeError)
    else PrepareFrom([], config.fields)
  }

  /** Every configured field is prepared from its own option, and no other
      name appears. */
  lemma {:induction false} PrepareFromGet(acc: Dict<string, Value>, entries: Dict<string, Value>, k: string)
    requires Distinct(entries) && PrepareFrom(acc, entries).Ok?
    ensures HasKey(entries, k) ==> (PreparedEntry(k, Get(entries, k).value).Ok? &&
              Get(PrepareFrom(acc, entries).value, k) == Some(PreparedEntry(k, Get(entries, k).value).value))
    ensures !HasKey(entries, k) ==> Get(PrepareFrom(acc, entries).value, k) == Get(acc, k)
    decreases |entries|
  {
    if entries != [] {
      var e := PreparedEntry(entries[0].0, entries[0].1).value;
      var acc' := Put(acc, entries[0].0, e);
      assert Distinct(entries[1..]);
      PrepareFromGet(acc', entries[1..], k);
      PutGet(acc, entries[0].0, e, k);
      if entries[0].0 == k {
        FindUnique(entries, k, 0);
        assert !HasKey(entries[1..], k) by {
          forall j | 0 <= j < |entries[1..]| ensures entries[1..][j].0 != k {
            assert entries[j + 1].0 != entries[0].0;
          }
        }
      } else if HasKey(entries[1..], k) {
        FindUnique(entries, k, Find(entries[1..], k) + 1);
      } else {
        FindUnique(entries, k, |entries|);
      }
    }
  }

  /** Options that are `None`, strings or dicts always prepare. */
  lemma {:induction false} PrepareFromOk(acc: Dict<string, Value>, entries: Dict<string, Value>)
    requires forall i :: 0 <= i < |entries| ==> entries[i].1.Null? || entries[i].1.Str? || entries[i].1.Obj?
    ensures PrepareFrom(acc, entries).Ok?
    decreases |entries|
  {
    if entries != [] {
      var e := PreparedEntry(entries[0].0, entries[0].1).value;
      PrepareFromOk(Put(acc, entries[0].0, e), entries[1..]);
    }
  }

  /** The configuration as `prepare_search_fields` leaves it. */
  function MutatedConfig(entries: Dict<string, Value>): (r: Dict<string, Value>)
    ensures |r| == |entries|
    ensures forall i :: 0 <= i < |entries| ==> r[i] == (entries[i].0, MutatedOption(entries[i].0, entries[i].1))
  {
    seq(|entries|, i requires 0 <= i < |entries| => (entries[i].0, MutatedOption(entries[i].0, entries[i].1)))
  }

  /** Preparing the configuration it has already mutated gives the same
      fields: the side effect is invisible to later requests. */
  lemma {:induction false} PrepareAfterMutation(acc: Dict<string, Value>, entries: Dict<string, Value>)
    ensures PrepareFrom(acc, MutatedConfig(entries)) == PrepareFrom(acc, entries)
    decreases |entries|
  {
    if entries != [] {
      var m := MutatedConfig(entries);
      MutationIsStable(entries[0].0, entries[0].1);
      assert m[1..] == MutatedConfig(entries[1..]);
      var e := PreparedEntry(entries[0].0, entries[0].1);
      if e.Ok? {
        PrepareAfterMutation(Put(acc, entries[0].0, e.value), entries[1..]);
      }
    }
  }

  /** The loop of `prepare_search_fields`, returning the configuration
      entries as the in-place updates leave them. */
  method PrepareSearchFields(args: Dict<string, Value>, prefix: string, config: Value)
    returns (r: Result<Dict<string, Value>>, config': Value)
    ensures r == SearchFields(args, prefix, config)
    ensures r.Ok? && Truthy(GetOr(args, prefix, Null)) ==> config' == Obj(MutatedConfig(config.fields))
    ensures !Truthy(GetOr(args, prefix, Null)) ==> config' == config
  {
    config' := config;
    if !Truthy(GetOr(args, prefix, Null)) {
      return Ok([]), config';
    }
    if !config.Obj? {
      return Err(AttributeError), config';
    }
    var entries := config.fields;
    var prepared: Dict<string, Value> := [];
    var i := 0;
    while i < |entries|
      invariant 0 <= i <= |entries|
      invariant PrepareFrom(prepared, entries[i..]) == PrepareFrom([], entries)
      invariant config'.Obj? && |config'.fields| == |entries|
      invariant forall j :: 0 <= j < i ==> config'.fields[j] == (entries[j].0, MutatedOption(entries[j].0, entries[j].1))
      invariant forall j :: i <= j < |entries| ==> config'.fields[j] == entries[j]
    {
      var (field, options) := entries[i];
      assert entries[i..][1..] == entries[i + 1..];
      var e := PreparedEntry(field, options);
      if e.Err? {
        return Err(e.error), config';
      }
      prepared := Put(prepared, field, e.value);
      config' := Obj(config'.fields[i := (field, MutatedOption(field, options))]);
      i := i + 1;
    }
    assert config'.fields == MutatedConfig(config.fields);
    return Ok(prepared), config';
  }

  /** The target field of a prepared option: its `field` entry, else the name. */
  function TargetField(name: string, options: Dict<string, Value>): Value {
    Get(options, "field").GetOr(Str(name))
  }

  /** The body of a match clause, `{"query": value}` updated with the
      options: a configured or supplied `query` option wins. */
  function MatchBody(value: Value, options: Dict<string, Value>): Dict<string, Value> {
    Update([("query", value)], options)
  }

  /** One clause of `construct_search` and the value the loop goes on with.
      The prepared option loses `field` (`copy(...).pop("field", name)`); a
      dict value gives up its `value` as the query (a missing one raises
      `KeyError`) and its other keys override the options. A non-string
      target cannot be a keyword argument. */
  function MatchClause(kind: string, name: string, options: Value, value: Value): (r: Result<(Clause, Value)>)
    ensures !options.Obj? ==> r == Err(TypeError)
    ensures value.Obj? && options.Obj? && !HasField(value, C.VALUE) ==> r == Err(KeyError)
    ensures value.Obj? && options.Obj? && HasField(value, C.VALUE) ==> (r.Ok? ==> r.value.1 == Field(value, C.VALUE).value)
    ensures !value.Obj? ==> (r.Ok? ==> r.value.1 == value)
    ensures r.Ok? ==> (r.value.0.Leaf? && r.value.0.kind == kind && |r.value.0.params| == 1 &&
      Str(r.value.0.params[0].0) == TargetField(name, options.fields))
  {
    if !options.Obj? then Err(TypeError)
    else
      var field := TargetField(name, options.fields);
      if value.Obj? && !HasField(value, C.VALUE) then Err(KeyError)
      else
        var query := if value.Obj? then Get(value.fields, C.VALUE).value else value;
        if !field.Str? then Err(TypeError)
        else Ok((Leaf(kind, [(field.s, Obj(MatchBody(query, MergedOptions(options.fields, value))))]), query))
  }

  /** The options a clause carries: the prepared option without `field`,
      updated with a dict value's keys other than `value`. */
  function MergedOptions(options: Dict<string, Value>, value: Value): Dict<string, Value> {
    var rest := Remove(options, "field");
    if value.Obj? then Update(rest, Remove(value.fields, C.VALUE)) else rest
  }

  /** A supplied key overrides the configured one; `field` is dropped unless
      the dict value supplies it again. */
  lemma MergedOptionsGet(options: Dict<string, Value>, value: Value, k: string)
    requires Distinct(options) && (value.Obj? ==> Distinct(value.fields))
    ensures Distinct(MergedOptions(options, value))
    ensures Get(MergedOptions(options, value), k) ==
      if value.Obj? && k != C.VALUE && HasField(value, k) then Get(value.fields, k)
      else if k == "field" then None
      else Get(options, k)
  {
    var rest := Remove(options, "field");
    RemoveProperties(options, "field");
    if value.Obj? {
      RemoveProperties(value.fields, C.VALUE);
      UpdateGet(rest, Remove(value.fields, C.VALUE), k);
      UpdateDistinct(rest, Remove(value.fields, C.VALUE));
    }
  }

  /** The clause body: `query` is the value unless the merged options carry
      their own `query`, and every other key is the merged option. */
  lemma MatchClauseBody(kind: string, name: string, options: Value, value: Value, k: string)
    requires options.Obj? && Distinct(options.fields)
    requires value.Obj? ==> Distinct(value.fields)
    requires MatchClause(kind, name, options, value).Ok?
    ensures var r := MatchClause(kind, name, options, value).value;
      var opts := MergedOptions(options.fields, value);
      r.0.params[0].1.Obj? &&
      Get(r.0.params[0].1.fields, k) == if k == "query" && !HasKey(opts, "query") then Some(r.1) else Get(opts, k)
  {
    MergedOptionsGet(options.fields, value, k);
    var query := MatchClause(kind, name, options, value).value.1;
    UpdateGet([("query", query)], MergedOptions(options.fields, value), k);
  }

  /** The `query` loop: one clause per configured name, in configuration
      order. A dict value gives up its `value` in the first round, and the
      rounds after it go on with that query. */
  function AllClauses(kind: string, names: seq<string>, prepared: Dict<string, Value>, value: Value): (r: Result<seq<Clause>>)
    ensures r.Ok? ==> |r.value| == |names|
    ensures r.Ok? ==> forall i :: 0 <= i < |r.value| ==> r.value[i].Leaf? && r.value[i].kind == kind
    decreases |names|
  {
    if names == [] then Ok([])
    else
      var options := Get(prepared, names[0]);
      if options.None? then Err(KeyError)
      else
        var pair :- MatchClause(kind, names[0], options.value, value);
        var rest :- AllClauses(kind, names[1..], prepared, pair.1);
        Ok([pair.0] + rest)
  }

  /** With a plain (non-dict) value every name gets the clause it would get
      on its own. */
  lemma {:induction false} AllClausesPlain(kind: string, names: seq<string>, prepared: Dict<string, Value>, value: Value)
    requires !value.Obj? && AllClauses(kind, names, prepared, value).Ok?
    ensures forall i :: 0 <= i < |names| ==> (HasKey(prepared, names[i]) &&
      MatchClause(kind, names[i], Get(prepared, names[i]).value, value).Ok? &&
      AllClauses(kind, names, prepared, value).value[i] == MatchClause(kind, names[i], Get(prepared, names[i]).value, value).value.0)
    decreases |names|
  {
    if names != [] {
      var pair := MatchClause(kind, names[0], Get(prepared, names[0]).value, value).value;
      assert pair.1 == value;
      AllClausesPlain(kind, names[1..], prepared, value);
      forall i | 1 <= i < |names| ensures names[i] == names[1..][i - 1] {
      }
    }
  }

  /** How many clauses a bucket key yields: one per configured name for
      `query`, one for a configured key, none otherwise. */
  function Handled(k: string, prepared: Dict<string, Value>, names: seq<string>): nat {
    if k == C.ALL then |names| else if HasKey(prepared, k) then 1 else 0
  }

  function HandledCount(params: Dict<string, Value>, prepared: Dict<string, Value>, names: seq<string>): nat
    decreases |params|
  {
    if params == [] then 0 else Handled(params[0].0, prepared, names) + HandledCount(params[1..], prepared, names)
  }

  /** The clauses one bucket key yields. */
  function KeyClauses(kind: string, k: string, v: Value, prepared: Dict<string, Value>, names: seq<string>): (r: Result<seq<Clause>>)
    ensures r.Ok? ==> |r.value| == Handled(k, prepared, names)
    ensures r.Ok? ==> forall i :: 0 <= i < |r.value| ==> r.value[i].Leaf? && r.value[i].kind == kind
  {
    if k == C.ALL then AllClauses(kind, names, prepared, v)
    else if HasKey(prepared, k) then
      var pair :- MatchClause(kind, k, Get(prepared, k).value, v);
      Ok([pair.0])
    else Ok([])
  }

  /** `construct_search` over the items of the bucket, in order. */
  function ConstructFrom(kind: string, params: Dict<string, Value>, prepared: Dict<string, Value>, names: seq<string>): (r: Result<seq<Clause>>)
    decreases |params|
  {
    if params == [] then Ok([])
    else
      var here :- KeyClauses(kind, params[0].0, params[0].1, prepared, names);
      var rest :- ConstructFrom(kind, params[1..], prepared, names);
      Ok(here + rest)
  }

  /** Every clause has the backend's kind, and there are exactly as many as
      the handled keys ask for. */
  lemma {:induction false} ConstructFromShape(kind: string, params: Dict<string, Value>, prepared: Dict<string, Value>, names: seq<string>)
    requires ConstructFrom(kind, params, prepared, names).Ok?
    ensures |ConstructFrom(kind, params, prepared, names).value| == HandledCount(params, prepared, names)
    ensures forall i :: 0 <= i < |ConstructFrom(kind, params, prepared, names).value| ==>
      ConstructFrom(kind, params, prepared, names).value[i].Leaf? && ConstructFrom(kind, params, prepared, names).value[i].kind == kind
    decreases |params|
  {
    if params != [] {
      ConstructFromShape(kind, params[1..], prepared, names);
    }
  }

  /** Keys that are neither `query` nor configured contribute nothing. */
  lemma {:induction false} UnhandledKeysIgnored(kind: string, params: Dict<string, Value>, prepared: Dict<string, Value>, names: seq<string>)
    requires forall i :: 0 <= i < |params| ==> params[i].0 != C.ALL && !HasKey(prepared, params[i].0)
    ensures ConstructFrom(kind, params, prepared, names) == Ok([])
    decreases |params|
  {
    if params != [] {
      assert KeyClauses(kind, params[0].0, params[0].1, prepared, names) == Ok([]);
      UnhandledKeysIgnored(kind, params[1..], prepared, names);
      var none: seq<Clause> := [];
      assert none + none == none;
    }
  }

  /** The bucket after `construct_search`: each dict value it consumed has
      lost its `value` key, since the clauses pop it from the argument
      itself. Only the top-level dict is tracked. */
  function PoppedEntry(k: string, v: Value, prepared: Dict<string, Value>, names: seq<string>): Value {
    if v.Obj? && Handled(k, prepared, names) > 0 then Obj(Remove(v.fields, C.VALUE)) else v
  }

  function Popped(params: Dict<string, Value>, prepared: Dict<string, Value>, names: seq<string>): (r: Dict<string, Value>)
    ensures |r| == |params|
    ensures forall i :: 0 <= i < |params| ==> r[i] == (params[i].0, PoppedEntry(params[i].0, params[i].1, prepared, names))
  {
    seq(|params|, i requires 0 <= i < |params| => (params[i].0, PoppedEntry(params[i].0, params[i].1, prepared, names)))
  }

  /** A bucket without dict values is not changed by the pops. */
  lemma PoppedPlain(params: Dict<string, Value>, prepared: Dict<string, Value>, names: seq<string>)
    requires forall i :: 0 <= i < |params| ==> !params[i].1.Obj?
    ensures Popped(params, prepared, names) == params
  {
  }

  /** The clauses of one bucket item; for `query`, the inner loop over the
      configured names, carrying the value from round to round. */
  method ConstructKey(kind: string, k: string, v: Value, prepared: Dict<string, Value>, names: seq<string>)
    returns (r: Result<seq<Clause>>)
    ensures r == KeyClauses(kind, k, v, prepared, names)
  {
    if k == C.ALL {
      var here: seq<Clause> := [];
      var value := v;
      var n := 0;
      assert names[0..] == names;
      PrependNothing(AllClauses(kind, names, prepared, v));
      while n < |names|
        invariant 0 <= n <= |names|
        invariant AllClauses(kind, names, prepared, v) == Prepend(here, AllClauses(kind, names[n..], prepared, value))
      {
        assert names[n..][1..] == names[n + 1..];
        var options := Get(prepared, names[n]);
        if options.None? {
          return Err(KeyError);
        }
        var c := MatchClause(kind, names[n], options.value, value);
        if c.Err? {
          return Err(c.error);
        }
        assert AllClauses(kind, names[n..], prepared, value) == Prepend([c.value.0], AllClauses(kind, names[n + 1..], prepared, c.value.1));
        PrependTwice(here, [c.value.0], AllClauses(kind, names[n + 1..], prepared, c.value.1));
        here := here + [c.value.0];
        value := c.value.1;
        n := n + 1;
      }
      assert names[n..] == [];
      assert here + [] == here;
      return Ok(here);
    } else if HasKey(prepared, k) {
      var c := MatchClause(kind, k, Get(prepared, k).value, v);
      if c.Err? {
        return Err(c.error);
      }
      return Ok([c.value.0]);
    }
    return Ok([]);
  }

  /** The outer loop of `construct_search` over the bucket. Returns the
      clauses and the bucket as the pops leave it. */
  method ConstructSearch(kind: string, params: Dict<string, Value>, prepared: Dict<string, Value>, names: seq<string>)
    returns (r: Result<seq<Clause>>, params': Dict<string, Value>)
    ensures r == ConstructFrom(kind, params, prepared, names)
    ensures r.Ok? ==> params' == Popped(params, prepared, names)
  {
    params' := params;
    var queries: seq<Clause> := [];
    var i := 0;
    assert params[0..] == params;
    PrependNothing(ConstructFrom(kind, params, prepared, names));
    while i < |params|
      invariant 0 <= i <= |params| && |params'| == |params|
      invariant forall j :: 0 <= j < i ==> params'[j] == (params[j].0, PoppedEntry(params[j].0, params[j].1, prepared, names))
      invariant forall j :: i <= j < |params| ==> params'[j] == params[j]
      invariant ConstructFrom(kind, params, prepared, names) == Prepend(queries, ConstructFrom(kind, params[i..], prepared, names))
    {
      var (k, v) := params[i];
      assert params[i..][1..] == params[i + 1..];
      var here := ConstructKey(kind, k, v, prepared, names);
      if here.Err? {
        return Err(here.error), params';
      }
      assert ConstructFrom(kind, params[i..], prepared, names) == Prepend(here.value, ConstructFrom(kind, params[i + 1..], prepared, names));
      PrependTwice(queries, here.value, ConstructFrom(kind, params[i + 1..], prepared, names));
      params' := params'[i := (k, PoppedEntry(k, v, prepared, names))];
      queries := queries + here.value;
      i := i + 1;
    }
    assert params[i..] == [];
    assert queries + [] == queries;
    assert params' == Popped(params, prepared, names);
    return Ok(queries), params';
  }

  /** `get_all_query_params`: a falsy bucket reads as `{}`; a truthy bucket
      that is not a dict cannot be iterated with `.items()`. */
  function AllQueryParams(args: Dict<string, Value>, prefix: string): (r: Result<Dict<string, Value>>)
    ensures !Truthy(GetOr(args, prefix, Null)) ==> r == Ok([])
    ensures GetOr(args, prefix, Null).Obj? ==> r == Ok(GetOr(args, prefix, Null).fields)
    ensures r.Err? <==> Truthy(GetOr(args, prefix, Null)) && !GetOr(args, prefix, Null).Obj?
  {
    var bucket := GetOr(args, prefix, Null);
    if !Truthy(bucket) then Ok([])
    else if bucket.Obj? then Ok(bucket.fields)
    else Err(AttributeError)
  }

  /** `SearchFilterBackend.filter`: the match clauses as one `bool` query
      with `should`, and the request unchanged when there are none. */
  function SearchFilter(qs: Search, args: Dict<string, Value>, config: Value): (r: Result<Search>)
    ensures r.Ok? ==> r.value.(queries := qs.queries) == qs
    ensures r.Ok? ==> |qs.queries| <= |r.value.queries| <= |qs.queries| + 1 && r.value.queries[..|qs.queries|] == qs.queries
    ensures SearchFields(args, PREFIX, config).Err? ==> r == Err(SearchFields(args, PREFIX, config).error)
  {
    var prepared :- SearchFields(args, PREFIX, config);
    var params :- AllQueryParams(args, PREFIX);
    var clauses :- ConstructFrom(MATCH, params, prepared, if config.Obj? then Keys(config.fields) else []);
    if clauses == [] then Ok(qs) else Ok(AddQuery(qs, Clause.Bool(C.MATCHING_OPTION_SHOULD, clauses)))
  }

  /** A non-empty `bool` query under `occur` whose clauses all have `kind`. */
  predicate IsBoolOf(q: Clause, occur: string, kind: string) {
    q.Bool? && q.occur == occur && q.clauses != [] &&
    forall i :: 0 <= i < |q.clauses| ==> q.clauses[i].Leaf? && q.clauses[i].kind == kind
  }

  /** What the search backend adds: nothing without a search bucket, and
      otherwise at most one `should` query holding one match clause per
      handled key; nothing but the queries changes. */
  lemma SearchFilterEffect(qs: Search, args: Dict<string, Value>, config: Value)
    requires SearchFilter(qs, args, config).Ok?
    ensures !Truthy(GetOr(args, PREFIX, Null)) ==> SearchFilter(qs, args, config) == Ok(qs)
    ensures var r := SearchFilter(qs, args, config).value;
      r == qs || (r == AddQuery(qs, r.queries[|r.queries| - 1]) && IsBoolOf(r.queries[|r.queries| - 1], "should", MATCH))
  {
    var params := AllQueryParams(args, PREFIX).value;
    var prepared := SearchFields(args, PREFIX, config).value;
    var names := if config.Obj? then Keys(config.fields) else [];
    ConstructFromShape(MATCH, params, prepared, names);
  }

  /** The prepared fields of a configuration are keyed by its names, so the
      `query` loop finds every one of them. */
  lemma PreparedCoversNames(args: Dict<string, Value>, config: Value)
    requires config.Obj? && Distinct(config.fields)
    requires Truthy(GetOr(args, PREFIX, Null)) && SearchFields(args, PREFIX, config).Ok?
    ensures forall n :: n in Keys(config.fields) ==> HasKey(SearchFields(args, PREFIX, config).value, n)
  {
    forall n | n in Keys(config.fields) ensures HasKey(SearchFields(args, PREFIX, config).value, n) {
      HasKeyKeys(config.fields, n);
      PrepareFromGet([], config.fields, n);
    }
  }

  /** `get_backend_default_fields_params`: the only default argument is
      `query`, typed `String`. */
  const DEFAULT_PARAMS: Dict<string, string> := [(C.ALL, "String")]

  /** The arguments of the search bucket are `query` and the filterable items
      configured as search fields. */
  lemma SearchArgumentKeys(items: seq<(string, string)>, filterable: string -> bool, config: Value,
                           fieldType: (string, string) -> string, k: string)
    ensures HasKey(BackendParams(DEFAULT_PARAMS, items, filterable, n => HasField(config, n), fieldType), k) <==>
      k == C.ALL || exists i :: 0 <= i < |items| && items[i].0 == k && filterable(k) && HasField(config, k)
  {
    BackendParamsKeys(DEFAULT_PARAMS, items, filterable, n => HasField(config, n), fieldType, k);
  }
}
