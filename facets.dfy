/** `FacetedSearchFilterBackend` and `AggregationsFilterBackend`: normalising
    the configured facets, choosing the enabled or requested ones, and adding
    one aggregation bucket per facet to the request. The two backends run
    the same code under different prefixes (`facets`, `aggregations`), so it
    is written once, parameterised by the prefix.

    A facet class is carried by the aggregation type it builds: the default
    `TermsFacet` is `Str("terms")`, and `facet(field=..., **options)` followed
    by `get_aggregation()` is the aggregation of that type with the field and
    the options as parameters. */
module Facets {
  import opened Wrappers
  import opened Dicts
  import opened Values
  import opened Query
  import opened FilteringCommon
  import opened BackendBase

  const FACETS_PREFIX := "facets"
  const AGGREGATIONS_PREFIX := "aggregations"

  /** `TermsFacet`, the default facet class. */
  const TERMS_FACET: Value := Str("terms")

  /** `Q("match_all")`, the filter of a non-global facet bucket. */
  const MATCH_ALL_FILTER: Value := Obj([("match_all", Obj([]))])

  /** The `field` a configured option normalises to: a string option names
      it (an empty one falls back to the name), a dict keeps its own. */
  function BaseField(name: string, options: Value): Value {
    if options.Obj? then GetOr(options.fields, "field", Str(name))
    else if options.Str? && options.s != "" then options
    else Str(name)
  }

  /** The first step of the loop body: `None` and strings become
      `{"field": options or name}`, a dict gains `field` when it lacks one,
      and any other value fails the `in` test or the item assignment. */
  function BaseEntry(name: string, options: Value): (r: Result<Dict<string, Value>>)
    ensures r.Ok? <==> options.Null? || options.Str? || options.Obj?
    ensures r.Err? ==> r.error == TypeError
  {
    if options.Null? || options.Str? then Ok([("field", BaseField(name, options))])
    else if options.Obj? then
      if HasKey(options.fields, "field") then Ok(options.fields) else Ok(Put(options.fields, "field", Str(name)))
    else Err(TypeError)
  }

  /** One configured facet after the loop body of `prepare_*_fields`:
      `enabled` is set from the presence of an `enabled` key (whatever its
      value) or the name being requested; `facet`, `options` and `global`
      get their defaults. */
  function NormalisedEntry(name: string, options: Value, requested: Value): Result<Value> {
    var d :- BaseEntry(name, options);
    var enabled :- if HasKey(d, "enabled") then Ok(true) else PyContains(requested, name);
    Ok(Obj(WithDefaults(d, enabled)))
  }

  /** The rest of the loop body: `enabled` is overwritten, `facet` and
      `options` are added when missing, `global` is rewritten with its
      default. */
  function WithDefaults(d: Dict<string, Value>, enabled: bool): Dict<string, Value> {
    var d1 := Put(d, "enabled", Value.Bool(enabled));
    var d3 := PutDefault(PutDefault(d1, "facet", TERMS_FACET), "options", Obj([]));
    Put(d3, "global", GetOr(d3, "global", Value.Bool(false)))
  }

  lemma WithDefaultsFields(d: Dict<string, Value>, enabled: bool, k: string)
    requires Distinct(d)
    ensures var e := WithDefaults(d, enabled);
      Distinct(e) &&
      Get(e, "enabled") == Some(Value.Bool(enabled)) &&
      Get(e, "facet") == Some(GetOr(d, "facet", TERMS_FACET)) &&
      Get(e, "options") == Some(GetOr(d, "options", Obj([]))) &&
      Get(e, "global") == Some(GetOr(d, "global", Value.Bool(false))) &&
      (k !in ["enabled", "facet", "options", "global"] ==> Get(e, k) == Get(d, k))
  {
    var d1 := Put(d, "enabled", Value.Bool(enabled));
    var d2 := PutDefault(d1, "facet", TERMS_FACET);
    var d3 := PutDefault(d2, "options", Obj([]));
    PutDistinct(d, "enabled", Value.Bool(enabled));
    PutDistinct(d1, "facet", TERMS_FACET);
    PutDistinct(d2, "options", Obj([]));
    PutDistinct(d3, "global", GetOr(d3, "global", Value.Bool(false)));
    WithDefaultsGet(d, enabled, "enabled");
    WithDefaultsGet(d, enabled, "facet");
    WithDefaultsGet(d, enabled, "options");
    WithDefaultsGet(d, enabled, "global");
    WithDefaultsGet(d, enabled, k);
  }

  /** The defaults seen from one key. */
  lemma WithDefaultsGet(d: Dict<string, Value>, enabled: bool, q: string)
    ensures Get(WithDefaults(d, enabled), q) ==
      if q == "enabled" then Some(Value.Bool(enabled))
      else if q == "facet" then Some(GetOr(d, "facet", TERMS_FACET))
      else if q == "options" then Some(GetOr(d, "options", Obj([])))
      else if q == "global" then Some(GetOr(d, "global", Value.Bool(false)))
      else Get(d, q)
  {
    var d1 := Put(d, "enabled", Value.Bool(enabled));
    var d2 := PutDefault(d1, "facet", TERMS_FACET);
    var d3 := PutDefault(d2, "options", Obj([]));
    PutGet(d, "enabled", Value.Bool(enabled), "facet");
    PutGet(d, "enabled", Value.Bool(enabled), "options");
    PutGet(d, "enabled", Value.Bool(enabled), "global");
    PutDefaultGet(d1, "facet", TERMS_FACET, "options");
    PutDefaultGet(d1, "facet", TERMS_FACET, "global");
    PutDefaultGet(d2, "options", Obj([]), "global");
    PutGet(d3, "global", GetOr(d3, "global", Value.Bool(false)), q);
    PutDefaultGet(d2, "options", Obj([]), q);
    PutDefaultGet(d1, "facet", TERMS_FACET, q);
    PutGet(d, "enabled", Value.Bool(enabled), q);
  }

  /** `name in requested` for the requested-facets argument. */
  predicate IsRequested(requested: Value, name: string) {
    PyContains(requested, name) == Ok(true)
  }

  /** The first step keeps every configured key but `field`. */
  lemma BaseEntryFields(name: string, options: Value, k: string)
    requires options.Obj? ==> Distinct(options.fields)
    requires BaseEntry(name, options).Ok?
    ensures var d := BaseEntry(name, options).value;
      Distinct(d) && Get(d, "field") == Some(BaseField(name, options)) &&
      (k != "field" ==> Get(d, k) == Field(options, k))
  {
    if options.Obj? {
      assert BaseEntry(name, options).value == PutDefault(options.fields, "field", Str(name));
      PutDefaultGet(options.fields, "field", Str(name), "field");
      PutDefaultGet(options.fields, "field", Str(name), k);
      PutDistinct(options.fields, "field", Str(name));
    }
  }

  /** What a normalised facet holds: its field, the enabled flag, the three
      defaults, and every other configured key unchanged. */
  lemma NormalisedEntryFields(name: string, options: Value, requested: Value, k: string)
    requires options.Obj? ==> Distinct(options.fields)
    requires NormalisedEntry(name, options, requested).Ok?
    ensures var e := NormalisedEntry(name, options, requested).value;
      e.Obj? && Distinct(e.fields) &&
      Get(e.fields, "field") == Some(BaseField(name, options)) &&
      Get(e.fields, "enabled") == Some(Value.Bool(HasField(options, "enabled") || IsRequested(requested, name))) &&
      Get(e.fields, "facet") == Some(FieldOr(options, "facet", TERMS_FACET)) &&
      Get(e.fields, "options") == Some(FieldOr(options, "options", Obj([]))) &&
      Get(e.fields, "global") == Some(FieldOr(options, "global", Value.Bool(false))) &&
      (k !in ["field", "enabled", "facet", "options", "global"] ==> Get(e.fields, k) == Field(options, k))
  {
    NormalisedEntryShape(name, options, requested);
    DefaultedEntryFields(name, options, HasField(options, "enabled") || IsRequested(requested, name), k);
  }

  /** `WithDefaults` after `BaseEntry`, in terms of the configured options. */
  lemma DefaultedEntryFields(name: string, options: Value, enabled: bool, k: string)
    requires options.Obj? ==> Distinct(options.fields)
    requires BaseEntry(name, options).Ok?
    ensures var e := WithDefaults(BaseEntry(name, options).value, enabled);
      Distinct(e) &&
      Get(e, "field") == Some(BaseField(name, options)) &&
      Get(e, "enabled") == Some(Value.Bool(enabled)) &&
      Get(e, "facet") == Some(FieldOr(options, "facet", TERMS_FACET)) &&
      Get(e, "options") == Some(FieldOr(options, "options", Obj([]))) &&
      Get(e, "global") == Some(FieldOr(options, "global", Value.Bool(false))) &&
      (k !in ["field", "enabled", "facet", "options", "global"] ==> Get(e, k) == Field(options, k))
  {
    var d := BaseEntry(name, options).value;
    BaseEntryFields(name, options, k);
    BaseEntryFields(name, options, "facet");
    BaseEntryFields(name, options, "options");
    BaseEntryFields(name, options, "global");
    WithDefaultsFields(d, enabled, k);
    WithDefaultsGet(d, enabled, "field");
  }

  lemma NormalisedEntryShape(name: string, options: Value, requested: Value)
    requires options.Obj? ==> Distinct(options.fields)
    requires NormalisedEntry(name, options, requested).Ok?
    ensures NormalisedEntry(name, options, requested).value ==
      Obj(WithDefaults(BaseEntry(name, options).value, HasField(options, "enabled") || IsRequested(requested, name)))
  {
    var d := BaseEntry(name, options).value;
    BaseEntryFields(name, options, "enabled");
  }

  /** The loop of `prepare_*_fields` over the deep-copied configuration:
      every key keeps its position and gets its normalised value. */
  function NormaliseFrom(entries: Dict<string, Value>, requested: Value): Result<Dict<string, Value>>
    decreases |entries|
  {
    if entries == [] then Ok([])
    else
      var e :- NormalisedEntry(entries[0].0, entries[0].1, requested);
      var rest :- NormaliseFrom(entries[1..], requested);
      Ok([(entries[0].0, e)] + rest)
  }

  /** A successful normalisation has one entry per configured name, in
      order, each the normalised configuration. */
  lemma {:induction false} NormaliseFromEntries(entries: Dict<string, Value>, requested: Value)
    requires NormaliseFrom(entries, requested).Ok?
    ensures var r := NormaliseFrom(entries, requested).value;
      |r| == |entries| &&
      forall i :: 0 <= i < |entries| ==>
        NormalisedEntry(entries[i].0, entries[i].1, requested).Ok? &&
        r[i] == (entries[i].0, NormalisedEntry(entries[i].0, entries[i].1, requested).value)
    decreases |entries|
  {
    if entries != [] {
      var rest := NormaliseFrom(entries[1..], requested).value;
      var r := NormaliseFrom(entries, requested).value;
      assert r == [(entries[0].0, NormalisedEntry(entries[0].0, entries[0].1, requested).value)] + rest;
      NormaliseFromEntries(entries[1..], requested);
      forall i | 1 <= i < |entries|
        ensures NormalisedEntry(entries[i].0, entries[i].1, requested).Ok?
        ensures r[i] == (entries[i].0, NormalisedEntry(entries[i].0, entries[i].1, requested).value)
      {
        assert entries[i] == entries[1..][i - 1] && r[i] == rest[i - 1];
      }
    }
  }

  /** `prepare_*_fields`: `{}` when nothing is configured; the requested
      names come from the argument under the prefix, `[]` when absent. */
  function PrepareFacets(args: Dict<string, Value>, prefix: string, config: Value): (r: Result<Dict<string, Value>>)
    ensures !Truthy(config) ==> r == Ok([])
    ensures Truthy(config) && !config.Obj? ==> r == Err(AttributeError)
    ensures config.Obj? ==> r == NormaliseFrom(config.fields, GetOr(args, prefix, List([])))
  {
    if !Truthy(config) then Ok([])
    else if !config.Obj? then Err(AttributeError)
    else NormaliseFrom(config.fields, GetOr(args, prefix, List([])))
  }

  /** The in-place normalisation loop of `prepare_*_fields`: each value of
      the copied configuration is replaced by its normalised form. */
  method PrepareFacetFields(args: Dict<string, Value>, prefix: string, config: Value)
    returns (r: Result<Dict<string, Value>>)
    ensures r == PrepareFacets(args, prefix, config)
  {
    if !Truthy(config) {
      return Ok([]);
    }
    if !config.Obj? {
      return Err(AttributeError);
    }
    r := NormaliseInPlace(config.fields, GetOr(args, prefix, List([])));
  }

  /** The loop itself, over the copied entries. */
  method NormaliseInPlace(entries: Dict<string, Value>, requested: Value) returns (r: Result<Dict<string, Value>>)
    ensures r == NormaliseFrom(entries, requested)
  {
    var fields := entries;
    var i := 0;
    PrependNothing(NormaliseFrom(entries, requested));
    while i < |fields|
      invariant 0 <= i <= |fields| && |fields| == |entries|
      invariant fields[i..] == entries[i..]
      invariant NormaliseFrom(entries, requested) == Prepend(fields[..i], NormaliseFrom(entries[i..], requested))
    {
      var (name, options) := fields[i];
      OverwriteStep(fields, entries, i, (name, options));
      var e := NormalisedEntry(name, options, requested);
      NormaliseLoopStep(entries, requested, fields[..i], i);
      if e.Err? {
        return Err(e.error);
      }
      OverwriteStep(fields, entries, i, (name, e.value));
      fields := fields[i := (name, e.value)];
      i := i + 1;
    }
    PassDone(fields, entries, NormaliseFrom(entries, requested));
    return Ok(fields);
  }

  /** One iteration of the normalisation loop: the entry's failure ends it,
      and otherwise its normalised form joins the prefix already done. */
  lemma NormaliseLoopStep(entries: Dict<string, Value>, requested: Value, done: Dict<string, Value>, i: nat)
    requires i < |entries|
    requires NormaliseFrom(entries, requested) == Prepend(done, NormaliseFrom(entries[i..], requested))
    ensures var e := NormalisedEntry(entries[i].0, entries[i].1, requested);
      && (e.Err? ==> NormaliseFrom(entries, requested) == Err(e.error))
      && (e.Ok? ==> NormaliseFrom(entries, requested) == Prepend(done + [(entries[i].0, e.value)], NormaliseFrom(entries[i + 1..], requested)))
  {
    NormaliseFromStep(entries[i..], requested);
    assert entries[i..][1..] == entries[i + 1..];
    var e := NormalisedEntry(entries[i].0, entries[i].1, requested);
    if e.Ok? {
      PrependTwice(done, [(entries[i].0, e.value)], NormaliseFrom(entries[i + 1..], requested));
    }
  }

  /** One step of the normalisation: the first entry's failure is the
      outcome, and otherwise its normalised form comes first. */
  lemma NormaliseFromStep(entries: Dict<string, Value>, requested: Value)
    requires entries != []
    ensures var e := NormalisedEntry(entries[0].0, entries[0].1, requested);
      && (e.Err? ==> NormaliseFrom(entries, requested) == Err(e.error))
      && (e.Ok? ==> NormaliseFrom(entries, requested) == Prepend([(entries[0].0, e.value)], NormaliseFrom(entries[1..], requested)))
  {
  }

  /** A constructed facet: its aggregation and its `global` flag. */
  datatype Facet = Facet(agg: Aggregation, global: Value)

  /** `entry["facet"](field=entry["field"], **entry["options"])` and its
      `global` flag. */
  function MakeFacet(entry: Value): (r: Result<Facet>)
    ensures r.Ok? ==> r.value.agg.aggs == [] && Field(entry, "facet") == Some(Str(r.value.agg.kind))
    ensures r.Ok? ==> Get(r.value.agg.params, "field") == Field(entry, "field") && Some(r.value.global) == Field(entry, "global")
  {
    var facet :- Subscript(entry, "facet");
    var field :- Subscript(entry, "field");
    var options :- Subscript(entry, "options");
    if !options.Obj? || !facet.Str? || HasKey(options.fields, "field") then Err(TypeError)
    else
      var global :- Subscript(entry, "global");
      FindUnique([("field", field)] + options.fields, "field", 0);
      Ok(Facet(Agg(facet.s, [("field", field)] + options.fields, []), global))
  }

  /** `name in params or entry["enabled"]`, once `name in params` is known. */
  function Included(inParams: bool, entry: Value): (r: Result<bool>)
    ensures inParams ==> r == Ok(true)
    ensures !inParams && HasField(entry, "enabled") ==> r == Ok(Truthy(Field(entry, "enabled").value))
  {
    if inParams then Ok(true)
    else
      var e :- Subscript(entry, "enabled");
      Ok(Truthy(e))
  }

  function AddFacet(acc: Dict<string, Facet>, name: string, entry: Value): (r: Result<Dict<string, Facet>>)
    ensures r.Ok? <==> MakeFacet(entry).Ok?
    ensures r.Ok? ==> r.value == Put(acc, name, MakeFacet(entry).value)
  {
    var f :- MakeFacet(entry);
    Ok(Put(acc, name, f))
  }

  /** The loop of `construct_facets`: a prepared facet is kept when its
      name is in the query argument or its `enabled` flag is truthy. */
  function ConstructFrom(acc: Dict<string, Facet>, params: Value, prepared: Dict<string, Value>): (r: Result<Dict<string, Facet>>)
    decreases |prepared|
  {
    if prepared == [] then Ok(acc)
    else
      var name := prepared[0].0;
      var entry := prepared[0].1;
      var inParams :- PyContains(params, name);
      var keep :- Included(inParams, entry);
      var acc' :- if keep then AddFacet(acc, name, entry) else Ok(acc);
      ConstructFrom(acc', params, prepared[1..])
  }

  /** Whether `construct_facets` keeps a prepared entry: its name is in the
      query argument, or its `enabled` flag is truthy. */
  predicate Kept(params: Value, entry: Value, name: string) {
    PyContains(params, name) == Ok(true) || (HasField(entry, "enabled") && Truthy(Field(entry, "enabled").value))
  }

  /** One round of the loop. */
  lemma ConstructStep(acc: Dict<string, Facet>, params: Value, prepared: Dict<string, Value>)
    requires prepared != [] && ConstructFrom(acc, params, prepared).Ok?
    ensures PyContains(params, prepared[0].0).Ok?
    ensures Kept(params, prepared[0].1, prepared[0].0) ==> (MakeFacet(prepared[0].1).Ok? &&
      ConstructFrom(acc, params, prepared) == ConstructFrom(Put(acc, prepared[0].0, MakeFacet(prepared[0].1).value), params, prepared[1..]))
    ensures !Kept(params, prepared[0].1, prepared[0].0) ==>
      ConstructFrom(acc, params, prepared) == ConstructFrom(acc, params, prepared[1..])
  {
    var name := prepared[0].0;
    var entry := prepared[0].1;
    var inParams := PyContains(params, name);
    assert inParams.Ok?;
    if !inParams.value {
      assert Subscript(entry, "enabled").Ok?;
    }
  }

  /** A prepared name that is requested or enabled becomes a facet built
      from its own entry. */
  lemma {:induction false} ConstructFromKept(acc: Dict<string, Facet>, params: Value, prepared: Dict<string, Value>, name: string)
    requires Distinct(prepared) && ConstructFrom(acc, params, prepared).Ok?
    requires HasKey(prepared, name) && Kept(params, Get(prepared, name).value, name)
    ensures MakeFacet(Get(prepared, name).value).Ok?
    ensures Get(ConstructFrom(acc, params, prepared).value, name) == Some(MakeFacet(Get(prepared, name).value).value)
    decreases |prepared|
  {
    var n0 := prepared[0].0;
    var entry := prepared[0].1;
    ConstructStep(acc, params, prepared);
    var acc' := if Kept(params, entry, n0) then Put(acc, n0, MakeFacet(entry).value) else acc;
    if n0 == name {
      FindUnique(prepared, name, 0);
      PutGet(acc, n0, MakeFacet(entry).value, name);
      NotInTail(prepared);
      ConstructFromSkipped(acc', params, prepared[1..], name);
    } else {
      GetTail(prepared, name);
      NotInTail(prepared);
      ConstructFromKept(acc', params, prepared[1..], name);
    }
  }

  /** A name the loop does not keep keeps whatever the accumulator held. */
  lemma {:induction false} ConstructFromSkipped(acc: Dict<string, Facet>, params: Value, prepared: Dict<string, Value>, name: string)
    requires Distinct(prepared) && ConstructFrom(acc, params, prepared).Ok?
    requires HasKey(prepared, name) ==> !Kept(params, Get(prepared, name).value, name)
    ensures Get(ConstructFrom(acc, params, prepared).value, name) == Get(acc, name)
    decreases |prepared|
  {
    if prepared != [] {
      var n0 := prepared[0].0;
      var entry := prepared[0].1;
      ConstructStep(acc, params, prepared);
      var acc' := if Kept(params, entry, n0) then Put(acc, n0, MakeFacet(entry).value) else acc;
      if Kept(params, entry, n0) {
        PutGet(acc, n0, MakeFacet(entry).value, name);
      }
      if n0 == name {
        FindUnique(prepared, name, 0);
        NotInTail(prepared);
      } else {
        GetTail(prepared, name);
        NotInTail(prepared);
      }
      ConstructFromSkipped(acc', params, prepared[1..], name);
    }
  }

  /** The two bucket levels of one facet: an outer `global` bucket for a
      global facet, an outer `filter(match_all)` bucket otherwise, holding the
      facet's aggregation under `inner`. */
  function FacetBucket(f: Facet, inner: string): (r: Aggregation)
    ensures r.aggs == [(inner, f.agg)]
    ensures Truthy(f.global) ==> r.kind == "global" && r.params == []
    ensures !Truthy(f.global) ==> r.kind == "filter" && r.params == [("filter", MATCH_ALL_FILTER)]
  {
    if Truthy(f.global) then Agg("global", [], [(inner, f.agg)])
    else Agg("filter", [("filter", MATCH_ALL_FILTER)], [(inner, f.agg)])
  }

  /** The outer bucket names `aggregate` uses by default, and the ones
      `filter` passes. */
  function DefaultOuterName(field: string): string { "_filter_" + field }
  function DefaultInnerName(field: string): string { field }
  function FilterOuterName(field: string): string { field }
  function FilterInnerName(field: string): string { "aggs" }

  /** `aggregate` over the constructed facets, in order. */
  function AggregateFrom(qs: Search, facets: Dict<string, Facet>, outer: string -> string, inner: string -> string): (r: Search)
    ensures r.queries == qs.queries && r.filters == qs.filters && r.sort == qs.sort &&
            r.highlight == qs.highlight && r.source == qs.source
    decreases |facets|
  {
    if facets == [] then qs
    else
      var (name, f) := facets[0];
      AggregateFrom(AddBucket(qs, outer(name), FacetBucket(f, inner(name))), facets[1..], outer, inner)
  }

  /** With the field as the outer name, every facet's bucket is found under
      its field, and other buckets are untouched. */
  lemma {:induction false} AggregateBuckets(qs: Search, facets: Dict<string, Facet>, inner: string -> string, name: string)
    requires Distinct(facets)
    ensures Get(AggregateFrom(qs, facets, FilterOuterName, inner).aggs, name) ==
      if HasKey(facets, name) then Some(FacetBucket(Get(facets, name).value, inner(name))) else Get(qs.aggs, name)
    decreases |facets|
  {
    if facets != [] {
      var (n0, f) := facets[0];
      var qs' := AddBucket(qs, n0, FacetBucket(f, inner(n0)));
      PutGet(qs.aggs, n0, FacetBucket(f, inner(n0)), name);
      assert Distinct(facets[1..]);
      AggregateBuckets(qs', facets[1..], inner, name);
      if n0 == name {
        FindUnique(facets, name, 0);
        assert !HasKey(facets[1..], name) by {
          forall j | 0 <= j < |facets[1..]| ensures facets[1..][j].0 != name {
            assert facets[j + 1].0 != facets[0].0;
          }
        }
      } else if HasKey(facets[1..], name) {
        FindUnique(facets, name, Find(facets[1..], name) + 1);
      } else {
        FindUnique(facets, name, |facets|);
      }
    }
  }

  /** The loop of `aggregate`, adding the buckets to the request. */
  method Aggregate(qs: Search, facets: Dict<string, Facet>, outer: string -> string, inner: string -> string)
    returns (r: Search)
    ensures r == AggregateFrom(qs, facets, outer, inner)
  {
    r := qs;
    var i := 0;
    assert facets[0..] == facets;
    while i < |facets|
      invariant 0 <= i <= |facets|
      invariant AggregateFrom(r, facets[i..], outer, inner) == AggregateFrom(qs, facets, outer, inner)
    {
      var (name, f) := facets[i];
      assert facets[i..][1..] == facets[i + 1..];
      r := AddBucket(r, outer(name), FacetBucket(f, inner(name)));
      i := i + 1;
    }
  }

  /** `filter`: `construct_facets` (which reads the query argument, default
      `{}`, then prepares), then `aggregate` with the field as outer bucket
      name and `aggs` as inner one. */
  function FacetFilter(qs: Search, args: Dict<string, Value>, prefix: string, config: Value): (r: Result<Search>)
    ensures r.Ok? ==> r.value.(aggs := qs.aggs) == qs
    ensures r.Err? <==>
      (PrepareFacets(args, prefix, config).Err? ||
       ConstructFrom([], GetOr(args, prefix, Obj([])), PrepareFacets(args, prefix, config).value).Err?)
  {
    var params := GetOr(args, prefix, Obj([]));
    var prepared :- PrepareFacets(args, prefix, config);
    var facets :- ConstructFrom([], params, prepared);
    Ok(AggregateFrom(qs, facets, FilterOuterName, FilterInnerName))
  }

  /** Building on `{}` keeps `Put`'s distinct keys. */
  lemma {:induction false} ConstructFromDistinct(acc: Dict<string, Facet>, params: Value, prepared: Dict<string, Value>)
    requires Distinct(acc) && ConstructFrom(acc, params, prepared).Ok?
    ensures Distinct(ConstructFrom(acc, params, prepared).value)
    decreases |prepared|
  {
    if prepared != [] {
      var n0 := prepared[0].0;
      var entry := prepared[0].1;
      ConstructStep(acc, params, prepared);
      if Kept(params, entry, n0) {
        PutDistinct(acc, n0, MakeFacet(entry).value);
        ConstructFromDistinct(Put(acc, n0, MakeFacet(entry).value), params, prepared[1..]);
      } else {
        ConstructFromDistinct(acc, params, prepared[1..]);
      }
    }
  }

  /** Which facets a request gets: a configured facet appears iff its
      configuration has an `enabled` key or its name is requested, and its
      bucket, under its own name, is the global or `match_all`-filtered
      bucket holding its aggregation under `aggs`. */
  lemma FacetSelection(qs: Search, args: Dict<string, Value>, prefix: string, config: Value, name: string)
    requires config.Obj? && Distinct(config.fields)
    requires forall i :: 0 <= i < |config.fields| ==> config.fields[i].1.Obj? ==> Distinct(config.fields[i].1.fields)
    requires FacetFilter(qs, args, prefix, config).Ok? && HasKey(config.fields, name)
    ensures var options := Get(config.fields, name).value;
      var requested := GetOr(args, prefix, List([]));
      var buckets := FacetFilter(qs, args, prefix, config).value.aggs;
      (HasField(options, "enabled") || IsRequested(requested, name) ==>
         Get(buckets, name).Some? &&
         var b := Get(buckets, name).value;
         b.kind == (if Truthy(FieldOr(options, "global", Value.Bool(false))) then "global" else "filter") &&
         |b.aggs| == 1 && b.aggs[0].0 == "aggs" &&
         Str(b.aggs[0].1.kind) == FieldOr(options, "facet", TERMS_FACET) &&
         Get(b.aggs[0].1.params, "field") == Some(BaseField(name, options))) &&
      (!HasField(options, "enabled") && !IsRequested(requested, name) ==> Get(buckets, name) == Get(qs.aggs, name))
  {
    var requested := GetOr(args, prefix, List([]));
    var params := GetOr(args, prefix, Obj([]));
    var prepared := NormaliseFrom(config.fields, requested).value;
    var options := Get(config.fields, name).value;
    FacetSetup(qs, args, prefix, config, name);
    SelectedBucket(qs, params, prepared, name);
    if Kept(params, Get(prepared, name).value, name) {
      KeptBucket(name, options, requested);
    }
  }

  /** What `filter` starts from for one configured name: its prepared
      entry and whether it is kept. */
  lemma FacetSetup(qs: Search, args: Dict<string, Value>, prefix: string, config: Value, name: string)
    requires config.Obj? && Distinct(config.fields)
    requires forall i :: 0 <= i < |config.fields| ==> config.fields[i].1.Obj? ==> Distinct(config.fields[i].1.fields)
    requires FacetFilter(qs, args, prefix, config).Ok? && HasKey(config.fields, name)
    ensures var requested := GetOr(args, prefix, List([]));
      var params := GetOr(args, prefix, Obj([]));
      var options := Get(config.fields, name).value;
      NormaliseFrom(config.fields, requested).Ok? &&
      var prepared := NormaliseFrom(config.fields, requested).value;
      (options.Obj? ==> Distinct(options.fields)) &&
      Distinct(prepared) && HasKey(prepared, name) &&
      NormalisedEntry(name, options, requested).Ok? &&
      Get(prepared, name) == Some(NormalisedEntry(name, options, requested).value) &&
      (Kept(params, Get(prepared, name).value, name) <==> HasField(options, "enabled") || IsRequested(requested, name)) &&
      ConstructFrom([], params, prepared).Ok? &&
      FacetFilter(qs, args, prefix, config).value ==
        AggregateFrom(qs, ConstructFrom([], params, prepared).value, FilterOuterName, FilterInnerName)
  {
    var requested := GetOr(args, prefix, List([]));
    var params := GetOr(args, prefix, Obj([]));
    FacetFilterValue(qs, args, prefix, config);
    var prepared := NormaliseFrom(config.fields, requested).value;
    var options := Get(config.fields, name).value;
    assert options == config.fields[Find(config.fields, name)].1;
    NormalisedLookup(config.fields, requested, name);
    KeptIff(params, requested, name, options);
  }

  /** The aggregation `filter` builds from a configuration. */
  lemma FacetFilterValue(qs: Search, args: Dict<string, Value>, prefix: string, config: Value)
    requires config.Obj? && FacetFilter(qs, args, prefix, config).Ok?
    ensures var requested := GetOr(args, prefix, List([]));
      var params := GetOr(args, prefix, Obj([]));
      NormaliseFrom(config.fields, requested).Ok? &&
      var prepared := NormaliseFrom(config.fields, requested).value;
      ConstructFrom([], params, prepared).Ok? &&
      FacetFilter(qs, args, prefix, config).value ==
        AggregateFrom(qs, ConstructFrom([], params, prepared).value, FilterOuterName, FilterInnerName)
  {
    var requested := GetOr(args, prefix, List([]));
    assert PrepareFacets(args, prefix, config) == NormaliseFrom(config.fields, requested);
  }

  /** A prepared entry is kept when its configuration enables it or the
      request names it. */
  lemma KeptIff(params: Value, requested: Value, name: string, options: Value)
    requires params == requested || (params == Obj([]) && requested == List([]))
    requires options.Obj? ==> Distinct(options.fields)
    requires NormalisedEntry(name, options, requested).Ok?
    ensures Kept(params, NormalisedEntry(name, options, requested).value, name) <==>
      HasField(options, "enabled") || IsRequested(requested, name)
  {
    NormalisedEntryFields(name, options, requested, "enabled");
    assert PyContains(params, name) == PyContains(requested, name);
  }

  /** The bucket a kept facet contributes, in terms of its configuration. */
  lemma KeptBucket(name: string, options: Value, requested: Value)
    requires options.Obj? ==> Distinct(options.fields)
    requires NormalisedEntry(name, options, requested).Ok?
    requires MakeFacet(NormalisedEntry(name, options, requested).value).Ok?
    ensures var b := FacetBucket(MakeFacet(NormalisedEntry(name, options, requested).value).value, "aggs");
      b.kind == (if Truthy(FieldOr(options, "global", Value.Bool(false))) then "global" else "filter") &&
      |b.aggs| == 1 && b.aggs[0].0 == "aggs" &&
      Str(b.aggs[0].1.kind) == FieldOr(options, "facet", TERMS_FACET) &&
      Get(b.aggs[0].1.params, "field") == Some(BaseField(name, options))
  {
    NormalisedEntryFields(name, options, requested, "enabled");
  }

  /** The bucket under a prepared name after `construct_facets` and
      `aggregate`. */
  lemma SelectedBucket(qs: Search, params: Value, prepared: Dict<string, Value>, name: string)
    requires Distinct(prepared) && HasKey(prepared, name) && ConstructFrom([], params, prepared).Ok?
    ensures var entry := Get(prepared, name).value;
      var buckets := AggregateFrom(qs, ConstructFrom([], params, prepared).value, FilterOuterName, FilterInnerName).aggs;
      (Kept(params, entry, name) ==>
         MakeFacet(entry).Ok? && Get(buckets, name) == Some(FacetBucket(MakeFacet(entry).value, "aggs"))) &&
      (!Kept(params, entry, name) ==> Get(buckets, name) == Get(qs.aggs, name))
  {
    var facets := ConstructFrom([], params, prepared).value;
    var entry := Get(prepared, name).value;
    ConstructFromDistinct([], params, prepared);
    AggregateBuckets(qs, facets, FilterInnerName, name);
    if Kept(params, entry, name) {
      ConstructFromKept([], params, prepared, name);
    } else {
      ConstructFromSkipped([], params, prepared, name);
    }
  }

  /** A configured name's prepared entry is its normalised configuration, and
      the prepared keys stay distinct. */
  lemma NormalisedLookup(entries: Dict<string, Value>, requested: Value, name: string)
    requires Distinct(entries) && NormaliseFrom(entries, requested).Ok? && HasKey(entries, name)
    ensures var prepared := NormaliseFrom(entries, requested).value;
      Distinct(prepared) &&
      NormalisedEntry(name, Get(entries, name).value, requested).Ok? &&
      Get(prepared, name) == Some(NormalisedEntry(name, Get(entries, name).value, requested).value)
  {
    var prepared := NormaliseFrom(entries, requested).value;
    NormaliseFromEntries(entries, requested);
    assert forall j :: 0 <= j < |prepared| ==> prepared[j].0 == entries[j].0;
    FindUnique(prepared, name, Find(entries, name));
  }

  lemma MakeFacetGlobal(entry: Value)
    requires MakeFacet(entry).Ok?
    ensures Field(entry, "global") == Some(MakeFacet(entry).value.global)
  {
  }

  /** `alter_connection`: the connection's attribute (`facets` or
      `aggregations`) is the slice's aggregations, or `{}` when reading
      them fails; nothing else on the connection changes. */
  function AlterConnection(connection: Dict<string, Value>, attribute: string, aggregations: Result<Value>): (r: Dict<string, Value>)
    ensures Get(r, attribute) == Some(if aggregations.Ok? then aggregations.value else Obj([]))
    ensures forall k :: k != attribute ==> Get(r, k) == Get(connection, k)
  {
    var v := if aggregations.Ok? then aggregations.value else Obj([]);
    PutProperties(connection, attribute, v);
    Put(connection, attribute, v)
  }
}
