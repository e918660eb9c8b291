/** `HighlightFilterBackend`: normalising the configured highlight fields and
    asking for a highlight of each field that is requested or enabled. The
    configuration is deep-copied on every read, so preparing it never
    changes the configuration itself: here it is a value. */
module Highlight {
  import opened Wrappers
  import opened Dicts
  import opened Values
  import opened Query
  import opened FilteringCommon

  const PREFIX := "highlight"

  /** The document field the backend adds to the node type. */
  const DOCUMENT_FIELDS: Dict<string, string> := [("highlight", "HighlightField")]

  /** `field_belongs_to`: the field is one of the configured highlight
      fields. */
  function FieldBelongsTo(config: Value, field: string): (r: bool)
    ensures r <==> config.Obj? && field in Keys(config.fields)
  {
    if config.Obj? then
      HasKeyKeys(config.fields, field);
      HasKey(config.fields, field)
    else false
  }

  /** The loop body of `prepare_highlight_fields` for one configured field:
      `enabled` is true when the configuration has an `enabled` key or the
      field is NOT among the requested ones, and `options` defaults to `{}`.
      A configuration that is not a dict fails the `in` test or the item
      assignment. */
  function HighlightEntry(field: string, options: Value, requested: Value): (r: Result<Value>)
    ensures r.Ok? ==> options.Obj? && r.value.Obj?
    ensures !options.Obj? ==> r == Err(TypeError)
  {
    if !options.Obj? then Err(TypeError)
    else
      var enabled :- if HasKey(options.fields, "enabled") then Ok(true)
                     else (var c :- PyContains(requested, field); Ok(!c));
      Ok(Obj(PutDefault(Put(options.fields, "enabled", Value.Bool(enabled)), "options", Obj([]))))
  }

  /** What a normalised highlight field holds: the flag, the options (or
      `{}`) and every other configured key unchanged. */
  lemma HighlightEntryFields(field: string, options: Value, requested: Value, k: string)
    requires options.Obj? && Distinct(options.fields)
    requires HighlightEntry(field, options, requested).Ok?
    ensures var e := HighlightEntry(field, options, requested).value.fields;
      Distinct(e) &&
      Get(e, "enabled") == Some(Value.Bool(HasField(options, "enabled") || PyContains(requested, field) == Ok(false))) &&
      Get(e, "options") == Some(FieldOr(options, "options", Obj([]))) &&
      (k != "enabled" && k != "options" ==> Get(e, k) == Field(options, k))
  {
    var enabled := HasField(options, "enabled") || PyContains(requested, field) == Ok(false);
    PutProperties(options.fields, "enabled", Value.Bool(enabled));
    PutDefaultProperties(Put(options.fields, "enabled", Value.Bool(enabled)), "options", Obj([]));
  }

  /** The loop of `prepare_highlight_fields` over the copied configuration:
      every field keeps its position and gets its normalised value. */
  function HighlightFrom(entries: Dict<string, Value>, requested: Value): Result<Dict<string, Value>>
    decreases |entries|
  {
    if entries == [] then Ok([])
    else
      var e :- HighlightEntry(entries[0].0, entries[0].1, requested);
      var rest :- HighlightFrom(entries[1..], requested);
      Ok([(entries[0].0, e)] + rest)
  }

  /** A successful normalisation has one entry per configured field, in
      order, each the normalised configuration. */
  lemma {:induction false} HighlightFromEntries(entries: Dict<string, Value>, requested: Value)
    requires HighlightFrom(entries, requested).Ok?
    ensures var r := HighlightFrom(entries, requested).value;
      |r| == |entries| &&
      forall i :: 0 <= i < |entries| ==>
        HighlightEntry(entries[i].0, entries[i].1, requested).Ok? &&
        r[i] == (entries[i].0, HighlightEntry(entries[i].0, entries[i].1, requested).value)
    decreases |entries|
  {
    if entries != [] {
      var rest := HighlightFrom(entries[1..], requested).value;
      var r := HighlightFrom(entries, requested).value;
      assert r == [(entries[0].0, HighlightEntry(entries[0].0, entries[0].1, requested).value)] + rest;
      HighlightFromEntries(entries[1..], requested);
      forall i | 1 <= i < |entries|
        ensures HighlightEntry(entries[i].0, entries[i].1, requested).Ok?
        ensures r[i] == (entries[i].0, HighlightEntry(entries[i].0, entries[i].1, requested).value)
      {
        assert entries[i] == entries[1..][i - 1] && r[i] == rest[i - 1];
      }
    }
  }

  /** One iteration of the normalisation loop: the entry's failure ends it,
      and otherwise its normalised form joins the prefix already done. */
  lemma HighlightLoopStep(entries: Dict<string, Value>, requested: Value, done: Dict<string, Value>, i: nat)
    requires i < |entries|
    requires HighlightFrom(entries, requested) == Prepend(done, HighlightFrom(entries[i..], requested))
    ensures var e := HighlightEntry(entries[i].0, entries[i].1, requested);
      && (e.Err? ==> HighlightFrom(entries, requested) == Err(e.error))
      && (e.Ok? ==> HighlightFrom(entries, requested) == Prepend(done + [(entries[i].0, e.value)], HighlightFrom(entries[i + 1..], requested)))
  {
    assert entries[i..][1..] == entries[i + 1..];
    var e := HighlightEntry(entries[i].0, entries[i].1, requested);
    if e.Ok? {
      PrependTwice(done, [(entries[i].0, e.value)], HighlightFrom(entries[i + 1..], requested));
    }
  }

  /** `prepare_highlight_fields`: `{}` when nothing is configured; the
      requested names are the argument under the prefix, `[]` when absent.
      The configuration goes through `dict(...)` before its items are read. */
  function PrepareHighlight(args: Dict<string, Value>, config: Value): (r: Result<Dict<string, Value>>)
    ensures !Truthy(config) ==> r == Ok([])
    ensures config.Obj? ==> r == HighlightFrom(config.fields, GetOr(args, PREFIX, List([])))
    ensures Truthy(config) && !config.Obj? ==> r.Err?
  {
    if !Truthy(config) then Ok([])
    else
      var _ :- PyDict(config);
      if !config.Obj? then Err(AttributeError)
      else HighlightFrom(config.fields, GetOr(args, PREFIX, List([])))
  }

  /** The in-place normalisation loop of `prepare_highlight_fields`. */
  method PrepareHighlightFields(args: Dict<string, Value>, config: Value) returns (r: Result<Dict<string, Value>>)
    ensures r == PrepareHighlight(args, config)
  {
    if !Truthy(config) {
      return Ok([]);
    }
    var copy := PyDict(config);
    if copy.Err? {
      return Err(copy.error);
    }
    if !config.Obj? {
      return Err(AttributeError);
    }
    var requested := GetOr(args, PREFIX, List([]));
    var fields := config.fields;
    var i := 0;
    PrependNothing(HighlightFrom(config.fields, requested));
    while i < |fields|
      invariant 0 <= i <= |fields| && |fields| == |config.fields|
      invariant fields[i..] == config.fields[i..]
      invariant HighlightFrom(config.fields, requested) == Prepend(fields[..i], HighlightFrom(config.fields[i..], requested))
    {
      var (name, options) := fields[i];
      OverwriteStep(fields, config.fields, i, (name, options));
      var e := HighlightEntry(name, options, requested);
      HighlightLoopStep(config.fields, requested, fields[..i], i);
      if e.Err? {
        return Err(e.error);
      }
      OverwriteStep(fields, config.fields, i, (name, e.value));
      fields := fields[i := (name, e.value)];
      i := i + 1;
    }
    PassDone(fields, config.fields, HighlightFrom(config.fields, requested));
    return Ok(fields);
  }

  /** Whether `filter` highlights a prepared field: it is in the query
      argument, or its `enabled` flag is truthy. */
  predicate Highlighted(params: Value, entry: Value, field: string) {
    PyContains(params, field) == Ok(true) || (HasField(entry, "enabled") && Truthy(Field(entry, "enabled").value))
  }

  /** `queryset.highlight(field, **entry["options"])`: the options must be a
      mapping. */
  function HighlightOne(qs: Search, field: string, entry: Value): (r: Result<Search>)
    ensures r.Ok? <==> HasField(entry, "options") && Field(entry, "options").value.Obj?
    ensures r.Ok? ==> r.value == AddHighlight(qs, field, Field(entry, "options").value.fields)
  {
    var options :- Subscript(entry, "options");
    if options.Obj? then Ok(AddHighlight(qs, field, options.fields)) else Err(TypeError)
  }

  /** The loop of `filter` over the prepared fields, in order. */
  function HighlightLoop(qs: Search, params: Value, prepared: Dict<string, Value>): (r: Result<Search>)
    ensures r.Ok? ==> r.value.queries == qs.queries && r.value.filters == qs.filters && r.value.sort == qs.sort &&
                      r.value.aggs == qs.aggs && r.value.source == qs.source
    decreases |prepared|
  {
    if prepared == [] then Ok(qs)
    else
      var (field, entry) := prepared[0];
      var inParams :- PyContains(params, field);
      var keep :- if inParams then Ok(true) else (var e :- Subscript(entry, "enabled"); Ok(Truthy(e)));
      var qs' :- if keep then HighlightOne(qs, field, entry) else Ok(qs);
      HighlightLoop(qs', params, prepared[1..])
  }

  /** `filter`: prepare, then highlight; the query argument defaults to `{}`
      here and to `[]` in the preparation. */
  function HighlightFilter(qs: Search, args: Dict<string, Value>, config: Value): (r: Result<Search>)
    ensures !Truthy(config) ==> r == Ok(qs)
  {
    var prepared :- PrepareHighlight(args, config);
    HighlightLoop(qs, GetOr(args, PREFIX, Obj([])), prepared)
  }

  /** The loop of `filter`, rethreading the request. */
  method Filter(qs: Search, args: Dict<string, Value>, config: Value) returns (r: Result<Search>)
    ensures r == HighlightFilter(qs, args, config)
  {
    var prepared := PrepareHighlightFields(args, config);
    if prepared.Err? {
      return Err(prepared.error);
    }
    var params := GetOr(args, PREFIX, Obj([]));
    var fields := prepared.value;
    var cur := qs;
    var i := 0;
    assert fields[0..] == fields;
    while i < |fields|
      invariant 0 <= i <= |fields|
      invariant HighlightLoop(cur, params, fields[i..]) == HighlightLoop(qs, params, fields)
    {
      var (field, entry) := fields[i];
      assert fields[i..][1..] == fields[i + 1..];
      var inParams := PyContains(params, field);
      if inParams.Err? {
        return Err(inParams.error);
      }
      var keep := inParams.value;
      if !keep {
        var e := Subscript(entry, "enabled");
        if e.Err? {
          return Err(e.error);
        }
        keep := Truthy(e.value);
      }
      if keep {
        var next := HighlightOne(cur, field, entry);
        if next.Err? {
          return Err(next.error);
        }
        cur := next.value;
      }
      i := i + 1;
    }
    return Ok(cur);
  }

  /** One round of the loop. */
  lemma HighlightStep(qs: Search, params: Value, prepared: Dict<string, Value>)
    requires prepared != [] && HighlightLoop(qs, params, prepared).Ok?
    ensures PyContains(params, prepared[0].0).Ok?
    ensures Highlighted(params, prepared[0].1, prepared[0].0) ==> (HighlightOne(qs, prepared[0].0, prepared[0].1).Ok? &&
      HighlightLoop(qs, params, prepared) == HighlightLoop(HighlightOne(qs, prepared[0].0, prepared[0].1).value, params, prepared[1..]))
    ensures !Highlighted(params, prepared[0].1, prepared[0].0) ==>
      HighlightLoop(qs, params, prepared) == HighlightLoop(qs, params, prepared[1..])
  {
    var inParams := PyContains(params, prepared[0].0);
    assert inParams.Ok?;
    if !inParams.value {
      assert Subscript(prepared[0].1, "enabled").Ok?;
    }
  }

  /** A highlighted field ends up with the options of its own entry. */
  lemma {:induction false} HighlightLoopKept(qs: Search, params: Value, prepared: Dict<string, Value>, field: string)
    requires Distinct(prepared) && HighlightLoop(qs, params, prepared).Ok?
    requires HasKey(prepared, field) && Highlighted(params, Get(prepared, field).value, field)
    ensures HighlightOne(qs, field, Get(prepared, field).value).Ok?
    ensures Get(HighlightLoop(qs, params, prepared).value.highlight, field) ==
      Some(Field(Get(prepared, field).value, "options").value.fields)
    decreases |prepared|
  {
    var (f0, entry) := prepared[0];
    HighlightStep(qs, params, prepared);
    var qs' := if Highlighted(params, entry, f0) then HighlightOne(qs, f0, entry).value else qs;
    if f0 == field {
      FindUnique(prepared, field, 0);
      PutGet(qs.highlight, f0, Field(entry, "options").value.fields, field);
      NotInTail(prepared);
      HighlightLoopSkipped(qs', params, prepared[1..], field);
    } else {
      GetTail(prepared, field);
      NotInTail(prepared);
      HighlightLoopKept(qs', params, prepared[1..], field);
      assert HighlightOne(qs', field, Get(prepared, field).value).Ok?;
    }
  }

  /** A field that is not highlighted keeps whatever highlight the request
      already had for it. */
  lemma {:induction false} HighlightLoopSkipped(qs: Search, params: Value, prepared: Dict<string, Value>, field: string)
    requires Distinct(prepared) && HighlightLoop(qs, params, prepared).Ok?
    requires HasKey(prepared, field) ==> !Highlighted(params, Get(prepared, field).value, field)
    ensures Get(HighlightLoop(qs, params, prepared).value.highlight, field) == Get(qs.highlight, field)
    decreases |prepared|
  {
    if prepared != [] {
      var (f0, entry) := prepared[0];
      HighlightStep(qs, params, prepared);
      var qs' := if Highlighted(params, entry, f0) then HighlightOne(qs, f0, entry).value else qs;
      if Highlighted(params, entry, f0) {
        PutGet(qs.highlight, f0, Field(entry, "options").value.fields, field);
      }
      if f0 == field {
        FindUnique(prepared, field, 0);
        NotInTail(prepared);
      } else {
        GetTail(prepared, field);
        NotInTail(prepared);
      }
      HighlightLoopSkipped(qs', params, prepared[1..], field);
    }
  }

  /** The requested names are the same argument in both places, and an
      absent argument (`[]` or `{}`) contains nothing. */
  lemma RequestedAgree(args: Dict<string, Value>, field: string)
    ensures PyContains(GetOr(args, PREFIX, Obj([])), field) == PyContains(GetOr(args, PREFIX, List([])), field)
  {
    if !HasKey(args, PREFIX) {
      assert !PyIn(Str(field), []);
    }
  }

  /** Every configured field is highlighted with its own options (or `{}`):
      a field that is not requested was marked enabled, and a requested one
      is highlighted because it is requested. */
  lemma EveryFieldHighlighted(qs: Search, args: Dict<string, Value>, config: Value, field: string)
    requires config.Obj? && Distinct(config.fields) && HasKey(config.fields, field)
    requires forall i :: 0 <= i < |config.fields| ==> config.fields[i].1.Obj? ==> Distinct(config.fields[i].1.fields)
    requires HighlightFilter(qs, args, config).Ok?
    ensures var options := Get(config.fields, field).value;
      options.Obj? && FieldOr(options, "options", Obj([])).Obj? &&
      Get(HighlightFilter(qs, args, config).value.highlight, field) == Some(FieldOr(options, "options", Obj([])).fields)
  {
    var requested := GetOr(args, PREFIX, List([]));
    var params := GetOr(args, PREFIX, Obj([]));
    var prepared := HighlightFrom(config.fields, requested).value;
    var options := Get(config.fields, field).value;
    HighlightFromEntries(config.fields, requested);
    assert forall j :: 0 <= j < |prepared| ==> prepared[j].0 == config.fields[j].0;
    var i := Find(config.fields, field);
    FindUnique(prepared, field, i);
    var entry := prepared[i].1;
    assert entry == HighlightEntry(field, options, requested).value;
    HighlightEntryFields(field, options, requested, "enabled");
    RequestedAgree(args, field);
    assert Highlighted(params, entry, field);
    HighlightLoopKept(qs, params, prepared, field);
  }
}
