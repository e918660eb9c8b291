/** `OrderingFilterBackend` and `DefaultOrderingFilterBackend`: the explicit
    `ordering` argument becomes the request's sort; the configured defaults
    apply only when no explicit argument names a configured ordering field. */
module Ordering {
  import opened Wrappers
  import opened Dicts
  import opened Strs
  import opened Values
  import opened Query
  import opened FilteringCommon
  import C = Constants

  const PREFIX := "ordering"

  /** The field an ordering option sorts on: a non-empty string option is the
      field, and anything else (`None`, `""`, a dict) falls back to the
      argument name, since the `'field' not in ...` test reads the empty dict
      the loop has just stored. */
  function ResolvedField(name: string, options: Value): string {
    if options.Str? && options.s != "" then options.s else name
  }

  /** The loop of `prepare_ordering_fields` from the accumulator `acc`: a
      bucket key that `ordering_args_mapping` (the configured names) knows
      is stored with its resolved field; other keys are skipped. The mapping
      is built from `ordering_fields.items()`, so a configuration that is not
      a dict fails on the first key. */
  function PrepareFrom(acc: Dict<string, string>, bucket: Dict<string, Value>, fields: Value): (r: Result<Dict<string, string>>)
    ensures bucket != [] && !fields.Obj? ==> r == Err(AttributeError)
    ensures fields.Obj? ==> r.Ok?
    decreases |bucket|
  {
    if bucket == [] then Ok(acc)
    else if !fields.Obj? then Err(AttributeError)
    else
      var arg := bucket[0].0;
      var acc' := if HasField(fields, arg) then Put(acc, arg, ResolvedField(arg, FieldOr(fields, arg, Null))) else acc;
      PrepareFrom(acc', bucket[1..], fields)
  }

  /** A key ends up prepared iff it is both in the bucket and configured, and
      then with its resolved field; the rest comes from the accumulator. */
  lemma {:induction false} PrepareFromGet(acc: Dict<string, string>, bucket: Dict<string, Value>, fields: Value, k: string)
    requires fields.Obj?
    ensures Get(PrepareFrom(acc, bucket, fields).value, k) ==
            if HasKey(bucket, k) && HasField(fields, k) then Some(ResolvedField(k, FieldOr(fields, k, Null)))
            else Get(acc, k)
    decreases |bucket|
  {
    if bucket != [] {
      var arg := bucket[0].0;
      var v := ResolvedField(arg, FieldOr(fields, arg, Null));
      var acc' := if HasField(fields, arg) then Put(acc, arg, v) else acc;
      PrepareFromGet(acc', bucket[1..], fields, k);
      if HasField(fields, arg) {
        PutGet(acc, arg, v, k);
      }
      HasKeyCons(bucket, k);
    }
  }

  /** `prepare_ordering_fields`: the name of every bucket key that is a
      configured ordering field, mapped to the field it sorts on. Without a
      truthy bucket the result is empty; a bucket that is not a dict has no
      `items()`. */
  function OrderingFields(args: Dict<string, Value>, prefix: string, fields: Value): (r: Result<Dict<string, string>>)
    ensures !Truthy(GetOr(args, prefix, Null)) ==> r == Ok([])
    ensures Truthy(GetOr(args, prefix, Null)) && !GetOr(args, prefix, Null).Obj? ==> r == Err(AttributeError)
  {
    var bucket := GetOr(args, prefix, Null);
    if !Truthy(bucket) then Ok([])
    else if !bucket.Obj? then Err(AttributeError)
    else PrepareFrom([], bucket.fields, fields)
  }

  /** What `prepare_ordering_fields` yields under a dict configuration. */
  lemma OrderingFieldsGet(args: Dict<string, Value>, prefix: string, fields: Value, k: string)
    requires fields.Obj? && GetOr(args, prefix, Null).Obj?
    ensures OrderingFields(args, prefix, fields).Ok?
    ensures Get(OrderingFields(args, prefix, fields).value, k) ==
            if HasField(GetOr(args, prefix, Null), k) && HasField(fields, k)
            then Some(ResolvedField(k, FieldOr(fields, k, Null)))
            else None
  {
    var bucket := GetOr(args, prefix, Null);
    if Truthy(bucket) {
      PrepareFromGet([], bucket.fields, fields, k);
    }
  }

  /** The loop of `prepare_ordering_fields`. */
  method PrepareOrderingFields(args: Dict<string, Value>, prefix: string, fields: Value) returns (r: Result<Dict<string, string>>)
    ensures r == OrderingFields(args, prefix, fields)
  {
    var bucket := GetOr(args, prefix, Null);
    if !Truthy(bucket) {
      return Ok([]);
    }
    if !bucket.Obj? {
      return Err(AttributeError);
    }
    var prepared: Dict<string, string> := [];
    var i := 0;
    while i < |bucket.fields|
      invariant 0 <= i <= |bucket.fields|
      invariant PrepareFrom(prepared, bucket.fields[i..], fields) == PrepareFrom([], bucket.fields, fields)
    {
      var (arg, _) := bucket.fields[i];
      assert bucket.fields[i..][1..] == bucket.fields[i + 1..];
      if !fields.Obj? {
        return Err(AttributeError);
      }
      if HasField(fields, arg) {
        prepared := Put(prepared, arg, ResolvedField(arg, FieldOr(fields, arg, Null)));
      }
      i := i + 1;
    }
    return Ok(prepared);
  }

  /** One `Search.sort()` entry, `{field: {"order": direction}}`. */
  function SortEntry(field: string, direction: Value): Value {
    Obj([(field, Obj([("order", direction)]))])
  }

  /** The list form of one ordering parameter: `"-x"` sorts on `x`
      descending, anything else ascending on itself. A parameter that is not
      a string has no `startswith`. */
  function ListEntry(param: Value): (r: Result<Value>)
    ensures r.Ok? <==> param.Str?
    ensures r.Ok? && StartsWith(param.s, "-") ==> r.value == SortEntry(param.s[1..], Str(C.ORDER_DESC))
    ensures r.Ok? && !StartsWith(param.s, "-") ==> r.value == SortEntry(param.s, Str(C.ORDER_ASC))
  {
    if !param.Str? then Err(AttributeError)
    else if StartsWith(param.s, "-") then Ok(SortEntry(param.s[1..], Str(C.ORDER_DESC)))
    else Ok(SortEntry(param.s, Str(C.ORDER_ASC)))
  }

  /** The inverse reading of a sort entry: the ordering string it sorts by,
      `"-field"` when descending. */
  function SortKey(entry: Value): Option<string> {
    if entry.Obj? && |entry.fields| == 1 && entry.fields[0].1.Obj? && |entry.fields[0].1.fields| == 1
       && entry.fields[0].1.fields[0].0 == "order"
    then
      var field := entry.fields[0].0;
      Some(if entry.fields[0].1.fields[0].1 == Str(C.ORDER_DESC) then "-" + field else field)
    else None
  }

  /** Every ordering string survives the transformation: reading the entry
      back gives the string, with its leading `-` for descending order. */
  lemma ListEntryRoundTrip(s: string)
    ensures ListEntry(Str(s)).Ok? && SortKey(ListEntry(Str(s)).value) == Some(s)
  {
    if StartsWith(s, "-") {
      assert s == "-" + s[1..];
    } else {
      assert Str(C.ORDER_ASC) != Str(C.ORDER_DESC);
    }
  }

  /** The dict form of `transform_ordering_params`: one entry per parameter,
      in order, on the prepared field; a parameter that was not prepared
      raises `KeyError`. */
  function DictEntries(params: Dict<string, Value>, prepared: Dict<string, string>): (r: Result<seq<Value>>)
    ensures r.Ok? <==> forall i :: 0 <= i < |params| ==> HasKey(prepared, params[i].0)
    ensures r.Err? ==> r.error == KeyError
    ensures r.Ok? ==> (|r.value| == |params| &&
      forall i :: 0 <= i < |params| ==> r.value[i] == SortEntry(Get(prepared, params[i].0).value, params[i].1))
    decreases |params|
  {
    if params == [] then Ok([])
    else
      var f := Get(prepared, params[0].0);
      if f.None? then Err(KeyError)
      else
        var rest := DictEntries(params[1..], prepared);
        assert forall i :: 1 <= i < |params| ==> params[i] == params[1..][i - 1];
        if rest.Err? then rest
        else Ok([SortEntry(f.value, params[0].1)] + rest.value)
  }

  /** The list form of `transform_ordering_params`: one entry per string
      parameter, in order. */
  function ListEntries(params: seq<Value>): (r: Result<seq<Value>>)
    ensures r.Ok? <==> forall i :: 0 <= i < |params| ==> params[i].Str?
    ensures r.Err? ==> r.error == AttributeError
    ensures r.Ok? ==> (|r.value| == |params| &&
      forall i :: 0 <= i < |params| ==> r.value[i] == ListEntry(params[i]).value)
    decreases |params|
  {
    if params == [] then Ok([])
    else if !params[0].Str? then Err(AttributeError)
    else
      var rest := ListEntries(params[1..]);
      assert forall i :: 1 <= i < |params| ==> params[i] == params[1..][i - 1];
      if rest.Err? then rest
      else Ok([ListEntry(params[0]).value] + rest.value)
  }

  /** `transform_ordering_params`: a dict of directions or a list of
      ordering strings; any other value gives no entries. */
  function Transformed(params: Value, prepared: Dict<string, string>): (r: Result<seq<Value>>)
    ensures !params.Obj? && !params.List? ==> r == Ok([])
  {
    match params
    case Obj(fields) => DictEntries(fields, prepared)
    case List(items) => ListEntries(items)
    case _ => Ok([])
  }

  /** The two loops of `transform_ordering_params`. */
  method TransformOrderingParams(params: Value, prepared: Dict<string, string>) returns (r: Result<seq<Value>>)
    ensures r == Transformed(params, prepared)
  {
    var out: seq<Value> := [];
    if params.Obj? {
      var i := 0;
      while i < |params.fields|
        invariant 0 <= i <= |params.fields|
        invariant forall j :: 0 <= j < i ==> HasKey(prepared, params.fields[j].0)
        invariant |out| == i
        invariant forall j :: 0 <= j < i ==>
          out[j] == SortEntry(Get(prepared, params.fields[j].0).value, params.fields[j].1)
      {
        var (param, direction) := params.fields[i];
        var field := Get(prepared, param);
        if field.None? {
          return Err(KeyError);
        }
        out := out + [SortEntry(field.value, direction)];
        i := i + 1;
      }
      assert out == DictEntries(params.fields, prepared).value;
    } else if params.List? {
      var i := 0;
      while i < |params.items|
        invariant 0 <= i <= |params.items|
        invariant forall j :: 0 <= j < i ==> params.items[j].Str?
        invariant |out| == i
        invariant forall j :: 0 <= j < i ==> out[j] == ListEntry(params.items[j]).value
      {
        var param := params.items[i];
        if !param.Str? {
          return Err(AttributeError);
        }
        var direction := C.ORDER_ASC;
        var field := param.s;
        if StartsWith(param.s, "-") {
          field := param.s[1..];
          direction := C.ORDER_DESC;
        }
        out := out + [SortEntry(field, Str(direction))];
        i := i + 1;
      }
      assert out == ListEntries(params.items).value;
    }
    return Ok(out);
  }

  /** `OrderingFilterBackend.get_ordering_query_params`: no truthy bucket
      means no sort; otherwise the bucket is copied with `dict(...)`, which
      fails on what `dict` cannot convert, the fields are prepared from the
      bucket itself, which fails on anything but a dict, and the copy is
      transformed against them. */
  function OrderingQueryParams(args: Dict<string, Value>, prefix: string, fields: Value): (r: Result<seq<Value>>)
    ensures !Truthy(GetOr(args, prefix, Null)) ==> r == Ok([])
    ensures var bucket := GetOr(args, prefix, Null);
      Truthy(bucket) && PyDict(bucket).Err? ==> r == Err(PyDict(bucket).error)
    ensures var bucket := GetOr(args, prefix, Null);
      Truthy(bucket) && PyDict(bucket).Ok? && !bucket.Obj? ==> r == Err(AttributeError)
    ensures var bucket := GetOr(args, prefix, Null);
      Truthy(bucket) && bucket.Obj? ==>
        r == (var prepared := OrderingFields(args, prefix, fields);
              if prepared.Err? then Err(prepared.error) else Transformed(bucket, prepared.value))
  {
    var bucket := GetOr(args, prefix, Null);
    if !Truthy(bucket) then Ok([])
    else
      var copy :- PyDict(bucket);
      var prepared :- OrderingFields(args, prefix, fields);
      Transformed(Obj(copy), prepared)
  }

  /** A list of pairs passes `dict(...)` but has no `items()` of its own, so
      the explicit ordering backend fails on it. */
  lemma OrderingPairsFail(qs: Search, args: Dict<string, Value>, prefix: string, fields: Value)
    requires GetOr(args, prefix, Null) == List([List([Str("title"), Str("asc")])])
    ensures OrderingFilter(qs, args, prefix, fields) == Err(AttributeError)
  {
    var pair := List([Str("title"), Str("asc")]);
    assert DictPair(pair) == Ok(("title", Str("asc")));
    assert PyDict(List([pair])).Ok?;
  }

  /** `OrderingFilterBackend.filter`: a non-empty list of entries replaces
      the sort; nothing else in the request changes. */
  function OrderingFilter(qs: Search, args: Dict<string, Value>, prefix: string, fields: Value): (r: Result<Search>)
    ensures !Truthy(GetOr(args, prefix, Null)) ==> r == Ok(qs)
    ensures r.Ok? ==> r.value == qs.(sort := r.value.sort)
    ensures r.Ok? && r.value.sort != qs.sort ==> OrderingQueryParams(args, prefix, fields) == Ok(r.value.sort)
  {
    var params :- OrderingQueryParams(args, prefix, fields);
    if params != [] then Ok(SetSort(qs, params)) else Ok(qs)
  }

  /** When every argument names a configured ordering field, the sort holds
      one entry per argument, in argument order, on that argument's resolved
      field with its direction. */
  lemma OrderingSortsEachArgument(qs: Search, args: Dict<string, Value>, prefix: string, fields: Value)
    requires fields.Obj?
    requires GetOr(args, prefix, Null).Obj? && GetOr(args, prefix, Null).fields != []
    requires forall i :: 0 <= i < |GetOr(args, prefix, Null).fields| ==>
      HasField(fields, GetOr(args, prefix, Null).fields[i].0)
    ensures var bucket := GetOr(args, prefix, Null).fields;
      var r := OrderingFilter(qs, args, prefix, fields);
      r.Ok? && r.value == qs.(sort := r.value.sort) && |r.value.sort| == |bucket| &&
      forall i :: 0 <= i < |bucket| ==>
        r.value.sort[i] == SortEntry(ResolvedField(bucket[i].0, FieldOr(fields, bucket[i].0, Null)), bucket[i].1)
  {
    var bucket := GetOr(args, prefix, Null).fields;
    var prepared := OrderingFields(args, prefix, fields);
    forall i | 0 <= i < |bucket|
      ensures Get(prepared.value, bucket[i].0) == Some(ResolvedField(bucket[i].0, FieldOr(fields, bucket[i].0, Null)))
    {
      OrderingFieldsGet(args, prefix, fields, bucket[i].0);
      FindUnique(bucket, bucket[i].0, Find(bucket, bucket[i].0));
    }
  }

  /** An argument that is not a configured ordering field is not ignored:
      it was never prepared, so the lookup raises `KeyError`. */
  lemma OrderingUnknownFieldFails(qs: Search, args: Dict<string, Value>, prefix: string, fields: Value, k: string)
    requires fields.Obj? && GetOr(args, prefix, Null).Obj?
    requires HasField(GetOr(args, prefix, Null), k) && !HasField(fields, k)
    ensures OrderingFilter(qs, args, prefix, fields) == Err(KeyError)
  {
    var bucket := GetOr(args, prefix, Null).fields;
    OrderingFieldsGet(args, prefix, fields, k);
    var i := Find(bucket, k);
    assert bucket[i].0 == k;
  }

  /** The loop of `DefaultOrderingFilterBackend.get_ordering_query_params`
      that looks for an argument naming a configured ordering field, stopping
      at the first one. */
  function AnyConfigured(keys: seq<string>, fields: Value): (r: Result<bool>)
    ensures fields.Obj? ==> r == Ok(exists i :: 0 <= i < |keys| && HasField(fields, keys[i]))
    ensures keys == [] ==> r == Ok(false)
    decreases |keys|
  {
    if keys == [] then Ok(false)
    else
      var found :- PyContains(fields, keys[0]);
      if found then Ok(true)
      else
        var rest := AnyConfigured(keys[1..], fields);
        assert forall i :: 1 <= i < |keys| ==> keys[i] == keys[1..][i - 1];
        rest
  }

  /** The search loop, with its `break`. */
  method OrderingParamsPresent(keys: seq<string>, fields: Value) returns (r: Result<bool>)
    ensures r == AnyConfigured(keys, fields)
  {
    var present := false;
    var i := 0;
    while i < |keys|
      invariant 0 <= i <= |keys|
      invariant !present
      invariant AnyConfigured(keys, fields) == AnyConfigured(keys[i..], fields)
    {
      assert keys[i..][1..] == keys[i + 1..];
      var found := PyContains(fields, keys[i]);
      if found.Err? {
        return Err(found.error);
      }
      if found.value {
        present := true;
        break;
      }
      i := i + 1;
    }
    return Ok(present);
  }

  /** `all(field.lstrip('-') in ordering_fields for field in ordering)`,
      stopping at the first default that is not configured. */
  function AllConfigured(ordering: seq<Value>, fields: Value): (r: Result<bool>)
    ensures r.Ok? && !r.value ==> exists i :: 0 <= i < |ordering| && !IsConfigured(fields, ordering[i])
    decreases |ordering|
  {
    if ordering == [] then Ok(true)
    else if !ordering[0].Str? then Err(AttributeError)
    else
      var found :- PyContains(fields, LStrip(ordering[0].s, "-"));
      if !found then Ok(false)
      else
        var rest := AllConfigured(ordering[1..], fields);
        assert rest.Ok? && !rest.value ==> exists i :: 1 <= i < |ordering| && !IsConfigured(fields, ordering[i]) by {
          if rest.Ok? && !rest.value {
            var j :| 0 <= j < |ordering[1..]| && !IsConfigured(fields, ordering[1..][j]);
            assert ordering[1..][j] == ordering[j + 1];
          }
        }
        rest
  }

  /** A default, leading `-`s stripped, names a configured field. */
  predicate IsConfigured(fields: Value, d: Value) {
    d.Str? && HasField(fields, LStrip(d.s, "-"))
  }

  /** On configured fields and string defaults, the check is true exactly
      when every default, leading `-`s stripped, is configured. */
  lemma {:induction false} AllConfiguredMeaning(ordering: seq<Value>, fields: Value)
    requires fields.Obj? && forall i :: 0 <= i < |ordering| ==> ordering[i].Str?
    ensures AllConfigured(ordering, fields) == Ok(forall i :: 0 <= i < |ordering| ==> IsConfigured(fields, ordering[i]))
    decreases |ordering|
  {
    if ordering != [] {
      var tail := ordering[1..];
      AllConfiguredMeaning(tail, fields);
      assert PyContains(fields, LStrip(ordering[0].s, "-")) == Ok(IsConfigured(fields, ordering[0]));
      if IsConfigured(fields, ordering[0]) {
        assert AllConfigured(ordering, fields) == AllConfigured(tail, fields);
        AllConfiguredCons(ordering, fields);
      } else {
        assert AllConfigured(ordering, fields) == Ok(false);
      }
    }
  }

  /** Past a configured first default, all are configured iff the rest are. */
  lemma AllConfiguredCons(ordering: seq<Value>, fields: Value)
    requires ordering != [] && IsConfigured(fields, ordering[0])
    ensures (forall i :: 0 <= i < |ordering| ==> IsConfigured(fields, ordering[i])) ==
            (forall i :: 0 <= i < |ordering[1..]| ==> IsConfigured(fields, ordering[1..][i]))
  {
    if forall i :: 0 <= i < |ordering[1..]| ==> IsConfigured(fields, ordering[1..][i]) {
      forall i | 0 < i < |ordering| ensures IsConfigured(fields, ordering[i]) {
        assert ordering[i] == ordering[1..][i - 1];
      }
    }
  }

  /** `prepare_ordering_fields` called on `DefaultOrderingFilterBackend`,
      which defines no `ordering_args_mapping`: an empty result without a
      truthy bucket, and `AttributeError` as soon as the loop runs. */
  function DefaultPrepared(args: Dict<string, Value>, prefix: string): (r: Result<Dict<string, string>>)
    ensures r.Ok? <==> !Truthy(GetOr(args, prefix, Null))
    ensures r.Ok? ==> r.value == []
  {
    if !Truthy(GetOr(args, prefix, Null)) then Ok([]) else Err(AttributeError)
  }

  /** `get_default_ordering_params`: a string default is a one-element list;
      when every default (leading `-`s stripped) is a configured field, the
      defaults are transformed, and otherwise returned as they are. */
  function DefaultOrderingParams(args: Dict<string, Value>, prefix: string, fields: Value, defaults: Value): (r: Result<Value>)
    ensures defaults.Null? ==> r == Ok(Null)
    ensures fields.Null? ==> r == Ok(if defaults.Str? then List([defaults]) else defaults)
    ensures r.Ok? && r.value != defaults ==> r.value.List?
  {
    OrderingOfDefaults(args, prefix, fields, if defaults.Str? then List([defaults]) else defaults)
  }

  /** `get_default_ordering_params` once a string default is made a list. */
  function OrderingOfDefaults(args: Dict<string, Value>, prefix: string, fields: Value, ordering: Value): (r: Result<Value>)
  {
    if ordering.Null? || fields.Null? then Ok(ordering)
    else
      var items :- IterItems(ordering);
      var all :- AllConfigured(items, fields);
      if all then
        var prepared :- DefaultPrepared(args, prefix);
        var entries :- Transformed(ordering, prepared);
        Ok(List(entries))
      else Ok(ordering)
  }

  /** `DefaultOrderingFilterBackend.get_ordering_query_params`: an empty
      dict when some argument names a configured field, the default
      ordering otherwise. */
  function DefaultOrderingQueryParams(args: Dict<string, Value>, prefix: string, fields: Value, defaults: Value): (r: Result<Value>)
    ensures var bucket := GetOr(args, prefix, Null);
      Truthy(bucket) && PyDict(bucket).Err? ==> r == Err(PyDict(bucket).error)
    ensures !Truthy(GetOr(args, prefix, Null)) ==> r == DefaultOrderingParams(args, prefix, fields, defaults)
  {
    var bucket := GetOr(args, prefix, Null);
    var copy :- if Truthy(bucket) then PyDict(bucket) else Ok([]);
    var present :- AnyConfigured(Keys(copy), fields);
    if present then Ok(Obj([])) else DefaultOrderingParams(args, prefix, fields, defaults)
  }

  /** The default ordering backend reads the bucket through `dict(...)`: a
      non-empty string fails with ValueError, a list of pairs naming a
      configured field switches the default off like the dict of those
      pairs. */
  lemma DefaultReadsBucketAsDict(args: Dict<string, Value>, prefix: string, fields: Value, defaults: Value, k: string)
    ensures var bucket := GetOr(args, prefix, Null);
      bucket.Str? && bucket.s != "" ==> DefaultOrderingQueryParams(args, prefix, fields, defaults) == Err(ValueError)
    ensures GetOr(args, prefix, Null) == List([List([Str(k), Str("asc")])]) && fields.Obj? && HasField(fields, k) ==>
      DefaultOrderingQueryParams(args, prefix, fields, defaults) == Ok(Obj([]))
  {
    var pair := List([Str(k), Str("asc")]);
    if GetOr(args, prefix, Null) == List([pair]) {
      assert DictPair(pair) == Ok((k, Str("asc")));
      assert Put([], k, Str("asc")) == [(k, Str("asc"))];
      assert [pair][1..] == [];
      assert DictFrom([], [pair]) == DictFrom([(k, Str("asc"))], []);
      assert PyDict(List([pair])) == Ok([(k, Str("asc"))]);
      assert Keys([(k, Str("asc"))]) == [k];
    }
  }

  /** `queryset.sort(*params)`: the parameters are unpacked as an iterable. */
  function SortBy(qs: Search, params: Value): (r: Result<Search>)
    ensures params.List? ==> r == Ok(SetSort(qs, params.items))
  {
    var keys :- IterItems(params);
    Ok(SetSort(qs, keys))
  }

  /** `DefaultOrderingFilterBackend.filter`. */
  function DefaultOrderingFilter(qs: Search, args: Dict<string, Value>, prefix: string, fields: Value, defaults: Value): (r: Result<Search>)
    ensures r.Ok? ==> r.value == qs.(sort := r.value.sort)
  {
    var params :- DefaultOrderingQueryParams(args, prefix, fields, defaults);
    if Truthy(params) then SortBy(qs, params) else Ok(qs)
  }

  /** An explicit argument naming a configured field switches the default
      off entirely. */
  lemma DefaultYieldsToExplicit(qs: Search, args: Dict<string, Value>, prefix: string, fields: Value, defaults: Value, k: string)
    requires fields.Obj? && GetOr(args, prefix, Null).Obj?
    requires HasField(GetOr(args, prefix, Null), k) && HasField(fields, k)
    ensures DefaultOrderingFilter(qs, args, prefix, fields, defaults) == Ok(qs)
  {
    var bucket := GetOr(args, prefix, Null).fields;
    var i := Find(bucket, k);
    assert Keys(bucket)[i] == k;
  }

  /** Without an ordering argument, defaults that all name configured fields
      become the sort, one entry per default, each reading back as that
      default. */
  lemma DefaultAppliesWithoutArgument(qs: Search, args: Dict<string, Value>, prefix: string, fields: Value, ds: seq<Value>)
    requires !Truthy(GetOr(args, prefix, Null)) && fields.Obj? && ds != []
    requires forall i :: 0 <= i < |ds| ==> ds[i].Str? && HasField(fields, LStrip(ds[i].s, "-"))
    ensures var r := DefaultOrderingFilter(qs, args, prefix, fields, List(ds));
      r.Ok? && r.value == qs.(sort := r.value.sort) && |r.value.sort| == |ds| &&
      forall i :: 0 <= i < |ds| ==> SortKey(r.value.sort[i]) == Some(ds[i].s)
  {
    DefaultParamsWithoutArgument(args, prefix, fields, ds);
    var entries := ListEntries(ds).value;
    assert Truthy(List(entries)) by {
      assert |entries| == |ds|;
    }
    assert DefaultOrderingFilter(qs, args, prefix, fields, List(ds)) == Ok(SetSort(qs, entries));
    forall i | 0 <= i < |ds| ensures SortKey(entries[i]) == Some(ds[i].s) {
      ListEntryRoundTrip(ds[i].s);
    }
  }

  /** Without an ordering argument, configured defaults are the transformed
      list. */
  lemma DefaultParamsWithoutArgument(args: Dict<string, Value>, prefix: string, fields: Value, ds: seq<Value>)
    requires !Truthy(GetOr(args, prefix, Null)) && fields.Obj? && ds != []
    requires forall i :: 0 <= i < |ds| ==> ds[i].Str? && HasField(fields, LStrip(ds[i].s, "-"))
    ensures ListEntries(ds).Ok?
    ensures DefaultOrderingQueryParams(args, prefix, fields, List(ds)) == Ok(List(ListEntries(ds).value))
  {
    DefaultsConfigured(fields, ds);
    TransformedDefaults(args, prefix, fields, ds);
    NoArgumentUsesDefaults(args, prefix, fields, List(ds));
  }

  lemma NoArgumentUsesDefaults(args: Dict<string, Value>, prefix: string, fields: Value, defaults: Value)
    requires !Truthy(GetOr(args, prefix, Null)) && fields.Obj?
    ensures DefaultOrderingQueryParams(args, prefix, fields, defaults) == DefaultOrderingParams(args, prefix, fields, defaults)
  {
    assert AnyConfigured([], fields) == Ok(false);
  }

  lemma DefaultsConfigured(fields: Value, ds: seq<Value>)
    requires fields.Obj?
    requires forall i :: 0 <= i < |ds| ==> ds[i].Str? && HasField(fields, LStrip(ds[i].s, "-"))
    ensures AllConfigured(ds, fields) == Ok(true) && ListEntries(ds).Ok?
  {
    AllConfiguredMeaning(ds, fields);
  }

  lemma TransformedDefaults(args: Dict<string, Value>, prefix: string, fields: Value, ds: seq<Value>)
    requires !Truthy(GetOr(args, prefix, Null)) && fields.Obj?
    requires AllConfigured(ds, fields) == Ok(true) && ListEntries(ds).Ok?
    ensures OrderingOfDefaults(args, prefix, fields, List(ds)) == Ok(List(ListEntries(ds).value))
  {
    assert IterItems(List(ds)) == Ok(ds);
    assert DefaultPrepared(args, prefix) == Ok([]);
    assert Transformed(List(ds), []) == ListEntries(ds);
  }

  /** A single string default behaves as a one-element list of defaults. */
  lemma StringDefaultIsList(args: Dict<string, Value>, prefix: string, fields: Value, s: string)
    ensures DefaultOrderingParams(args, prefix, fields, Str(s)) == DefaultOrderingParams(args, prefix, fields, List([Str(s)]))
  {
  }

  /** Defaults naming a field that is not configured are passed to `sort`
      untransformed. */
  lemma DefaultKeepsUnconfigured(qs: Search, args: Dict<string, Value>, prefix: string, fields: Value, ds: seq<Value>, k: nat)
    requires !Truthy(GetOr(args, prefix, Null)) && fields.Obj?
    requires forall i :: 0 <= i < |ds| ==> ds[i].Str?
    requires k < |ds| && !HasField(fields, LStrip(ds[k].s, "-"))
    ensures DefaultOrderingFilter(qs, args, prefix, fields, List(ds)) == Ok(SetSort(qs, ds))
  {
    assert AnyConfigured([], fields) == Ok(false);
    assert IterItems(List(ds)) == Ok(ds);
    AllConfiguredMeaning(ds, fields);
    assert AllConfigured(ds, fields) == Ok(false);
    assert DefaultOrderingParams(args, prefix, fields, List(ds)) == Ok(List(ds));
  }

  /** The two backends in their pipeline order: once the explicit ordering
      backend has sorted on configured fields, the default ordering backend
      leaves the request as it is. */
  lemma ExplicitOrderingWins(qs: Search, args: Dict<string, Value>, prefix: string, fields: Value, defaults: Value)
    requires fields.Obj?
    requires GetOr(args, prefix, Null).Obj? && GetOr(args, prefix, Null).fields != []
    requires forall i :: 0 <= i < |GetOr(args, prefix, Null).fields| ==>
      HasField(fields, GetOr(args, prefix, Null).fields[i].0)
    ensures OrderingFilter(qs, args, prefix, fields).Ok?
    ensures var q1 := OrderingFilter(qs, args, prefix, fields).value;
      DefaultOrderingFilter(q1, args, prefix, fields, defaults) == Ok(q1)
  {
    OrderingSortsEachArgument(qs, args, prefix, fields);
    var q1 := OrderingFilter(qs, args, prefix, fields).value;
    var k := GetOr(args, prefix, Null).fields[0].0;
    FindUnique(GetOr(args, prefix, Null).fields, k, 0);
    DefaultYieldsToExplicit(q1, args, prefix, fields, defaults, k);
  }
}
