/** `NestedFilteringFilterBackend`: the filtering backend under the prefix
    `nested`, with its argument names taken from `nested_filter_fields`. */
module FilteringNested {
  import opened Wrappers
  import opened Dicts
  import opened Values
  import opened Query
  import opened FilteringCommon
  import C = Constants

  const PREFIX := "nested"

  /** `field_belongs_to`: the name is a configured nested field. */
  predicate NestedFieldBelongsTo(nested: Value, name: string) {
    HasField(nested, name)
  }

  /** `filter_args_mapping`: the identity on configured nested names. */
  function NestedArgsMapping(nested: Value, arg: string): (r: Option<string>)
    ensures r.Some? <==> NestedFieldBelongsTo(nested, arg)
    ensures r.Some? ==> r.value == arg
  {
    if HasField(nested, arg) then Some(arg) else None
  }

  /** `get_field_options`: the nested field's options, `{}` when missing. */
  function NestedFieldOptions(nested: Value, name: string): (r: Result<Value>)
    ensures nested.Obj? && !HasField(nested, name) ==> r == Ok(Obj([]))
    ensures nested.Obj? && HasField(nested, name) ==> r == Ok(Field(nested, name).value)
    ensures !nested.Obj? ==> r == Err(AttributeError)
  {
    if nested.Obj? then Ok(FieldOr(nested, name, Obj([]))) else Err(AttributeError)
  }

  /** `get_sub_field_options`: a sub-field's options, `{}` when missing. */
  function SubFieldOptions(nested: Value, name: string, sub: string): (r: Result<Value>)
    ensures nested.Obj? && !HasField(nested, name) ==> r == Ok(Obj([]))
    ensures NestedFieldOptions(nested, name).Ok? && NestedFieldOptions(nested, name).value.Obj? ==>
      r == Ok(FieldOr(NestedFieldOptions(nested, name).value, sub, Obj([])))
  {
    var options :- NestedFieldOptions(nested, name);
    if options.Obj? then Ok(FieldOr(options, sub, Obj([]))) else Err(AttributeError)
  }

  /** The lookup selection of `get_field_type` for one sub-field: None
      without nested fields; otherwise the sub-field's `lookups` (all lookups
      unless given) known to the mapping, after a `value` key only when a base
      type is given. */
  function NestedFieldTypeKeys(nested: Value, name: string, sub: string, hasBaseType: bool)
    : (r: Result<Option<seq<string>>>)
    ensures !Truthy(nested) ==> r == Ok(None)
  {
    if !Truthy(nested) then Ok(None)
    else
      var options :- SubFieldOptions(nested, name, sub);
      var lookups := if HasField(options, "lookups") then FieldOr(options, "lookups", List([])) else ALL_LOOKUPS;
      var items :- IterItems(lookups);
      var keys :- ArgKeys(if hasBaseType then [C.VALUE] else [], items);
      Ok(Some(keys))
  }

  /** The one call site passes no base type, so no sub-field argument has a
      `value` key; each key is a lookup the mapping knows. */
  lemma NoValueKeyWithoutBaseType(nested: Value, name: string, sub: string)
    requires NestedFieldTypeKeys(nested, name, sub, false).Ok?
    requires NestedFieldTypeKeys(nested, name, sub, false).value.Some?
    ensures var keys := NestedFieldTypeKeys(nested, name, sub, false).value.value;
      forall k :: k in keys ==> k in C.LOOKUP_FILTER_MAPPING
  {
    var options := SubFieldOptions(nested, name, sub).value;
    var lookups := if HasField(options, "lookups") then FieldOr(options, "lookups", List([])) else ALL_LOOKUPS;
    var items := IterItems(lookups).value;
    forall k | k in NestedFieldTypeKeys(nested, name, sub, false).value.value
      ensures k in C.LOOKUP_FILTER_MAPPING
    {
      ArgKeysMembers([], items, k);
    }
  }

  /** A sub-field without its own lookups gets every lookup the mapping knows. */
  lemma UnlistedSubFieldGetsMappedLookups(nested: Value, name: string, sub: string, k: string)
    requires Truthy(nested) && nested.Obj? && !HasField(nested, name)
    ensures NestedFieldTypeKeys(nested, name, sub, false).Ok?
    ensures NestedFieldTypeKeys(nested, name, sub, false).value.Some?
    ensures k in NestedFieldTypeKeys(nested, name, sub, false).value.value <==> k in C.LOOKUP_FILTER_MAPPING
  {
    assert SubFieldOptions(nested, name, sub) == Ok(Obj([]));
    assert !HasField(Obj([]), "lookups");
    var items := ALL_LOOKUPS.items;
    assert IterItems(ALL_LOOKUPS) == Ok(items);
    assert forall i :: 0 <= i < |items| ==> items[i].Str?;
    ArgKeysOk([], items);
    assert NestedFieldTypeKeys(nested, name, sub, false) == Ok(Some(ArgKeys([], items).value));
    ArgKeysMembers([], items, k);
    if k in C.LOOKUP_FILTER_MAPPING {
      MappedLookupIsListed(k);
    }
  }

  /** Looking up strings in the mapping never fails. */
  lemma {:induction false} ArgKeysOk(keys: seq<string>, items: seq<Value>)
    requires forall i :: 0 <= i < |items| ==> items[i].Str?
    ensures ArgKeys(keys, items).Ok?
    decreases |items|
  {
    if items != [] {
      var known := MappingGet(items[0]).value;
      ArgKeysOk(if known then AddKey(keys, items[0].s) else keys, items[1..]);
    }
  }

  /** `get_backend_query_fields`: nothing without nested fields; with them
      the call reaches a method no base class defines. */
  function NestedQueryFields(nested: Value): (r: Result<Dict<string, Value>>)
    ensures !Truthy(nested) <==> r == Ok([])
    ensures Truthy(nested) ==> r == Err(AttributeError)
  {
    if !Truthy(nested) then Ok([]) else Err(AttributeError)
  }

  /** `filter`, inherited: the `nested` bucket restricted to the nested
      names, walked against the normalised `filter_fields`. */
  method NestedFilter(qs: Search, args: Dict<string, Value>, nested: Value, config: Value) returns (r: Result<Search>)
    ensures FilterQueryParams(args, PREFIX, nested, config).Ok? ==>
      r == CompileAll(qs, FilterQueryParams(args, PREFIX, nested, config).value)
    ensures FilterQueryParams(args, PREFIX, nested, config).Err? ==> r.Err?
  {
    r := Filter(qs, args, PREFIX, nested, config);
  }
}
