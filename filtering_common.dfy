/** `FilteringFilterBackend`: normalising the `filter_fields` configuration,
    turning the `filter` argument tree into lookup requests, and compiling
    each request into the builder. */
module FilteringCommon {
  import opened Wrappers
  import opened Dicts
  import opened Strs
  import opened Values
  import opened Query
  import opened FilteringMixins
  import opened PyText
  import C = Constants

  /** A filter field after `prepare_filter_fields`: a `"normal"` field with its
      lookups and default lookup, or any other type with its normalised
      properties. `path` is `Null` unless the field sits directly under a
      `"nested"` field. */
  datatype FieldSpec =
    | NormalField(field: Value, typ: Value, lookups: Value, defaultLookup: Value, path: Value)
    | CompositeField(field: Value, typ: Value, properties: Dict<string, FieldSpec>, path: Value)

  const NORMAL: Value := Str("normal")
  const NESTED: Value := Str("nested")
  const OBJECT: Value := Str("object")

  /** `ALL_LOOKUP_FILTERS_AND_QUERIES` as a configuration value. */
  const ALL_LOOKUPS: Value := List(StrValues(C.ALL_LOOKUP_FILTERS_AND_QUERIES))

  function StrValues(ss: seq<string>): (r: seq<Value>)
    ensures |r| == |ss| && forall i :: 0 <= i < |ss| ==> r[i] == Str(ss[i])
  {
    seq(|ss|, i requires 0 <= i < |ss| => Str(ss[i]))
  }

  /** `lookups[0]`, with the errors Python raises for an empty or unindexable value. */
  function First(v: Value): (r: Result<Value>)
    ensures v.List? && v.items != [] ==> r == Ok(v.items[0])
    ensures r.Ok? ==> (v.List? && v.items != []) || (v.Str? && v.s != "")
  {
    match v
    case List(items) => if items == [] then Err(IndexError) else Ok(items[0])
    case Str(s) => if s == "" then Err(IndexError) else Ok(Str([s[0]]))
    case Obj(_) => Err(KeyError)
    case _ => Err(TypeError)
  }

  /** `"{}.{}".format(root_field, field) if root_field else field`: under a
      truthy parent field the text `root.field`, and otherwise (at top level,
      where the parent is None, or under a falsy parent field) the field
      value itself, whatever it is. */
  function JoinField(root: Value, field: Value): (r: Value)
    ensures Truthy(root) ==> r.Str? && StartsWith(r.s, PyStr(root) + ".") && r.s[|PyStr(root)| + 1..] == PyStr(field)
    ensures !Truthy(root) ==> r == field
  {
    if Truthy(root) then
      var t := PyStr(root) + "." + PyStr(field);
      assert t[..|PyStr(root)| + 1] == PyStr(root) + ".";
      Str(t)
    else field
  }

  /** The `path` a field receives: its parent's field under a nested parent. */
  function PathOf(root: Value, isNested: bool): Value {
    if isNested then root else Null
  }

  /** The `field` entry an option names: the string itself, or the dict's
      `field` key, defaulting to the argument name. */
  function OptionField(name: string, opt: Value): Value {
    if opt.Str? then opt else FieldOr(opt, "field", Str(name))
  }

  /** The `type` an option declares, `"normal"` by default. */
  function OptionType(opt: Value): Value {
    if opt.Str? then NORMAL else FieldOr(opt, "type", NORMAL)
  }

  /** The option's lookups: its own list, or every lookup when it names none. */
  function OptionLookups(opt: Value): Value {
    if opt.Obj? && FieldOr(opt, "lookups", Null) != Null then FieldOr(opt, "lookups", Null) else ALL_LOOKUPS
  }

  /** One iteration of `_recursive_correct_filter_fields`. */
  function NormaliseEntry(name: string, opt: Value, root: Value, isNested: bool): (r: Result<FieldSpec>)
    decreases opt, 0
  {
    if opt.Str? then
      Ok(NormalField(JoinField(root, opt), NORMAL, ALL_LOOKUPS, Str(C.LOOKUP_FILTER_TERM), PathOf(root, isNested)))
    else if opt.Obj? then
      var lookups := OptionLookups(opt);
      var default0 := FieldOr(opt, "default_lookup", Null);
      var default :- if default0 == Null then First(lookups) else Ok(default0);
      var typ := FieldOr(opt, "type", NORMAL);
      var field := JoinField(root, FieldOr(opt, "field", Str(name)));
      if typ == NORMAL then Ok(NormalField(field, typ, lookups, default, PathOf(root, isNested)))
      else
        var i := Find(opt.fields, "properties");
        if i == |opt.fields| then Err(KeyError)
        else
          var props := opt.fields[i].1;
          if !props.Obj? then Err(AttributeError)
          else
            var children :- NormaliseFrom([], props, 0, field, typ == NESTED);
            Ok(CompositeField(field, typ, children, PathOf(root, isNested)))
    else Err(TypeError)
  }

  /** Every entry of `d` has path `p`. */
  predicate AllPaths(d: Dict<string, FieldSpec>, p: Value) {
    forall j :: 0 <= j < |d| ==> d[j].1.path == p
  }

  /** Every entry of `d` has a field under `root` (any field when `root` is falsy). */
  predicate AllUnder(d: Dict<string, FieldSpec>, root: Value) {
    forall j :: 0 <= j < |d| ==> Under(d[j].1.field, root)
  }

  /** A field is under a truthy parent when its text starts with the parent's. */
  predicate Under(field: Value, root: Value) {
    !Truthy(root) || (field.Str? && StartsWith(field.s, PyStr(root) + "."))
  }

  /** The loop of `_recursive_correct_filter_fields` from the `i`-th option
      on, filling `acc`. */
  function NormaliseFrom(acc: Dict<string, FieldSpec>, options: Value, i: nat, root: Value, isNested: bool)
    : (r: Result<Dict<string, FieldSpec>>)
    requires options.Obj? && i <= |options.fields|
    decreases options, |options.fields| - i
  {
    if i == |options.fields| then Ok(acc)
    else
      var e :- NormaliseEntry(options.fields[i].0, options.fields[i].1, root, isNested);
      NormaliseFrom(Put(acc, options.fields[i].0, e), options, i + 1, root, isNested)
  }

  /** What one normalised option records, whatever its shape. */
  lemma EntryShape(name: string, opt: Value, root: Value, isNested: bool)
    ensures !opt.Str? && !opt.Obj? ==> NormaliseEntry(name, opt, root, isNested) == Err(TypeError)
    ensures var r := NormaliseEntry(name, opt, root, isNested);
      r.Ok? ==>
        r.value.field == JoinField(root, OptionField(name, opt)) &&
        r.value.typ == OptionType(opt) &&
        r.value.path == PathOf(root, isNested) &&
        (r.value.NormalField? <==> OptionType(opt) == NORMAL) &&
        (r.value.NormalField? ==> r.value.lookups == OptionLookups(opt))
    ensures opt.Str? ==> NormaliseEntry(name, opt, root, isNested).Ok?
  {
  }

  /** A missing default lookup is the first lookup, hence one of them. */
  lemma DefaultLookupIsListed(name: string, opt: Value, root: Value, isNested: bool)
    requires NormaliseEntry(name, opt, root, isNested).Ok?
    requires NormaliseEntry(name, opt, root, isNested).value.NormalField?
    requires opt.Str? || FieldOr(opt, "default_lookup", Null) == Null
    ensures var f := NormaliseEntry(name, opt, root, isNested).value;
      f.lookups.List? ==> f.defaultLookup in f.lookups.items
  {
    assert ALL_LOOKUPS.items[0] == Str(C.LOOKUP_FILTER_TERM);
  }

  /** The options of a composite field that has no properties raise KeyError. */
  lemma CompositeNeedsProperties(name: string, opt: Value, root: Value, isNested: bool)
    requires opt.Obj? && FieldOr(opt, "type", NORMAL) != NORMAL && !HasField(opt, "properties")
    requires opt.Obj? && (FieldOr(opt, "default_lookup", Null) != Null || First(OptionLookups(opt)).Ok?)
    ensures NormaliseEntry(name, opt, root, isNested) == Err(KeyError)
  {
  }

  /** A put of a field with path `p` under `root` keeps both properties. */
  lemma PutKeepsShape(acc: Dict<string, FieldSpec>, name: string, f: FieldSpec, p: Value, root: Value)
    requires AllPaths(acc, p) && AllUnder(acc, root)
    requires f.path == p && Under(f.field, root)
    ensures AllPaths(Put(acc, name, f), p) && AllUnder(Put(acc, name, f), root)
  {
    forall j | 0 <= j < |Put(acc, name, f)|
      ensures Put(acc, name, f)[j].1.path == p
      ensures Under(Put(acc, name, f)[j].1.field, root)
    {
      PutEntry(acc, name, f, j);
    }
  }

  /** Every field produced from a loop under `root` carries the path that
      loop was given and sits under `root`. */
  lemma {:induction false} NormaliseFromShape(acc: Dict<string, FieldSpec>, options: Value, i: nat,
                                              root: Value, isNested: bool)
    requires options.Obj? && i <= |options.fields|
    requires AllPaths(acc, PathOf(root, isNested)) && AllUnder(acc, root)
    ensures var r := NormaliseFrom(acc, options, i, root, isNested);
      r.Ok? ==> AllPaths(r.value, PathOf(root, isNested)) && AllUnder(r.value, root)
    decreases |options.fields| - i
  {
    if i < |options.fields| {
      var name := options.fields[i].0;
      var e := NormaliseEntry(name, options.fields[i].1, root, isNested);
      if e.Ok? {
        EntryShape(name, options.fields[i].1, root, isNested);
        PutKeepsShape(acc, name, e.value, PathOf(root, isNested), root);
        NormaliseFromShape(Put(acc, name, e.value), options, i + 1, root, isNested);
      }
    }
  }

  /** The keys of the normalised dict are the option names. */
  lemma {:induction false} NormaliseFromKeys(acc: Dict<string, FieldSpec>, options: Value, i: nat,
                                             root: Value, isNested: bool, k: string)
    requires options.Obj? && i <= |options.fields|
    requires NormaliseFrom(acc, options, i, root, isNested).Ok?
    ensures HasKey(NormaliseFrom(acc, options, i, root, isNested).value, k) <==>
            HasKey(acc, k) || k in Keys(options.fields[i..])
    decreases |options.fields| - i
  {
    if i < |options.fields| {
      var name := options.fields[i].0;
      var e := NormaliseEntry(name, options.fields[i].1, root, isNested);
      var acc' := Put(acc, name, e.value);
      PutFind(acc, name, e.value, k);
      NormaliseFromKeys(acc', options, i + 1, root, isNested, k);
      assert Keys(options.fields[i..]) == [name] + Keys(options.fields[i + 1..]);
    }
  }

  /** Children of a `"nested"` field get its full field as path; children of
      any other composite field get none; every child field extends its
      parent's. */
  lemma ChildrenOfComposite(name: string, opt: Value, root: Value, isNested: bool)
    requires NormaliseEntry(name, opt, root, isNested).Ok?
    requires NormaliseEntry(name, opt, root, isNested).value.CompositeField?
    ensures var f := NormaliseEntry(name, opt, root, isNested).value;
      AllPaths(f.properties, if f.typ == NESTED then f.field else Null) &&
      AllUnder(f.properties, f.field)
  {
    var i := Find(opt.fields, "properties");
    var field := JoinField(root, FieldOr(opt, "field", Str(name)));
    var typ := FieldOr(opt, "type", NORMAL);
    NormaliseFromShape([], opt.fields[i].1, 0, field, typ == NESTED);
  }

  /** A composite field configured with `"field": None` is a falsy parent:
      its children keep their own fields, unprefixed. */
  lemma NullParentLeavesChildren()
    ensures var props := Obj([("x", Str("y"))]);
      var opt := Obj([("field", Null), ("type", OBJECT), ("properties", props)]);
      NormaliseEntry("a", opt, Null, false) ==
        Ok(CompositeField(Null, OBJECT, [("x", NormalField(Str("y"), NORMAL, ALL_LOOKUPS, Str(C.LOOKUP_FILTER_TERM), Null))], Null))
  {
    var props := Obj([("x", Str("y"))]);
    var opt := Obj([("field", Null), ("type", OBJECT), ("properties", props)]);
    assert FieldOr(opt, "lookups", Null) == Null;
    assert FieldOr(opt, "default_lookup", Null) == Null;
    assert FieldOr(opt, "field", Str("a")) == Null;
    assert "field" != "type" && "field" != "properties" && "type" != "properties";
    FindUnique(opt.fields, "type", 1);
    FindUnique(opt.fields, "properties", 2);
    assert FieldOr(opt, "type", NORMAL) == OBJECT;
    assert ALL_LOOKUPS.items[0] == Str(C.LOOKUP_FILTER_TERM);
    var leaf := NormalField(Str("y"), NORMAL, ALL_LOOKUPS, Str(C.LOOKUP_FILTER_TERM), Null);
    assert NormaliseEntry("x", Str("y"), Null, false) == Ok(leaf);
    assert Put([], "x", leaf) == [("x", leaf)];
    assert NormaliseFrom([], props, 0, Null, false) == NormaliseFrom([("x", leaf)], props, 1, Null, false);
  }

  /** `prepare_filter_fields`: the configuration must be a dict. */
  function PrepareFilterFields(config: Value): (r: Result<Dict<string, FieldSpec>>)
    ensures !config.Obj? ==> r == Err(AttributeError)
  {
    if !config.Obj? then Err(AttributeError) else NormaliseFrom([], config, 0, Null, false)
  }

  /** Top-level fields have no path and keep their own field name. */
  lemma TopLevelFields(config: Value)
    requires PrepareFilterFields(config).Ok?
    ensures AllPaths(PrepareFilterFields(config).value, Null)
    ensures forall k :: HasKey(PrepareFilterFields(config).value, k) <==> HasField(config, k)
  {
    NormaliseFromShape([], config, 0, Null, false);
    forall k ensures HasKey(PrepareFilterFields(config).value, k) <==> HasField(config, k) {
      NormaliseFromKeys([], config, 0, Null, false, k);
      HasKeyKeys(config.fields, k);
      assert config.fields[0..] == config.fields;
    }
  }

  /** The recursive method filling the normalised dict, as the source does. */
  method CorrectFilterFields(options: Value, root: Value, isNested: bool) returns (r: Result<Dict<string, FieldSpec>>)
    requires options.Obj?
    ensures r == NormaliseFrom([], options, 0, root, isNested)
    decreases options, 1
  {
    var data: Dict<string, FieldSpec> := [];
    var i := 0;
    while i < |options.fields|
      invariant 0 <= i <= |options.fields|
      invariant NormaliseFrom(data, options, i, root, isNested) == NormaliseFrom([], options, 0, root, isNested)
      decreases |options.fields| - i
    {
      var name := options.fields[i].0;
      var e := CorrectFilterField(name, options.fields[i].1, root, isNested);
      if e.Err? {
        return Err(e.error);
      }
      data := Put(data, name, e.value);
      i := i + 1;
    }
    return Ok(data);
  }

  /** The body of the loop for one option. */
  method CorrectFilterField(name: string, opt: Value, root: Value, isNested: bool) returns (r: Result<FieldSpec>)
    ensures r == NormaliseEntry(name, opt, root, isNested)
    decreases opt, 0
  {
    var field: Value;
    var typ: Value;
    var lookups: Value;
    var default: Value;
    if opt.Str? {
      field := opt;
      typ := NORMAL;
      lookups := ALL_LOOKUPS;
      default := Null;
    } else if opt.Obj? {
      field := FieldOr(opt, "field", Str(name));
      default := FieldOr(opt, "default_lookup", Null);
      lookups := FieldOr(opt, "lookups", Null);
      typ := FieldOr(opt, "type", NORMAL);
    } else {
      return Err(TypeError);
    }
    if lookups == Null {
      lookups := ALL_LOOKUPS;
    }
    if default == Null {
      var first := First(lookups);
      if first.Err? {
        return Err(first.error);
      }
      default := first.value;
    }
    var joined := JoinField(root, field);
    if typ == NORMAL {
      return Ok(NormalField(joined, typ, lookups, default, PathOf(root, isNested)));
    }
    var i := Find(opt.fields, "properties");
    if i == |opt.fields| {
      return Err(KeyError);
    }
    var props := opt.fields[i].1;
    if !props.Obj? {
      return Err(AttributeError);
    }
    var children := CorrectFilterFields(props, joined, typ == NESTED);
    if children.Err? {
      return Err(children.error);
    }
    return Ok(CompositeField(joined, typ, children.value, PathOf(root, isNested)));
  }

  /** The identity `filter_args_mapping` over the configured names, and the
      loop of `prepare_query_params`: the `filter` bucket restricted to
      configured names, later entries under one name replacing earlier ones. */
  function RestrictTo(acc: Dict<string, Value>, bucket: Dict<string, Value>, names: Value): (r: Dict<string, Value>)
    decreases |bucket|
  {
    if bucket == [] then acc
    else if HasField(names, bucket[0].0) then RestrictTo(Put(acc, bucket[0].0, bucket[0].1), bucket[1..], names)
    else RestrictTo(acc, bucket[1..], names)
  }

  /** `prepare_query_params`: `{}` without a truthy `filter` bucket; a bucket
      that is not a dict has no `items()`. */
  function QueryParams(args: Dict<string, Value>, prefix: string, names: Value): (r: Result<Dict<string, Value>>)
    ensures !Truthy(GetOr(args, prefix, Null)) ==> r == Ok([])
    ensures Truthy(GetOr(args, prefix, Null)) && !GetOr(args, prefix, Null).Obj? ==> r == Err(AttributeError)
  {
    var bucket := GetOr(args, prefix, Null);
    if !Truthy(bucket) then Ok([])
    else if !bucket.Obj? then Err(AttributeError)
    else Ok(RestrictTo([], bucket.fields, names))
  }

  /** A name the configuration lists takes the bucket's value; any other
      name keeps what the accumulator had. */
  lemma {:induction false} RestrictToGet(acc: Dict<string, Value>, bucket: Dict<string, Value>, names: Value, k: string)
    requires Distinct(bucket)
    ensures Get(RestrictTo(acc, bucket, names), k) ==
            if HasKey(bucket, k) && HasField(names, k) then Get(bucket, k) else Get(acc, k)
    decreases |bucket|
  {
    if bucket != [] {
      var name := bucket[0].0;
      var acc' := if HasField(names, name) then Put(acc, name, bucket[0].1) else acc;
      assert Distinct(bucket[1..]);
      RestrictToGet(acc', bucket[1..], names, k);
      if HasField(names, name) {
        PutGet(acc, name, bucket[0].1, k);
      }
      if name == k {
        assert !HasKey(bucket[1..], k) by {
          forall j | 0 <= j < |bucket[1..]| ensures bucket[1..][j].0 != k {
            assert bucket[j + 1].0 != bucket[0].0;
          }
        }
      } else {
        FindUnique(bucket, k, Find(bucket[1..], k) + 1);
      }
    }
  }

  /** The loop of `prepare_query_params`. */
  method PrepareQueryParams(args: Dict<string, Value>, prefix: string, names: Value) returns (r: Result<Dict<string, Value>>)
    ensures r == QueryParams(args, prefix, names)
  {
    var bucket := GetOr(args, prefix, Null);
    if !Truthy(bucket) {
      return Ok([]);
    }
    if !bucket.Obj? {
      return Err(AttributeError);
    }
    var params: Dict<string, Value> := [];
    var i := 0;
    while i < |bucket.fields|
      invariant 0 <= i <= |bucket.fields|
      invariant RestrictTo(params, bucket.fields[i..], names) == RestrictTo([], bucket.fields, names)
    {
      var (arg, filters) := bucket.fields[i];
      assert bucket.fields[i..][1..] == bucket.fields[i + 1..];
      if HasField(names, arg) {
        params := Put(params, arg, filters);
      }
      i := i + 1;
    }
    return Ok(params);
  }

  /** One step of `get_field_options`: descend into `properties` when
      present, then take the component (missing gives `{}`). */
  function OptionsStep(data: Value, p: string): Result<Value> {
    var hasProps :- PyContains(data, "properties");
    var data :- if !hasProps then Ok(data)
                else if data.Obj? then Ok(FieldOr(data, "properties", Null))
                else Err(TypeError);
    if data.Obj? then Ok(FieldOr(data, p, Obj([]))) else Err(AttributeError)
  }

  function OptionsWalk(data: Value, path: seq<string>): Result<Value>
    decreases |path|
  {
    if path == [] then Ok(data)
    else
      var next :- OptionsStep(data, path[0]);
      OptionsWalk(next, path[1..])
  }

  /** `get_field_options`: walk the dotted name through the configuration;
      a missing or empty target is None. */
  function GetFieldOptions(config: Value, fieldName: string): (r: Result<Option<Value>>)
    ensures r.Ok? && r.value.Some? ==> Truthy(r.value.value)
    ensures OptionsWalk(config, Split(fieldName, ".")).Ok? ==>
      r.Ok? && (r.value.None? <==> !Truthy(OptionsWalk(config, Split(fieldName, ".")).value))
  {
    var data :- OptionsWalk(config, Split(fieldName, "."));
    if Truthy(data) then Ok(Some(data)) else Ok(None)
  }

  /** A configured top-level field is found by its name; one that is missing
      is None. */
  lemma GetFieldOptionsTopLevel(config: Value, name: string)
    requires config.Obj? && !HasField(config, "properties")
    requires !Contains(name, ".")
    ensures GetFieldOptions(config, name) ==
      Ok(if HasField(config, name) && Truthy(FieldOr(config, name, Obj([]))) then Some(FieldOr(config, name, Obj([]))) else None)
  {
    SplitUnsplit(name, ".");
    assert [name][1..] == [];
    assert OptionsStep(config, name) == Ok(FieldOr(config, name, Obj([])));
    assert OptionsWalk(config, [name]) == Ok(FieldOr(config, name, Obj([])));
  }

  /** The document field a request names: the configured field's text
      (a string field is itself). */
  function FieldName(f: FieldSpec): (r: string)
    ensures f.field.Str? ==> r == f.field.s
  {
    PyStr(f.field)
  }

  /** The lookups a field accepts in the walk (`()` unless it is normal). */
  function ValidLookups(f: FieldSpec): Value {
    if f.NormalField? then f.lookups else List([])
  }

  /** The default lookup in the walk (None unless the field is normal). */
  function DefaultLookup(f: FieldSpec): Value {
    if f.NormalField? then f.defaultLookup else Null
  }

  /** The lookup chosen for one argument key: `value` means the default,
      a listed lookup is kept, anything else is None. */
  function LookupFor(f: FieldSpec, param: string): (r: Result<Value>)
    ensures param == C.VALUE ==> r == Ok(DefaultLookup(f))
    ensures param != C.VALUE && PyContains(ValidLookups(f), param) == Ok(true) ==> r == Ok(Str(param))
    ensures param != C.VALUE && PyContains(ValidLookups(f), param) == Ok(false) ==> r == Ok(Null)
  {
    if param == C.VALUE then Ok(DefaultLookup(f))
    else
      var listed :- PyContains(ValidLookups(f), param);
      Ok(if listed then Str(param) else Null)
  }

  /** The inner loop of `_recursive_get_lookup_param_options` over one
      field's lookup arguments, from the `i`-th on. */
  function LeafRequests(f: FieldSpec, params: Dict<string, Value>): (r: Result<seq<LookupRequest>>)
    ensures r.Ok? ==> |r.value| <= |params|
    ensures r.Ok? ==> forall j :: 0 <= j < |r.value| ==>
      r.value[j].values != Null && r.value[j].path == f.path && r.value[j].field == FieldName(f) &&
      r.value[j].options == []
    decreases |params|
  {
    if params == [] then Ok([])
    else
      var lookup :- LookupFor(f, params[0].0);
      var rest :- LeafRequests(f, params[1..]);
      var here := if params[0].1 != Null then [LookupRequest(lookup, params[0].1, f.path, FieldName(f), [])] else [];
      Ok(here + rest)
  }

  /** `_recursive_get_lookup_param_options` from the `i`-th argument of the
      dict `query` on: unknown names are skipped, nested and object fields
      are descended into, other fields contribute their lookup arguments. */
  function Walk(query: Value, i: nat, fields: Dict<string, FieldSpec>): (r: Result<seq<LookupRequest>>)
    requires query.Obj? && i <= |query.fields|
    decreases query, |query.fields| - i
  {
    if i == |query.fields| then Ok([])
    else
      var name := query.fields[i].0;
      var params := query.fields[i].1;
      var here :- match Get(fields, name)
        case None => Ok([])
        case Some(f) =>
          if !params.Obj? then Err(AttributeError)
          else if f.typ == NESTED || f.typ == OBJECT then
            if f.CompositeField? then Walk(params, 0, f.properties) else Err(KeyError)
          else LeafRequests(f, params.fields);
      var rest :- Walk(query, i + 1, fields);
      Ok(here + rest)
  }

  /** Arguments naming no configured field contribute nothing. */
  lemma WalkSkipsUnknown(query: Value, i: nat, fields: Dict<string, FieldSpec>)
    requires query.Obj? && i < |query.fields| && !HasKey(fields, query.fields[i].0)
    ensures Walk(query, i, fields) == Walk(query, i + 1, fields)
  {
    var w := Walk(query, i + 1, fields);
    if w.Ok? {
      assert [] + w.value == w.value;
    }
  }

  /** Every request of a normal field's arguments carries that field and path,
      and entries whose value is None are dropped. */
  lemma WalkNormalField(query: Value, i: nat, fields: Dict<string, FieldSpec>)
    requires query.Obj? && i < |query.fields|
    requires Get(fields, query.fields[i].0).Some? && Get(fields, query.fields[i].0).value.NormalField?
    requires query.fields[i].1.Obj?
    requires Get(fields, query.fields[i].0).value.typ == NORMAL
    ensures Walk(query, i, fields).Ok? ==>
      LeafRequests(Get(fields, query.fields[i].0).value, query.fields[i].1.fields).Ok? &&
      Walk(query, i, fields).value ==
        LeafRequests(Get(fields, query.fields[i].0).value, query.fields[i].1.fields).value + Walk(query, i + 1, fields).value
  {
  }

  /** A lookup argument whose value is None yields no request. */
  lemma LeafSkipsNone(f: FieldSpec, params: Dict<string, Value>)
    requires params != [] && params[0].1 == Null && LeafRequests(f, params).Ok?
    ensures LeafRequests(f, params) == LeafRequests(f, params[1..])
  {
    var rest := LeafRequests(f, params[1..]);
    if rest.Ok? {
      assert [] + rest.value == rest.value;
    }
  }

  /** The walk as the source runs it: a recursive procedure appending to the
      shared list `ret`. */
  method CollectRequests(query: Value, fields: Dict<string, FieldSpec>, ret: seq<LookupRequest>)
    returns (r: Result<seq<LookupRequest>>)
    requires query.Obj?
    ensures Walk(query, 0, fields).Ok? ==> r == Ok(ret + Walk(query, 0, fields).value)
    ensures Walk(query, 0, fields).Err? ==> r.Err?
    decreases query
  {
    var out := ret;
    var i := 0;
    PrependNothing(Walk(query, 0, fields));
    while i < |query.fields|
      invariant 0 <= i <= |query.fields|
      invariant Prepend(ret, Walk(query, 0, fields)) == Prepend(out, Walk(query, i, fields))
    {
      var name := query.fields[i].0;
      var params := query.fields[i].1;
      var found := Get(fields, name);
      WalkStep(query, i, fields);
      if found.Some? {
        var f := found.value;
        if !params.Obj? {
          return Err(AttributeError);
        }
        if f.typ == NESTED || f.typ == OBJECT {
          if !f.CompositeField? {
            return Err(KeyError);
          }
          var sub := CollectRequests(params, f.properties, out);
          if sub.Err? {
            return Err(sub.error);
          }
          PrependTwice(out, Walk(params, 0, f.properties).value, Walk(query, i + 1, fields));
          out := sub.value;
        } else {
          var leaf := AppendLeafRequests(f, params.fields, out);
          if leaf.Err? {
            return Err(leaf.error);
          }
          PrependTwice(out, LeafRequests(f, params.fields).value, Walk(query, i + 1, fields));
          out := leaf.value;
        }
      }
      i := i + 1;
    }
    assert out + [] == out;
    return Ok(out);
  }

  /** One argument of the walk: an unknown name contributes nothing, a
      malformed one fails, and otherwise its requests come first. */
  lemma WalkStep(query: Value, i: nat, fields: Dict<string, FieldSpec>)
    requires query.Obj? && i < |query.fields|
    ensures var name := query.fields[i].0;
      var params := query.fields[i].1;
      var w := Walk(query, i, fields);
      var rest := Walk(query, i + 1, fields);
      match Get(fields, name)
      case None => w == rest
      case Some(f) =>
        if !params.Obj? then w == Err(AttributeError)
        else if f.typ == NESTED || f.typ == OBJECT then
          if !f.CompositeField? then w == Err(KeyError)
          else
            (Walk(params, 0, f.properties).Err? ==> w.Err?) &&
            (Walk(params, 0, f.properties).Ok? ==> w == Prepend(Walk(params, 0, f.properties).value, rest))
        else
          (LeafRequests(f, params.fields).Err? ==> w.Err?) &&
          (LeafRequests(f, params.fields).Ok? ==> w == Prepend(LeafRequests(f, params.fields).value, rest))
  {
    PrependNothing(Walk(query, i + 1, fields));
  }

  /** The inner loop over one field's lookup arguments, appending to `out`. */
  method AppendLeafRequests(f: FieldSpec, params: Dict<string, Value>, out: seq<LookupRequest>)
    returns (r: Result<seq<LookupRequest>>)
    ensures LeafRequests(f, params).Ok? ==> r == Ok(out + LeafRequests(f, params).value)
    ensures LeafRequests(f, params).Err? ==> r.Err?
  {
    var cur := out;
    var j := 0;
    PrependNothing(LeafRequests(f, params));
    while j < |params|
      invariant 0 <= j <= |params|
      invariant Prepend(out, LeafRequests(f, params)) == Prepend(cur, LeafRequests(f, params[j..]))
    {
      var (param, value) := params[j];
      var lookup := LookupFor(f, param);
      LeafRequestsStep(f, params, j);
      if lookup.Err? {
        return Err(lookup.error);
      }
      var here := if value != Null then [LookupRequest(lookup.value, value, f.path, FieldName(f), [])] else [];
      PrependTwice(cur, here, LeafRequests(f, params[j + 1..]));
      cur := cur + here;
      j := j + 1;
    }
    assert params[j..] == [] && cur + [] == cur;
    return Ok(cur);
  }

  /** One argument of the inner loop: a lookup that cannot be chosen fails
      the rest, and otherwise the argument's request, if any, comes first. */
  lemma LeafRequestsStep(f: FieldSpec, params: Dict<string, Value>, j: nat)
    requires j < |params|
    ensures LookupFor(f, params[j].0).Err? ==> LeafRequests(f, params[j..]).Err?
    ensures LookupFor(f, params[j].0).Ok? ==>
      LeafRequests(f, params[j..]) ==
        Prepend(if params[j].1 != Null then [LookupRequest(LookupFor(f, params[j].0).value, params[j].1, f.path, FieldName(f), [])] else [],
                LeafRequests(f, params[j + 1..]))
  {
    assert params[j..][1..] == params[j + 1..];
  }

  /** `get_filter_query_params`: the bucket, restricted to the names of
      `filter_args_mapping`, walked against the normalised configuration.
      The plain backend takes the names from `filter_fields` itself. */
  function FilterQueryParams(args: Dict<string, Value>, prefix: string, names: Value, config: Value)
    : (r: Result<seq<LookupRequest>>)
    ensures QueryParams(args, prefix, names).Ok? && PrepareFilterFields(config).Ok? ==>
      r == Walk(Obj(QueryParams(args, prefix, names).value), 0, PrepareFilterFields(config).value)
    ensures QueryParams(args, prefix, names).Err? || PrepareFilterFields(config).Err? ==> r.Err?
  {
    var params :- QueryParams(args, prefix, names);
    var fields :- PrepareFilterFields(config);
    Walk(Obj(params), 0, fields)
  }

  /** The lookups `filter` dispatches on by name; every other lookup,
      including None, is compiled as a term filter. */
  predicate Dispatched(l: Value) {
    l in [Str(C.LOOKUP_FILTER_TERMS), Str(C.LOOKUP_FILTER_PREFIX), Str(C.LOOKUP_QUERY_STARTSWITH),
          Str(C.LOOKUP_FILTER_RANGE), Str(C.LOOKUP_FILTER_EXISTS), Str(C.LOOKUP_FILTER_WILDCARD),
          Str(C.LOOKUP_QUERY_CONTAINS), Str(C.LOOKUP_QUERY_IN), Str(C.LOOKUP_QUERY_GT),
          Str(C.LOOKUP_QUERY_GTE), Str(C.LOOKUP_QUERY_LT), Str(C.LOOKUP_QUERY_LTE),
          Str(C.LOOKUP_QUERY_ENDSWITH), Str(C.LOOKUP_QUERY_ISNULL), Str(C.LOOKUP_QUERY_EXCLUDE)]
  }

  /** The lookups compiled in query context; all others go to filter context. */
  predicate QueryContext(l: Value) {
    l in [Str(C.LOOKUP_FILTER_EXISTS), Str(C.LOOKUP_FILTER_WILDCARD), Str(C.LOOKUP_QUERY_CONTAINS),
          Str(C.LOOKUP_QUERY_IN), Str(C.LOOKUP_QUERY_ENDSWITH), Str(C.LOOKUP_QUERY_ISNULL),
          Str(C.LOOKUP_QUERY_EXCLUDE)]
  }

  /** One branch of the `filter` dispatch. */
  function CompileLookup(qs: Search, req: LookupRequest): Result<Search> {
    var l := req.lookup;
    if l == Str("terms") then ApplyFilterTerms(qs, req, req.values)
    else if l == Str("prefix") || l == Str("starts_with") then ApplyFilterPrefix(qs, req, req.values)
    else if l == Str("range") then ApplyFilterRange(qs, req, req.values)
    else if l == Str("exists") then ApplyQueryExists(qs, req, req.values)
    else if l == Str("wildcard") then ApplyQueryWildcard(qs, req, req.values)
    else if l == Str("contains") then ApplyQueryContains(qs, req, req.values)
    else if l == Str("in") then ApplyQueryIn(qs, req, req.values)
    else if l == Str("gt") then ApplyQueryGt(qs, req, req.values)
    else if l == Str("gte") then ApplyQueryGte(qs, req, req.values)
    else if l == Str("lt") then ApplyQueryLt(qs, req, req.values)
    else if l == Str("lte") then ApplyQueryLte(qs, req, req.values)
    else if l == Str("ends_with") then ApplyQueryEndsWith(qs, req, req.values)
    else if l == Str("is_null") then ApplyQueryIsNull(qs, req, req.values)
    else if l == Str("exclude") then ApplyQueryExclude(qs, req, req.values)
    else ApplyFilterTerm(qs, req, req.values)
  }

  /** `s` is `qs` with at most one clause appended to `queries` (or
      exactly one to `filters`), and nothing else changed. */
  predicate AppendsInContext(qs: Search, s: Search, queryContext: bool) {
    s.sort == qs.sort && s.aggs == qs.aggs && s.highlight == qs.highlight && s.source == qs.source &&
    if queryContext then
      s.filters == qs.filters && (s.queries == qs.queries ||
        (|s.queries| == |qs.queries| + 1 && s.queries[..|qs.queries|] == qs.queries))
    else
      s.queries == qs.queries && |s.filters| == |qs.filters| + 1 && s.filters[..|qs.filters|] == qs.filters
  }

  /** `prefix` and `starts_with` compile alike; a lookup the dispatch does
      not name, None included, is a term filter. */
  lemma DispatchAliases(qs: Search, req: LookupRequest)
    ensures req.lookup == Str(C.LOOKUP_QUERY_STARTSWITH) ==>
      CompileLookup(qs, req) == CompileLookup(qs, req.(lookup := Str(C.LOOKUP_FILTER_PREFIX)))
    ensures !Dispatched(req.lookup) ==> CompileLookup(qs, req) == ApplyFilterTerm(qs, req, req.values)
  {
  }

  /** Each request adds at most one clause, in the context its lookup names,
      and changes nothing else. */
  lemma CompileLookupContext(qs: Search, req: LookupRequest)
    requires CompileLookup(qs, req).Ok?
    ensures AppendsInContext(qs, CompileLookup(qs, req).value, QueryContext(req.lookup))
  {
    var l := req.lookup;
    if l in [Str("terms"), Str("prefix"), Str("starts_with"), Str("range")] {
      FilterLookupContext(qs, req);
    } else if l in [Str("exists"), Str("wildcard"), Str("contains")] {
      ExistsLookupContext(qs, req);
    } else if l in [Str("in"), Str("exclude"), Str("is_null")] {
      TermsLookupContext(qs, req);
    } else if l in [Str("gt"), Str("gte"), Str("lt")] {
      BoundLookupContext(qs, req);
    } else if l in [Str("lte"), Str("ends_with")] {
      SuffixLookupContext(qs, req);
    } else {
      assert CompileLookup(qs, req) == ApplyFilterTerm(qs, req, req.values);
    }
  }

  /** The same, one group of lookups at a time. */
  lemma FilterLookupContext(qs: Search, req: LookupRequest)
    requires CompileLookup(qs, req).Ok?
    requires req.lookup in [Str("terms"), Str("prefix"), Str("starts_with"), Str("range")]
    ensures AppendsInContext(qs, CompileLookup(qs, req).value, QueryContext(req.lookup))
  {
    var l := req.lookup;
    var v := req.values;
    if l == Str("terms") {
      assert !QueryContext(l);
      assert CompileLookup(qs, req) == ApplyFilterTerms(qs, req, v);
    } else if l == Str("prefix") || l == Str("starts_with") {
      assert !QueryContext(l);
      assert CompileLookup(qs, req) == ApplyFilterPrefix(qs, req, v);
    } else {
      assert !QueryContext(l);
      assert CompileLookup(qs, req) == ApplyFilterRange(qs, req, v);
    }
  }

  lemma ExistsLookupContext(qs: Search, req: LookupRequest)
    requires CompileLookup(qs, req).Ok?
    requires req.lookup in [Str("exists"), Str("wildcard"), Str("contains")]
    ensures AppendsInContext(qs, CompileLookup(qs, req).value, QueryContext(req.lookup))
  {
    var l := req.lookup;
    var v := req.values;
    if l == Str("exists") {
      assert QueryContext(l);
      assert CompileLookup(qs, req) == ApplyQueryExists(qs, req, v);
    } else if l == Str("wildcard") {
      assert QueryContext(l);
      assert CompileLookup(qs, req) == ApplyQueryWildcard(qs, req, v);
    } else {
      assert QueryContext(l);
      assert CompileLookup(qs, req) == ApplyQueryContains(qs, req, v);
    }
  }

  lemma TermsLookupContext(qs: Search, req: LookupRequest)
    requires CompileLookup(qs, req).Ok?
    requires req.lookup in [Str("in"), Str("exclude"), Str("is_null")]
    ensures AppendsInContext(qs, CompileLookup(qs, req).value, QueryContext(req.lookup))
  {
    var l := req.lookup;
    var v := req.values;
    if l == Str("in") {
      assert QueryContext(l);
      assert CompileLookup(qs, req) == ApplyQueryIn(qs, req, v);
    } else if l == Str("exclude") {
      assert QueryContext(l);
      assert CompileLookup(qs, req) == ApplyQueryExclude(qs, req, v);
    } else {
      assert QueryContext(l);
      assert CompileLookup(qs, req) == ApplyQueryIsNull(qs, req, v);
    }
  }

  lemma BoundLookupContext(qs: Search, req: LookupRequest)
    requires CompileLookup(qs, req).Ok?
    requires req.lookup in [Str("gt"), Str("gte"), Str("lt")]
    ensures AppendsInContext(qs, CompileLookup(qs, req).value, QueryContext(req.lookup))
  {
    var l := req.lookup;
    var v := req.values;
    if l == Str("gt") {
      assert !QueryContext(l);
      assert CompileLookup(qs, req) == ApplyQueryGt(qs, req, v);
    } else if l == Str("gte") {
      assert !QueryContext(l);
      assert CompileLookup(qs, req) == ApplyQueryGte(qs, req, v);
    } else {
      assert !QueryContext(l);
      assert CompileLookup(qs, req) == ApplyQueryLt(qs, req, v);
    }
  }

  lemma SuffixLookupContext(qs: Search, req: LookupRequest)
    requires CompileLookup(qs, req).Ok?
    requires req.lookup in [Str("lte"), Str("ends_with")]
    ensures AppendsInContext(qs, CompileLookup(qs, req).value, QueryContext(req.lookup))
  {
    var l := req.lookup;
    var v := req.values;
    if l == Str("lte") {
      assert !QueryContext(l);
      assert CompileLookup(qs, req) == ApplyQueryLte(qs, req, v);
    } else {
      assert QueryContext(l);
      assert CompileLookup(qs, req) == ApplyQueryEndsWith(qs, req, v);
    }
  }

  /** The loop of `filter`: each request compiled in turn, threading the builder. */
  function CompileAll(qs: Search, reqs: seq<LookupRequest>): Result<Search>
    decreases |reqs|
  {
    if reqs == [] then Ok(qs)
    else
      var next :- CompileLookup(qs, reqs[0]);
      CompileAll(next, reqs[1..])
  }

  /** `filter` adds one clause per request at most, keeps every clause already
      there, and touches nothing but the query and filter lists. */
  lemma {:induction false} CompileAllFrame(qs: Search, reqs: seq<LookupRequest>)
    requires CompileAll(qs, reqs).Ok?
    ensures var s := CompileAll(qs, reqs).value;
      s.sort == qs.sort && s.aggs == qs.aggs && s.highlight == qs.highlight && s.source == qs.source &&
      |qs.filters| <= |s.filters| && s.filters[..|qs.filters|] == qs.filters &&
      |qs.queries| <= |s.queries| && s.queries[..|qs.queries|] == qs.queries &&
      |s.filters| + |s.queries| <= |qs.filters| + |qs.queries| + |reqs|
    decreases |reqs|
  {
    if reqs != [] {
      var next := CompileLookup(qs, reqs[0]).value;
      CompileLookupContext(qs, reqs[0]);
      CompileAllFrame(next, reqs[1..]);
      var s := CompileAll(qs, reqs).value;
      assert s.filters[..|qs.filters|] == s.filters[..|next.filters|][..|qs.filters|];
      assert s.queries[..|qs.queries|] == s.queries[..|next.queries|][..|qs.queries|];
    }
  }

  /** `filter` as the source runs it. */
  method Filter(qs: Search, args: Dict<string, Value>, prefix: string, names: Value, config: Value)
    returns (r: Result<Search>)
    ensures FilterQueryParams(args, prefix, names, config).Ok? ==>
      r == CompileAll(qs, FilterQueryParams(args, prefix, names, config).value)
    ensures FilterQueryParams(args, prefix, names, config).Err? ==> r.Err?
  {
    var params := PrepareQueryParams(args, prefix, names);
    if params.Err? {
      return Err(params.error);
    }
    var fields := PrepareFilterFields(config);
    if fields.Err? {
      return Err(fields.error);
    }
    var requests := CollectRequests(Obj(params.value), fields.value, []);
    if requests.Err? {
      return Err(requests.error);
    }
    assert FilterQueryParams(args, prefix, names, config) == Walk(Obj(params.value), 0, fields.value);
    assert Walk(Obj(params.value), 0, fields.value).Ok?;
    assert [] + Walk(Obj(params.value), 0, fields.value).value == requests.value;
    assert Walk(Obj(params.value), 0, fields.value).value == requests.value;
    r := CompileRequests(qs, requests.value);
  }

  /** The loop of `filter`, rethreading `queryset`. */
  method CompileRequests(qs: Search, requests: seq<LookupRequest>) returns (r: Result<Search>)
    ensures r == CompileAll(qs, requests)
  {
    var queryset := qs;
    var i := 0;
    while i < |requests|
      invariant 0 <= i <= |requests|
      invariant CompileAll(queryset, requests[i..]) == CompileAll(qs, requests)
    {
      assert requests[i..][1..] == requests[i + 1..];
      var next := CompileLookup(queryset, requests[i]);
      if next.Err? {
        return Err(next.error);
      }
      queryset := next.value;
      i := i + 1;
    }
    return Ok(queryset);
  }

  /** `field_belongs_to`: the name is configured. */
  predicate FieldBelongsTo(config: Value, name: string) {
    HasField(config, name)
  }

  /** `get_backend_query_fields`: nothing without configured fields; with
      them the call goes to a base-class method `BaseBackend` does not
      define. */
  function FilteringQueryFields(config: Value): (r: Result<Dict<string, Value>>)
    ensures !Truthy(config) <==> r == Ok([])
    ensures Truthy(config) ==> r == Err(AttributeError)
  {
    if !Truthy(config) then Ok([]) else Err(AttributeError)
  }

  /** `for x in v`: a list's items, a string's characters, a dict's keys. */
  function IterItems(v: Value): (r: Result<seq<Value>>)
    ensures v.List? ==> r == Ok(v.items)
    ensures v.Obj? ==> r == Ok(StrValues(Keys(v.fields)))
    ensures v.Null? || v.Bool? || v.Int? ==> r == Err(TypeError)
  {
    match v
    case List(items) => Ok(items)
    case Str(s) => Ok(seq(|s|, i requires 0 <= i < |s| => Str([s[i]])))
    case Obj(fields) => Ok(StrValues(Keys(fields)))
    case _ => Err(TypeError)
  }

  /** `params.update({lookup: …})` on an insertion-ordered key list. */
  function AddKey(keys: seq<string>, k: string): seq<string> {
    if k in keys then keys else keys + [k]
  }

  /** Is `l` a key of `LOOKUP_FILTER_MAPPING`? Lists and dicts cannot be
      looked up at all. */
  function MappingGet(l: Value): Result<bool> {
    if l.List? || l.Obj? then Err(TypeError)
    else Ok(l.Str? && l.s in C.LOOKUP_FILTER_MAPPING)
  }

  /** The lookup loop of `get_field_type`: every lookup the mapping knows
      becomes an argument key, others are skipped. */
  function ArgKeys(keys: seq<string>, lookups: seq<Value>): (r: Result<seq<string>>)
    decreases |lookups|
  {
    if lookups == [] then Ok(keys)
    else
      var known :- MappingGet(lookups[0]);
      ArgKeys(if known then AddKey(keys, lookups[0].s) else keys, lookups[1..])
  }

  /** A key is an argument iff it was one already or is a listed lookup the
      mapping knows; keys stay in first-seen order without repeats. */
  lemma {:induction false} ArgKeysMembers(keys: seq<string>, lookups: seq<Value>, k: string)
    requires ArgKeys(keys, lookups).Ok?
    ensures k in ArgKeys(keys, lookups).value <==> k in keys || (Str(k) in lookups && k in C.LOOKUP_FILTER_MAPPING)
    ensures keys <= ArgKeys(keys, lookups).value
    ensures (forall i, j :: 0 <= i < j < |keys| ==> keys[i] != keys[j]) ==>
      var r := ArgKeys(keys, lookups).value; forall i, j :: 0 <= i < j < |r| ==> r[i] != r[j]
    decreases |lookups|
  {
    if lookups != [] {
      var known := MappingGet(lookups[0]).value;
      var keys' := if known then AddKey(keys, lookups[0].s) else keys;
      ArgKeysMembers(keys', lookups[1..], k);
      assert lookups == [lookups[0]] + lookups[1..];
      if Str(k) in lookups[1..] {
        assert Str(k) in lookups;
      }
    }
  }

  /** The loop of `get_field_type` over the lookups, skipping the unknown. */
  method LookupArguments(keys: seq<string>, lookups: seq<Value>) returns (r: Result<seq<string>>)
    ensures r == ArgKeys(keys, lookups)
  {
    var params := keys;
    var i := 0;
    while i < |lookups|
      invariant 0 <= i <= |lookups|
      invariant ArgKeys(params, lookups[i..]) == ArgKeys(keys, lookups)
    {
      assert lookups[i..][1..] == lookups[i + 1..];
      var lookup := lookups[i];
      var known := MappingGet(lookup);
      if known.Err? {
        return Err(known.error);
      }
      i := i + 1;
      if !known.value {
        continue;
      }
      params := AddKey(params, lookup.s);
    }
    return Ok(params);
  }

  /** The argument a filter field gets: a lookup input object with these
      keys, or, for nested and object fields, one sub-argument per property. */
  datatype ArgShape = LookupArgs(keys: seq<string>) | NestedArgs(subFields: seq<Value>)

  /** The lookup selection of `get_field_type`: None without configured
      fields; a nested or object field lists its properties; otherwise the
      field's `lookups` (all lookups unless given) known to the mapping,
      after the `value` key. */
  function FieldTypeShape(config: Value, fieldName: string): (r: Result<Option<ArgShape>>)
    ensures !Truthy(config) ==> r == Ok(None)
    ensures r.Ok? && r.value.Some? && r.value.value.LookupArgs? ==>
      |r.value.value.keys| > 0 && r.value.value.keys[0] == C.VALUE
  {
    if !Truthy(config) then Ok(None)
    else
      var fo :- GetFieldOptions(config, fieldName);
      if fo.Some? && HasField(fo.value, "type") &&
         (FieldOr(fo.value, "type", Null) == NESTED || FieldOr(fo.value, "type", Null) == OBJECT) then
        var subs :- IterItems(FieldOr(fo.value, "properties", List([])));
        Ok(Some(NestedArgs(subs)))
      else
        var lookups := if fo.Some? && HasField(fo.value, "lookups") then FieldOr(fo.value, "lookups", List([]))
                       else ALL_LOOKUPS;
        var items :- IterItems(lookups);
        var keys :- ArgKeys([C.VALUE], items);
        ArgKeysMembers([C.VALUE], items, C.VALUE);
        Ok(Some(LookupArgs(keys)))
  }

  /** A field without its own lookups gets every lookup the mapping knows. */
  lemma UnlistedFieldGetsMappedLookups(config: Value, fieldName: string, k: string)
    requires FieldTypeShape(config, fieldName).Ok? && Truthy(config)
    requires GetFieldOptions(config, fieldName) == Ok(None)
    ensures FieldTypeShape(config, fieldName).value.Some?
    ensures var shape := FieldTypeShape(config, fieldName).value.value;
      shape.LookupArgs? && (k in shape.keys <==> k == C.VALUE || k in C.LOOKUP_FILTER_MAPPING)
  {
    var items := IterItems(ALL_LOOKUPS).value;
    ArgKeysMembers([C.VALUE], items, k);
    if k in C.LOOKUP_FILTER_MAPPING {
      MappedLookupIsListed(k);
    }
  }

  /** Every lookup the mapping knows is among all lookups. */
  lemma MappedLookupIsListed(k: string)
    requires k in C.LOOKUP_FILTER_MAPPING
    ensures Str(k) in ALL_LOOKUPS.items
  {
    assert k in C.ALL_LOOKUP_FILTERS_AND_QUERIES;
    var i :| 0 <= i < |C.ALL_LOOKUP_FILTERS_AND_QUERIES| && C.ALL_LOOKUP_FILTERS_AND_QUERIES[i] == k;
    assert ALL_LOOKUPS.items[i] == Str(k);
  }
}
