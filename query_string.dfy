/** `SimpleQueryStringBackend` and `QueryStringBackend`: the whole bucket is
    one query string, sent as a single `simple_query_string` or
    `query_string` clause with the configured options. The two backends
    differ only in their prefix, which is also the clause kind. */
module QueryString {
  import opened Wrappers
  import opened Dicts
  import opened Values
  import opened Query

  const SIMPLE_QUERY_STRING := "simple_query_string"
  const QUERY_STRING := "query_string"

  /** `get_backend_query_fields`: one `String` argument named after the
      prefix, whatever the document fields are. */
  function QueryArguments<T>(prefix: string, items: seq<(string, T)>): (r: Dict<string, string>)
    ensures Keys(r) == [prefix] && Get(r, prefix) == Some("String")
  {
    [(prefix, "String")]
  }

  /** `get_all_query_params`: the bucket, or `""` when it is absent or falsy. */
  function QueryText(args: Dict<string, Value>, prefix: string): (r: Value)
    ensures Truthy(r) <==> Truthy(GetOr(args, prefix, Null))
    ensures Truthy(r) ==> r == GetOr(args, prefix, Null)
  {
    var bucket := GetOr(args, prefix, Null);
    if Truthy(bucket) then bucket else Str("")
  }

  /** `options.pop("fields", [])` on the deep copy of the configured
      options: the fields and the remaining options. A list cannot pop by
      key and other values have no `pop`. */
  function PopFields(options: Value): (r: Result<(Value, Dict<string, Value>)>)
    ensures options.Obj? <==> r.Ok?
    ensures options.List? ==> r == Err(TypeError)
    ensures !options.Obj? && !options.List? ==> r == Err(AttributeError)
  {
    if options.Obj? then Ok((GetOr(options.fields, "fields", List([])), Remove(options.fields, "fields")))
    else if options.List? then Err(TypeError)
    else Err(AttributeError)
  }

  /** `filter`: with a truthy query, one clause `kind(query=..., fields=...,
      **options)`; an option named `query` repeats a keyword argument. */
  function QueryStringFilter(kind: string, qs: Search, args: Dict<string, Value>, options: Value): (r: Result<Search>)
    ensures !options.Obj? ==> r.Err?
    ensures r.Ok? ==> r.value.(queries := qs.queries) == qs
    ensures r.Ok? ==> |qs.queries| <= |r.value.queries| <= |qs.queries| + 1 && r.value.queries[..|qs.queries|] == qs.queries
  {
    var pair :- PopFields(options);
    var query := QueryText(args, kind);
    if !Truthy(query) then Ok(qs)
    else if HasKey(pair.1, "query") then Err(TypeError)
    else Ok(AddQuery(qs, Leaf(kind, [("query", query), ("fields", pair.0)] + pair.1)))
  }

  /** Without a query the request is unchanged; the options are still read
      first, so malformed options fail either way. */
  lemma NoQueryNoClause(kind: string, qs: Search, args: Dict<string, Value>, options: Value)
    requires !Truthy(GetOr(args, kind, Null))
    ensures QueryStringFilter(kind, qs, args, options) == if options.Obj? then Ok(qs) else Err(PopFields(options).error)
  {
    assert !Truthy(QueryText(args, kind));
  }

  /** With a query and well-formed options exactly one clause of the
      backend's kind is added. It carries the query, the configured `fields`
      (default `[]`) and every other option unchanged; nothing else in the
      request changes. */
  lemma QueryClause(kind: string, qs: Search, args: Dict<string, Value>, options: Value, k: string)
    requires Truthy(GetOr(args, kind, Null)) && options.Obj? && Distinct(options.fields)
    requires !HasKey(options.fields, "query")
    ensures var r := QueryStringFilter(kind, qs, args, options);
      r.Ok? && r.value.filters == qs.filters && r.value.sort == qs.sort && r.value.aggs == qs.aggs &&
      r.value.highlight == qs.highlight && r.value.source == qs.source &&
      |r.value.queries| == |qs.queries| + 1 && r.value.queries[..|qs.queries|] == qs.queries &&
      var c := r.value.queries[|qs.queries|];
      c.Leaf? && c.kind == kind &&
      Get(c.params, "query") == Some(GetOr(args, kind, Null)) &&
      Get(c.params, "fields") == Some(GetOr(options.fields, "fields", List([]))) &&
      (k != "query" && k != "fields" ==> Get(c.params, k) == Get(options.fields, k))
  {
    RemoveProperties(options.fields, "fields");
    var rest := Remove(options.fields, "fields");
    assert !HasKey(rest, "query");
    var params := [("query", QueryText(args, kind)), ("fields", GetOr(options.fields, "fields", List([])))] + rest;
    FindUnique(params, "query", 0);
    FindUnique(params, "fields", 1);
    if k != "query" && k != "fields" {
      if HasKey(rest, k) {
        FindUnique(params, k, Find(rest, k) + 2);
      } else {
        FindUnique(params, k, |params|);
      }
    }
  }

  /** A `query` option clashes with the keyword argument and the call fails. */
  lemma QueryOptionClashes(kind: string, qs: Search, args: Dict<string, Value>, options: Value)
    requires Truthy(GetOr(args, kind, Null)) && options.Obj? && Distinct(options.fields)
    requires HasKey(options.fields, "query")
    ensures QueryStringFilter(kind, qs, args, options) == Err(TypeError)
  {
    RemoveProperties(options.fields, "fields");
    assert Get(Remove(options.fields, "fields"), "query") == Get(options.fields, "query");
    assert Truthy(QueryText(args, kind));
  }
}
