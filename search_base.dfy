/** `BaseSearchFilterBackend`: a search backend that delegates clause
    construction to a list of query backends (`match`,
    `match_phrase_prefix`, ...) and combines their clauses under the
    configured `matching` occurrence. A query backend is identified by its
    clause kind; the prepared search fields and the configured names come
    from the search backend. */
module SearchBase {
  import opened Wrappers
  import opened Dicts
  import opened Values
  import opened Query
  import opened SearchCommon
  import C = Constants

  /** Where the query backends come from: an overriding
      `get_query_backends`, or the `query_backends` attribute. */
  datatype BackendSource = Overridden(kinds: seq<string>) | Declared(kinds: seq<string>)

  /** `_get_query_backends`: the overriding method wins; otherwise the
      declared list, which must not be empty. */
  function QueryBackends(source: BackendSource): (r: Result<seq<string>>)
    ensures source.Overridden? ==> r == Ok(source.kinds)
    ensures source.Declared? ==> r == if source.kinds == [] then Err(NotImplementedError) else Ok(source.kinds)
  {
    match source
    case Overridden(kinds) => Ok(kinds)
    case Declared(kinds) => if kinds == [] then Err(NotImplementedError) else Ok(kinds)
  }

  /** `get_search_query_params`: the bucket under the prefix, `{}` when the
      key is absent. An explicit `None` or any non-dict cannot be iterated
      with `.items()` by the query backends. */
  function SearchQueryParams(args: Dict<string, Value>, prefix: string): (r: Result<Dict<string, Value>>)
    ensures !HasKey(args, prefix) ==> r == Ok([])
    ensures HasKey(args, prefix) ==> r == if Get(args, prefix).value.Obj? then Ok(Get(args, prefix).value.fields) else Err(AttributeError)
  {
    var bucket := Get(args, prefix);
    if bucket.None? then Ok([])
    else if bucket.value.Obj? then Ok(bucket.value.fields)
    else Err(AttributeError)
  }

  /** The clauses of several query backends AS WRITTEN: every backend reads
      the same argument bucket, and each one pops the `value` of the dict
      values it handles, so the next backend sees the bucket without them. */
  function CombineAsWritten(kinds: seq<string>, params: Dict<string, Value>, prepared: Dict<string, Value>, names: seq<string>): (r: Result<seq<Clause>>)
    decreases |kinds|
  {
    if kinds == [] then Ok([])
    else
      var here :- ConstructFrom(kinds[0], params, prepared, names);
      var rest :- CombineAsWritten(kinds[1..], Popped(params, prepared, names), prepared, names);
      Ok(here + rest)
  }

  /** The evident intent: every query backend builds its clauses from the
      bucket as the client sent it. */
  function Combine(kinds: seq<string>, params: Dict<string, Value>, prepared: Dict<string, Value>, names: seq<string>): (r: Result<seq<Clause>>)
    decreases |kinds|
  {
    if kinds == [] then Ok([])
    else
      var here :- ConstructFrom(kinds[0], params, prepared, names);
      var rest :- Combine(kinds[1..], params, prepared, names);
      Ok(here + rest)
  }

  /** Each backend contributes one clause per handled key, of its own kind. */
  lemma {:induction false} CombineShape(kinds: seq<string>, params: Dict<string, Value>, prepared: Dict<string, Value>, names: seq<string>)
    requires Combine(kinds, params, prepared, names).Ok?
    ensures |Combine(kinds, params, prepared, names).value| == |kinds| * HandledCount(params, prepared, names)
    ensures forall i :: 0 <= i < |Combine(kinds, params, prepared, names).value| ==>
      Combine(kinds, params, prepared, names).value[i].Leaf? && Combine(kinds, params, prepared, names).value[i].kind in kinds
    decreases |kinds|
  {
    if kinds != [] {
      var n := HandledCount(params, prepared, names);
      var here: seq<Clause> := ConstructFrom(kinds[0], params, prepared, names).value;
      var rest: seq<Clause> := Combine(kinds[1..], params, prepared, names).value;
      ConstructFromShape(kinds[0], params, prepared, names);
      CombineShape(kinds[1..], params, prepared, names);
      assert |kinds| * n == n + (|kinds| - 1) * n;
      assert Combine(kinds, params, prepared, names).value == here + rest;
      forall i | 0 <= i < |here + rest| ensures (here + rest)[i].Leaf? && (here + rest)[i].kind in kinds {
        if i >= |here| {
          assert (here + rest)[i] == rest[i - |here|];
          assert rest[i - |here|].kind in kinds[1..];
        }
      }
    }
  }

  /** Without dict values nothing is popped, and the two combinations agree. */
  lemma {:induction false} PlainBucketsAgree(kinds: seq<string>, params: Dict<string, Value>, prepared: Dict<string, Value>, names: seq<string>)
    requires forall i :: 0 <= i < |params| ==> !params[i].1.Obj?
    ensures CombineAsWritten(kinds, params, prepared, names) == Combine(kinds, params, prepared, names)
    decreases |kinds|
  {
    if kinds != [] {
      PoppedPlain(params, prepared, names);
      PlainBucketsAgree(kinds[1..], params, prepared, names);
    }
  }

  /** With `match` and `match_phrase_prefix` as query backends, a field
      searched through its input object (`{title: {value: "x"}}`) breaks the
      second backend: the first one has popped `value`, and the second one's
      pop raises `KeyError`. The intended combination yields both clauses. */
  lemma CombineAsWrittenLosesValue()
    ensures var prepared := [("title", Obj([("field", Str("title"))]))];
      var params := [("title", Obj([(C.VALUE, Str("x"))]))];
      CombineAsWritten([MATCH, MATCH_PHRASE_PREFIX], params, prepared, ["title"]) == Err(KeyError) &&
      Combine([MATCH, MATCH_PHRASE_PREFIX], params, prepared, ["title"]).Ok? &&
      |Combine([MATCH, MATCH_PHRASE_PREFIX], params, prepared, ["title"]).value| == 2
  {
    var prepared := [("title", Obj([("field", Str("title"))]))];
    var params := [("title", Obj([(C.VALUE, Str("x"))]))];
    assert HasKey(prepared, "title") && Handled("title", prepared, ["title"]) == 1;
    assert Find([(C.VALUE, Str("x"))], C.VALUE) == 0;
    assert Remove([(C.VALUE, Str("x"))], C.VALUE) == [];
    var popped := Popped(params, prepared, ["title"]);
    assert popped[0] == ("title", Obj([]));
    assert popped == [("title", Obj([]))];
    assert MatchClause(MATCH_PHRASE_PREFIX, "title", Obj([("field", Str("title"))]), Obj([])) == Err(KeyError);
    assert ConstructFrom(MATCH_PHRASE_PREFIX, popped, prepared, ["title"]) == Err(KeyError);
    assert Get(prepared, "title") == Some(Obj([("field", Str("title"))]));
    assert params[1..] == [];
    var m := MatchClause(MATCH, "title", Obj([("field", Str("title"))]), Obj([(C.VALUE, Str("x"))]));
    assert m.Ok?;
    assert KeyClauses(MATCH, "title", Obj([(C.VALUE, Str("x"))]), prepared, ["title"]) == Ok([m.value.0]);
    assert ConstructFrom(MATCH, params[1..], prepared, ["title"]) == Ok([]);
    assert [m.value.0] + [] == [m.value.0];
    assert ConstructFrom(MATCH, params, prepared, ["title"]) == Ok([m.value.0]);
    var p := MatchClause(MATCH_PHRASE_PREFIX, "title", Obj([("field", Str("title"))]), Obj([(C.VALUE, Str("x"))]));
    assert p.Ok?;
    assert KeyClauses(MATCH_PHRASE_PREFIX, "title", Obj([(C.VALUE, Str("x"))]), prepared, ["title"]) == Ok([p.value.0]);
    assert ConstructFrom(MATCH_PHRASE_PREFIX, params[1..], prepared, ["title"]) == Ok([]);
    assert [p.value.0] + [] == [p.value.0];
    assert ConstructFrom(MATCH_PHRASE_PREFIX, params, prepared, ["title"]) == Ok([p.value.0]);
    var kinds := [MATCH, MATCH_PHRASE_PREFIX];
    assert kinds[1..][1..] == [];
    assert Combine(kinds[1..], params, prepared, ["title"]) == Ok([p.value.0]);
  }

  /** `filter`: the matching option is checked first, then the query
      backends are resolved. Several backends give one `bool` query over
      their concatenated clauses, or none when there are none; a single
      backend always gives the `bool` query, even an empty one; no backend
      is a configuration error. `prepared` is what the search backend's
      `prepare_search_fields` returns. */
  function SearchBaseFilter(qs: Search, matching: string, source: BackendSource, args: Dict<string, Value>,
                            prefix: string, prepared: Result<Dict<string, Value>>, names: seq<string>): (r: Result<Search>)
    ensures matching !in C.MATCHING_OPTIONS ==> r == Err(ImproperlyConfigured)
    ensures matching in C.MATCHING_OPTIONS && QueryBackends(source).Err? ==> r == Err(NotImplementedError)
    ensures matching in C.MATCHING_OPTIONS && QueryBackends(source) == Ok([]) ==> r == Err(ImproperlyConfigured)
  {
    if matching !in C.MATCHING_OPTIONS then Err(ImproperlyConfigured)
    else
      var kinds :- QueryBackends(source);
      if |kinds| > 1 then
        var fields :- prepared;
        var params :- SearchQueryParams(args, prefix);
        var clauses :- CombineAsWritten(kinds, params, fields, names);
        if clauses == [] then Ok(qs) else Ok(AddQuery(qs, Clause.Bool(matching, clauses)))
      else if |kinds| == 1 then
        var fields :- prepared;
        var params :- SearchQueryParams(args, prefix);
        var clauses :- ConstructFrom(kinds[0], params, fields, names);
        Ok(AddQuery(qs, Clause.Bool(matching, clauses)))
      else Err(ImproperlyConfigured)
  }

  /** A single query backend always adds exactly one `bool` query, holding
      that backend's clauses; nothing else in the request changes. */
  lemma SingleBackendAlwaysAdds(qs: Search, matching: string, kind: string, args: Dict<string, Value>,
                                prefix: string, prepared: Dict<string, Value>, names: seq<string>)
    requires matching in C.MATCHING_OPTIONS
    requires SearchQueryParams(args, prefix).Ok?
    requires ConstructFrom(kind, SearchQueryParams(args, prefix).value, prepared, names).Ok?
    ensures SearchBaseFilter(qs, matching, Declared([kind]), args, prefix, Ok(prepared), names) ==
      Ok(AddQuery(qs, Clause.Bool(matching, ConstructFrom(kind, SearchQueryParams(args, prefix).value, prepared, names).value)))
  {
  }

  /** Several query backends add nothing when none of them yields a clause,
      and otherwise one `bool` query over all of their clauses, each backend
      reading the bucket the previous one popped; when a backend fails, so
      does the search. */
  lemma SeveralBackendsCombine(qs: Search, matching: string, source: BackendSource, args: Dict<string, Value>,
                               prefix: string, prepared: Dict<string, Value>, names: seq<string>)
    requires matching in C.MATCHING_OPTIONS && |source.kinds| > 1
    requires SearchQueryParams(args, prefix).Ok?
    ensures var cs := CombineAsWritten(source.kinds, SearchQueryParams(args, prefix).value, prepared, names);
      SearchBaseFilter(qs, matching, source, args, prefix, Ok(prepared), names) ==
      if cs.Err? then Err(cs.error) else if cs.value == [] then Ok(qs) else Ok(AddQuery(qs, Clause.Bool(matching, cs.value)))
  {
  }

  /** On a bucket without dict values, several backends add one `bool`
      query holding, for each backend in turn, one clause of its kind per
      handled key. */
  lemma SeveralBackendsPlain(qs: Search, matching: string, source: BackendSource, args: Dict<string, Value>,
                             prefix: string, prepared: Dict<string, Value>, names: seq<string>)
    requires matching in C.MATCHING_OPTIONS && |source.kinds| > 1
    requires SearchQueryParams(args, prefix).Ok?
    requires var params := SearchQueryParams(args, prefix).value;
      forall i :: 0 <= i < |params| ==> !params[i].1.Obj?
    requires Combine(source.kinds, SearchQueryParams(args, prefix).value, prepared, names).Ok?
    ensures var params := SearchQueryParams(args, prefix).value;
      var cs := Combine(source.kinds, params, prepared, names).value;
      && |cs| == |source.kinds| * HandledCount(params, prepared, names)
      && (forall i :: 0 <= i < |cs| ==> cs[i].Leaf? && cs[i].kind in source.kinds)
      && SearchBaseFilter(qs, matching, source, args, prefix, Ok(prepared), names) ==
         if cs == [] then Ok(qs) else Ok(AddQuery(qs, Clause.Bool(matching, cs)))
  {
    var params := SearchQueryParams(args, prefix).value;
    PlainBucketsAgree(source.kinds, params, prepared, names);
    CombineShape(source.kinds, params, prepared, names);
  }

  /** The search `title: {value: "x"}` through the `match` and
      `match_phrase_prefix` backends fails with the KeyError of the second
      backend's pop. */
  lemma SearchLosesValue(qs: Search, matching: string)
    requires matching in C.MATCHING_OPTIONS
    ensures var args := [("search", Obj([("title", Obj([(C.VALUE, Str("x"))]))]))];
      SearchBaseFilter(qs, matching, Declared([MATCH, MATCH_PHRASE_PREFIX]), args, "search",
                       Ok([("title", Obj([("field", Str("title"))]))]), ["title"]) == Err(KeyError)
  {
    CombineAsWrittenLosesValue();
  }

  /** A search without a bucket adds an empty `bool` query through a single
      `match` backend, and nothing through several. */
  lemma AbsentBucket(qs: Search, matching: string, kinds: seq<string>, args: Dict<string, Value>,
                     prefix: string, prepared: Dict<string, Value>, names: seq<string>)
    requires matching in C.MATCHING_OPTIONS && kinds != [] && !HasKey(args, prefix)
    ensures SearchBaseFilter(qs, matching, Declared(kinds), args, prefix, Ok(prepared), names) ==
      if |kinds| == 1 then Ok(AddQuery(qs, Clause.Bool(matching, []))) else Ok(qs)
  {
    if |kinds| > 1 {
      CombineEmpty(kinds, prepared, names);
      PlainBucketsAgree(kinds, [], prepared, names);
    }
  }

  lemma {:induction false} CombineEmpty(kinds: seq<string>, prepared: Dict<string, Value>, names: seq<string>)
    ensures Combine(kinds, [], prepared, names) == Ok([])
    decreases |kinds|
  {
    if kinds != [] {
      CombineEmpty(kinds[1..], prepared, names);
      var none: seq<Clause> := [];
      assert none + none == none;
    }
  }
}
