/** `FilteringFilterMixin`: how one lookup request becomes one clause, and in
    which context (filter or query) the clause is added. */
module FilteringMixins {
  import opened Wrappers
  import opened Dicts
  import opened Strs
  import opened Values
  import opened Query
  import opened BackendBase
  import opened PyText
  import C = Constants

  /** One entry of `get_filter_query_params`' list: the lookup (`Null` when
      the argument named none the field accepts), the raw value, the nested
      path (`Null` when absent), the document field, and the `options` key
      (which that list never fills). */
  datatype LookupRequest = LookupRequest(
    lookup: Value,
    values: Value,
    path: Value,
    field: string,
    options: Dict<string, Value>)

  predicate HasPath(req: LookupRequest) {
    Truthy(req.path)
  }

  /** `q_params`: `lookup({field: values})` by default, wrapped in
      `nested(path, …)` when the request has a truthy path. */
  function QParams(lookup: string, req: LookupRequest, query: Option<Dict<string, Value>>): (q: Clause)
    ensures var body := query.GetOr([(req.field, req.values)]);
      (HasPath(req) ==> q == Nested(req.path, Leaf(lookup, body))) &&
      (!HasPath(req) ==> q == Leaf(lookup, body))
  {
    var body := if query.None? then [(req.field, req.values)] else query.value;
    if Truthy(req.path) then Nested(req.path, Leaf(lookup, body))
    else Leaf(lookup, body)
  }

  /** Python's `a or b or … or z`: the first truthy operand, else the last. */
  function OrChain(vs: seq<Value>): (r: Value)
    requires vs != []
    ensures r in vs
    ensures Truthy(r) <==> exists i :: 0 <= i < |vs| && Truthy(vs[i])
    ensures Truthy(r) ==> (exists i :: 0 <= i < |vs| && r == vs[i] &&
                            forall j :: 0 <= j < i ==> !Truthy(vs[j]))
    ensures !Truthy(r) ==> r == vs[|vs| - 1]
  {
    if |vs| == 1 then vs[0]
    else if Truthy(vs[0]) then vs[0]
    else
      var r := OrChain(vs[1..]);
      assert forall i :: 0 <= i < |vs[1..]| ==> vs[1..][i] == vs[i + 1];
      r
  }

  /** The alternatives of a numeric or date input object, in the order they
      are tried. */
  const RANGE_ALTERNATIVES: seq<string> := ["decimal", "float", "int", "date", "datetime"]

  /** `getattr(value, name)` on an input object: an unset field reads `None`. */
  function Attr(v: Value, name: string): Value {
    FieldOr(v, name, Null)
  }

  /** `get_range_param_value`: None for a falsy value, otherwise the first
      truthy one of `decimal`, `float`, `int`, `date`, `datetime` (or the
      last of them). A truthy value that is not an input object has no such
      attributes. */
  function RangeParamValue(v: Value): (r: Result<Value>)
    ensures !Truthy(v) ==> r == Ok(Null)
    ensures Truthy(v) && !v.Obj? ==> r == Err(AttributeError)
    ensures Truthy(v) && v.Obj? ==>
      (r.Ok? && (Truthy(r.value) <==> exists i :: 0 <= i < |RANGE_ALTERNATIVES| && Truthy(Attr(v, RANGE_ALTERNATIVES[i]))))
    ensures r.Ok? && Truthy(r.value) ==>
      (exists i :: 0 <= i < |RANGE_ALTERNATIVES| && r.value == Attr(v, RANGE_ALTERNATIVES[i]) &&
                   forall j :: 0 <= j < i ==> !Truthy(Attr(v, RANGE_ALTERNATIVES[j])))
  {
    if !Truthy(v) then Ok(Null)
    else if !v.Obj? then Err(AttributeError)
    else
      var alts := seq(|RANGE_ALTERNATIVES|, i requires 0 <= i < |RANGE_ALTERNATIVES| => Attr(v, RANGE_ALTERNATIVES[i]));
      assert forall i :: 0 <= i < |alts| ==> alts[i] == Attr(v, RANGE_ALTERNATIVES[i]);
      Ok(OrChain(alts))
  }

  /** `get_range_params`: `{}` when `lower` is not `in` the value (a string
      or list without it included); otherwise `gte` always, `lte` only with
      `upper`, `boost` only with `boost`. A value that is no container fails
      the `in` test; a string or list that contains `lower` has no `get`. */
  function RangeParams(value: Value, options: Dict<string, Value>): (r: Result<Dict<string, Value>>)
    ensures PyContains(value, C.LOWER) == Ok(false) ==> r == Ok([])
    ensures r == Err(TypeError) <==> value.Null? || value.Bool? || value.Int?
    ensures PyContains(value, C.LOWER) == Ok(true) && !value.Obj? ==> r == Err(AttributeError)
    ensures r.Ok? ==> (r.value != [] <==> value.Obj? && HasField(value, C.LOWER))
  {
    var has :- PyContains(value, C.LOWER);
    if !has then Ok([])
    else if !value.Obj? then Err(AttributeError)
    else
      var lower :- RangeParamValue(Attr(value, C.LOWER));
      var params := [(C.GTE, lower)];
      var params :- if HasField(value, C.UPPER) then
          var upper :- RangeParamValue(Attr(value, C.UPPER));
          Ok(Put(params, C.LTE, upper))
        else Ok(params);
      if HasField(value, C.BOOST) then Ok(Put(params, C.BOOST, Attr(value, C.BOOST))) else Ok(params)
  }

  /** With `lower`, the parameters are exactly `gte`, then `lte` when
      `upper` is given and `boost` when given, `gte` holding the lower
      bound's value and `boost` the boost. */
  lemma RangeParamsFields(value: Value, options: Dict<string, Value>)
    requires RangeParams(value, options).Ok? && HasField(value, C.LOWER)
    ensures var r := RangeParams(value, options).value;
      && Keys(r) == [C.GTE] + (if HasField(value, C.UPPER) then [C.LTE] else []) +
                    (if HasField(value, C.BOOST) then [C.BOOST] else [])
      && RangeParamValue(Attr(value, C.LOWER)).Ok?
      && Get(r, C.GTE) == Some(RangeParamValue(Attr(value, C.LOWER)).value)
      && (HasField(value, C.BOOST) ==> Get(r, C.BOOST) == Field(value, C.BOOST))
  {
    var lower := RangeParamValue(Attr(value, C.LOWER)).value;
    var r := RangeParams(value, options).value;
    RangeParamsShape(value, options);
    FindUnique(r, C.GTE, 0);
    if HasField(value, C.BOOST) {
      FindUnique(r, C.BOOST, |r| - 1);
    }
  }

  /** The parameters with `lower`, written out as a list. */
  lemma RangeParamsShape(value: Value, options: Dict<string, Value>)
    requires RangeParams(value, options).Ok? && HasField(value, C.LOWER)
    ensures RangeParamValue(Attr(value, C.LOWER)).Ok?
    ensures HasField(value, C.UPPER) ==> RangeParamValue(Attr(value, C.UPPER)).Ok?
    ensures RangeParams(value, options).value ==
      [(C.GTE, RangeParamValue(Attr(value, C.LOWER)).value)] +
      (if HasField(value, C.UPPER) then [(C.LTE, RangeParamValue(Attr(value, C.UPPER)).value)] else []) +
      (if HasField(value, C.BOOST) then [(C.BOOST, Attr(value, C.BOOST))] else [])
  {
    var p1: Dict<string, Value> := [(C.GTE, RangeParamValue(Attr(value, C.LOWER)).value)];
    FindUnique(p1, C.LTE, 1);
    if HasField(value, C.UPPER) {
      var p2 := p1 + [(C.LTE, RangeParamValue(Attr(value, C.UPPER)).value)];
      FindUnique(p2, C.BOOST, 2);
    } else {
      FindUnique(p1, C.BOOST, 1);
    }
  }

  /** `get_gte_lte_params`: `{}` for a falsy value or a falsy chosen
      alternative, otherwise `{lookup: v}` plus `boost` when the options
      carry one. */
  function GteLteParams(value: Value, lookup: string, options: Dict<string, Value>): (r: Result<Dict<string, Value>>)
    ensures !Truthy(value) ==> r == Ok([])
    ensures r.Ok? && r.value != [] ==>
      RangeParamValue(value).Ok? && Truthy(RangeParamValue(value).value)
    ensures r.Ok? && r.value != [] && lookup != C.BOOST ==>
      Get(r.value, lookup) == Some(RangeParamValue(value).value) &&
      Keys(r.value) == [lookup] + (if HasKey(options, C.BOOST) then [C.BOOST] else [])
    ensures RangeParamValue(value).Ok? && Truthy(RangeParamValue(value).value) ==> r.Ok? && r.value != []
    ensures RangeParamValue(value).Err? ==> r.Err?
  {
    if !Truthy(value) then Ok([])
    else
      var v :- RangeParamValue(value);
      if !Truthy(v) then Ok([])
      else
        var params := [(lookup, v)];
        PutProperties(params, C.BOOST, GetOr(options, C.BOOST, Null));
        if HasKey(options, C.BOOST) then Ok(Put(params, C.BOOST, GetOr(options, C.BOOST, Null)))
        else Ok(params)
  }

  /** A list or tuple value is used as is; anything else is split with
      `split_lookup_complex_value` (which only a string supports). */
  function ValueList(value: Value): (r: Result<seq<Value>>)
    ensures value.List? ==> r == Ok(value.items)
    ensures value.Str? ==>
      (r.Ok? && |r.value| == |SplitLookupComplexValue(value.s)| &&
       forall i :: 0 <= i < |r.value| ==> r.value[i] == Str(SplitLookupComplexValue(value.s)[i]))
    ensures !value.List? && !value.Str? ==> r == Err(AttributeError)
  {
    match value
    case List(items) => Ok(items)
    case Str(s) =>
      var parts := SplitLookupComplexValue(s);
      Ok(seq(|parts|, i requires 0 <= i < |parts| => Str(parts[i])))
    case _ => Err(AttributeError)
  }

  function ClauseFilter(qs: Search, q: Clause): Result<Search> {
    ApplyFilter(qs, Some([ClauseArg(q)]), None)
  }

  function ClauseQuery(qs: Search, q: Clause): Result<Search> {
    ApplyQuery(qs, Some([ClauseArg(q)]), None)
  }

  /** `apply_filter_term`. */
  function ApplyFilterTerm(qs: Search, req: LookupRequest, value: Value): (r: Result<Search>)
    ensures r == Ok(AddFilter(qs, QParams(C.LOOKUP_FILTER_TERM, req, None)))
  {
    ClauseFilter(qs, QParams("term", req, None))
  }

  /** `apply_filter_terms`: one `terms` clause over the value list. */
  function ApplyFilterTerms(qs: Search, req: LookupRequest, value: Value): (r: Result<Search>)
    ensures ValueList(value).Ok? ==>
      r == Ok(AddFilter(qs, QParams(C.LOOKUP_FILTER_TERMS, req, Some([(req.field, List(ValueList(value).value))]))))
    ensures ValueList(value).Err? ==> r.Err?
  {
    var values :- ValueList(value);
    ClauseFilter(qs, QParams("terms", req, Some([(req.field, List(values))])))
  }

  /** `apply_filter_range`. */
  function ApplyFilterRange(qs: Search, req: LookupRequest, value: Value): (r: Result<Search>)
    ensures RangeParams(value, req.options).Ok? ==>
      r == Ok(AddFilter(qs, QParams(C.LOOKUP_FILTER_RANGE, req,
                                    Some([(req.field, Obj(RangeParams(value, req.options).value))]))))
    ensures RangeParams(value, req.options).Err? ==> r.Err?
  {
    var params :- RangeParams(value, req.options);
    ClauseFilter(qs, QParams("range", req, Some([(req.field, Obj(params))])))
  }

  /** The clause `exists` and `isnull` share: `exists(field=…)`. */
  function ExistsClause(req: LookupRequest): Clause {
    QParams("exists", req, Some([("field", Str(req.field))]))
  }

  /** `apply_query_exists`: a true value adds the clause, a false value its
      negation, anything else leaves the request as it was. */
  function ApplyQueryExists(qs: Search, req: LookupRequest, value: Value): (r: Result<Search>)
    ensures PyIn(value, C.TRUE_VALUES) ==> r == Ok(AddQuery(qs, ExistsClause(req)))
    ensures !PyIn(value, C.TRUE_VALUES) && PyIn(value, C.FALSE_VALUES) ==>
      r == Ok(AddQuery(qs, Not(ExistsClause(req))))
    ensures !PyIn(value, C.TRUE_VALUES) && !PyIn(value, C.FALSE_VALUES) ==> r == Ok(qs)
  {
    var q := QParams("exists", req, Some([("field", Str(req.field))]));
    if PyIn(value, C.TRUE_VALUES) then ClauseQuery(qs, q)
    else if PyIn(value, C.FALSE_VALUES) then ClauseQuery(qs, Not(q))
    else Ok(qs)
  }

  /** `apply_filter_prefix`. */
  function ApplyFilterPrefix(qs: Search, req: LookupRequest, value: Value): (r: Result<Search>)
    ensures r == Ok(AddFilter(qs, QParams(C.LOOKUP_FILTER_PREFIX, req, None)))
  {
    ClauseFilter(qs, QParams("prefix", req, None))
  }

  /** `apply_query_wildcard`: the value is the pattern, verbatim. */
  function ApplyQueryWildcard(qs: Search, req: LookupRequest, value: Value): (r: Result<Search>)
    ensures r == Ok(AddQuery(qs, QParams(C.LOOKUP_FILTER_WILDCARD, req, None)))
  {
    ClauseQuery(qs, QParams("wildcard", req, None))
  }

  /** `apply_query_contains`: the wildcard pattern `*v*`. */
  function ApplyQueryContains(qs: Search, req: LookupRequest, value: Value): (r: Result<Search>)
    ensures r == Ok(AddQuery(qs, QParams(C.LOOKUP_FILTER_WILDCARD, req, Some([(req.field, Str("*" + PyStr(value) + "*"))]))))
  {
    ClauseQuery(qs, QParams("wildcard", req, Some([(req.field, Str("*" + PyStr(value) + "*"))])))
  }

  /** `apply_query_endswith`: the wildcard pattern `*v`. */
  function ApplyQueryEndsWith(qs: Search, req: LookupRequest, value: Value): (r: Result<Search>)
    ensures r == Ok(AddQuery(qs, QParams(C.LOOKUP_FILTER_WILDCARD, req, Some([(req.field, Str("*" + PyStr(value)))]))))
  {
    ClauseQuery(qs, QParams("wildcard", req, Some([(req.field, Str("*" + PyStr(value)))])))
  }

  /** The term clause `in` builds for one value; negated for `exclude`. */
  function TermClause(req: LookupRequest, v: Value): Clause {
    QParams("term", req, Some([(req.field, v)]))
  }

  /** The specification of the `in` loop: one term clause per value, in order. */
  function TermClauses(req: LookupRequest, values: seq<Value>): (qs: seq<Clause>)
    ensures |qs| == |values|
    ensures forall i :: 0 <= i < |values| ==> qs[i] == TermClause(req, values[i])
  {
    seq(|values|, i requires 0 <= i < |values| => TermClause(req, values[i]))
  }

  /** The specification of the `exclude` loop: one negated term clause per value. */
  function NegatedTermClauses(req: LookupRequest, values: seq<Value>): (qs: seq<Clause>)
    ensures |qs| == |values|
    ensures forall i :: 0 <= i < |values| ==> qs[i] == Not(TermClause(req, values[i]))
  {
    seq(|values|, i requires 0 <= i < |values| => Not(TermClause(req, values[i])))
  }

  /** The loop of `apply_query_in`, appending one term clause per value. */
  method CollectTermClauses(req: LookupRequest, values: seq<Value>) returns (queries: seq<Clause>)
    ensures queries == TermClauses(req, values)
  {
    queries := [];
    var i := 0;
    while i < |values|
      invariant 0 <= i <= |values|
      invariant queries == TermClauses(req, values[..i])
    {
      queries := queries + [QParams("term", req, Some([(req.field, values[i])]))];
      i := i + 1;
      assert values[..i] == values[..i - 1] + [values[i - 1]];
    }
    assert values[..|values|] == values;
  }

  /** The loop of `apply_query_exclude`, appending one negated term clause per value. */
  method CollectNegatedTermClauses(req: LookupRequest, values: seq<Value>) returns (queries: seq<Clause>)
    ensures queries == NegatedTermClauses(req, values)
  {
    queries := [];
    var i := 0;
    while i < |values|
      invariant 0 <= i <= |values|
      invariant queries == NegatedTermClauses(req, values[..i])
    {
      queries := queries + [Not(QParams("term", req, Some([(req.field, values[i])])))];
      i := i + 1;
      assert values[..i] == values[..i - 1] + [values[i - 1]];
    }
    assert values[..|values|] == values;
  }

  /** `apply_query_in`: one query ORing a term clause per value; no value,
      no query. */
  function ApplyQueryIn(qs: Search, req: LookupRequest, value: Value): (r: Result<Search>)
    ensures ValueList(value).Ok? && ValueList(value).value == [] ==> r == Ok(qs)
    ensures ValueList(value).Ok? && ValueList(value).value != [] ==>
      r == Ok(AddQuery(qs, OrAll(TermClauses(req, ValueList(value).value))))
    ensures ValueList(value).Err? ==> r.Err?
  {
    var values :- ValueList(value);
    var queries := TermClauses(req, values);
    if queries != [] then ClauseQuery(qs, OrAll(queries)) else Ok(qs)
  }

  /** `apply_query_exclude`: one query ANDing a negated term clause per
      value; no value, no query. */
  function ApplyQueryExclude(qs: Search, req: LookupRequest, value: Value): (r: Result<Search>)
    ensures ValueList(value).Ok? && ValueList(value).value == [] ==> r == Ok(qs)
    ensures ValueList(value).Ok? && ValueList(value).value != [] ==>
      r == Ok(AddQuery(qs, AndAll(NegatedTermClauses(req, ValueList(value).value))))
    ensures ValueList(value).Err? ==> r.Err?
  {
    var values :- ValueList(value);
    var queries := NegatedTermClauses(req, values);
    if queries != [] then ClauseQuery(qs, AndAll(queries)) else Ok(qs)
  }

  /** The clause `gt`, `gte` and `lt` add: a range on the field with the one
      bound. */
  function BoundClause(req: LookupRequest, value: Value, bound: string): Result<Clause>
  {
    var params :- GteLteParams(value, bound, req.options);
    Ok(QParams("range", req, Some([(req.field, Obj(params))])))
  }

  /** `apply_query_gt`. */
  function ApplyQueryGt(qs: Search, req: LookupRequest, value: Value): (r: Result<Search>)
    ensures BoundClause(req, value, C.LOOKUP_QUERY_GT).Ok? ==>
      r == Ok(AddFilter(qs, BoundClause(req, value, C.LOOKUP_QUERY_GT).value))
    ensures BoundClause(req, value, C.LOOKUP_QUERY_GT).Err? ==> r.Err?
  {
    var q :- BoundClause(req, value, "gt");
    ClauseFilter(qs, q)
  }

  /** `apply_query_gte`. */
  function ApplyQueryGte(qs: Search, req: LookupRequest, value: Value): (r: Result<Search>)
    ensures BoundClause(req, value, C.LOOKUP_QUERY_GTE).Ok? ==>
      r == Ok(AddFilter(qs, BoundClause(req, value, C.LOOKUP_QUERY_GTE).value))
    ensures BoundClause(req, value, C.LOOKUP_QUERY_GTE).Err? ==> r.Err?
  {
    var q :- BoundClause(req, value, "gte");
    ClauseFilter(qs, q)
  }

  /** `apply_query_lt`. */
  function ApplyQueryLt(qs: Search, req: LookupRequest, value: Value): (r: Result<Search>)
    ensures BoundClause(req, value, C.LOOKUP_QUERY_LT).Ok? ==>
      r == Ok(AddFilter(qs, BoundClause(req, value, C.LOOKUP_QUERY_LT).value))
    ensures BoundClause(req, value, C.LOOKUP_QUERY_LT).Err? ==> r.Err?
  {
    var q :- BoundClause(req, value, "lt");
    ClauseFilter(qs, q)
  }

  /** `apply_query_lte`: the `lt` clause is computed (and may raise) but
      dropped; the filter added is `range(field={lte: v})`, never nested. */
  function ApplyQueryLte(qs: Search, req: LookupRequest, value: Value): (r: Result<Search>)
    ensures BoundClause(req, value, C.LOOKUP_QUERY_LT).Ok? ==>
      RangeParamValue(value).Ok? &&
      r == Ok(AddFilter(qs, Leaf(C.LOOKUP_FILTER_RANGE,
                                 [(req.field, Obj(GteLteParams(value, C.LOOKUP_QUERY_LTE, req.options).value))])))
    ensures BoundClause(req, value, C.LOOKUP_QUERY_LT).Err? ==> r.Err?
  {
    var _ :- BoundClause(req, value, "lt");
    match GteLteParams(value, "lte", req.options)
    case Ok(params) => ApplyFilter(qs, Some([NameArg("range")]), Some([(req.field, Obj(params))]))
    case Err(e) => Err(e)
  }

  /** `apply_query_lte` as evidently intended, shaped like its three
      siblings: a range on the field with the `lte` bound, nested under the
      field's path when it has one. */
  function ApplyQueryLteIntended(qs: Search, req: LookupRequest, value: Value): (r: Result<Search>)
    ensures BoundClause(req, value, C.LOOKUP_QUERY_LTE).Ok? ==>
      r == Ok(AddFilter(qs, BoundClause(req, value, C.LOOKUP_QUERY_LTE).value))
    ensures BoundClause(req, value, C.LOOKUP_QUERY_LTE).Err? ==> r.Err?
  {
    var q :- BoundClause(req, value, "lte");
    ClauseFilter(qs, q)
  }

  /** The intended `lte` wraps its range in the field's nested path, and
      for a field without one it adds what the code as written adds. */
  lemma LteIntendedAgrees(qs: Search, req: LookupRequest, value: Value)
    ensures HasPath(req) && ApplyQueryLteIntended(qs, req, value).Ok? ==>
      var s := ApplyQueryLteIntended(qs, req, value).value;
      s.queries == qs.queries && |s.filters| == |qs.filters| + 1 &&
      s.filters[|qs.filters|].Nested? && s.filters[|qs.filters|].path == req.path
    ensures !HasPath(req) ==> ApplyQueryLteIntended(qs, req, value) == ApplyQueryLte(qs, req, value)
  {
    if !HasPath(req) {
      if RangeParamValue(value).Err? {
        assert GteLteParams(value, "lt", req.options).Err?;
        assert GteLteParams(value, "lte", req.options).Err?;
      } else {
        assert GteLteParams(value, "lt", req.options).Ok?;
        assert GteLteParams(value, "lte", req.options).Ok?;
      }
    }
  }

  /** `apply_query_isnull`: a true value adds the negated exists clause, a
      false value the clause itself, anything else nothing. */
  function ApplyQueryIsNull(qs: Search, req: LookupRequest, value: Value): (r: Result<Search>)
    ensures PyIn(value, C.TRUE_VALUES) ==> r == Ok(AddQuery(qs, Not(ExistsClause(req))))
    ensures !PyIn(value, C.TRUE_VALUES) && PyIn(value, C.FALSE_VALUES) ==> r == Ok(AddQuery(qs, ExistsClause(req)))
    ensures !PyIn(value, C.TRUE_VALUES) && !PyIn(value, C.FALSE_VALUES) ==> r == Ok(qs)
  {
    var q := QParams("exists", req, Some([("field", Str(req.field))]));
    if PyIn(value, C.TRUE_VALUES) then ClauseQuery(qs, Not(q))
    else if PyIn(value, C.FALSE_VALUES) then ClauseQuery(qs, q)
    else Ok(qs)
  }

  /** The boolean opposite of a true or false value; other values stay. */
  function Flip(v: Value): Value {
    if PyIn(v, C.TRUE_VALUES) then Value.Bool(false)
    else if PyIn(v, C.FALSE_VALUES) then Value.Bool(true)
    else v
  }

  /** `isnull(v)` is exactly `exists(not v)`. */
  lemma IsNullIsNegatedExists(qs: Search, req: LookupRequest, value: Value)
    ensures ApplyQueryIsNull(qs, req, value) == ApplyQueryExists(qs, req, Flip(value))
  {
    FlipTruth();
    if PyIn(value, C.TRUE_VALUES) {
      C.TrueFalseDisjoint(value);
    }
  }

  /** `True` is a true value and `False` a false one, and not a true one. */
  lemma FlipTruth()
    ensures PyIn(Value.Bool(true), C.TRUE_VALUES)
    ensures PyIn(Value.Bool(false), C.FALSE_VALUES) && !PyIn(Value.Bool(false), C.TRUE_VALUES)
  {
    assert C.TRUE_VALUES[7] == Value.Bool(true) && C.FALSE_VALUES[7] == Value.Bool(false);
    C.TrueFalseDisjoint(Value.Bool(false));
  }

  /** The lte clause ignores the nested path that every other range lookup
      honours. */
  lemma LteIgnoresPath(qs: Search, req: LookupRequest, value: Value)
    requires HasPath(req)
    requires ApplyQueryLte(qs, req, value).Ok?
    ensures var s := ApplyQueryLte(qs, req, value).value;
      s.queries == qs.queries && |s.filters| == |qs.filters| + 1 && !s.filters[|qs.filters|].Nested?
    ensures ApplyQueryLt(qs, req, value).Ok? &&
      ApplyQueryLt(qs, req, value).value.filters[|qs.filters|].Nested?
  {
  }
}
