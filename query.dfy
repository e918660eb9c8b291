/** The two foreign objects every backend works on, as values: the query
    clause `Q(...)` and the `Search` request builder. Only their shape is
    modelled; serialisation and engine semantics are not. */
module Query {
  import opened Wrappers
  import opened Dicts
  import opened Values

  /** A query clause. `Leaf(kind, params)` is `Q(kind, **params)`. */
  datatype Clause =
    | Leaf(kind: string, params: Dict<string, Value>)
    | Nested(path: Value, query: Clause)
    | Not(negated: Clause)
    | Or(disjuncts: seq<Clause>)
    | And(conjuncts: seq<Clause>)
    | Bool(occur: string, clauses: seq<Clause>)

  const MatchAll := Leaf("match_all", [])

  /** `reduce(operator.or_, qs)`: a single clause is returned as is. */
  function OrAll(qs: seq<Clause>): (r: Clause)
    requires qs != []
    ensures |qs| == 1 ==> r == qs[0]
    ensures |qs| > 1 ==> r == Or(qs)
  {
    if |qs| == 1 then qs[0] else Or(qs)
  }

  /** `reduce(operator.and_, qs)`. */
  function AndAll(qs: seq<Clause>): (r: Clause)
    requires qs != []
    ensures |qs| == 1 ==> r == qs[0]
    ensures |qs| > 1 ==> r == And(qs)
  {
    if |qs| == 1 then qs[0] else And(qs)
  }

  /** A nested aggregation: `A(kind, **params)` with named sub-buckets. */
  datatype Aggregation = Agg(kind: string, params: Dict<string, Value>, aggs: Dict<string, Aggregation>)

  /** The request builder. `query` and `filter` accumulate clauses, `sort`
      and `source` replace, `highlight` and aggregation buckets are keyed. */
  datatype Search = Search(
    queries: seq<Clause>,
    filters: seq<Clause>,
    sort: seq<Value>,
    aggs: Dict<string, Aggregation>,
    highlight: Dict<string, Dict<string, Value>>,
    source: Option<Value>)

  /** `document.search()`: an empty request. */
  const EmptySearch := Search([], [], [], [], [], None)

  /** A positional argument of `Search.filter`/`Search.query`. */
  datatype Arg = ClauseArg(clause: Clause) | NameArg(name: string)

  /** `Q(*args, **kwargs)`: no argument means `match_all`, a name builds a
      clause from the keywords, a clause is taken as is. */
  function MakeQ(args: seq<Arg>, kwargs: Dict<string, Value>): (r: Result<Clause>)
    ensures |args| > 1 ==> r == Err(TypeError)
    ensures args == [] ==> r == Ok(Leaf("match_all", kwargs))
    ensures |args| == 1 && args[0].NameArg? ==> r == Ok(Leaf(args[0].name, kwargs))
    ensures |args| == 1 && args[0].ClauseArg? ==>
      r == if kwargs == [] then Ok(args[0].clause) else Err(ValueError)
  {
    if args == [] then Ok(Leaf("match_all", kwargs))
    else if |args| > 1 then Err(TypeError)
    else match args[0]
      case NameArg(n) => Ok(Leaf(n, kwargs))
      case ClauseArg(c) => if kwargs == [] then Ok(c) else Err(ValueError)
  }

  /** `s.filter(*args, **kwargs)`. */
  function FilterCall(s: Search, args: seq<Arg>, kwargs: Dict<string, Value>): Result<Search> {
    var q :- MakeQ(args, kwargs);
    Ok(s.(filters := s.filters + [q]))
  }

  /** `s.query(*args, **kwargs)`. */
  function QueryCall(s: Search, args: seq<Arg>, kwargs: Dict<string, Value>): Result<Search> {
    var q :- MakeQ(args, kwargs);
    Ok(s.(queries := s.queries + [q]))
  }

  /** `s.query(q)` for a clause `q`. */
  function AddQuery(s: Search, q: Clause): Search {
    s.(queries := s.queries + [q])
  }

  /** `s.filter(q)` for a clause `q`. */
  function AddFilter(s: Search, q: Clause): Search {
    s.(filters := s.filters + [q])
  }

  /** `s.sort(*keys)`: the previous sort is replaced. */
  function SetSort(s: Search, keys: seq<Value>): Search {
    s.(sort := keys)
  }

  /** `s.highlight(field, **options)`. */
  function AddHighlight(s: Search, field: string, options: Dict<string, Value>): Search {
    s.(highlight := Put(s.highlight, field, options))
  }

  /** `s.source(spec)`. */
  function SetSource(s: Search, spec: Value): Search {
    s.(source := Some(spec))
  }

  /** `s.aggs.bucket(name, agg)`. */
  function AddBucket(s: Search, name: string, agg: Aggregation): Search {
    s.(aggs := Put(s.aggs, name, agg))
  }
}
