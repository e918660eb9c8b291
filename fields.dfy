/** `ElasticsearchConnectionField`: the limit checks of the connection
    resolver, the split of the GraphQL arguments into pagination arguments
    and filter arguments, the filter-backend pipeline of `get_queryset`, the
    union of the backends' field arguments, and the resolver chain. */
module Fields {
  import opened Wrappers
  import opened Dicts
  import opened Values
  import opened Query
  import opened ArrayConnection

  // ---------------------------------------------------------------------
  // connection_resolver: the enforce_first_or_last and max_limit checks
  // ---------------------------------------------------------------------

  /** An integer as Python compares it (`bool` being an `int`). */
  function AsNumber(v: Value): Option<int> {
    match v
    case Int(i) => Some(i)
    case Bool(b) => Some(if b then 1 else 0)
    case _ => None
  }

  /** `a <= b`; comparing anything but numbers raises TypeError. */
  function PyLe(a: Value, b: Value): (r: Result<bool>)
    ensures r.Err? <==> AsNumber(a).None? || AsNumber(b).None?
    ensures r.Err? ==> r.error == TypeError
    ensures r.Ok? ==> (r.value <==> AsNumber(a).value <= AsNumber(b).value)
  {
    if AsNumber(a).None? || AsNumber(b).None? then Err(TypeError)
    else Ok(AsNumber(a).value <= AsNumber(b).value)
  }

  /** `min(a, b)`: the first argument unless the second is strictly smaller. */
  function PyMin(a: Value, b: Value): Value
    requires AsNumber(a).Some? && AsNumber(b).Some?
  {
    if AsNumber(b).value < AsNumber(a).value then b else a
  }

  /** `args.get(k)`. */
  function Arg(args: Dict<string, Value>, k: string): Value {
    GetOr(args, k, Null)
  }

  /** Writing back a value already stored changes nothing. */
  lemma PutSame<V>(d: Dict<string, V>, k: string)
    requires HasKey(d, k)
    ensures Put(d, k, Get(d, k).value) == d
  {
    var i := Find(d, k);
    assert d[i := (k, d[i].1)] == d;
  }

  /** The pagination checks of `connection_resolver`. With
      `enforce_first_or_last`, a truthy `first` or `last` is required; with a
      truthy `max_limit`, a truthy `first` or `last` must not exceed it. The
      `min` written back is the value already there, so the arguments leave
      the checks unchanged. */
  function ConnectionChecks(args: Dict<string, Value>): (r: Result<Dict<string, Value>>)
    ensures Truthy(Arg(args, "enforce_first_or_last")) && !Truthy(Arg(args, "first")) && !Truthy(Arg(args, "last"))
      ==> r == Err(AssertionError)
    ensures r.Ok? ==> r.value == args
    ensures r.Ok? <==>
      && !(Truthy(Arg(args, "enforce_first_or_last")) && !Truthy(Arg(args, "first")) && !Truthy(Arg(args, "last")))
      && (Truthy(Arg(args, "max_limit")) && Truthy(Arg(args, "first")) ==>
            PyLe(Arg(args, "first"), Arg(args, "max_limit")) == Ok(true))
      && (Truthy(Arg(args, "max_limit")) && Truthy(Arg(args, "last")) ==>
            PyLe(Arg(args, "last"), Arg(args, "max_limit")) == Ok(true))
    ensures r.Err? ==> r.error in {AssertionError, TypeError}
  {
    var first, last := Arg(args, "first"), Arg(args, "last");
    var maxLimit := Arg(args, "max_limit");
    if Truthy(Arg(args, "enforce_first_or_last")) && !(Truthy(first) || Truthy(last)) then Err(AssertionError)
    else if !Truthy(maxLimit) then Ok(args)
    else
      var firstOk :- if Truthy(first) then PyLe(first, maxLimit) else Ok(true);
      if !firstOk then Err(AssertionError)
      else
        var args1 := if Truthy(first) then Put(args, "first", PyMin(first, maxLimit)) else args;
        assert args1 == args by {
          if Truthy(first) {
            PutSame(args, "first");
          }
        }
        var lastOk :- if Truthy(last) then PyLe(last, maxLimit) else Ok(true);
        if !lastOk then Err(AssertionError)
        else
          var args2 := if Truthy(last) then Put(args1, "last", PyMin(last, maxLimit)) else args1;
          assert args2 == args by {
            if Truthy(last) {
              PutSame(args, "last");
            }
          }
          Ok(args2)
  }

  // ---------------------------------------------------------------------
  // The pagination arguments read by connection_from_list_slice
  // ---------------------------------------------------------------------

  /** An integer argument; anything else counts as absent. */
  function IntArg(v: Value): Option<int> {
    if v.Int? then Some(v.i) else None
  }

  /** A cursor argument, carried as its offset; anything else counts as
      absent (a cursor that does not decode falls back to the default). */
  function CursorArg(v: Value): Option<Cursor> {
    if v.Int? then Some(OffsetToCursor(v.i)) else None
  }

  function PageArgsOf(args: Dict<string, Value>): PageArgs {
    PageArgs(CursorArg(Arg(args, "before")), CursorArg(Arg(args, "after")),
             IntArg(Arg(args, "first")), IntArg(Arg(args, "last")),
             Truthy(Arg(args, "enforce_first_or_last")), IntArg(Arg(args, "max_limit")))
  }

  // ---------------------------------------------------------------------
  // resolve_connection
  // ---------------------------------------------------------------------

  /** A connection with the `iterable` and `list_length` attributes the
      resolver sets on it. */
  datatype Page<T> = Page(connection: Connection<T>, iterable: seq<T>, listLength: int)

  /** What a resolver returns: a ready connection, or search hits with their
      total count. */
  datatype Resolved<T> = IsConnection(page: Page<T>) | HitsOf(hits: seq<T>, total: int)

  /** `resolve_connection(connection_type, args, resolved)`: a connection is
      returned as it is; otherwise the `hits` of the result are handed to
      `connection_from_list_slice` from offset 0, their total being the list
      length. The hits are a Python sequence, not a search, so once the
      limit checks pass the call fails with AttributeError. */
  function ResolveConnection<T>(a: PageArgs, resolved: Resolved<T>): (r: Result<Page<T>>)
    ensures resolved.IsConnection? ==> r == Ok(resolved.page)
    ensures resolved.HitsOf? ==> r.Err?
    ensures resolved.HitsOf? ==> r.error == (if CheckLimits(a).Ok? then AttributeError else AssertionError)
  {
    match resolved
    case IsConnection(p) => Ok(p)
    case HitsOf(hits, total) => WithIterable(ConnectionOf(ListOf(hits), a, 0, total, Some(total)), hits, total)
  }

  /** The connection with the attributes set on it, or the error of the call
      that made it. */
  function WithIterable<T>(c: Result<Connection<T>>, iterable: seq<T>, listLength: int): Result<Page<T>> {
    var connection :- c;
    Ok(Page(connection, iterable, listLength))
  }

  /** `resolve_connection` as evidently intended: the hits are paged by list
      slicing. */
  function ResolveConnectionIntended<T>(a: PageArgs, resolved: Resolved<T>): (r: Result<Page<T>>)
    ensures resolved.IsConnection? ==> r == Ok(resolved.page)
    ensures resolved.HitsOf? ==>
      var c := ListPageOf(resolved.hits, a, 0, resolved.total, Some(resolved.total));
      && (r.Ok? <==> CheckLimits(a).Ok?)
      && (r.Ok? ==> r.value == Page(c.value, resolved.hits, resolved.total))
  {
    match resolved
    case IsConnection(p) => Ok(p)
    case HitsOf(hits, total) =>
      var c :- ConnectionIntended(ListOf(hits), a, 0, total, Some(total));
      Ok(Page(c, hits, total))
  }

  /** With the intended paging, `first = k` over all the hits gives the
      first `min(k, N)` of them, with a next page exactly when hits are left. */
  lemma ResolveHitsFirstPage<T>(hits: seq<T>, k: int)
    requires k >= 0
    ensures var r := ResolveConnectionIntended(PageArgs(None, None, Some(k), None, false, None), HitsOf(hits, |hits|));
      && r.Ok?
      && |r.value.connection.edges| == Min(k, |hits|)
      && (forall i :: 0 <= i < |r.value.connection.edges| ==> r.value.connection.edges[i] == Edge(hits[i], OffsetToCursor(i)))
      && (r.value.connection.pageInfo.hasNextPage <==> k < |hits|)
  {
    var a := PageArgs(None, None, Some(k), None, false, None);
    FirstPageOfList(hits, k);
    PageOfOutcome(hits, a, 0, |hits|, Some(|hits|));
    PageOfOutcome(hits, a, 0, |hits|, None);
  }

  /** `connection_resolver(resolver, connection_type, root, info, **args)`:
      after the checks the resolver sees the caller's arguments unchanged,
      and its result is resolved against them. */
  function ConnectionResolver<T>(args: Dict<string, Value>, resolver: Dict<string, Value> -> Resolved<T>): (r: Result<Page<T>>)
    ensures ConnectionChecks(args).Err? ==> r == Err(ConnectionChecks(args).error)
    ensures ConnectionChecks(args).Ok? ==> r == ResolveConnection(PageArgsOf(args), resolver(args))
  {
    var checked :- ConnectionChecks(args);
    ResolveConnection(PageArgsOf(checked), resolver(checked))
  }

  // ---------------------------------------------------------------------
  // chained_resolver
  // ---------------------------------------------------------------------

  /** `chained_resolver(resolver, is_partial, root, info, **args)`: the
      custom resolver answers unless it is a partial given arguments or it
      returns None; the default resolver answers otherwise. */
  function ChainedResolver<R>(resolver: Dict<string, Value> -> Option<R>, isPartial: bool,
                              args: Dict<string, Value>, fallback: Dict<string, Value> -> R): (r: R)
    ensures isPartial && args != [] ==> r == fallback(args)
    ensures (!isPartial || args == []) && resolver(args).Some? ==> r == resolver(args).value
    ensures resolver(args).None? ==> r == fallback(args)
  {
    if !(args != []) || !isPartial then
      match resolver(args)
      case Some(v) => v
      case None => fallback(args)
    else fallback(args)
  }

  // ---------------------------------------------------------------------
  // get_queryset: the filter-backend pipeline
  // ---------------------------------------------------------------------

  /** The filter backends a connection field uses when its type declares none,
      in the order they are applied. */
  datatype BackendKind = SearchBackend | FilteringBackend | OrderingBackend | DefaultOrderingBackend

  const DEFAULT_FILTER_BACKENDS := [SearchBackend, FilteringBackend, OrderingBackend, DefaultOrderingBackend]

  /** A backend's `filter(queryset)`, given its own copy of the arguments. */
  type Backend = (Search, Dict<string, Value>) -> Result<Search>

  /** Each backend filters the result of the previous one; all of them see
      the same arguments. */
  function FilterChain(qs: Search, args: Dict<string, Value>, backends: seq<Backend>): Result<Search>
    decreases |backends|
  {
    if backends == [] then Ok(qs)
    else
      var q :- backends[0](qs, args);
      FilterChain(q, args, backends[1..])
  }

  /** Running a chain on an outcome: an error stays. */
  function ThenChain(r: Result<Search>, args: Dict<string, Value>, backends: seq<Backend>): Result<Search> {
    if r.Err? then r else FilterChain(r.value, args, backends)
  }

  /** A pipeline split in two is the first part followed by the second. */
  lemma {:induction false} FilterChainAppend(qs: Search, args: Dict<string, Value>, a: seq<Backend>, b: seq<Backend>)
    ensures FilterChain(qs, args, a + b) == ThenChain(FilterChain(qs, args, a), args, b)
    decreases |a|
  {
    if a == [] {
      assert a + b == b;
    } else {
      assert (a + b)[0] == a[0] && (a + b)[1..] == a[1..] + b;
      var q := a[0](qs, args);
      if q.Ok? {
        FilterChainAppend(q.value, args, a[1..], b);
      }
    }
  }

  /** The search backend of the default pipeline runs first and the default
      ordering backend last. */
  lemma DefaultPipeline(impl: BackendKind -> Backend, qs: Search, args: Dict<string, Value>)
    ensures var bs := seq(|DEFAULT_FILTER_BACKENDS|, i requires 0 <= i < |DEFAULT_FILTER_BACKENDS| => impl(DEFAULT_FILTER_BACKENDS[i]));
      FilterChain(qs, args, bs)
      == ThenChain(ThenChain(ThenChain(impl(SearchBackend)(qs, args), args, [impl(FilteringBackend)]),
                             args, [impl(OrderingBackend)]), args, [impl(DefaultOrderingBackend)])
  {
    var bs := seq(|DEFAULT_FILTER_BACKENDS|, i requires 0 <= i < |DEFAULT_FILTER_BACKENDS| => impl(DEFAULT_FILTER_BACKENDS[i]));
    assert bs == [impl(SearchBackend)] + [impl(FilteringBackend)] + [impl(OrderingBackend)] + [impl(DefaultOrderingBackend)];
    FilterChainAppend(qs, args, [impl(SearchBackend)] + [impl(FilteringBackend)] + [impl(OrderingBackend)], [impl(DefaultOrderingBackend)]);
    FilterChainAppend(qs, args, [impl(SearchBackend)] + [impl(FilteringBackend)], [impl(OrderingBackend)]);
    FilterChainAppend(qs, args, [impl(SearchBackend)], [impl(FilteringBackend)]);
    assert FilterChain(qs, args, [impl(SearchBackend)]) == ThenChain(impl(SearchBackend)(qs, args), args, []);
  }

  /** What a custom `get_queryset` returns: a search, or filters to merge
      into the arguments. */
  datatype CustomResult = ReturnsSearch(search: Search) | ReturnsFilters(filters: Dict<string, Value>)

  type CustomQueryset = Dict<string, Value> -> CustomResult

  /** What `get_queryset(document, info, **args)` returns, starting from the
      document's `search()`. */
  function GetQuerysetSpec(search: Search, args: Dict<string, Value>, custom: Option<CustomQueryset>, backends: seq<Backend>): Result<Search> {
    if custom.None? then FilterChain(search, args, backends)
    else
      match custom.value(args)
      case ReturnsSearch(s) => Ok(s)
      case ReturnsFilters(d) => FilterChain(search, Update(args, d), backends)
  }

  /** A custom queryset that returns a search bypasses every backend; one
      that returns filters hands the backends the arguments with those
      filters merged in, a filter replacing an argument of the same name. */
  lemma CustomQuerysetOutcome(search: Search, args: Dict<string, Value>, custom: CustomQueryset, backends: seq<Backend>, k: string)
    ensures custom(args).ReturnsSearch? ==> GetQuerysetSpec(search, args, Some(custom), backends) == Ok(custom(args).search)
    ensures custom(args).ReturnsFilters? ==>
      var merged := Update(args, custom(args).filters);
      && GetQuerysetSpec(search, args, Some(custom), backends) == FilterChain(search, merged, backends)
      && (Distinct(custom(args).filters) ==>
            Get(merged, k) == if HasKey(custom(args).filters, k) then Get(custom(args).filters, k) else Get(args, k))
  {
    if custom(args).ReturnsFilters? && Distinct(custom(args).filters) {
      UpdateGet(args, custom(args).filters, k);
    }
  }

  /** `get_queryset`: the custom queryset, if any, then every backend in
      order, each given a copy of the arguments. */
  method GetQueryset(search: Search, args: Dict<string, Value>, custom: Option<CustomQueryset>, backends: seq<Backend>)
    returns (r: Result<Search>)
    ensures r == GetQuerysetSpec(search, args, custom, backends)
  {
    var filterArgs := args;
    if custom.Some? {
      var result := custom.value(args);
      if result.ReturnsSearch? {
        return Ok(result.search);
      }
      filterArgs := Update(filterArgs, result.filters);
    }
    var qs := search;
    var i := 0;
    while i < |backends|
      invariant 0 <= i <= |backends|
      invariant FilterChain(qs, filterArgs, backends[i..]) == FilterChain(search, filterArgs, backends)
    {
      assert backends[i..][1..] == backends[i + 1..];
      var copy := filterArgs;
      var q := backends[i](qs, copy);
      if q.Err? {
        return q;
      }
      qs := q.value;
      i := i + 1;
    }
    r := Ok(qs);
  }

  // ---------------------------------------------------------------------
  // default_resolver
  // ---------------------------------------------------------------------

  /** The pagination argument names `default_resolver` pops. */
  const CONNECTION_KEYS := ["first", "last", "before", "after", "max_limit", "enforce_first_or_last"]

  /** The arguments split by `default_resolver`: the pagination arguments,
      the `id` and what is left for the backends. */
  datatype SplitArgs = SplitArgs(connectionArgs: Dict<string, Value>, id: Value, rest: Dict<string, Value>)

  /** `args.pop(k, default)`. */
  function Pop(d: Dict<string, Value>, k: string, default: Value): (Value, Dict<string, Value>) {
    (GetOr(d, k, default), Remove(d, k))
  }

  /** The pops of `default_resolver`; `max_limit` and `enforce_first_or_last`
      default to the settings. */
  function SplitConnectionArgs(args: Dict<string, Value>, maxLimit: Value, enforce: Value): SplitArgs {
    var (first, a1) := Pop(args, "first", Null);
    var (last, a2) := Pop(a1, "last", Null);
    var (before, a3) := Pop(a2, "before", Null);
    var (after, a4) := Pop(a3, "after", Null);
    var (limit, a5) := Pop(a4, "max_limit", maxLimit);
    var (enforceFirstOrLast, a6) := Pop(a5, "enforce_first_or_last", enforce);
    var (id, a7) := Pop(a6, "id", Null);
    SplitArgs([("first", first), ("last", last), ("before", before), ("after", after),
               ("max_limit", limit), ("enforce_first_or_last", enforceFirstOrLast)], id, a7)
  }

  /** Removing a key from a Python dict keeps it a Python dict and leaves
      every other key alone. */
  lemma RemoveOther(d: Dict<string, Value>, k: string, k': string)
    requires Distinct(d)
    ensures Distinct(Remove(d, k))
    ensures k' == k ==> !HasKey(Remove(d, k), k')
    ensures k' != k ==> Get(Remove(d, k), k') == Get(d, k')
  {
    RemoveProperties(d, k);
  }

  /** The split: each pagination argument is the caller's or else its
      default, and `id` is the caller's or None. */
  lemma SplitConnectionArgsValues(args: Dict<string, Value>, maxLimit: Value, enforce: Value)
    ensures var s := SplitConnectionArgs(args, maxLimit, enforce);
      && Keys(s.connectionArgs) == CONNECTION_KEYS
      && Get(s.connectionArgs, "first") == Some(GetOr(args, "first", Null))
      && Get(s.connectionArgs, "last") == Some(GetOr(args, "last", Null))
      && Get(s.connectionArgs, "before") == Some(GetOr(args, "before", Null))
      && Get(s.connectionArgs, "after") == Some(GetOr(args, "after", Null))
      && Get(s.connectionArgs, "max_limit") == Some(GetOr(args, "max_limit", maxLimit))
      && Get(s.connectionArgs, "enforce_first_or_last") == Some(GetOr(args, "enforce_first_or_last", enforce))
      && s.id == GetOr(args, "id", Null)
  {
    var a1 := Remove(args, "first");
    var a2 := Remove(a1, "last");
    var a3 := Remove(a2, "before");
    var a4 := Remove(a3, "after");
    var a5 := Remove(a4, "max_limit");
    var a6 := Remove(a5, "enforce_first_or_last");
    RemoveKeepsGet(args, "first", "last");
    RemoveKeepsGet(args, "first", "before");
    RemoveKeepsGet(a1, "last", "before");
    RemoveKeepsGet(args, "first", "after");
    RemoveKeepsGet(a1, "last", "after");
    RemoveKeepsGet(a2, "before", "after");
    RemoveKeepsGet(args, "first", "max_limit");
    RemoveKeepsGet(a1, "last", "max_limit");
    RemoveKeepsGet(a2, "before", "max_limit");
    RemoveKeepsGet(a3, "after", "max_limit");
    RemoveKeepsGet(args, "first", "enforce_first_or_last");
    RemoveKeepsGet(a1, "last", "enforce_first_or_last");
    RemoveKeepsGet(a2, "before", "enforce_first_or_last");
    RemoveKeepsGet(a3, "after", "enforce_first_or_last");
    RemoveKeepsGet(a4, "max_limit", "enforce_first_or_last");
    RemoveIdKeeps(args);
    ConnectionArgsLookup(GetOr(args, "first", Null), GetOr(a1, "last", Null), GetOr(a2, "before", Null),
                         GetOr(a3, "after", Null), GetOr(a4, "max_limit", maxLimit),
                         GetOr(a5, "enforce_first_or_last", enforce));
  }

  /** Looking up the dict of pagination arguments. */
  lemma ConnectionArgsLookup(first: Value, last: Value, before: Value, after: Value, limit: Value, enforce: Value)
    ensures var d := [("first", first), ("last", last), ("before", before), ("after", after),
                      ("max_limit", limit), ("enforce_first_or_last", enforce)];
      && Keys(d) == CONNECTION_KEYS
      && Get(d, "first") == Some(first) && Get(d, "last") == Some(last)
      && Get(d, "before") == Some(before) && Get(d, "after") == Some(after)
      && Get(d, "max_limit") == Some(limit) && Get(d, "enforce_first_or_last") == Some(enforce)
  {
    var d := [("first", first), ("last", last), ("before", before), ("after", after),
              ("max_limit", limit), ("enforce_first_or_last", enforce)];
    FindUnique(d, "first", 0);
    FindUnique(d, "last", 1);
    FindUnique(d, "before", 2);
    FindUnique(d, "after", 3);
    FindUnique(d, "max_limit", 4);
    FindUnique(d, "enforce_first_or_last", 5);
  }

  /** The pops before `id` leave it in place. */
  lemma RemoveIdKeeps(args: Dict<string, Value>)
    ensures var a6 := Remove(Remove(Remove(Remove(Remove(Remove(args, "first"), "last"), "before"), "after"), "max_limit"), "enforce_first_or_last");
      GetOr(a6, "id", Null) == GetOr(args, "id", Null)
  {
    var a1 := Remove(args, "first");
    var a2 := Remove(a1, "last");
    var a3 := Remove(a2, "before");
    var a4 := Remove(a3, "after");
    var a5 := Remove(a4, "max_limit");
    RemoveKeepsGet(args, "first", "id");
    RemoveKeepsGet(a1, "last", "id");
    RemoveKeepsGet(a2, "before", "id");
    RemoveKeepsGet(a3, "after", "id");
    RemoveKeepsGet(a4, "max_limit", "id");
    RemoveKeepsGet(a5, "enforce_first_or_last", "id");
  }

  /** The backends receive exactly the arguments that are neither pagination
      arguments nor `id`. */
  lemma SplitConnectionArgsRest(args: Dict<string, Value>, maxLimit: Value, enforce: Value, k: string)
    requires Distinct(args)
    ensures var s := SplitConnectionArgs(args, maxLimit, enforce);
      && Distinct(s.rest)
      && (k in CONNECTION_KEYS || k == "id" ==> !HasKey(s.rest, k))
      && (k !in CONNECTION_KEYS && k != "id" ==> Get(s.rest, k) == Get(args, k))
  {
    var a1 := Remove(args, "first");
    var a2 := Remove(a1, "last");
    var a3 := Remove(a2, "before");
    var a4 := Remove(a3, "after");
    var a5 := Remove(a4, "max_limit");
    var a6 := Remove(a5, "enforce_first_or_last");
    RemoveOther(args, "first", k);
    RemoveOther(a1, "last", k);
    RemoveOther(a2, "before", k);
    RemoveOther(a3, "after", k);
    RemoveOther(a4, "max_limit", k);
    RemoveOther(a5, "enforce_first_or_last", k);
    RemoveOther(a6, "id", k);
  }

  /** The slice `default_resolver` pages and the list length it gives with
      it: the node of a present `id` in a list, the document's search run
      through `get_queryset` with the remaining arguments, or an empty list
      for a document without `search`. */
  function ResolverSlice<T>(s: SplitArgs, getNode: Value -> T, hasSearch: bool, search: Search,
                            custom: Option<CustomQueryset>, backends: seq<Backend>,
                            execute: Search -> seq<T>): (r: Result<(Sliceable<T>, int)>)
    ensures s.id != Null ==> r == Ok((ListOf([getNode(s.id)]), 1))
    ensures s.id == Null && !hasSearch ==> r == Ok((ListOf([]), 0))
    ensures s.id == Null && hasSearch ==>
      && (r.Err? <==> GetQuerysetSpec(search, s.rest, custom, backends).Err?)
      && (r.Ok? ==> var hits := execute(GetQuerysetSpec(search, s.rest, custom, backends).value);
                    r.value == (SearchOf(hits), |hits|))
  {
    if s.id != Null then Ok((ListOf([getNode(s.id)]), 1))
    else if hasSearch then
      var qs :- GetQuerysetSpec(search, s.rest, custom, backends);
      var hits := execute(qs);
      Ok((SearchOf(hits), |hits|))
    else Ok((ListOf([]), 0))
  }

  /** What `default_resolver(root, info, **args)` returns: the resolver's
      slice paged by the pagination arguments. */
  function DefaultResolverSpec<T>(args: Dict<string, Value>, maxLimit: Value, enforce: Value,
                                  getNode: Value -> T, hasSearch: bool, search: Search,
                                  custom: Option<CustomQueryset>, backends: seq<Backend>,
                                  execute: Search -> seq<T>): Result<Page<T>>
  {
    var s := SplitConnectionArgs(args, maxLimit, enforce);
    var iterables :- ResolverSlice(s, getNode, hasSearch, search, custom, backends, execute);
    var c :- ConnectionOf(iterables.0, PageArgsOf(s.connectionArgs), 0, iterables.1, Some(iterables.1));
    Ok(Page(c, iterables.0.Nodes(), iterables.1))
  }

  /** `default_resolver` as evidently intended: the lists of the `id` and
      no-search paths are paged by list slicing. */
  function DefaultResolverIntended<T>(args: Dict<string, Value>, maxLimit: Value, enforce: Value,
                                      getNode: Value -> T, hasSearch: bool, search: Search,
                                      custom: Option<CustomQueryset>, backends: seq<Backend>,
                                      execute: Search -> seq<T>): Result<Page<T>>
  {
    var s := SplitConnectionArgs(args, maxLimit, enforce);
    var iterables :- ResolverSlice(s, getNode, hasSearch, search, custom, backends, execute);
    var c :- ConnectionIntended(iterables.0, PageArgsOf(s.connectionArgs), 0, iterables.1, Some(iterables.1));
    Ok(Page(c, iterables.0.Nodes(), iterables.1))
  }

  /** The pagination arguments `default_resolver` pages with. */
  function ResolverPageArgs(args: Dict<string, Value>, maxLimit: Value, enforce: Value): PageArgs {
    PageArgsOf(SplitConnectionArgs(args, maxLimit, enforce).connectionArgs)
  }

  /** A given `id` bypasses the pipeline: the outcome, as written and as
      intended, does not depend on the custom queryset, the backends or the
      search engine. */
  lemma IdBypassesPipeline<T>(args: Dict<string, Value>, maxLimit: Value, enforce: Value, getNode: Value -> T,
                              hasSearch: bool, search: Search, custom: Option<CustomQueryset>, backends: seq<Backend>,
                              execute: Search -> seq<T>, hasSearch': bool, search': Search,
                              custom': Option<CustomQueryset>, backends': seq<Backend>, execute': Search -> seq<T>)
    requires GetOr(args, "id", Null) != Null
    ensures DefaultResolverSpec(args, maxLimit, enforce, getNode, hasSearch, search, custom, backends, execute)
      == DefaultResolverSpec(args, maxLimit, enforce, getNode, hasSearch', search', custom', backends', execute')
    ensures DefaultResolverIntended(args, maxLimit, enforce, getNode, hasSearch, search, custom, backends, execute)
      == DefaultResolverIntended(args, maxLimit, enforce, getNode, hasSearch', search', custom', backends', execute')
  {
    RemoveIdKeeps(args);
  }

  /** As written, the two list paths fail: with a present `id`, or without
      a search, the limit checks passing leads to AttributeError. */
  lemma ListPathsFail<T>(args: Dict<string, Value>, maxLimit: Value, enforce: Value, getNode: Value -> T,
                         hasSearch: bool, search: Search, custom: Option<CustomQueryset>, backends: seq<Backend>,
                         execute: Search -> seq<T>)
    requires GetOr(args, "id", Null) != Null || !hasSearch
    requires CheckLimits(ResolverPageArgs(args, maxLimit, enforce)).Ok?
    ensures DefaultResolverSpec(args, maxLimit, enforce, getNode, hasSearch, search, custom, backends, execute)
      == Err(AttributeError)
  {
    RemoveIdKeeps(args);
  }

  /** As intended, a present `id` gives a page of that node alone: the
      limit checks decide whether there is a page, whose iterable is the
      node, whose list length is 1 and whose edges, at most one, carry it. */
  lemma IdPageHoldsNode<T>(args: Dict<string, Value>, maxLimit: Value, enforce: Value, getNode: Value -> T,
                           hasSearch: bool, search: Search, custom: Option<CustomQueryset>, backends: seq<Backend>,
                           execute: Search -> seq<T>)
    requires GetOr(args, "id", Null) != Null
    ensures var r := DefaultResolverIntended(args, maxLimit, enforce, getNode, hasSearch, search, custom, backends, execute);
      var node := getNode(GetOr(args, "id", Null));
      && (r.Ok? <==> CheckLimits(ResolverPageArgs(args, maxLimit, enforce)).Ok?)
      && (r.Ok? ==> r.value.listLength == 1 && r.value.iterable == [node] &&
                    |r.value.connection.edges| <= 1 &&
                    forall e :: e in r.value.connection.edges ==> e.node == node)
  {
    RemoveIdKeeps(args);
    var s := SplitConnectionArgs(args, maxLimit, enforce);
    var node := getNode(s.id);
    var a := PageArgsOf(s.connectionArgs);
    var c := ListPageOf([node], a, 0, 1, Some(1));
    if c.Ok? {
      var w := PageWindow(a, CheckLimits(a).value, 0, 1, 1);
      var items := PageItems([node], w, 0, 1);
      assert c.value.edges == Edges(items, w.start);
      forall e | e in c.value.edges ensures e.node == node {
        var i :| 0 <= i < |c.value.edges| && c.value.edges[i] == e;
        assert items[i] in [node];
      }
    }
  }

  /** Removing one key leaves the lookup of another, whether or not the
      keys are distinct. */
  lemma RemoveKeepsGet<V>(d: Dict<string, V>, k: string, k': string)
    requires k' != k
    ensures Get(Remove(d, k), k') == Get(d, k')
  {
    var i := Find(d, k);
    if i < |d| {
      var r := d[..i] + d[i + 1..];
      var f := Find(d, k');
      if f < i {
        FindUnique(r, k', f);
      } else if f < |d| {
        FindUnique(r, k', f - 1);
      } else {
        FindUnique(r, k', |r|);
      }
    }
  }

  /** `default_resolver`: the pagination arguments popped, the slice
      picked, and the slice paged. */
  method DefaultResolver<T>(args: Dict<string, Value>, maxLimit: Value, enforce: Value,
                            getNode: Value -> T, hasSearch: bool, search: Search,
                            custom: Option<CustomQueryset>, backends: seq<Backend>,
                            execute: Search -> seq<T>) returns (r: Result<Page<T>>)
    ensures r == DefaultResolverSpec(args, maxLimit, enforce, getNode, hasSearch, search, custom, backends, execute)
  {
    var split := PopConnectionArgs(args, maxLimit, enforce);
    var picked := PickSlice(split, getNode, hasSearch, search, custom, backends, execute);
    if picked.Err? {
      return Err(picked.error);
    }
    var (iterables, listLength) := picked.value;
    var pageArgs := new ConnectionArgs(PageArgsOf(split.connectionArgs));
    var connection := ConnectionFromListSlice(iterables, pageArgs, 0, listLength, Some(listLength));
    if connection.Err? {
      return Err(connection.error);
    }
    r := Ok(Page(connection.value, iterables.Nodes(), listLength));
  }

  /** The pagination arguments popped from `args` one by one, then `id`. */
  method PopConnectionArgs(args: Dict<string, Value>, maxLimit: Value, enforce: Value) returns (split: SplitArgs)
    ensures split == SplitConnectionArgs(args, maxLimit, enforce)
  {
    var rest := args;
    var first := GetOr(rest, "first", Null);
    rest := Remove(rest, "first");
    var last := GetOr(rest, "last", Null);
    rest := Remove(rest, "last");
    var before := GetOr(rest, "before", Null);
    rest := Remove(rest, "before");
    var after := GetOr(rest, "after", Null);
    rest := Remove(rest, "after");
    var limit := GetOr(rest, "max_limit", maxLimit);
    rest := Remove(rest, "max_limit");
    var enforceFirstOrLast := GetOr(rest, "enforce_first_or_last", enforce);
    rest := Remove(rest, "enforce_first_or_last");
    var connectionArgs := [("first", first), ("last", last), ("before", before), ("after", after),
                           ("max_limit", limit), ("enforce_first_or_last", enforceFirstOrLast)];
    var id := GetOr(rest, "id", Null);
    rest := Remove(rest, "id");
    split := SplitArgs(connectionArgs, id, rest);
  }

  /** The slice `default_resolver` pages: the node of an `id`, the hits of
      the search, or an empty list. */
  method PickSlice<T>(split: SplitArgs, getNode: Value -> T, hasSearch: bool, search: Search,
                      custom: Option<CustomQueryset>, backends: seq<Backend>,
                      execute: Search -> seq<T>) returns (r: Result<(Sliceable<T>, int)>)
    ensures r == ResolverSlice(split, getNode, hasSearch, search, custom, backends, execute)
  {
    if split.id != Null {
      r := Ok((ListOf([getNode(split.id)]), 1));
    } else if hasSearch {
      var qs := GetQueryset(search, split.rest, custom, backends);
      if qs.Err? {
        return Err(qs.error);
      }
      var hits := execute(qs.value);
      r := Ok((SearchOf(hits), |hits|));
    } else {
      r := Ok((ListOf([]), 0));
    }
  }

  // ---------------------------------------------------------------------
  // _field_args
  // ---------------------------------------------------------------------

  /** A backend as `_field_args` sees it: whether it `has_fields`, and the
      fields its `get_backend_fields` contributes. */
  datatype BackendFields<V> = BackendFields(hasFields: bool, fields: Dict<string, V>)

  /** The contributions of the backends that have fields, in order. */
  function Contributions<V>(backends: seq<BackendFields<V>>): seq<Dict<string, V>>
    decreases |backends|
  {
    if backends == [] then []
    else (if backends[0].hasFields then [backends[0].fields] else []) + Contributions(backends[1..])
  }

  /** Unfolding the first backend of the union. */
  lemma ContributionsStep<V>(d: Dict<string, V>, backends: seq<BackendFields<V>>)
    requires backends != []
    ensures UpdateAll(d, Contributions(backends)) ==
      UpdateAll(if backends[0].hasFields then Update(d, backends[0].fields) else d, Contributions(backends[1..]))
  {
    var rest := Contributions(backends[1..]);
    if backends[0].hasFields {
      assert Contributions(backends) == [backends[0].fields] + rest;
      assert ([backends[0].fields] + rest)[1..] == rest;
    } else {
      assert Contributions(backends) == rest;
    }
  }

  /** `_field_args(items)`: the union of the backends' contributions. */
  method FieldArgs<V>(backends: seq<BackendFields<V>>) returns (params: Dict<string, V>)
    ensures params == UpdateAll([], Contributions(backends))
  {
    params := [];
    var i := 0;
    while i < |backends|
      invariant 0 <= i <= |backends|
      invariant UpdateAll(params, Contributions(backends[i..])) == UpdateAll([], Contributions(backends))
    {
      assert backends[i..][1..] == backends[i + 1..];
      ContributionsStep(params, backends[i..]);
      if backends[i].hasFields {
        params := Update(params, backends[i].fields);
      }
      i := i + 1;
    }
  }

  /** A field argument exists iff `d` or a backend with fields contributes
      it. */
  lemma {:induction false} FieldArgsHasKey<V>(d: Dict<string, V>, backends: seq<BackendFields<V>>, k: string)
    ensures HasKey(UpdateAll(d, Contributions(backends)), k) <==>
      HasKey(d, k) || exists i :: 0 <= i < |backends| && backends[i].hasFields && HasKey(backends[i].fields, k)
    decreases |backends|
  {
    if backends != [] {
      ContributionsStep(d, backends);
      var d' := if backends[0].hasFields then Update(d, backends[0].fields) else d;
      UpdateHasKey(d, backends[0].fields, k);
      FieldArgsHasKey(d', backends[1..], k);
      if exists i :: 0 <= i < |backends| && backends[i].hasFields && HasKey(backends[i].fields, k) {
        var i :| 0 <= i < |backends| && backends[i].hasFields && HasKey(backends[i].fields, k);
        if i > 0 {
          assert backends[1..][i - 1] == backends[i];
        }
      }
      forall i | 0 <= i < |backends[1..]| ensures backends[1..][i] == backends[i + 1] {
      }
    }
  }

  /** A field argument nobody contributes keeps its value from `d`. */
  lemma {:induction false} FieldArgsNone<V>(d: Dict<string, V>, backends: seq<BackendFields<V>>, k: string)
    requires forall j :: 0 <= j < |backends| ==> Distinct(backends[j].fields)
    requires forall j :: 0 <= j < |backends| && backends[j].hasFields ==> !HasKey(backends[j].fields, k)
    ensures Get(UpdateAll(d, Contributions(backends)), k) == Get(d, k)
    decreases |backends|
  {
    if backends != [] {
      ContributionsStep(d, backends);
      UpdateGet(d, backends[0].fields, k);
      FieldArgsNone(if backends[0].hasFields then Update(d, backends[0].fields) else d, backends[1..], k);
    }
  }

  /** A field argument has the value of the last backend with fields that
      contributes it: later backends override earlier ones. */
  lemma {:induction false} FieldArgsLast<V>(d: Dict<string, V>, backends: seq<BackendFields<V>>, k: string, i: nat)
    requires forall j :: 0 <= j < |backends| ==> Distinct(backends[j].fields)
    requires i < |backends| && backends[i].hasFields && HasKey(backends[i].fields, k)
    requires forall j :: i < j < |backends| && backends[j].hasFields ==> !HasKey(backends[j].fields, k)
    ensures Get(UpdateAll(d, Contributions(backends)), k) == Get(backends[i].fields, k)
    decreases |backends|
  {
    ContributionsStep(d, backends);
    var d' := if backends[0].hasFields then Update(d, backends[0].fields) else d;
    if i > 0 {
      FieldArgsLast(d', backends[1..], k, i - 1);
    } else {
      UpdateGet(d, backends[0].fields, k);
      FieldArgsNone(d', backends[1..], k);
    }
  }
}
