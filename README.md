# graphene-elastic, modelled in Dafny

graphene-elastic exposes Elasticsearch documents (declared with
`elasticsearch_dsl`) as Relay connections in a graphene GraphQL schema. A
query's arguments pass through a chain of *filter backends* (filtering,
nested filtering, search, query string, simple query string, ordering,
default ordering, faceted search, aggregations, highlight, source, score);
each backend reads the arguments under its own prefix and adds clauses,
sorts, aggregation buckets, highlight entries or a source restriction to an
`elasticsearch_dsl` `Search`. The search is cut into a Relay page by
`connection_from_list_slice`, which slices it and executes the slice. Around that pipeline sit the schema helpers:
the field-kind converter, the sorted document-field map, the object-type
field scan with its self-reference rule, the type registry, the settings
object, `convert_list_to_enum` and the nested-sort compatibility shim.

The model keeps every one of these as Dafny code over values:

- `Query` is the `elasticsearch_dsl` side: a `Clause` datatype
  (`Leaf(kind, params)`, `Nested`, `Not`, `Or`, `And`, `Bool`) and a
  `Search` record holding filter-context clauses, query-context clauses,
  sorts, aggregation buckets, highlight entries and a source spec.
- `Values` is the GraphQL argument and configuration data: Python's `None`,
  booleans, integers, strings, lists and insertion-ordered dicts, with
  Python's truthiness and comparison rules where the code relies on them.
- `Dicts` is Python's insertion-ordered `dict` as a sequence of pairs, with
  `get`, assignment, `update`, `pop` and `setdefault` and their laws.
- `PyText` is Python's `str` and `repr` of those values, as `"{}".format(...)` writes them.
- One module per source file of the core, each named after it.

Errors the code raises (assertions, `TypeError`, `KeyError`,
`AttributeError`, `ValueError`, conversion and import errors) are values of
`Wrappers.Error` carried by `Result`. Code that loops or mutates an object is
written as a `method` proved equal to a specification function; the
properties are proved about the function.

## Model

| member | source | states |
|---|---|---|
| ArrayConnection.GetOffsetWithDefault | src/graphene_elastic/arrayconnection.py:80-81 | a missing cursor decodes to the default (`list_length` for `before`, -1 for `after`), a given one to its offset |
| ArrayConnection.CheckLimits | src/graphene_elastic/arrayconnection.py:50-75 | `enforce_first_or_last` without a truthy `first`/`last` fails; with a truthy `max_limit` a truthy `first`/`last` above it fails and is otherwise kept; with both falsy `first` becomes `max_limit`; success exactly when none of the failures applies |
| ArrayConnection.BaseWindow | src/graphene_elastic/arrayconnection.py:77-92 | `start_offset` is non-negative, past the slice start and past `after`; `end_offset` is at most the slice end, `before` and `list_length`, and equals one of them |
| ArrayConnection.CutWindow | src/graphene_elastic/arrayconnection.py:93-102 | an integer `first` bounds `end_offset` by `start_offset + first`, an integer `last` raises `start_offset` to at least `end_offset - last`; without them the window is unchanged |
| ArrayConnection.PyBound | src/graphene_elastic/arrayconnection.py:105-108 | a Python list slice bound lands within the list, a non-negative one clipped to its length |
| ArrayConnection.PySlice | src/graphene_elastic/arrayconnection.py:105-108 | a Python list slice is never longer than the list and holds only its items; with bounds `0 <= lo <= hi` it is the items from `lo` up to `hi`, clipped to the list |
| ArrayConnection.SearchSlice | src/graphene_elastic/arrayconnection.py:105-111 | slicing a search and executing it fails with ValueError exactly when a bound is negative, and otherwise gives the hits a list slice with the same bounds gives |
| ArrayConnection.Edges | src/graphene_elastic/arrayconnection.py:113-119 | one edge per node, in order, node `i` carrying the cursor of offset `start_offset + i` |
| ArrayConnection.PageItemsExact | src/graphene_elastic/arrayconnection.py:104-108 | the trimmed slice holds the slice entries from `start_offset - slice_start` on, in order, exactly as many as the window holds up to the real end of the slice (so at most `end_offset - start_offset`) |
| ArrayConnection.PageHoldsWindow | src/graphene_elastic/arrayconnection.py:77-119 | for well-formed arguments and a slice as long as it claims, the page holds exactly `end_offset - start_offset` edges (none when the window is empty) |
| ArrayConnection.FirstPageOfList | src/graphene_elastic/arrayconnection.py:22-136 | `first=k` over a search matching N hits, all of them in the slice, gives `min(k, N)` edges, node `i` at offset `i`, `has_next_page` exactly when `k < N`, and no previous page |
| ArrayConnection.LastPageOfList | src/graphene_elastic/arrayconnection.py:22-136 | `last=k` over a search matching N hits, all of them in the slice, gives the final `min(k, N)` nodes at their own offsets, `has_previous_page` exactly when `k < N`, and no next page |
| ArrayConnection.WindowEndInSlice | src/graphene_elastic/arrayconnection.py:83-102 | for well-formed arguments both window ends lie at or after the slice start |
| ArrayConnection.PageWithinLimits | src/graphene_elastic/arrayconnection.py:93-108 | for well-formed arguments the page holds at most `first` and at most `last` edges |
| ArrayConnection.PageWithinCursors | src/graphene_elastic/arrayconnection.py:93-119 | for well-formed arguments every edge's offset is `start_offset + i` and lies strictly between `after` and `before`, inside the list and inside the slice, and the edge carries the matching slice entry |
| ArrayConnection.PageInfoOfEdges | src/graphene_elastic/arrayconnection.py:121-135 | the start and end cursors are those of the first and last edge, None exactly when there are no edges; `has_previous_page` iff `last` is an int and `start_offset` exceeds the lower bound; `has_next_page` iff `first` is an int and `end_offset` is below the upper bound |
| ArrayConnection.FirstZeroUsesLimit | src/graphene_elastic/arrayconnection.py:59-75 | `first=0` with `max_limit=100` over five hits yields all five, since a falsy `first` is replaced by the limit |
| ArrayConnection.PageOfOutcome | src/graphene_elastic/arrayconnection.py:50-111 | a search page fails exactly when a limit check fails (AssertionError) or the window ends before the slice start, which makes the slice stop negative (ValueError); a page it returns is the one list slicing gives |
| ArrayConnection.NegativeFirstRejected | src/graphene_elastic/arrayconnection.py:93-111 | `first=-5` over 20 hits raises ValueError, where slicing a list would keep 15 nodes |
| ArrayConnection.SaneArgsSliceSearch | src/graphene_elastic/arrayconnection.py:50-111 | with non-negative counts and limit, a `before` cursor not ahead of the slice and a list no shorter than the slice start, a search page fails only on a limit check |
| ArrayConnection.ConnectionOf | src/graphene_elastic/arrayconnection.py:22-136 | a failed limit check is an AssertionError; a Python sequence never gives a page, failing with AttributeError once the checks pass (its slice has no `to_dict`); a search gives the search page |
| ArrayConnection.ConnectionIntended | src/graphene_elastic/arrayconnection.py:22-136 | (corrected) a failed limit check is an AssertionError; a Python sequence gives a page exactly when the checks pass |
| ArrayConnection.ConnectionIntendedAgrees | src/graphene_elastic/arrayconnection.py:105-111 | wherever the code as written returns a page the intended version returns the same one; a Python sequence passing the checks fails with AttributeError as written and is paged as intended |
| ArrayConnection.SearchPageOfWindow | src/graphene_elastic/arrayconnection.py:103-136 | with the limits given, slicing the search raises ValueError exactly when the window ends before the slice start (a negative stop); otherwise the page holds the items a list slice of the window gives |
| ArrayConnection.PageOfWindow | src/graphene_elastic/arrayconnection.py:77-136 | once the limits are checked, a search page is the ValueError of a negative slice stop exactly when the window ends before the slice start, and otherwise the page of the window, which is the one list slicing always gives |
| ArrayConnection.ApplyLimits | src/graphene_elastic/arrayconnection.py:53-75 | returns the limits of `CheckLimits`; the values written back into `args` are the ones already there |
| ArrayConnection.ComputeWindow | src/graphene_elastic/arrayconnection.py:77-102 | the offsets it reassigns step by step are the specified window |
| ArrayConnection.BuildEdges | src/graphene_elastic/arrayconnection.py:113-119 | the edge list built in a loop is `Edges` |
| ArrayConnection.BuildPage | src/graphene_elastic/arrayconnection.py:77-111 | with the limits given, the window it computes and the search it slices and executes (or the ValueError of that slice) give the search page `SearchPage` defines |
| ArrayConnection.AssemblePage | src/graphene_elastic/arrayconnection.py:113-136 | the edges and page info it builds from the executed hits are the connection `PageFrom` defines for the window, whose cursors and flags `PageInfoOfEdges` states |
| ArrayConnection.ConnectionFromListSlice | src/graphene_elastic/arrayconnection.py:22-136 | returns `ConnectionOf` for the search or Python sequence given: the assertion failure, the AttributeError of a sequence, the ValueError of a negative stop, or the page; `args` keeps its contents |
| BackendBase.NewBackend | src/graphene_elastic/filter_backends/base.py:24-27 | construction fails with an assertion error exactly when the prefix is missing or empty; `args` defaults to `{}` |
| BackendBase.AddArgPrefix | src/graphene_elastic/filter_backends/base.py:32-33 | the argument name is `prefix + "_" + name` |
| BackendBase.GetFieldNameAsWritten | src/graphene_elastic/filter_backends/base.py:35-37 | `lstrip` removes a leading run of characters of `prefix + "_"`, not the prefix: the result is a suffix of the argument whose first character is not in that set |
| BackendBase.GetFieldNameAsWrittenLosesName | src/graphene_elastic/filter_backends/base.py:35-37 | with prefix `filter`, the argument `filter_title` yields the empty name |
| BackendBase.GetFieldName | src/graphene_elastic/filter_backends/base.py:35-37 | the corrected name is defined exactly for arguments starting with `prefix_`, and re-prefixing it gives the argument back |
| BackendBase.FieldNameRoundTrip | src/graphene_elastic/filter_backends/base.py:32-37 | the field name of a prefixed field is the field |
| BackendBase.ArgBelongsTo | src/graphene_elastic/filter_backends/base.py:39-43 | an argument belongs to a backend iff the field name the code's `lstrip` leaves is non-empty and belongs to it; a belonging argument starts with the prefix |
| BackendBase.ArgBelongsToAsWritten | src/graphene_elastic/filter_backends/base.py:35-43 | as written, `filter_title` never belongs to the `filter` backend whatever its fields, and `searching_x` belongs to the `search` backend exactly when `ing_x` does |
| BackendBase.SearchingStrip | src/graphene_elastic/filter_backends/base.py:35-37 | with prefix `search`, the argument `searching_x` names the field `ing_x` |
| BackendBase.BackendParamsKeys | src/graphene_elastic/filter_backends/base.py:140-147 | a key is a backend parameter iff it is a default or an item that is filterable and belongs to the backend |
| BackendBase.BackendParamsKeepsDefault | src/graphene_elastic/filter_backends/base.py:140-147 | a default no item overrides keeps its value |
| BackendBase.GetBackendFields | src/graphene_elastic/filter_backends/base.py:132-161 | the loop's parameters, returned under the single key `prefix` |
| BackendBase.EnumQueryFields | src/graphene_elastic/filter_backends/highlight/common.py:59-91 | one argument named after the prefix whose enum members are exactly the filterable configured fields, each mapped to its own name |
| BackendBase.EnumValuesAreNames | src/graphene_elastic/filter_backends/highlight/common.py:70-74 | every enum member built by `params.update({field: field})` maps to its own name |
| BackendBase.SplitLookupName | src/graphene_elastic/filter_backends/base.py:163-174 | the pieces joined with the separator give the value back; no piece contains the separator; each cut is at the leftmost `__`, so no piece but the last ends in `_` |
| BackendBase.SplitLookupNameLeftmost | src/graphene_elastic/filter_backends/base.py:163-174 | `a___b` splits into `a` and `_b`, as Python's left-to-right `split` does |
| BackendBase.SplitLookupFilter | src/graphene_elastic/filter_backends/base.py:176-187 | as above, for the lookup-filter separator |
| BackendBase.SplitLookupComplexValue | src/graphene_elastic/filter_backends/base.py:189-200 | as above, for the complex-value separator |
| BackendBase.SplitLookupComplexMultipleValue | src/graphene_elastic/filter_backends/base.py:202-213 | as above, for the complex-multiple-value separator |
| BackendBase.ApplyFilter | src/graphene_elastic/filter_backends/base.py:215-229 | `queryset.filter(*args, **kwargs)` with missing arguments as empty: the clause `Q(*args, **kwargs)` is appended to the filter context, failing exactly when `Q` does |
| BackendBase.ApplyQuery | src/graphene_elastic/filter_backends/base.py:231-245 | the same for the query context |
| FilteringCommon.First | src/graphene_elastic/filter_backends/filtering/common.py:270-271 | `lookups[0]` is the first item of a non-empty list and succeeds only on a non-empty list or string |
| FilteringCommon.JoinField | src/graphene_elastic/filter_backends/filtering/common.py:273-274 | under a truthy parent field the field is the text `str(root)`, a dot, then `str(field)`; under a falsy parent (None at top level, or a parent configured with a falsy field) it is the configured value itself |
| FilteringCommon.NullParentLeavesChildren | src/graphene_elastic/filter_backends/filtering/common.py:256-289 | a composite configured with `"field": None` keeps None as its field and leaves its children's fields unprefixed |
| FilteringCommon.EntryShape | src/graphene_elastic/filter_backends/filtering/common.py:252-290 | an option that is neither a string nor a dict is a TypeError, a string never fails; a normalised entry has the joined field, the given type (`normal` by default), the parent path exactly under a nested parent, and is a leaf exactly when its type is `normal`, carrying the given lookups (all lookups by default) |
| FilteringCommon.DefaultLookupIsListed | src/graphene_elastic/filter_backends/filtering/common.py:267-271 | without an explicit `default_lookup` the default is one of the field's lookups |
| FilteringCommon.CompositeNeedsProperties | src/graphene_elastic/filter_backends/filtering/common.py:281-287 | a nested or object option without `properties` fails with KeyError |
| FilteringCommon.NormaliseFromShape | src/graphene_elastic/filter_backends/filtering/common.py:245-290 | every normalised entry carries the parent's path and lies under the parent field |
| FilteringCommon.NormaliseFromKeys | src/graphene_elastic/filter_backends/filtering/common.py:251-253 | the normalised dict has exactly the configured field names |
| FilteringCommon.ChildrenOfComposite | src/graphene_elastic/filter_backends/filtering/common.py:282-289 | the properties of a composite entry are normalised under its own field, with its field as path exactly when it is nested |
| FilteringCommon.PrepareFilterFields | src/graphene_elastic/filter_backends/filtering/common.py:167-292 | a configuration that is not a dict fails with AttributeError |
| FilteringCommon.TopLevelFields | src/graphene_elastic/filter_backends/filtering/common.py:245-292 | top-level entries have no path and the keys are exactly the configured names |
| FilteringCommon.CorrectFilterFields | src/graphene_elastic/filter_backends/filtering/common.py:245-290 | the recursive loop computes the specified normalisation |
| FilteringCommon.CorrectFilterField | src/graphene_elastic/filter_backends/filtering/common.py:252-289 | one loop iteration computes the specified entry |
| FilteringCommon.QueryParams | src/graphene_elastic/filter_backends/filtering/common.py:294-310 | a missing or falsy argument gives no parameters; a truthy non-dict one fails with AttributeError |
| FilteringCommon.RestrictToGet | src/graphene_elastic/filter_backends/filtering/common.py:303-310 | a queried field is kept with its filters exactly when it is configured; anything else is dropped |
| FilteringCommon.PrepareQueryParams | src/graphene_elastic/filter_backends/filtering/common.py:294-310 | the loop computes the specified parameters |
| Values.PyContains | src/graphene_elastic/filter_backends/filtering/common.py:480 | Python's `in`: key membership for a dict, item membership for a list, substring for a string; a type error exactly for `None`, booleans and integers |
| FilteringCommon.GetFieldOptions | src/graphene_elastic/filter_backends/filtering/common.py:323-340 | returns the options reached by walking the dotted path through `properties`, or None exactly when they are empty |
| FilteringCommon.GetFieldOptionsTopLevel | src/graphene_elastic/filter_backends/filtering/common.py:334-340 | for a plain name over a flat configuration the options are the named entry, None when it is absent or empty |
| FilteringCommon.LookupFor | src/graphene_elastic/filter_backends/filtering/common.py:476-482 | the `value` key selects the default lookup, a listed lookup selects itself, anything else selects None |
| FilteringCommon.LeafRequests | src/graphene_elastic/filter_backends/filtering/common.py:473-493 | at most one request per parameter, none for a None value, each carrying the field (as text) and the path of the configured entry |
| FilteringCommon.WalkSkipsUnknown | src/graphene_elastic/filter_backends/filtering/common.py:457-459 | a queried field that is not configured contributes nothing |
| FilteringCommon.WalkNormalField | src/graphene_elastic/filter_backends/filtering/common.py:472-493 | a configured leaf field contributes its requests before those of the fields after it |
| FilteringCommon.LeafSkipsNone | src/graphene_elastic/filter_backends/filtering/common.py:483-493 | a parameter whose value is None adds no request |
| FilteringCommon.CollectRequests | src/graphene_elastic/filter_backends/filtering/common.py:450-494 | the recursive traversal appends the specified requests to `ret`, in order |
| FilteringCommon.AppendLeafRequests | src/graphene_elastic/filter_backends/filtering/common.py:476-493 | the inner loop appends the specified leaf requests |
| FilteringCommon.FilterQueryParams | src/graphene_elastic/filter_backends/filtering/common.py:342-500 | the requests are the traversal of the prepared query parameters against the normalised fields, and any failure of either is an error |
| FilteringCommon.DispatchAliases | src/graphene_elastic/filter_backends/filtering/common.py:502-636 | `prefix` and `starts_with` compile alike; any other lookup outside the dispatch, None included, compiles as a term filter |
| FilteringCommon.CompileLookup | src/graphene_elastic/filter_backends/filtering/common.py:506-636 | the dispatch of one request to its `apply_*` method; `DispatchAliases` states the shared `prefix`/`starts_with` branch and the term fallback, and `CompileLookupContext` the context each lookup adds to |
| FilteringCommon.CompileLookupContext | src/graphene_elastic/filter_backends/filtering/common.py:506-636 | each request adds at most one clause, in query context for exists, wildcard, contains, in, ends_with, is_null and exclude and in filter context otherwise (`lte` included, which as written adds a bare `range` filter), and leaves the rest of the search alone |
| FilteringCommon.CompileAllFrame | src/graphene_elastic/filter_backends/filtering/common.py:506-636 | compiling the requests keeps sort, aggregations, highlight and source and only appends clauses, at most one per request |
| FilteringCommon.Filter | src/graphene_elastic/filter_backends/filtering/common.py:502-636 | applies the compiled requests to the search, each lookup through its own `apply_*` as written, failing when building them fails |
| FilteringCommon.CompileRequests | src/graphene_elastic/filter_backends/filtering/common.py:506-636 | the dispatch loop computes the specified compilation |
| FilteringCommon.FilteringQueryFields | src/graphene_elastic/filter_backends/filtering/common.py:65-83 | nothing without configured fields; with them the call reaches a method the base class does not define |
| FilteringCommon.IterItems | src/graphene_elastic/filter_backends/filtering/common.py:108-109 | iterating a list gives its items, a dict its keys, a scalar fails with TypeError |
| FilteringCommon.ArgKeysMembers | src/graphene_elastic/filter_backends/filtering/common.py:108-113 | a key is an argument exactly when it was one already or is a listed lookup the mapping knows; keys keep first-seen order without repeats |
| FilteringCommon.LookupArguments | src/graphene_elastic/filter_backends/filtering/common.py:108-113 | the lookup loop computes the specified argument keys |
| FilteringCommon.FieldTypeShape | src/graphene_elastic/filter_backends/filtering/common.py:85-126 | None without configured fields; a lookup argument always starts with the `value` key |
| FilteringCommon.UnlistedFieldGetsMappedLookups | src/graphene_elastic/filter_backends/filtering/common.py:103-113 | an unconfigured field gets `value` and every lookup the mapping knows |
| FilteringCommon.MappedLookupIsListed | src/graphene_elastic/filter_backends/filtering/common.py:106-113 | every lookup the mapping knows is among all lookups |
| FilteringMixins.QParams | src/graphene_elastic/filter_backends/filtering/mixins.py:24-31 | the clause is `lookup` over the query (by default `{field: values}`), wrapped in a nested query on the path exactly when the request has one |
| FilteringMixins.OrChain | src/graphene_elastic/filter_backends/filtering/mixins.py:53-59 | Python's `a or b or …`: the first truthy operand, or the last one when none is truthy |
| FilteringMixins.RangeParamValue | src/graphene_elastic/filter_backends/filtering/mixins.py:42-59 | None for a falsy value, an AttributeError for a truthy non-object, otherwise the first truthy of decimal, float, int, date and datetime |
| FilteringMixins.RangeParams | src/graphene_elastic/filter_backends/filtering/mixins.py:96-110 | `{}` whenever `lower` is not `in` the value (a dict without the key, a string or list without it); a type error exactly for `None`, booleans and integers; an attribute error for a string or list that contains `lower`; a non-empty result exactly for a dict with `lower` |
| FilteringMixins.RangeParamsFields | src/graphene_elastic/filter_backends/filtering/mixins.py:62-110 | with `lower`, exactly `gte`, then `lte` when `upper` is given and `boost` when given; `gte` holds the lower bound's value and `boost` the given boost |
| FilteringMixins.GteLteParams | src/graphene_elastic/filter_backends/filtering/mixins.py:112-161 | `{}` for a falsy value or a falsy bound; otherwise exactly the one bound plus `boost` when the options carry it |
| FilteringMixins.ValueList | src/graphene_elastic/filter_backends/filtering/mixins.py:240-246 | a list is used as is; a string is split on the complex-value separator, piece by piece; anything else has no `split` |
| FilteringMixins.ApplyFilterTerm | src/graphene_elastic/filter_backends/filtering/mixins.py:163-202 | adds exactly one `term` filter over the request's field and values |
| FilteringMixins.ApplyFilterTerms | src/graphene_elastic/filter_backends/filtering/mixins.py:204-255 | adds one `terms` filter over the value list, failing when the value cannot be listed |
| FilteringMixins.ApplyFilterRange | src/graphene_elastic/filter_backends/filtering/mixins.py:257-302 | adds one `range` filter with the computed range parameters, failing when they fail |
| FilteringMixins.ApplyQueryExists | src/graphene_elastic/filter_backends/filtering/mixins.py:304-350 | a true value adds the `exists` query, a false value its negation, any other value leaves the search as it was |
| FilteringMixins.ApplyFilterPrefix | src/graphene_elastic/filter_backends/filtering/mixins.py:352-391 | adds exactly one `prefix` filter |
| FilteringMixins.ApplyQueryWildcard | src/graphene_elastic/filter_backends/filtering/mixins.py:393-432 | adds exactly one `wildcard` query |
| FilteringMixins.ApplyQueryContains | src/graphene_elastic/filter_backends/filtering/mixins.py:434-474 | adds a wildcard query for `*` + `str(value)` + `*`, a list or dict value entering in its `repr` |
| FilteringMixins.ApplyQueryEndsWith | src/graphene_elastic/filter_backends/filtering/mixins.py:476-515 | adds a wildcard query for `*` + `str(value)`, a list or dict value entering in its `repr` |
| PyText.DigitsRoundTrip | src/graphene_elastic/filter_backends/filtering/mixins.py:467 | the decimal digits `format` writes for a number read back as that number |
| PyText.IntToString | src/graphene_elastic/filter_backends/filtering/mixins.py:467 | an integer is written with a leading minus exactly when negative, followed by digits that denote its magnitude |
| PyText.EscapeRoundTrip | src/graphene_elastic/filter_backends/filtering/mixins.py:467 | the escapes `repr` writes inside a string literal read back as the original string, for either quote |
| PyText.EscapeKeepsQuote | src/graphene_elastic/filter_backends/filtering/mixins.py:467 | inside a string literal every occurrence of the delimiting quote comes right after a backslash |
| PyText.StrReprRoundTrip | src/graphene_elastic/filter_backends/filtering/mixins.py:467 | the `repr` of a string is a quoted literal that denotes exactly that string |
| PyText.QuoteOf | src/graphene_elastic/filter_backends/filtering/mixins.py:467 | a string's `repr` uses double quotes exactly when the string has a single quote and no double quote |
| PyText.PyStr | src/graphene_elastic/filter_backends/filtering/mixins.py:467 | `"{}".format(value)` writes a string as itself and any other value as its `repr` |
| PyText.Repr | src/graphene_elastic/filter_backends/filtering/mixins.py:467 | a list's `repr` is bracketed, a dict's braced, a string's its quoted literal and an integer's its digits |
| PyText.ListReprExample | src/graphene_elastic/filter_backends/filtering/mixins.py:467 | `str(['a'])` is `['a']` |
| PyText.DictReprExample | src/graphene_elastic/filter_backends/filtering/mixins.py:467 | `str({'k': 1})` is `{'k': 1}` |
| PyText.QuoteReprExample | src/graphene_elastic/filter_backends/filtering/mixins.py:467 | `repr("it's")` is delimited by double quotes |
| FilteringMixins.TermClauses | src/graphene_elastic/filter_backends/filtering/mixins.py:561-564 | one term clause per value, in order |
| FilteringMixins.NegatedTermClauses | src/graphene_elastic/filter_backends/filtering/mixins.py:892-895 | one negated term clause per value, in order |
| FilteringMixins.CollectTermClauses | src/graphene_elastic/filter_backends/filtering/mixins.py:561-564 | the loop builds exactly the term clauses |
| FilteringMixins.CollectNegatedTermClauses | src/graphene_elastic/filter_backends/filtering/mixins.py:892-895 | the loop builds exactly the negated term clauses |
| FilteringMixins.ApplyQueryIn | src/graphene_elastic/filter_backends/filtering/mixins.py:517-574 | no values leave the search alone; otherwise one query, the disjunction of a term clause per value |
| FilteringMixins.ApplyQueryExclude | src/graphene_elastic/filter_backends/filtering/mixins.py:839-904 | no values leave the search alone; otherwise one query, the conjunction of a negated term clause per value |
| FilteringMixins.ApplyQueryGt | src/graphene_elastic/filter_backends/filtering/mixins.py:576-625 | adds one range filter with the `gt` bound, nested under the field's path when it has one |
| FilteringMixins.ApplyQueryGte | src/graphene_elastic/filter_backends/filtering/mixins.py:627-676 | the same with the `gte` bound |
| FilteringMixins.ApplyQueryLt | src/graphene_elastic/filter_backends/filtering/mixins.py:678-728 | the same with the `lt` bound |
| FilteringMixins.ApplyQueryLte | src/graphene_elastic/filter_backends/filtering/mixins.py:730-787 | as written: the `lt` clause is computed (and may fail) but dropped, and the filter added is a bare `range` with the `lte` bound, never nested |
| FilteringMixins.LteIgnoresPath | src/graphene_elastic/filter_backends/filtering/mixins.py:730-787 | for a field with a nested path, `lte` adds a filter that is not nested, while `lt` adds a nested one |
| FilteringMixins.ApplyQueryLteIntended | src/graphene_elastic/filter_backends/filtering/mixins.py:730-787 | the corrected `lte`: one range filter with the `lte` bound, shaped like its siblings |
| FilteringMixins.LteIntendedAgrees | src/graphene_elastic/filter_backends/filtering/mixins.py:730-787 | the corrected `lte` is nested under the field's path when there is one, and adds exactly what the code as written adds when there is none |
| FilteringMixins.ApplyQueryIsNull | src/graphene_elastic/filter_backends/filtering/mixins.py:789-837 | a true value adds the negated `exists` query, a false value the query itself, any other value nothing |
| FilteringMixins.IsNullIsNegatedExists | src/graphene_elastic/filter_backends/filtering/mixins.py:304-350 | `is_null(v)` computes exactly `exists(not v)` (see also src/graphene_elastic/filter_backends/filtering/mixins.py:789-837) |
| FilteringNested.NestedArgsMapping | src/graphene_elastic/filter_backends/filtering/nested.py:152-154 | an argument maps to itself exactly when it names a nested filter field, and to nothing otherwise |
| FilteringNested.NestedFieldOptions | src/graphene_elastic/filter_backends/filtering/nested.py:103-104 | the options configured for a nested field, `{}` when it has none |
| FilteringNested.SubFieldOptions | src/graphene_elastic/filter_backends/filtering/nested.py:106-107 | the options of one property of a nested field, `{}` when absent |
| FilteringNested.NestedFieldTypeKeys | src/graphene_elastic/filter_backends/filtering/nested.py:109-150 | None without nested filter fields |
| FilteringNested.NoValueKeyWithoutBaseType | src/graphene_elastic/filter_backends/filtering/nested.py:127-136 | without a base type there is no `value` key: every argument key is a lookup the mapping knows |
| FilteringNested.UnlistedSubFieldGetsMappedLookups | src/graphene_elastic/filter_backends/filtering/nested.py:120-136 | a property with no configured lookups gets exactly the lookups the mapping knows |
| FilteringNested.ArgKeysOk | src/graphene_elastic/filter_backends/filtering/nested.py:132-136 | the lookup loop cannot fail on a list of names |
| FilteringNested.NestedQueryFields | src/graphene_elastic/filter_backends/filtering/nested.py:45-101 | nothing without nested filter fields; with them the call reaches a method the base class does not define |
| FilteringNested.NestedFilter | src/graphene_elastic/filter_backends/filtering/nested.py:25-154 | the nested backend filters exactly as the filtering backend does, over the `nested` argument and the nested field names (see also src/graphene_elastic/filter_backends/filtering/common.py:502-636) |
| Ordering.PrepareFrom | src/graphene_elastic/filter_backends/ordering/common.py:57-70 | needs a dict of configured fields whenever there are arguments |
| Ordering.PrepareFromGet | src/graphene_elastic/filter_backends/ordering/common.py:45-70 | an argument naming a configured field is prepared under its resolved field (its string option, else its own name); any other argument is skipped |
| Ordering.OrderingFields | src/graphene_elastic/filter_backends/ordering/common.py:51-53 | a missing or falsy argument prepares nothing; a truthy non-dict fails with AttributeError |
| Ordering.OrderingFieldsGet | src/graphene_elastic/filter_backends/ordering/common.py:45-70 | the prepared fields are exactly the configured arguments, each resolved |
| Ordering.PrepareOrderingFields | src/graphene_elastic/filter_backends/ordering/common.py:45-70 | the loop computes the specified preparation |
| Ordering.ListEntry | src/graphene_elastic/filter_backends/ordering/common.py:101-112 | a leading `-` sorts descending on the rest of the name, anything else ascending on the whole name; a non-string has no `startswith` |
| Ordering.ListEntryRoundTrip | src/graphene_elastic/filter_backends/ordering/common.py:101-112 | the sort entry of an ordering string reads back as that string |
| Ordering.DictEntries | src/graphene_elastic/filter_backends/ordering/common.py:85-99 | one `{field: {order: direction}}` entry per argument, in order, failing with KeyError exactly when an argument was not prepared |
| Ordering.ListEntries | src/graphene_elastic/filter_backends/ordering/common.py:100-112 | one entry per listed name, in order, failing with AttributeError exactly when one is not a string |
| Ordering.Transformed | src/graphene_elastic/filter_backends/ordering/common.py:84-113 | anything but a dict or a list gives no entries |
| Ordering.TransformOrderingParams | src/graphene_elastic/filter_backends/ordering/common.py:73-113 | the loops compute the specified entries |
| Ordering.OrderingQueryParams | src/graphene_elastic/filter_backends/ordering/common.py:226-245 | no entries without a truthy argument; an argument `dict(...)` cannot convert fails with that error, one it converts that is not a dict fails with AttributeError in `prepare_ordering_fields`, and a dict is transformed against the prepared fields or fails as their preparation does |
| Ordering.OrderingPairsFail | src/graphene_elastic/filter_backends/ordering/common.py:51-57 | a list of pairs passes `dict(...)` but fails with AttributeError at `ordering_args.items()` |
| Ordering.OrderingFilter | src/graphene_elastic/filter_backends/ordering/common.py:247-259 | the search is unchanged without an argument; only the sort ever changes, and a changed sort is the computed entries |
| Ordering.OrderingSortsEachArgument | src/graphene_elastic/filter_backends/ordering/common.py:226-259 | for arguments naming configured fields the sort holds one entry per argument, in argument order, on its resolved field with its direction |
| Ordering.OrderingUnknownFieldFails | src/graphene_elastic/filter_backends/ordering/common.py:57-60 | an argument that is not a configured field was skipped when preparing, so transforming it raises KeyError (see also src/graphene_elastic/filter_backends/ordering/common.py:85-87) |
| Ordering.AnyConfigured | src/graphene_elastic/filter_backends/ordering/common.py:359-362 | true exactly when some argument names a configured field |
| Ordering.OrderingParamsPresent | src/graphene_elastic/filter_backends/ordering/common.py:357-362 | the loop with its early exit computes the specified answer |
| Ordering.AllConfigured | src/graphene_elastic/filter_backends/ordering/common.py:386-389 | a false answer is backed by a default that, leading `-` stripped, is not a configured field |
| Ordering.AllConfiguredMeaning | src/graphene_elastic/filter_backends/ordering/common.py:386-389 | on a dict of configured fields and string defaults, true exactly when every default, with leading `-` stripped, names a configured field |
| Ordering.DefaultPrepared | src/graphene_elastic/filter_backends/ordering/common.py:45-53 | the default backend defines no argument mapping, so preparing succeeds (with nothing) exactly when there is no argument |
| Ordering.SortBy | src/graphene_elastic/filter_backends/ordering/common.py:405-408 | a list of entries replaces the sort |
| Ordering.DefaultOrderingFilter | src/graphene_elastic/filter_backends/ordering/common.py:397-410 | only the sort ever changes |
| Ordering.DefaultOrderingQueryParams | src/graphene_elastic/filter_backends/ordering/common.py:349-368 | an argument `dict(...)` cannot convert fails with that error; without a truthy argument the default ordering is returned |
| Ordering.DefaultReadsBucketAsDict | src/graphene_elastic/filter_backends/ordering/common.py:355-368 | a non-empty string argument raises ValueError; a list holding one pair that names a configured field switches the default off, as the dict of that pair does |
| Ordering.DefaultYieldsToExplicit | src/graphene_elastic/filter_backends/ordering/common.py:349-368 | an argument naming a configured field disables the defaults |
| Ordering.DefaultAppliesWithoutArgument | src/graphene_elastic/filter_backends/ordering/common.py:349-395 | without an argument, defaults that all name configured fields become the sort, one entry per default, each reading back as that default |
| Ordering.StringDefaultIsList | src/graphene_elastic/filter_backends/ordering/common.py:378-379 | a single string default behaves as a one-element list |
| Ordering.DefaultOrderingParams | src/graphene_elastic/filter_backends/ordering/common.py:370-395 | `None` defaults stay `None`; without ordering fields the defaults are returned, a string made a one-element list; any other result the defaults do not give is a list; `StringDefaultIsList` and `DefaultKeepsUnconfigured` state the string and unconfigured cases |
| Ordering.DefaultKeepsUnconfigured | src/graphene_elastic/filter_backends/ordering/common.py:383-395 | defaults naming a field that is not configured go to `sort` untransformed |
| Ordering.ExplicitOrderingWins | src/graphene_elastic/filter_backends/ordering/common.py:247-259 | after the ordering backend has sorted on configured fields, the default ordering backend leaves the search as it is (see also src/graphene_elastic/filter_backends/ordering/common.py:397-410) |
| SearchCommon.PreparedEntry | src/graphene_elastic/filter_backends/search/common.py:137-153 | no option or an empty string searches the field itself, a string names the field searched, a dict keeps its options and gets `field` set to its own name when it has none |
| SearchCommon.MutationIsStable | src/graphene_elastic/filter_backends/search/common.py:149-153 | the `field` key written back into a configured dict changes neither what is prepared from it nor itself when written again |
| SearchCommon.SearchFields | src/graphene_elastic/filter_backends/search/common.py:128-155 | a missing or falsy argument prepares nothing; with one, search fields that are not a dict fail with AttributeError |
| SearchCommon.PrepareFromGet | src/graphene_elastic/filter_backends/search/common.py:137-155 | every configured search field is prepared from its own option, and nothing else is touched |
| SearchCommon.PrepareFromOk | src/graphene_elastic/filter_backends/search/common.py:137-155 | preparing cannot fail when every option is None, a string or a dict |
| SearchCommon.MutatedConfig | src/graphene_elastic/filter_backends/search/common.py:149-151 | the configuration after preparing is the same fields, each dict option given its `field` |
| SearchCommon.PrepareAfterMutation | src/graphene_elastic/filter_backends/search/common.py:149-155 | preparing again from the mutated configuration gives the same result |
| SearchCommon.PrepareSearchFields | src/graphene_elastic/filter_backends/search/common.py:128-155 | the loop computes the specified preparation and leaves the configuration mutated as specified (unchanged without an argument) |
| SearchCommon.MatchClause | src/graphene_elastic/filter_backends/search/common.py:258-272 | a dict value without `value` fails with KeyError; the clause queries the dict's `value`, or the plain value (see also src/graphene_elastic/filter_backends/search/query_backends/match.py:50-64) |
| SearchCommon.MergedOptionsGet | src/graphene_elastic/filter_backends/search/common.py:258-270 | the merged options are the field's options without `field`, overridden by the value's options other than `value` |
| SearchCommon.MatchClauseBody | src/graphene_elastic/filter_backends/search/common.py:258-272 | the clause body holds `query` and exactly the merged options |
| SearchCommon.AllClauses | src/graphene_elastic/filter_backends/search/common.py:239-256 | the catch-all argument gives one clause of the backend's kind per search field (see also src/graphene_elastic/filter_backends/search/query_backends/match.py:31-48) |
| SearchCommon.AllClausesPlain | src/graphene_elastic/filter_backends/search/common.py:239-256 | for a plain value each of those clauses is that field's match clause |
| SearchCommon.KeyClauses | src/graphene_elastic/filter_backends/search/common.py:238-272 | one argument gives as many clauses as it names fields: all of them for the catch-all `query`, one for a configured field, none otherwise |
| SearchCommon.ConstructFromShape | src/graphene_elastic/filter_backends/search/common.py:235-274 | the clause count is the total over the arguments, and every clause is of the backend's kind (see also src/graphene_elastic/filter_backends/search/query_backends/match.py:22-66) |
| SearchCommon.UnhandledKeysIgnored | src/graphene_elastic/filter_backends/search/common.py:257-272 | arguments that are neither the catch-all nor configured add no clause |
| SearchCommon.Popped | src/graphene_elastic/filter_backends/search/common.py:248 | constructing pops `value` from every dict argument it handles, in place in the bucket (see also src/graphene_elastic/filter_backends/search/common.py:264) |
| SearchCommon.PoppedPlain | src/graphene_elastic/filter_backends/search/common.py:245-248 | a bucket without dict values is left alone |
| SearchCommon.ConstructKey | src/graphene_elastic/filter_backends/search/common.py:238-272 | the body of the outer loop computes the specified clauses for one argument |
| SearchCommon.ConstructSearch | src/graphene_elastic/filter_backends/search/common.py:235-274 | the loops compute the specified clauses (the catch-all `query` argument expanding over every configured field) and leave the bucket popped as specified |
| SearchCommon.AllQueryParams | src/graphene_elastic/filter_backends/search/common.py:157-161 | the bucket when it is a dict, nothing when it is missing or falsy, an error when it cannot be iterated as one |
| SearchCommon.SearchFilterEffect | src/graphene_elastic/filter_backends/search/common.py:350-368 | no argument leaves the search alone; otherwise either nothing is added or exactly one `bool` query of `should` match clauses |
| SearchCommon.SearchFilter | src/graphene_elastic/filter_backends/search/common.py:350-368 | the search fields are prepared first and their failure is the result; a result changes only the queries, keeping the existing ones and adding at most one; `SearchFilterEffect` states that the one added is a `bool` `should` query over match clauses |
| SearchCommon.PreparedCoversNames | src/graphene_elastic/filter_backends/search/common.py:137-155 | with an argument, every configured search field is prepared, so the catch-all never misses one |
| SearchCommon.SearchArgumentKeys | src/graphene_elastic/filter_backends/search/common.py:46-52 | the search argument has the catch-all key `query` and exactly the filterable configured fields (see also src/graphene_elastic/filter_backends/base.py:140-147) |
| SearchBase.QueryBackends | src/graphene_elastic/filter_backends/search/base.py:34-60 | an overriding `get_query_backends` wins; otherwise the declared backends, and none declared is NotImplementedError |
| SearchBase.SearchQueryParams | src/graphene_elastic/filter_backends/search/base.py:23-32 | the bucket under the prefix, `{}` when absent |
| SearchBase.CombineShape | src/graphene_elastic/filter_backends/search/base.py:78-90 | the corrected combination gives, per backend, one clause per handled field, each of that backend's kind |
| SearchBase.PlainBucketsAgree | src/graphene_elastic/filter_backends/search/base.py:78-90 | without dict values the two combinations coincide |
| SearchBase.CombineAsWritten | src/graphene_elastic/filter_backends/search/base.py:78-90 | the backends run in turn over the same argument dict, each after the previous one has popped `value`; `CombineAsWrittenLosesValue` shows the resulting KeyError and `PlainBucketsAgree` its agreement with `Combine` on plain buckets |
| SearchBase.Combine | src/graphene_elastic/filter_backends/search/base.py:78-90 | each backend reads the arguments as given; `CombineShape` states one clause per handled field for each backend, each of a backend's kind |
| SearchBase.CombineAsWrittenLosesValue | src/graphene_elastic/filter_backends/search/base.py:78-90 | `title: {value: "x"}` with the match and match-phrase-prefix backends fails with KeyError as written, and gives two clauses corrected (see also src/graphene_elastic/filter_backends/search/query_backends/match.py:56) |
| SearchBase.SearchBaseFilter | src/graphene_elastic/filter_backends/search/base.py:62-105 | an unknown matching option is ImproperlyConfigured before anything else; missing backends are NotImplementedError; an empty backend list is ImproperlyConfigured (what one and several backends add is stated by the lemmas below) |
| SearchBase.SingleBackendAlwaysAdds | src/graphene_elastic/filter_backends/search/base.py:92-95 | a single backend always adds exactly one `bool` query with its clauses, even none |
| SearchBase.SeveralBackendsCombine | src/graphene_elastic/filter_backends/search/base.py:78-90 | several backends add one `bool` query over the clauses the code's shared-dict combination yields, nothing when there are none, and fail when that combination fails |
| SearchBase.SeveralBackendsPlain | src/graphene_elastic/filter_backends/search/base.py:78-90 | on a bucket without dict values, several backends add one `bool` query holding, per backend, one clause of its kind per handled key |
| SearchBase.SearchLosesValue | src/graphene_elastic/filter_backends/search/base.py:62-90 | the whole search backend fails with KeyError on `title: {value: "x"}` with the match and match-phrase-prefix backends (see also src/graphene_elastic/filter_backends/search/query_backends/match.py:56) |
| SearchBase.AbsentBucket | src/graphene_elastic/filter_backends/search/base.py:23-32 | with no search argument, one backend adds an empty `bool` query and several add nothing (see also src/graphene_elastic/filter_backends/search/base.py:78-95) |
| SearchBase.CombineEmpty | src/graphene_elastic/filter_backends/search/base.py:78-90 | an empty bucket gives no clauses whatever the backends |
| QueryString.QueryArguments | src/graphene_elastic/filter_backends/search/query_string.py:51-54 | one `String` argument named after the prefix, whatever the document fields are (see also src/graphene_elastic/filter_backends/search/simple_query_string.py:49-52) |
| QueryString.QueryText | src/graphene_elastic/filter_backends/search/query_string.py:56-60 | the query text is the bucket when truthy, and falsy exactly when the bucket is |
| QueryString.PopFields | src/graphene_elastic/filter_backends/search/query_string.py:69-70 | popping `fields` succeeds exactly on a dict of options; a list or a scalar has no `pop(key, default)` |
| QueryString.NoQueryNoClause | src/graphene_elastic/filter_backends/search/query_string.py:62-79 | no query text leaves the search alone (after the options pop) (see also src/graphene_elastic/filter_backends/search/simple_query_string.py:60-77) |
| QueryString.QueryClause | src/graphene_elastic/filter_backends/search/query_string.py:62-79 | with query text, exactly one clause of the backend's kind is added, carrying the text, the popped `fields` (default `[]`) and every other option, with the filters, sort, aggregations, highlight and source unchanged (see also src/graphene_elastic/filter_backends/search/simple_query_string.py:60-77) |
| QueryString.QueryStringFilter | src/graphene_elastic/filter_backends/search/query_string.py:62-79 | options that are not a dict fail at `pop`; a result changes only the queries, adding at most one; `NoQueryNoClause` and `QueryClause` state when a clause is added and what it holds |
| QueryString.QueryOptionClashes | src/graphene_elastic/filter_backends/search/query_string.py:72-77 | an option named `query` clashes with the keyword argument and fails with TypeError |
| Facets.BaseEntry | src/graphene_elastic/filter_backends/faceted_search/common.py:161-167 | normalising an option succeeds exactly for None, a string or a dict, and fails with TypeError otherwise (see also src/graphene_elastic/filter_backends/aggregations/common.py:175-181) |
| Facets.WithDefaultsFields | src/graphene_elastic/filter_backends/faceted_search/common.py:169-182 | the defaults set `enabled` as decided, keep `facet`, `options` and `global` when present and otherwise use `TermsFacet`, `{}` and False (see also src/graphene_elastic/filter_backends/aggregations/common.py:183-196) |
| Facets.BaseEntryFields | src/graphene_elastic/filter_backends/faceted_search/common.py:161-167 | the normalised `field` is the option's own, and every other key is the configured one |
| Facets.NormalisedEntryFields | src/graphene_elastic/filter_backends/faceted_search/common.py:161-182 | a prepared entry has the normalised field, is enabled exactly when configured with `enabled` or requested, and has the defaults for the rest |
| Facets.DefaultedEntryFields | src/graphene_elastic/filter_backends/faceted_search/common.py:169-182 | the same with the enabled flag given |
| Facets.NormalisedEntryShape | src/graphene_elastic/filter_backends/faceted_search/common.py:161-182 | the prepared entry is the normalised option with the defaults applied, enabled by a configured `enabled` key (whatever its value) or a request |
| Facets.NormaliseFromEntries | src/graphene_elastic/filter_backends/faceted_search/common.py:161-184 | a successful normalisation has one prepared entry per configured facet, in configuration order, each the normalised configuration under its own name |
| Facets.PrepareFacets | src/graphene_elastic/filter_backends/faceted_search/common.py:154-184 | no configured facets prepare nothing; a truthy non-dict configuration fails with AttributeError; a dict is normalised entry by entry against the requested names (see also src/graphene_elastic/filter_backends/aggregations/common.py:168-198) |
| Facets.PrepareFacetFields | src/graphene_elastic/filter_backends/faceted_search/common.py:154-184 | the loop computes the specified preparation |
| Facets.MakeFacet | src/graphene_elastic/filter_backends/faceted_search/common.py:234-238 | the facet's aggregation has the configured type and field and no sub-buckets, and records the `global` flag |
| Facets.Included | src/graphene_elastic/filter_backends/faceted_search/common.py:230 | a requested facet is always included; otherwise the `enabled` flag decides (see also src/graphene_elastic/filter_backends/aggregations/common.py:244) |
| Facets.AddFacet | src/graphene_elastic/filter_backends/faceted_search/common.py:231-241 | adding a facet succeeds exactly when it can be built, and files it under its name |
| Facets.ConstructStep | src/graphene_elastic/filter_backends/faceted_search/common.py:229-241 | one step of the loop: kept facets are built and filed, others skipped |
| Facets.ConstructFromKept | src/graphene_elastic/filter_backends/faceted_search/common.py:226-242 | every kept facet appears under its name as built from its entry (see also src/graphene_elastic/filter_backends/aggregations/common.py:240-256) |
| Facets.ConstructFromSkipped | src/graphene_elastic/filter_backends/faceted_search/common.py:226-242 | a facet that is not kept is absent from the result |
| Facets.FacetBucket | src/graphene_elastic/filter_backends/faceted_search/common.py:257-282 | a global facet gets a `global` bucket, any other a `filter` bucket on `match_all`; either holds the aggregation under the inner name (see also src/graphene_elastic/filter_backends/aggregations/common.py:271-296) |
| Facets.AggregateFrom | src/graphene_elastic/filter_backends/faceted_search/common.py:244-284 | aggregating changes only the aggregations of the search |
| Facets.AggregateBuckets | src/graphene_elastic/filter_backends/faceted_search/common.py:255-284 | every facet has its bucket under its name, and other buckets are unchanged |
| Facets.Aggregate | src/graphene_elastic/filter_backends/faceted_search/common.py:244-284 | the loop computes the specified aggregations |
| Facets.ConstructFromDistinct | src/graphene_elastic/filter_backends/faceted_search/common.py:226-242 | the constructed facets have distinct names |
| Facets.FacetSelection | src/graphene_elastic/filter_backends/faceted_search/common.py:154-298 | a configured facet appears exactly when it has an `enabled` key or is requested, under its own name, as a global or `match_all`-filtered bucket holding an aggregation of its facet type on its field under `aggs` (see also src/graphene_elastic/filter_backends/aggregations/common.py:168-312) |
| Facets.FacetFilter | src/graphene_elastic/filter_backends/aggregations/common.py:300-312 | the filter fails exactly when preparing or constructing the facets fails, and otherwise changes only the aggregations; `FacetSelection` states which buckets appear and their shape |
| Facets.SelectedBucket | src/graphene_elastic/filter_backends/faceted_search/common.py:226-298 | after constructing and aggregating, a kept facet's bucket is its built facet and any other name keeps its previous bucket |
| Facets.NormalisedLookup | src/graphene_elastic/filter_backends/faceted_search/common.py:161-184 | each configured name's prepared entry is its normalised configuration |
| Facets.MakeFacetGlobal | src/graphene_elastic/filter_backends/faceted_search/common.py:238 | the built facet keeps the prepared `global` flag |
| Facets.AlterConnection | src/graphene_elastic/filter_backends/faceted_search/common.py:63-76 | the connection's `facets` (or `aggregations`) attribute is the slice's aggregations, `{}` when reading them fails, and nothing else changes (see also src/graphene_elastic/filter_backends/aggregations/common.py:39-52) |
| Highlight.FieldBelongsTo | src/graphene_elastic/filter_backends/highlight/common.py:51-57 | a field belongs to the backend exactly when it is a configured highlight field |
| Highlight.HighlightEntry | src/graphene_elastic/filter_backends/highlight/common.py:142-150 | a configured field whose options are not a dict fails with TypeError; otherwise its entry is a dict |
| Highlight.HighlightEntryFields | src/graphene_elastic/filter_backends/highlight/common.py:142-150 | `enabled` is true exactly when the configuration has an `enabled` key or the field is not requested; `options` defaults to `{}`; every other key is unchanged |
| Highlight.HighlightFromEntries | src/graphene_elastic/filter_backends/highlight/common.py:140-152 | a successful normalisation has one prepared entry per configured field, in configuration order, each the normalised configuration under its own name |
| Highlight.PrepareHighlight | src/graphene_elastic/filter_backends/highlight/common.py:136-152 | no configured fields prepare nothing; a dict configuration is prepared entry by entry against the requested fields |
| Highlight.PrepareHighlightFields | src/graphene_elastic/filter_backends/highlight/common.py:136-152 | the loop computes the specified preparation |
| Highlight.HighlightOne | src/graphene_elastic/filter_backends/highlight/common.py:174 | highlighting a field succeeds exactly when its options are a dict, and records them under the field |
| Highlight.HighlightLoop | src/graphene_elastic/filter_backends/highlight/common.py:172-174 | the loop touches only the highlight part of the search |
| Highlight.HighlightFilter | src/graphene_elastic/filter_backends/highlight/common.py:163-176 | no configured fields leave the search alone |
| Highlight.Filter | src/graphene_elastic/filter_backends/highlight/common.py:163-176 | the loop computes the specified search |
| Highlight.HighlightStep | src/graphene_elastic/filter_backends/highlight/common.py:172-174 | one round of the loop highlights the field when it is requested or enabled, and otherwise passes |
| Highlight.HighlightLoopKept | src/graphene_elastic/filter_backends/highlight/common.py:172-176 | a highlighted field ends with its own options |
| Highlight.HighlightLoopSkipped | src/graphene_elastic/filter_backends/highlight/common.py:172-176 | a field that is not highlighted keeps its previous highlight entry |
| Highlight.RequestedAgree | src/graphene_elastic/filter_backends/highlight/common.py:138 | the two defaults for an absent argument, `[]` and `{}`, agree on every membership test (see also src/graphene_elastic/filter_backends/highlight/common.py:160) |
| Highlight.EveryFieldHighlighted | src/graphene_elastic/filter_backends/highlight/common.py:136-176 | every configured field is highlighted with its own options (or `{}`), whether requested or not |
| Source.PrepareSourceAsWritten | src/graphene_elastic/filter_backends/source/common.py:89-95 | as written: succeeds exactly when `dict()` accepts the configured source, and then prefers a truthy argument |
| Source.PrepareSource | src/graphene_elastic/filter_backends/source/common.py:89-95 | the corrected preparation: a truthy argument wins, else the configured source whatever its form |
| Source.AsWrittenAgreesOnDicts | src/graphene_elastic/filter_backends/source/common.py:89-95 | for a dict configuration the code as written and the corrected one agree |
| Source.ListConfigRejected | src/graphene_elastic/filter_backends/source/common.py:73-95 | the documented list form `["title", "author.*"]` makes `dict()` raise ValueError as written, and is used as is once corrected |
| Source.SourceFilter | src/graphene_elastic/filter_backends/source/common.py:89-108 | fails exactly when `dict()` rejects the configured source; otherwise only the source part of the search changes, to the source the code prepares, and only when that is truthy |
| Source.SourceFilterOnDicts | src/graphene_elastic/filter_backends/source/common.py:89-108 | for a dict configuration the search gets the corrected prepared source when it is truthy and is left alone otherwise |
| Source.NothingToRestrict | src/graphene_elastic/filter_backends/source/common.py:89-108 | no argument and an empty dict, list or string configuration leave the search alone; a falsy configuration `dict()` rejects (`None`, `False`, `0`) is its error |
| Source.SourceEnumMembers | src/graphene_elastic/filter_backends/source/common.py:45-50 | the source argument's members are the node's fields without `_id`, each named after itself, failing when `_id` is missing |
| Source.IndexOf | src/graphene_elastic/filter_backends/source/common.py:49 | the first position of the value, or the length when it is absent |
| Source.RemoveFirst | src/graphene_elastic/filter_backends/source/common.py:49 | `list.remove`: one element fewer, every other value kept, and a failure exactly when the value is absent |
| Source.Pairs | src/graphene_elastic/filter_backends/source/common.py:50 | `zip(keys, keys)`: one pair per key, in order |
| Source.SourceEnumKeys | src/graphene_elastic/filter_backends/source/common.py:45-50 | every node field other than `_id` is a member, and nothing else |
| Score.FieldBelongsTo | src/graphene_elastic/filter_backends/score/common.py:61-67 | only `score` belongs to the backend |
| Score.ScoreFilter | src/graphene_elastic/filter_backends/score/common.py:69-75 | the search is left as it is |
| Score.ScoreKeys | src/graphene_elastic/filter_backends/score/common.py:56-59 | the score field and the document field are the single key `score`, read from `_score` (see also src/graphene_elastic/filter_backends/score/common.py:77-83) |
| Compat.NestedSortEntry | src/graphene_elastic/compat.py:34-52 | before Elasticsearch 6.1 the flat `nested_path` form; from 6.1 on a chain of `nested` levels, one per dotted component of the path |
| Compat.NestedLevelShape | src/graphene_elastic/compat.py:44-52 | every level is an object with a `path`; a level holds a further level under `nested` exactly when it is not the innermost, and its `path` joins the first components with dots |
| Compat.ChainEnds | src/graphene_elastic/compat.py:44-52 | the outermost level's path is the first component and the innermost level's path is the whole path |
| Compat.ChainStep | src/graphene_elastic/compat.py:44-52 | each level's path is its parent's path, a dot and one more component |
| Compat.SingleComponent | src/graphene_elastic/compat.py:42-52 | a path without a dot gives a single level holding the whole path |
| Compat.ThreeComponents | src/graphene_elastic/compat.py:34-52 | `a.b.c` on version 7.0 nests `a`, `a.b` and `a.b.c` |
| Settings.ImportAll | src/graphene_elastic/settings.py:42-43 | the imported list has one entry per item, each the import of that item; the import fails exactly when some item is not a string or its import fails (see also src/graphene_elastic/settings.py:47-64) |
| Settings.PerformImport | src/graphene_elastic/settings.py:33-44 | None stays None, a string is imported, a list is imported item by item keeping its length, and any other value is returned unchanged |
| Settings.ReadSetting | src/graphene_elastic/settings.py:120-135 | an attribute without a default is an AttributeError; user settings that are not a dict are a TypeError; otherwise a user value wins over the default, and the value of an attribute in `import_strings` is passed through `perform_import` |
| Settings.Environment.constructor | src/graphene_elastic/settings.py:67-94 | the environment holds the given variables |
| Settings.Environment.SetSetting | src/graphene_elastic/settings.py:67-78 | a variable already set keeps its value; an unset one takes the new value |
| Settings.Environment.GetSetting | src/graphene_elastic/settings.py:81-94 | a set variable reads as its value, an unset one as the default |
| Settings.SetTwice | src/graphene_elastic/settings.py:67-78 | the first value set for a key wins over every later one |
| Settings.GrapheneSettings.constructor | src/graphene_elastic/settings.py:107-111 | user settings are kept only when truthy; empty defaults or import strings fall back to the module's own; the cache starts empty |
| Settings.GrapheneSettings.UserSettings | src/graphene_elastic/settings.py:113-118 | read from the environment on first use and the same value from then on; the cache is untouched |
| Settings.GrapheneSettings.Read | src/graphene_elastic/settings.py:120-137 | a cached attribute is returned as cached; otherwise the result is the fresh read, cached only when it succeeds |
| Settings.ReadTwice | src/graphene_elastic/settings.py:120-137 | an attribute read successfully once reads the same the second time, whatever the environment then holds |
| Settings.DefaultLimits | src/graphene_elastic/settings.py:16-27 | with no user value the connection maximum is 100 and `first`/`last` are not enforced |
| Settings.UserValueWins | src/graphene_elastic/settings.py:131-133 | a user value for the connection maximum overrides the default |
| Settings.SchemaDefaultsToNone | src/graphene_elastic/settings.py:16-27 | `SCHEMA` defaults to None |
| Settings.MiddlewareUnreadable | src/graphene_elastic/settings.py:16-30 | `MIDDLEWARE` is an import string without a default, so reading it is an AttributeError even when the user sets it (see also src/graphene_elastic/settings.py:125-126) |
| Settings.MiddlewareReadable | src/graphene_elastic/tests/test_settings.py:37-56 | with a default for `MIDDLEWARE`, a user value is imported and the default is an empty list |
| Registry.Registry.constructor | src/graphene_elastic/registry.py:14-16 | a new registry has no types, no converted fields and no rescans |
| Registry.Registry.Register | src/graphene_elastic/registry.py:18-34 | a type that is not an object type or names another registry is an AssertionError and changes nothing; otherwise it is filed under its document, replacing any earlier one, every registered type is rescanned in order, and the document then finds it |
| Registry.Registry.GetTypeForDocument | src/graphene_elastic/registry.py:36-37 | None exactly when nothing is registered for the document, otherwise the registered type |
| Registry.Registry.RegisterConvertedField | src/graphene_elastic/registry.py:39-40 | the field afterwards finds its converted form, every other field keeps what it found, and the types are untouched |
| Registry.Registry.GetConvertedField | src/graphene_elastic/registry.py:42-43 | None exactly when the field was never registered, otherwise its converted form |
| Registry.Reregister | src/graphene_elastic/registry.py:18-37 | of two types registered for one document the later is found |
| Registry.GlobalRegistry.Get | src/graphene_elastic/registry.py:49-53 | with no registry a fresh empty one is made and kept; otherwise the kept one is returned |
| Registry.GlobalRegistry.Reset | src/graphene_elastic/registry.py:56-58 | the kept registry is dropped |
| Registry.SameUntilReset | src/graphene_elastic/registry.py:49-58 | two lookups give the same registry; a lookup after a reset gives a fresh one |
| Utils.SortedDistinct | src/graphene_elastic/utils.py:36 | keys sorted strictly in order are pairwise distinct |
| Utils.Insert | src/graphene_elastic/utils.py:36 | inserting a new key into a sorted dict keeps it sorted and adds exactly that entry |
| Utils.SortByKey | src/graphene_elastic/utils.py:36 | `sorted(fields.items())` is sorted by key and a permutation of the entries |
| Utils.SortByKeyGet | src/graphene_elastic/utils.py:36 | sorting does not change what any key looks up |
| Utils.CollectGet | src/graphene_elastic/utils.py:30-34 | each property not excluded is collected with its field, and an excluded one is not |
| Utils.CollectDistinct | src/graphene_elastic/utils.py:30-34 | collecting keeps the keys distinct |
| Utils.GetDocumentFields | src/graphene_elastic/utils.py:26-36 | the loop computes `DocumentFields` |
| Utils.DocumentFieldsProperties | src/graphene_elastic/utils.py:26-36 | the result is sorted by key and always has `_id`; a property is present exactly when not excluded; `_id` is a keyword unless the document declares it |
| Utils.GetFieldDescription | src/graphene_elastic/utils.py:80-104 | the field's name, or the empty string when it has none |
| Converter.ScalarOf | src/graphene_elastic/converter.py:36-122 | every known field kind has a scalar, and only the unknown kind has none |
| Converter.Convert | src/graphene_elastic/converter.py:36-122 | conversion fails with ConversionError exactly for an unknown kind; otherwise the description is the field's name and `required` is kept |
| Converter.ConvertTable | src/graphene_elastic/converter.py:44-122 | text and keyword give String; the integer kinds give Int; boolean gives Boolean; the float kinds give Float; date gives DateTime; object and nested give JSONString |
| Converter.ConvertDependsOnKind | src/graphene_elastic/converter.py:36-122 | two fields of the same known kind convert to the same scalar |
| Enums.MembersFrom | src/graphene_elastic/enums.py:44-47 | the comprehension keeps the keys distinct |
| Enums.Members | src/graphene_elastic/enums.py:44-47 | the member names are distinct |
| Enums.ConvertListToEnum | src/graphene_elastic/enums.py:35-48 | the enum has the given name and distinct members |
| Enums.MembersFromGet | src/graphene_elastic/enums.py:44-47 | a name takes the value of the last value with that name, or keeps what it had when none has it |
| Enums.LastNamed | src/graphene_elastic/enums.py:44-47 | the index found is a value with that name and no later value has it |
| Enums.MembersGet | src/graphene_elastic/enums.py:44-47 | the member names are exactly the names of the values, each bound to the last value with that name |
| Enums.UpperMembers | src/graphene_elastic/enums.py:44-47 | with `upper` every member is the upper case of a value it is bound to, and values that coincide once upper-cased share the last one |
| Enums.IdentityMembers | src/graphene_elastic/enums.py:44-47 | without `upper` the members are exactly the values, each bound to itself |
| Enums.DocumentedExample | src/graphene_elastic/enums.py:38-42 | `['red', 'green', 'blue']` gives `RED`, `GREEN`, `BLUE` under `DynamicEnum` |
| ElasticTypes.LibraryConversion | src/graphene_elastic/types/elastic_types.py:76-79 | the library's conversion always yields a field, and fails exactly for an unknown field kind (see also src/graphene_elastic/converter.py:36-41) |
| ElasticTypes.Classify | src/graphene_elastic/types/elastic_types.py:44-79 | as written: an unselected or unsupported field is skipped; a field is deferred exactly when it refers to the document (through its doc class without conversion, through a sub-field only once its conversion succeeds); it is kept exactly when it is not a doc-class self-reference and converts to something truthy, with that conversion; a conversion error propagates |
| ElasticTypes.ScanFromErr | src/graphene_elastic/types/elastic_types.py:44-79 | the scan fails exactly when some field's classification fails |
| ElasticTypes.ScanFromFields | src/graphene_elastic/types/elastic_types.py:44-79 | after the scan as written, a key's converted field is its own field's conversion when that field is kept (a sub-field self-reference included), and otherwise what the accumulator had |
| ElasticTypes.ScanFromSelfReferenced | src/graphene_elastic/types/elastic_types.py:58-74 | a key is self-referenced with its own field exactly when that field refers to the document |
| ElasticTypes.ConstructFieldsProperties | src/graphene_elastic/types/elastic_types.py:29-81 | as written: `fields` holds only selected, supported document fields that are not doc-class self-references, each with its conversion; `self_referenced` holds exactly the selected, supported fields referring to the document, with the field itself; a field in both refers to the document through a sub-field |
| ElasticTypes.ConstructFields | src/graphene_elastic/types/elastic_types.py:29-81 | the loop, with its inner sub-field loop and the `continue` that only ends it, computes the scan that `ConstructFieldsProperties` describes |
| ElasticTypes.RefersToDocumentLoop | src/graphene_elastic/types/elastic_types.py:58-74 | the scan over a multi-valued field's sub-fields finds a self-reference exactly when some sub-field has the document's class, and without sub-fields exactly when the doc class is the document |
| ElasticTypes.SelfReferenceConvertedAsWritten | src/graphene_elastic/types/elastic_types.py:58-67 | as written, a multi field `tags` with a sub-field of the document's own class lands in both `fields` and `self_referenced` |
| ElasticTypes.SelfReferenceDeferred | src/graphene_elastic/types/elastic_types.py:58-74 | the corrected scan puts that field into `self_referenced` only |
| ElasticTypes.ClassifyIntended | src/graphene_elastic/types/elastic_types.py:58-74 | the corrected outcome: a selected, supported field referring to the document is deferred without conversion, whichever way it refers; no field is both deferred and kept; a kept field does not refer to the document |
| ElasticTypes.ScanIntendedSeparates | src/graphene_elastic/types/elastic_types.py:58-74 | the corrected scan never puts a field in both `fields` and `self_referenced` |
| ElasticTypes.ScanIntendedAgrees | src/graphene_elastic/types/elastic_types.py:44-79 | where no field refers to the document through a sub-field, the scan as written and the corrected one give the same result |
| ElasticTypes.ConvertFromGet | src/graphene_elastic/types/elastic_types.py:84-92 | each self-referenced field is converted, kept exactly when its conversion is truthy; other keys keep what they had |
| ElasticTypes.ConstructSelfReferencedFields | src/graphene_elastic/types/elastic_types.py:84-92 | the loop computes that conversion |
| ElasticTypes.ConstructBackendFields | src/graphene_elastic/types/elastic_types.py:95-107 | the ordered union of the backends' document fields, a later backend winning |
| ElasticTypes.HighlightAndScoreFields | src/graphene_elastic/types/elastic_types.py:95-107 | the highlight and score backends together add `highlight` and `score`, in that order |
| ElasticTypes.AddMissingGet | src/graphene_elastic/types/elastic_types.py:243-246 | a key already present keeps its field; a missing key takes the newly converted field; nothing else is added |
| ElasticTypes.TypeOptions.constructor | src/graphene_elastic/types/elastic_types.py:199-208 | the options hold the document, `only_fields`, `exclude_fields` and fields given |
| ElasticTypes.TypeOptions.RescanFields | src/graphene_elastic/types/elastic_types.py:229-247 | the document is scanned again with the scan as written; a failure leaves the fields unchanged, and otherwise only keys not yet present are added, so the first scan takes precedence |
| Fields.ConnectionChecks | src/graphene_elastic/fields.py:370-394 | with `enforce_first_or_last` and neither `first` nor `last` truthy, an AssertionError; with a truthy `max_limit`, a truthy `first`/`last` must compare at most it; success exactly when every check passes, and it leaves the arguments as they were |
| Fields.ResolveConnection | src/graphene_elastic/fields.py:337-361 | a connection is returned as it is; the hits of any other result are a Python sequence, so the call fails, with AssertionError on a failed limit check and AttributeError otherwise |
| Fields.ResolveConnectionIntended | src/graphene_elastic/fields.py:337-361 | (corrected) a connection is returned as it is; hits are paged from offset 0 with their total as list length, exactly when the limit checks pass |
| Fields.ResolveHitsFirstPage | src/graphene_elastic/fields.py:347-358 | (corrected) `first=k` over hits whose total is their number gives the first `min(k, N)` hits at offsets from 0, with a next page exactly when hits are left |
| Fields.ConnectionResolver | src/graphene_elastic/fields.py:364-405 | a failing check is the result; otherwise the resolver's outcome is resolved against the pagination arguments |
| Fields.ChainedResolver | src/graphene_elastic/fields.py:329-334 | with arguments and `is_partial` the default resolver answers; otherwise the given resolver's non-None result, and the default resolver when it gives None |
| Fields.FilterChainAppend | src/graphene_elastic/fields.py:276-278 | running two lists of backends in turn is running their concatenation |
| Fields.DefaultPipeline | src/graphene_elastic/fields.py:154-161 | the default backends run search, filtering, ordering and default ordering, in that order (see also src/graphene_elastic/fields.py:276-278) |
| Fields.CustomQuerysetOutcome | src/graphene_elastic/fields.py:268-278 | a custom queryset returning a search bypasses every backend; one returning filters merges them into the arguments, a filter replacing an argument of the same name |
| Fields.GetQueryset | src/graphene_elastic/fields.py:255-284 | the method computes `GetQuerysetSpec`: the custom queryset, if any, then each backend in order |
| Fields.SplitConnectionArgsValues | src/graphene_elastic/fields.py:287-303 | the connection arguments are exactly the six pagination keys, each the caller's value or its default (None, or the settings' limits), and `id` is popped |
| Fields.SplitConnectionArgsRest | src/graphene_elastic/fields.py:287-303 | the remaining arguments are distinct, lack every pagination key and `id`, and keep every other argument |
| Fields.IdBypassesPipeline | src/graphene_elastic/fields.py:303-307 | with an `id` the outcome, as written and as intended, does not depend on the search, the custom queryset, the backends or the engine |
| Fields.ResolverSlice | src/graphene_elastic/fields.py:303-315 | a present `id` gives the one-node list with length 1; without `search` the empty list with length 0; otherwise the search over the hits of `get_queryset` with their count, failing exactly when `get_queryset` fails |
| Fields.ListPathsFail | src/graphene_elastic/fields.py:303-327 | with an `id`, or without `search`, passing the limit checks leads to AttributeError, the list handed to `connection_from_list_slice` having no `to_dict` |
| Fields.IdPageHoldsNode | src/graphene_elastic/fields.py:303-327 | (corrected) with an `id` there is a page exactly when the limit checks pass; it has list length 1, the node as iterable and at most one edge, which carries that node |
| Fields.DefaultResolver | src/graphene_elastic/fields.py:286-327 | the method computes `DefaultResolverSpec`: the one-node list for an `id`, else the search of `get_queryset`, else the empty list, handed to `connection_from_list_slice` |
| Fields.PopConnectionArgs | src/graphene_elastic/fields.py:287-303 | the arguments it pops one by one are the split `SplitConnectionArgs` defines, characterised by `SplitConnectionArgsValues` and `SplitConnectionArgsRest` |
| Fields.PickSlice | src/graphene_elastic/fields.py:305-315 | the slice it picks is the one `ResolverSlice` states: the node of an `id`, the hits of `get_queryset` (or its failure), or the empty list |
| Fields.FieldArgs | src/graphene_elastic/fields.py:214-227 | the loop computes the ordered union of the contributions of the backends with fields |
| Fields.FieldArgsHasKey | src/graphene_elastic/fields.py:214-227 | a key is a field argument exactly when some backend with fields contributes it |
| Fields.FieldArgsNone | src/graphene_elastic/fields.py:214-227 | a key no backend contributes keeps what it had |
| Fields.FieldArgsLast | src/graphene_elastic/fields.py:214-227 | a field argument has the value of the last backend with fields that contributes it |

## Left out

- The Relay cursor codec (`offset_to_cursor`, `cursor_to_offset`) belongs to graphql-relay, which is not part of this model; a cursor is the abstract `Cursor(offset)`, and a cursor string that does not decode, like a `first`/`last` that is not an integer, counts as absent.
- Running a search (`execute`, `count`, `to_dict`) is the engine's business: a search is modelled by the sequence of its hits, slicing and executing it is `SearchSlice` (a negative bound raises ValueError, otherwise the hits a list slice gives), the engine is a parameter, and the debug logging around it is left out.
- Fields.PyLe: `first <= max_limit` is modelled on numbers only, and so is `AsNumber`; Python also orders two strings or two lists, which the model reports as TypeError. The GraphQL schema types `first`, `last` and `max_limit` as integers, so such arguments do not reach the check.
- Fields.ResolveConnectionIntended: the page's `iterable` is the hits; the source sets `connection.iterable` to the whole resolved result.
- FilteringCommon.LeafRequests: a request names its field by the text of the configured field; a field configured as a non-string value goes raw into the query body in the source, where only the engine's serialisation makes text of it.
- Promise and thenable results in `connection_resolver`, and the unwrapping of a `NonNull` connection type, do not change the page and are left out.
- graphene type synthesis (the `Argument`, `InputObjectType` and `Enum` classes the backends build, their class names, `yank_fields_from_attrs` and its creation-counter order, and the `ElasticsearchObjectType` metaclass body) is replaced by maps from argument names to the lookups they accept.
- `get_queryset`'s reference-field hydration runs over an empty `reference_fields` and is left out; `get_node_from_global_id`, the custom `get_queryset` and the backends are parameters.
- `convert_elasticsearch_field` dispatches with `singledispatch` on the field's class; a subclass of a registered field class is not modelled, and every unregistered class is the single `OtherKind`, which fails with ConversionError. Its `registry` argument is unused by every case and is left out.
- The self-reference test `document_type_obj == document or isinstance(document_type_obj, document)` is modelled as equality of class names.
- Field objects are hashed by identity in the registry; a `FieldId` number stands for that identity, and `rescan_fields` on a registered type is recorded as the document name in a log rather than run.
- `set_setting`/`get_setting` store JSON text in the process environment; the model keeps the environment as a map of parsed values and leaves the encoding out. `import_from_string` is the `Importer` parameter, and its error message is left out.
- `get_elasticsearch_version` probes installed packages; the version is a parameter of `nested_sort_entry`.
- `get_field_description` reads a `name` that the field class has; the model gives each field an optional name.
- `Upper` upper-cases ASCII letters only; Python's full Unicode case mapping is not modelled.
- constants.py is not part of this model. The lookup names follow the docstring of src/graphene_elastic/filter_backends/filtering/common.py:389-406; `VALUE` is `"value"`, `ALL` (the search argument that searches every configured field, src/graphene_elastic/filter_backends/search/common.py:52 and :239) is `"query"`, as the docstring examples at src/graphene_elastic/filter_backends/search/common.py:106 and :213 write it (`search:{query:"…"}`), and the true and false values are `'t' 'T' 'true' 'True' 'TRUE' '1' 1 True` and their false counterparts.
- The other constants are likewise not read from constants.py but taken as the library publishes them: the separators `.` (lookup filter), `:` (complex value), `,` (complex multiple value) and `__` (lookup name), the orderings `asc` and `desc`, and the matching options `must` and `should` (the default being `should`).
- FilteringCommon.LookupFor: `lookup_param is VALUE` (src/graphene_elastic/filter_backends/filtering/common.py:478) is an identity test in Python; the model compares the strings, which agrees with Python for the interned argument names GraphQL produces but not for an equal string built at run time.
- PyStr: the `repr` of a string escapes the backslash, the delimiting quote, tab, newline, return and the non-printable characters up to U+00FF; non-printable characters above U+00FF (format characters, line and paragraph separators, unassigned code points), which Python writes as `\u`/`\U` escapes, are kept as they are.
- The `float(...)` coercion of a boost is not modelled; a boost is passed on as the value given.
- `get_field_lookup_param` (src/graphene_elastic/filter_backends/filtering/common.py:312-321) has no caller in the modelled code and is left out.
- `is_valid_elasticsearch_document`, `import_single_dispatch` and the schema lookup `get_type_for_document(schema, document)` in utils.py are outside the model.
- The query-field variants of filtering and nested filtering call `get_backend_query_fields` and `get_backend_default_query_fields_params`, which their base class does not define; a call made with configured query fields is modelled as the AttributeError it raises.
- The range lookups declare a GraphQL `Decimal` scalar but the code reads `.decimal`, `.float`, `.int`, `.date` and `.datetime` from an input object; the model follows the code, so a truthy value that is not such an object is an AttributeError.
- Logging (logging.py and the `logger` calls) is left out.

## Findings

The operations of the model follow the code as written, these discrepancies included. Each corrected member is the proposed fix, with the evidently intended property proved about it.

| source | as written | input that shows it | evidently intended | confidence | as-written member | corrected member |
|---|---|---|---|---|---|---|
| src/graphene_elastic/filter_backends/base.py:35-37 | `arg_name.lstrip("{}_".format(self.prefix))` strips any run of the prefix's characters, not the prefix | prefix `filter`, argument `filter_title` gives `""` instead of `title` | remove the prefix and its underscore once | high, not executed | BackendBase.GetFieldNameAsWrittenLosesName | BackendBase.FieldNameRoundTrip |
| src/graphene_elastic/types/elastic_types.py:58-67 | the `continue` for a self-referencing sub-field only continues the inner loop, so the field is also converted | a multi field `tags` of document `Post` with a sub-field of class `Post` lands in both `fields` and `self_referenced` | a self-referencing field goes into `self_referenced` only, as in the doc-class branch at 68-74 | medium, not executed | ElasticTypes.SelfReferenceConvertedAsWritten | ElasticTypes.ScanIntendedSeparates |
| src/graphene_elastic/filter_backends/search/base.py:78-90, src/graphene_elastic/filter_backends/search/query_backends/match.py:56 | each query backend pops `value` from the same argument dict, so the second backend finds it gone | search `title: {value: "x"}` with the match and match-phrase-prefix backends raises KeyError | each backend reads the arguments as given | medium, not executed | SearchBase.CombineAsWrittenLosesValue | SearchBase.PlainBucketsAgree |
| src/graphene_elastic/filter_backends/source/common.py:89-95 | `dict(self.source_fields)` on the documented list form of the configuration | `source_fields = ["title", "author.*"]` raises ValueError, even when a `source` argument is given | the list form passes through as the default source | medium, not executed | Source.ListConfigRejected | Source.AsWrittenAgreesOnDicts |
| src/graphene_elastic/settings.py:16-30 | `MIDDLEWARE` is an import string without a default, and `__getattr__` rejects every attribute without one | reading `MIDDLEWARE` with a user value set raises AttributeError, while src/graphene_elastic/tests/test_settings.py:37-56 expects the imported value | `MIDDLEWARE` has a default (an empty list) | medium, not executed | Settings.MiddlewareUnreadable | Settings.MiddlewareReadable |
| src/graphene_elastic/filter_backends/filtering/mixins.py:730-787 | `apply_query_lte` builds an `lt` clause with `q_params` and discards it, then filters `range` from kwargs, so a nested field's path is lost | path `comments`, field `comments.views`, `lte: {int: 5}` gives a plain range filter, not one nested in `comments` | filter with `q_params("range", …, {field: lte params})` like `gt`, `gte` and `lt` | high, not executed | FilteringMixins.LteIgnoresPath | FilteringMixins.LteIntendedAgrees |
| src/graphene_elastic/arrayconnection.py:105-111 | the trimmed slice is sent `to_dict()` and `execute()`, which only a search has, while `default_resolver` passes a Python list (src/graphene_elastic/fields.py:306 and :314) and `resolve_connection` the hits of a result (src/graphene_elastic/fields.py:350) | `default_resolver` with an `id` and no limit check failing raises AttributeError instead of returning that node's page | a Python sequence is sliced and paged without a query to render or run | high, not executed | Fields.ListPathsFail | Fields.IdPageHoldsNode |
