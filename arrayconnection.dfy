/** Relay pagination over a slice of a result (`connection_from_list_slice`):
    the limit checks, the offset window, the trimmed and executed search, the
    edge cursors and the page-info flags. A search is carried as the sequence
    of its hits. The cursor codec is abstract: a cursor is the offset it
    encodes. */
module ArrayConnection {
  import opened Wrappers

  function Min(a: int, b: int): int { if a <= b then a else b }
  function Max(a: int, b: int): int { if a >= b then a else b }

  /** An opaque cursor; decoding an encoded offset gives the offset back. */
  datatype Cursor = Cursor(offset: int)

  function OffsetToCursor(offset: int): Cursor { Cursor(offset) }

  function CursorToOffset(c: Cursor): int { c.offset }

  /** `get_offset_with_default`: a missing cursor decodes to the default. */
  function GetOffsetWithDefault(c: Option<Cursor>, default: int): (o: int)
    ensures c.None? ==> o == default
    ensures c.Some? ==> o == CursorToOffset(c.value)
  {
    match c
    case None => default
    case Some(x) => CursorToOffset(x)
  }

  datatype Edge<T> = Edge(node: T, cursor: Cursor)

  datatype PageInfo = PageInfo(
    startCursor: Option<Cursor>,
    endCursor: Option<Cursor>,
    hasPreviousPage: bool,
    hasNextPage: bool)

  datatype Connection<T> = Connection(edges: seq<Edge<T>>, pageInfo: PageInfo)

  /** The keys of `args` the function reads. */
  datatype PageArgs = PageArgs(
    before: Option<Cursor>,
    after: Option<Cursor>,
    first: Option<int>,
    last: Option<int>,
    enforceFirstOrLast: bool,
    maxLimit: Option<int>)

  /** Python truthiness of an optional integer: absent and `0` are false. */
  predicate Given(x: Option<int>) {
    x.Some? && x.value != 0
  }

  /** The `first`/`last` the window is cut with, after the limit checks. */
  datatype Limits = Limits(first: Option<int>, last: Option<int>)

  /** The checks on `enforce_first_or_last` and `max_limit`. A truthy `first`
      or `last` must not exceed the limit and is kept; when both are falsy
      (`0` included) and a limit is set, `first` becomes the limit. */
  function CheckLimits(a: PageArgs): (r: Result<Limits>)
    ensures a.enforceFirstOrLast && !Given(a.first) && !Given(a.last) ==> r == Err(AssertionError)
    ensures Given(a.maxLimit) && Given(a.first) && a.first.value > a.maxLimit.value ==> r.Err?
    ensures Given(a.maxLimit) && Given(a.last) && a.last.value > a.maxLimit.value ==> r.Err?
    ensures r.Err? ==> r.error == AssertionError
    ensures r.Ok? && (Given(a.first) || !Given(a.maxLimit)) ==> r.value.first == a.first
    ensures r.Ok? ==> r.value.last == a.last
    ensures r.Ok? && Given(a.maxLimit) && !Given(a.first) && !Given(a.last) ==>
      r.value.first == a.maxLimit
    ensures r.Ok? <==>
      !(a.enforceFirstOrLast && !Given(a.first) && !Given(a.last)) &&
      (Given(a.maxLimit) ==>
        !(Given(a.first) && a.first.value > a.maxLimit.value) &&
        !(Given(a.last) && a.last.value > a.maxLimit.value))
  {
    if a.enforceFirstOrLast && !(Given(a.first) || Given(a.last)) then Err(AssertionError)
    else if Given(a.maxLimit) then
      var m := a.maxLimit.value;
      if Given(a.first) || Given(a.last) then
        if Given(a.first) && !(a.first.value <= m) then Err(AssertionError)
        else
          var first := if Given(a.first) then Some(Min(a.first.value, m)) else a.first;
          if Given(a.last) && !(a.last.value <= m) then Err(AssertionError)
          else
            var last := if Given(a.last) then Some(Min(a.last.value, m)) else a.last;
            Ok(Limits(first, last))
      else Ok(Limits(Some(m), a.last))
    else Ok(Limits(a.first, a.last))
  }

  /** The half-open offset window `[start, end)` of the page. */
  datatype Window = Window(start: int, end: int)

  function SliceEnd(sliceStart: int, sliceLen: int): int { sliceStart + sliceLen }

  function BeforeOffset(a: PageArgs, listLength: int): int {
    GetOffsetWithDefault(a.before, listLength)
  }

  function AfterOffset(a: PageArgs): int {
    GetOffsetWithDefault(a.after, -1)
  }

  /** The window before `first`/`last` apply: after the `after` cursor and
      the slice start, before the `before` cursor, the slice end and the
      list end. */
  function BaseWindow(a: PageArgs, sliceStart: int, sliceLen: int, listLength: int): (w: Window)
    ensures w.start >= 0
    ensures w.start >= sliceStart && w.start > AfterOffset(a)
    ensures w.end <= SliceEnd(sliceStart, sliceLen) && w.end <= BeforeOffset(a, listLength)
    ensures w.end <= listLength
    ensures w.start == sliceStart || w.start == AfterOffset(a) + 1 || w.start == 0
    ensures w.end == SliceEnd(sliceStart, sliceLen) || w.end == BeforeOffset(a, listLength) ||
      w.end == listLength
  {
    var start := Max(Max(sliceStart - 1, AfterOffset(a)), -1) + 1;
    var end := Min(Min(SliceEnd(sliceStart, sliceLen), BeforeOffset(a, listLength)), listLength);
    Window(start, end)
  }

  /** The window after `first` (which can only pull the end in) and `last`
      (which can only push the start out). */
  function CutWindow(w: Window, lim: Limits): (c: Window)
    ensures lim.first.Some? ==> c.end <= w.start + lim.first.value
    ensures lim.last.Some? ==> c.start >= c.end - lim.last.value
    ensures c.end <= w.end && c.start >= w.start
    ensures lim.first.None? ==> c.end == w.end
    ensures lim.last.None? ==> c.start == w.start
  {
    var end := if lim.first.Some? then Min(w.end, w.start + lim.first.value) else w.end;
    var start := if lim.last.Some? then Max(w.start, end - lim.last.value) else w.start;
    Window(start, end)
  }

  /** A Python slice bound normalised against a length `n`. */
  function PyBound(i: int, n: nat): (b: nat)
    ensures b <= n
    ensures 0 <= i ==> b == Min(i, n)
  {
    if i < 0 then (if n + i < 0 then 0 else n + i) else if i > n then n else i
  }

  /** `s[lo:hi]` on a Python list (negative bounds count from the end). */
  function PySlice<T>(s: seq<T>, lo: int, hi: int): (r: seq<T>)
    ensures |r| <= |s|
    ensures 0 <= lo <= hi ==> r == s[Min(lo, |s|)..Min(hi, |s|)]
  {
    var a := PyBound(lo, |s|);
    var b := PyBound(hi, |s|);
    if a < b then s[a..b] else []
  }

  function SliceLength<T>(listSlice: seq<T>, listSliceLength: Option<int>): int {
    if listSliceLength.None? then |listSlice| else listSliceLength.value
  }

  /** `search[lo:hi]` followed by `execute()`, over the hits the search
      matches. A negative bound raises ValueError; otherwise the query asks
      for `max(0, hi - lo)` hits from offset `lo`, which are the hits a
      list slice with the same bounds would give. */
  function SearchSlice<T>(hits: seq<T>, lo: int, hi: int): (r: Result<seq<T>>)
    ensures r.Err? <==> lo < 0 || hi < 0
    ensures r.Err? ==> r.error == ValueError
    ensures r.Ok? ==> r.value == PySlice(hits, lo, hi)
  {
    if lo < 0 || hi < 0 then Err(ValueError)
    else
      var from, size := lo, Max(hi - lo, 0);
      Ok(hits[Min(from, |hits|)..Min(from + size, |hits|)])
  }

  /** The nodes of the page: the slice trimmed to the window. */
  function PageItems<T>(listSlice: seq<T>, w: Window, sliceStart: int, sliceLen: int): seq<T> {
    PySlice(listSlice, Max(w.start - sliceStart, 0), sliceLen - (SliceEnd(sliceStart, sliceLen) - w.end))
  }

  /** One edge per node; node `i` carries the cursor of offset `start + i`. */
  function Edges<T>(items: seq<T>, start: int): (es: seq<Edge<T>>)
    ensures |es| == |items|
    ensures forall i :: 0 <= i < |es| ==> es[i] == Edge(items[i], OffsetToCursor(start + i))
  {
    seq(|items|, i requires 0 <= i < |items| => Edge(items[i], OffsetToCursor(start + i)))
  }

  function LowerBound(a: PageArgs): int {
    if a.after.Some? then AfterOffset(a) + 1 else 0
  }

  function UpperBound(a: PageArgs, listLength: int): int {
    if a.before.Some? then BeforeOffset(a, listLength) else listLength
  }

  function MakePageInfo<T>(edges: seq<Edge<T>>, a: PageArgs, lim: Limits, w: Window, listLength: int): PageInfo {
    PageInfo(
      if edges != [] then Some(edges[0].cursor) else None,
      if edges != [] then Some(edges[|edges| - 1].cursor) else None,
      lim.last.Some? && w.start > LowerBound(a),
      lim.first.Some? && w.end < UpperBound(a, listLength))
  }

  /** The window a successful call cuts. */
  function PageWindow(a: PageArgs, lim: Limits, sliceStart: int, sliceLen: int, listLength: int): Window {
    CutWindow(BaseWindow(a, sliceStart, sliceLen, listLength), lim)
  }

  /** The connection `connection_from_list_slice` returns for a search
      whose hits are `listSlice`: the assertion of a failed limit check, the
      ValueError of a negative slice stop, or the page. */
  function PageOf<T>(listSlice: seq<T>, a: PageArgs, sliceStart: int, listLength: int,
                     listSliceLength: Option<int>): Result<Connection<T>>
  {
    var lim :- CheckLimits(a);
    SearchPage(listSlice, a, lim, sliceStart, listLength, listSliceLength)
  }

  /** The search page once the limits are checked. */
  function SearchPage<T>(listSlice: seq<T>, a: PageArgs, lim: Limits, sliceStart: int, listLength: int,
                         listSliceLength: Option<int>): Result<Connection<T>>
  {
    var sliceLen := SliceLength(listSlice, listSliceLength);
    var w := PageWindow(a, lim, sliceStart, sliceLen, listLength);
    var items :- SearchSlice(listSlice, Max(w.start - sliceStart, 0), sliceLen - (SliceEnd(sliceStart, sliceLen) - w.end));
    Ok(PageFrom(items, a, lim, w, listLength))
  }

  /** The connection of the page's items. */
  function PageFrom<T>(items: seq<T>, a: PageArgs, lim: Limits, w: Window, listLength: int): Connection<T> {
    var edges := Edges(items, w.start);
    Connection(edges, MakePageInfo(edges, a, lim, w, listLength))
  }

  /** The page cut from a Python list of nodes by plain list slicing, with
      no query to render or run. */
  function ListPageOf<T>(nodes: seq<T>, a: PageArgs, sliceStart: int, listLength: int,
                         listSliceLength: Option<int>): Result<Connection<T>>
  {
    var lim :- CheckLimits(a);
    var sliceLen := SliceLength(nodes, listSliceLength);
    var w := PageWindow(a, lim, sliceStart, sliceLen, listLength);
    Ok(PageFrom(PageItems(nodes, w, sliceStart, sliceLen), a, lim, w, listLength))
  }

  /** What `list_slice` is: a search over the hits it matches, or a Python
      sequence of nodes (a list, or the `hits` of a response), which has
      neither `to_dict` nor `execute`. */
  datatype Sliceable<T> = SearchOf(hits: seq<T>) | ListOf(nodes: seq<T>)
  {
    function Nodes(): seq<T> {
      match this
      case SearchOf(hits) => hits
      case ListOf(nodes) => nodes
    }
  }

  /** `connection_from_list_slice(list_slice, args, ...)`. A search is sliced
      and executed; a Python sequence slices, but its slice has no
      `to_dict`, so once the limit checks pass the call fails with
      AttributeError. */
  function ConnectionOf<T>(s: Sliceable<T>, a: PageArgs, sliceStart: int, listLength: int,
                           listSliceLength: Option<int>): (r: Result<Connection<T>>)
    ensures CheckLimits(a).Err? ==> r == Err(AssertionError)
    ensures s.ListOf? ==> r.Err?
    ensures s.ListOf? && CheckLimits(a).Ok? ==> r == Err(AttributeError)
    ensures s.SearchOf? ==> r == PageOf(s.hits, a, sliceStart, listLength, listSliceLength)
  {
    match s
    case SearchOf(hits) => PageOf(hits, a, sliceStart, listLength, listSliceLength)
    case ListOf(nodes) =>
      var _ :- CheckLimits(a);
      Err(AttributeError)
  }

  /** `connection_from_list_slice` as evidently intended: a Python sequence
      is paged by list slicing. */
  function ConnectionIntended<T>(s: Sliceable<T>, a: PageArgs, sliceStart: int, listLength: int,
                                 listSliceLength: Option<int>): (r: Result<Connection<T>>)
    ensures CheckLimits(a).Err? ==> r == Err(AssertionError)
    ensures s.ListOf? ==> (r.Ok? <==> CheckLimits(a).Ok?)
  {
    match s
    case SearchOf(hits) => PageOf(hits, a, sliceStart, listLength, listSliceLength)
    case ListOf(nodes) => ListPageOf(nodes, a, sliceStart, listLength, listSliceLength)
  }

  /** The intended version only turns failures into pages: wherever the
      code as written gives a page, both give the same one. */
  lemma ConnectionIntendedAgrees<T>(s: Sliceable<T>, a: PageArgs, sliceStart: int, listLength: int,
                                    listSliceLength: Option<int>)
    ensures ConnectionOf(s, a, sliceStart, listLength, listSliceLength).Ok? ==>
      ConnectionIntended(s, a, sliceStart, listLength, listSliceLength) == ConnectionOf(s, a, sliceStart, listLength, listSliceLength)
    ensures s.ListOf? && CheckLimits(a).Ok? ==>
      ConnectionOf(s, a, sliceStart, listLength, listSliceLength) == Err(AttributeError) &&
      ConnectionIntended(s, a, sliceStart, listLength, listSliceLength).Ok?
  {
  }

  /** A search page fails exactly when a limit check fails (AssertionError)
      or the window ends before the slice starts, which makes the slice
      stop negative (ValueError). Otherwise it is the page a list slice
      gives. */
  lemma {:induction false} PageOfOutcome<T>(listSlice: seq<T>, a: PageArgs, sliceStart: int, listLength: int,
                                            listSliceLength: Option<int>)
    ensures var r := PageOf(listSlice, a, sliceStart, listLength, listSliceLength);
      && (r.Err? <==>
            (CheckLimits(a).Err? ||
             PageWindow(a, CheckLimits(a).value, sliceStart, SliceLength(listSlice, listSliceLength), listLength).end < sliceStart))
      && (r.Err? ==> r.error == (if CheckLimits(a).Err? then AssertionError else ValueError))
      && (r.Ok? ==> r == ListPageOf(listSlice, a, sliceStart, listLength, listSliceLength))
  {
    if CheckLimits(a).Ok? {
      PageOfWindow(listSlice, a, CheckLimits(a).value, sliceStart, listLength, listSliceLength);
    }
  }

  /** A negative `first` over a search: the window ends before offset 0, so
      slicing the search raises ValueError where a list would give all but
      the last five nodes. */
  lemma NegativeFirstRejected()
    ensures var a := PageArgs(None, None, Some(-5), None, false, None);
      var hits := seq(20, i => i);
      PageOf(hits, a, 0, 20, Some(20)) == Err(ValueError) &&
      ListPageOf(hits, a, 0, 20, Some(20)).Ok? &&
      |ListPageOf(hits, a, 0, 20, Some(20)).value.edges| == 15
  {
    var a := PageArgs(None, None, Some(-5), None, false, None);
    var hits := seq(20, i => i);
    var lim := Limits(Some(-5), None);
    assert CheckLimits(a) == Ok(lim);
    assert PageWindow(a, lim, 0, 20, 20) == Window(0, -5);
    assert PageItems(hits, Window(0, -5), 0, 20) == hits[0..15];
  }

  /** Sane arguments never slice a search negatively: the page fails only
      on a limit check. */
  lemma SaneArgsSliceSearch<T>(listSlice: seq<T>, a: PageArgs, sliceStart: int, listLength: int,
                               listSliceLength: Option<int>)
    requires SaneArgs(a, sliceStart, SliceLength(listSlice, listSliceLength), listLength)
    ensures PageOf(listSlice, a, sliceStart, listLength, listSliceLength).Ok? <==> CheckLimits(a).Ok?
  {
    if CheckLimits(a).Ok? {
      WindowEndInSlice(a, CheckLimits(a).value, sliceStart, SliceLength(listSlice, listSliceLength), listLength);
      PageOfOutcome(listSlice, a, sliceStart, listLength, listSliceLength);
    }
  }

  /** Arguments as the Relay specification expects them: non-negative
      counts and limit, a `before` cursor not ahead of the slice, and a list
      no shorter than the slice start. */
  predicate SaneArgs(a: PageArgs, sliceStart: int, sliceLen: int, listLength: int) {
    (a.first.Some? ==> a.first.value >= 0) &&
    (a.last.Some? ==> a.last.value >= 0) &&
    (a.maxLimit.Some? ==> a.maxLimit.value >= 0) &&
    (a.before.Some? ==> CursorToOffset(a.before.value) >= sliceStart) &&
    sliceLen >= 0 && listLength >= sliceStart
  }

  /** The page's items are the slice entries of the window, in order: as
      many as the window holds, cut short only where the slice itself ends. */
  lemma {:induction false} PageItemsExact<T>(listSlice: seq<T>, w: Window, sliceStart: int, sliceLen: int)
    requires w.start >= sliceStart && w.end >= sliceStart
    ensures var items := PageItems(listSlice, w, sliceStart, sliceLen);
      |items| == Max(Min(w.end, sliceStart + |listSlice|) - w.start, 0) &&
      |items| <= Max(w.end - w.start, 0) &&
      (|items| > 0 ==> w.start - sliceStart + |items| <= |listSlice|) &&
      forall i :: 0 <= i < |items| ==> items[i] == listSlice[w.start - sliceStart + i]
  {
    var lo, hi := w.start - sliceStart, w.end - sliceStart;
    assert Max(w.start - sliceStart, 0) == lo;
    assert sliceLen - (SliceEnd(sliceStart, sliceLen) - w.end) == hi;
    var n := |listSlice|;
    assert PyBound(lo, n) == Min(lo, n) && PyBound(hi, n) == Min(hi, n);
  }

  /** Under sane arguments the cut window never ends before the slice start. */
  lemma WindowEndInSlice(a: PageArgs, lim: Limits, sliceStart: int, sliceLen: int, listLength: int)
    requires SaneArgs(a, sliceStart, sliceLen, listLength)
    requires CheckLimits(a) == Ok(lim)
    ensures PageWindow(a, lim, sliceStart, sliceLen, listLength).end >= sliceStart
    ensures PageWindow(a, lim, sliceStart, sliceLen, listLength).start >= sliceStart
  {
    var base := BaseWindow(a, sliceStart, sliceLen, listLength);
    assert base.end >= sliceStart;
    assert lim.first.Some? ==> lim.first.value >= 0;
  }

  /** The cut window lies after the `after` cursor, before the `before`
      cursor, inside the list and the slice, and is no wider than `first`
      or `last`. */
  lemma PageWindowBounds(a: PageArgs, lim: Limits, sliceStart: int, sliceLen: int, listLength: int)
    requires SaneArgs(a, sliceStart, sliceLen, listLength)
    requires CheckLimits(a) == Ok(lim)
    ensures var w := PageWindow(a, lim, sliceStart, sliceLen, listLength);
      && w.start >= sliceStart && w.start >= 0 && w.start > AfterOffset(a) && w.end >= sliceStart
      && w.end <= SliceEnd(sliceStart, sliceLen) && w.end <= BeforeOffset(a, listLength) && w.end <= listLength
      && (lim.first.Some? ==> Max(w.end - w.start, 0) <= lim.first.value)
      && (lim.last.Some? ==> Max(w.end - w.start, 0) <= lim.last.value)
  {
    WindowEndInSlice(a, lim, sliceStart, sliceLen, listLength);
  }

  /** The Relay page guarantees on placement: every edge lies strictly
      after the `after` cursor and strictly before the `before` cursor,
      inside the list and the slice; edge `i` is node `start - sliceStart + i`
      of the slice with the cursor of offset `start + i`. */
  lemma {:induction false} PageWithinCursors<T>(listSlice: seq<T>, a: PageArgs, sliceStart: int,
                                                listLength: int, listSliceLength: Option<int>)
    requires SaneArgs(a, sliceStart, SliceLength(listSlice, listSliceLength), listLength)
    requires PageOf(listSlice, a, sliceStart, listLength, listSliceLength).Ok?
    ensures var sliceLen := SliceLength(listSlice, listSliceLength);
      var w := PageWindow(a, CheckLimits(a).value, sliceStart, sliceLen, listLength);
      Placed(PageOf(listSlice, a, sliceStart, listLength, listSliceLength).value.edges,
             listSlice, w, sliceStart, sliceLen, AfterOffset(a), BeforeOffset(a, listLength), listLength)
  {
    var lim := CheckLimits(a).value;
    var sliceLen := SliceLength(listSlice, listSliceLength);
    var w := PageWindow(a, lim, sliceStart, sliceLen, listLength);
    var edges := PageOf(listSlice, a, sliceStart, listLength, listSliceLength).value.edges;
    assert edges == Edges(PageItems(listSlice, w, sliceStart, sliceLen), w.start) by {
      PageEdges(listSlice, a, sliceStart, listLength, listSliceLength);
    }
    PageWindowBounds(a, lim, sliceStart, sliceLen, listLength);
    WindowPlacement(listSlice, w, sliceStart, sliceLen, AfterOffset(a), BeforeOffset(a, listLength), listLength);
  }

  /** Placement for any window between the bounds `lo` and `hi`. */
  lemma WindowPlacement<T>(listSlice: seq<T>, w: Window, sliceStart: int, sliceLen: int, lo: int, hi: int, listLength: int)
    requires w.start >= sliceStart && w.start >= 0 && w.start > lo && w.end >= sliceStart
    requires w.end <= SliceEnd(sliceStart, sliceLen) && w.end <= hi && w.end <= listLength
    ensures Placed(Edges(PageItems(listSlice, w, sliceStart, sliceLen), w.start), listSlice, w, sliceStart, sliceLen, lo, hi, listLength)
  {
    EdgesOfWindow(listSlice, w, sliceStart, sliceLen);
  }

  /** Edge `i` has the cursor of offset `w.start + i`, strictly between `lo`
      and `hi`, inside the list and the slice, and carries slice entry
      `w.start - sliceStart + i`. */
  ghost predicate Placed<T>(edges: seq<Edge<T>>, listSlice: seq<T>, w: Window, sliceStart: int, sliceLen: int,
                      lo: int, hi: int, listLength: int) {
    forall i :: 0 <= i < |edges| ==>
      var o := CursorToOffset(edges[i].cursor);
      o == w.start + i &&
      lo < o < hi &&
      0 <= o < listLength &&
      sliceStart <= o < SliceEnd(sliceStart, sliceLen) &&
      0 <= w.start - sliceStart + i < |listSlice| &&
      edges[i].node == listSlice[w.start - sliceStart + i]
  }

  /** The Relay page guarantees on size: the page holds at most `first`
      and at most `last` edges. */
  lemma PageWithinLimits<T>(listSlice: seq<T>, a: PageArgs, sliceStart: int,
                            listLength: int, listSliceLength: Option<int>)
    requires SaneArgs(a, sliceStart, SliceLength(listSlice, listSliceLength), listLength)
    requires PageOf(listSlice, a, sliceStart, listLength, listSliceLength).Ok?
    ensures var lim := CheckLimits(a).value;
      var edges := PageOf(listSlice, a, sliceStart, listLength, listSliceLength).value.edges;
      (lim.first.Some? ==> |edges| <= lim.first.value) &&
      (lim.last.Some? ==> |edges| <= lim.last.value)
  {
    var lim := CheckLimits(a).value;
    var sliceLen := SliceLength(listSlice, listSliceLength);
    var w := PageWindow(a, lim, sliceStart, sliceLen, listLength);
    PageEdges(listSlice, a, sliceStart, listLength, listSliceLength);
    PageWindowBounds(a, lim, sliceStart, sliceLen, listLength);
    EdgesOfWindow(listSlice, w, sliceStart, sliceLen);
  }

  /** The Relay page guarantee on size in full: when the slice holds as
      many nodes as it claims, the page holds every node of its window. */
  lemma PageHoldsWindow<T>(listSlice: seq<T>, a: PageArgs, sliceStart: int,
                           listLength: int, listSliceLength: Option<int>)
    requires SaneArgs(a, sliceStart, SliceLength(listSlice, listSliceLength), listLength)
    requires SliceLength(listSlice, listSliceLength) == |listSlice|
    requires PageOf(listSlice, a, sliceStart, listLength, listSliceLength).Ok?
    ensures var w := PageWindow(a, CheckLimits(a).value, sliceStart, |listSlice|, listLength);
      |PageOf(listSlice, a, sliceStart, listLength, listSliceLength).value.edges| == Max(w.end - w.start, 0)
  {
    var lim := CheckLimits(a).value;
    var w := PageWindow(a, lim, sliceStart, |listSlice|, listLength);
    PageEdges(listSlice, a, sliceStart, listLength, listSliceLength);
    PageWindowBounds(a, lim, sliceStart, |listSlice|, listLength);
    PageItemsExact(listSlice, w, sliceStart, |listSlice|);
  }

  /** The first `k` hits of a search, all of them in the slice: `min(k, N)`
      edges, hit `i` at offset `i`, a next page exactly when hits are left
      over, and no previous page. */
  lemma {:induction false} FirstPageOfList<T>(nodes: seq<T>, k: int)
    requires k >= 0
    ensures var a := PageArgs(None, None, Some(k), None, false, None);
      var r := PageOf(nodes, a, 0, |nodes|, None);
      r.Ok? &&
      |r.value.edges| == Min(k, |nodes|) &&
      (forall i :: 0 <= i < |r.value.edges| ==> r.value.edges[i] == Edge(nodes[i], OffsetToCursor(i))) &&
      (r.value.pageInfo.hasNextPage <==> k < |nodes|) &&
      !r.value.pageInfo.hasPreviousPage
  {
    var a := PageArgs(None, None, Some(k), None, false, None);
    var lim := Limits(Some(k), None);
    assert CheckLimits(a) == Ok(lim);
    var w := PageWindow(a, lim, 0, |nodes|, |nodes|);
    assert w == Window(0, Min(|nodes|, k));
    PageOfWindow(nodes, a, lim, 0, |nodes|, None);
    PageItemsExact(nodes, w, 0, |nodes|);
  }

  /** The last `k` hits of a search, all of them in the slice: `min(k, N)`
      edges ending at the last hit, a previous page exactly when hits are
      left over, and no next page. */
  lemma {:induction false} LastPageOfList<T>(nodes: seq<T>, k: int)
    requires k >= 0
    ensures var a := PageArgs(None, None, None, Some(k), false, None);
      var r := PageOf(nodes, a, 0, |nodes|, None);
      var from := |nodes| - Min(k, |nodes|);
      r.Ok? &&
      |r.value.edges| == Min(k, |nodes|) &&
      (forall i :: 0 <= i < |r.value.edges| ==> r.value.edges[i] == Edge(nodes[from + i], OffsetToCursor(from + i))) &&
      (r.value.pageInfo.hasPreviousPage <==> k < |nodes|) &&
      !r.value.pageInfo.hasNextPage
  {
    var a := PageArgs(None, None, None, Some(k), false, None);
    var lim := Limits(None, Some(k));
    assert CheckLimits(a) == Ok(lim);
    var w := PageWindow(a, lim, 0, |nodes|, |nodes|);
    assert w == Window(|nodes| - Min(k, |nodes|), |nodes|);
    PageOfWindow(nodes, a, lim, 0, |nodes|, None);
    PageItemsExact(nodes, w, 0, |nodes|);
  }

  /** The edges of a page are those of its window's items. */
  lemma PageEdges<T>(listSlice: seq<T>, a: PageArgs, sliceStart: int, listLength: int, listSliceLength: Option<int>)
    requires PageOf(listSlice, a, sliceStart, listLength, listSliceLength).Ok?
    ensures CheckLimits(a).Ok?
    ensures var sliceLen := SliceLength(listSlice, listSliceLength);
      var w := PageWindow(a, CheckLimits(a).value, sliceStart, sliceLen, listLength);
      PageOf(listSlice, a, sliceStart, listLength, listSliceLength).value.edges ==
        Edges(PageItems(listSlice, w, sliceStart, sliceLen), w.start)
  {
    PageOfWindow(listSlice, a, CheckLimits(a).value, sliceStart, listLength, listSliceLength);
  }

  /** The edges cut from a window: no more than its width, edge `i` at
      offset `start + i` inside it, carrying slice entry `start - sliceStart + i`. */
  lemma EdgesOfWindow<T>(listSlice: seq<T>, w: Window, sliceStart: int, sliceLen: int)
    requires w.start >= sliceStart && w.end >= sliceStart
    ensures var edges := Edges(PageItems(listSlice, w, sliceStart, sliceLen), w.start);
      |edges| <= Max(w.end - w.start, 0) &&
      forall i :: 0 <= i < |edges| ==>
        CursorToOffset(edges[i].cursor) == w.start + i && w.start + i < w.end &&
        0 <= w.start - sliceStart + i < |listSlice| && edges[i].node == listSlice[w.start - sliceStart + i]
  {
    PageItemsExact(listSlice, w, sliceStart, sliceLen);
  }

  /** Start and end cursors are those of the first and last edge, or absent
      on an empty page; the flags follow the `after`/`before` bounds. */
  lemma PageInfoOfEdges<T>(listSlice: seq<T>, a: PageArgs, sliceStart: int, listLength: int,
                           listSliceLength: Option<int>)
    requires PageOf(listSlice, a, sliceStart, listLength, listSliceLength).Ok?
    ensures var c := PageOf(listSlice, a, sliceStart, listLength, listSliceLength).value;
      var lim := CheckLimits(a).value;
      var w := PageWindow(a, lim, sliceStart, SliceLength(listSlice, listSliceLength), listLength);
      (c.edges == [] <==> c.pageInfo.startCursor.None?) &&
      (c.edges == [] <==> c.pageInfo.endCursor.None?) &&
      (c.edges != [] ==> c.pageInfo.startCursor == Some(OffsetToCursor(w.start)) &&
                         c.pageInfo.endCursor == Some(OffsetToCursor(w.start + |c.edges| - 1))) &&
      (c.pageInfo.hasPreviousPage <==> lim.last.Some? && w.start > LowerBound(a)) &&
      (c.pageInfo.hasNextPage <==> lim.first.Some? && w.end < UpperBound(a, listLength))
  {
    PageOfWindow(listSlice, a, CheckLimits(a).value, sliceStart, listLength, listSliceLength);
  }

  /** `first = 0` counts as "not given": with a limit set, the page is cut
      with the limit instead, so five nodes give five edges, not none. */
  lemma FirstZeroUsesLimit()
    ensures var a := PageArgs(None, None, Some(0), None, false, Some(100));
      PageOf([1, 2, 3, 4, 5], a, 0, 5, Some(5)).Ok? &&
      |PageOf([1, 2, 3, 4, 5], a, 0, 5, Some(5)).value.edges| == 5
  {
    var a := PageArgs(None, None, Some(0), None, false, Some(100));
    assert CheckLimits(a) == Ok(Limits(Some(100), None));
    assert PageWindow(a, Limits(Some(100), None), 0, 5, 5) == Window(0, 5);
    assert PageItems([1, 2, 3, 4, 5], Window(0, 5), 0, 5) == [1, 2, 3, 4, 5];
  }

  /** The caller's `args` dict, which the function writes `first`/`last` back into. */
  class ConnectionArgs {
    var before: Option<Cursor>
    var after: Option<Cursor>
    var first: Option<int>
    var last: Option<int>
    var enforceFirstOrLast: bool
    var maxLimit: Option<int>

    function Snapshot(): PageArgs
      reads this
    {
      PageArgs(before, after, first, last, enforceFirstOrLast, maxLimit)
    }

    constructor (a: PageArgs)
      ensures Snapshot() == a
    {
      before, after, first, last := a.before, a.after, a.first, a.last;
      enforceFirstOrLast, maxLimit := a.enforceFirstOrLast, a.maxLimit;
    }
  }

  /** The limit checks of `connection_from_list_slice`, writing the clamped
      `first`/`last` back into `args`. The clamped values equal the values
      already there, so `args` keeps its contents. */
  method ApplyLimits(args: ConnectionArgs) returns (r: Result<Limits>)
    modifies args
    ensures r == CheckLimits(old(args.Snapshot()))
    ensures args.Snapshot() == old(args.Snapshot())
  {
    var first, last := args.first, args.last;
    var enforce, maxLimit := args.enforceFirstOrLast, args.maxLimit;
    if enforce && !(Given(first) || Given(last)) {
      return Err(AssertionError);
    }
    if Given(maxLimit) {
      var m := maxLimit.value;
      if Given(first) || Given(last) {
        if Given(first) {
          if !(first.value <= m) {
            return Err(AssertionError);
          }
          first := Some(Min(first.value, m));
          args.first := first;
        }
        if Given(last) {
          if !(last.value <= m) {
            return Err(AssertionError);
          }
          last := Some(Min(last.value, m));
          args.last := last;
        }
      } else {
        first := maxLimit;
      }
    }
    return Ok(Limits(first, last));
  }

  /** The offset arithmetic, reassigning the start and end step by step. */
  method ComputeWindow(a: PageArgs, lim: Limits, sliceStart: int, sliceLen: int, listLength: int)
    returns (startOffset: int, endOffset: int)
    ensures Window(startOffset, endOffset) == PageWindow(a, lim, sliceStart, sliceLen, listLength)
  {
    var sliceEnd := sliceStart + sliceLen;
    var beforeOffset := GetOffsetWithDefault(a.before, listLength);
    var afterOffset := GetOffsetWithDefault(a.after, -1);
    startOffset := Max(Max(sliceStart - 1, afterOffset), -1) + 1;
    endOffset := Min(Min(sliceEnd, beforeOffset), listLength);
    if lim.first.Some? {
      endOffset := Min(endOffset, startOffset + lim.first.value);
    }
    if lim.last.Some? {
      startOffset := Max(startOffset, endOffset - lim.last.value);
    }
  }

  /** The edge list comprehension. */
  method BuildEdges<T>(items: seq<T>, startOffset: int) returns (edges: seq<Edge<T>>)
    ensures edges == Edges(items, startOffset)
  {
    edges := [];
    var i := 0;
    while i < |items|
      invariant 0 <= i <= |items|
      invariant |edges| == i
      invariant forall j :: 0 <= j < i ==> edges[j] == Edge(items[j], OffsetToCursor(startOffset + j))
    {
      edges := edges + [Edge(items[i], OffsetToCursor(startOffset + i))];
      i := i + 1;
    }
  }

  /** A search page once the limits are checked: the ValueError of a
      negative stop, or the connection of the window's items. */
  lemma SearchPageOfWindow<T>(listSlice: seq<T>, a: PageArgs, lim: Limits, sliceStart: int, listLength: int,
                              listSliceLength: Option<int>)
    ensures var sliceLen := SliceLength(listSlice, listSliceLength);
      var w := PageWindow(a, lim, sliceStart, sliceLen, listLength);
      SearchPage(listSlice, a, lim, sliceStart, listLength, listSliceLength) ==
        if w.end < sliceStart then Err(ValueError)
        else Ok(PageFrom(PageItems(listSlice, w, sliceStart, sliceLen), a, lim, w, listLength))
  {
    var sliceLen := SliceLength(listSlice, listSliceLength);
    var w := PageWindow(a, lim, sliceStart, sliceLen, listLength);
    var sliced := SearchSlice(listSlice, Max(w.start - sliceStart, 0), sliceLen - (SliceEnd(sliceStart, sliceLen) - w.end));
    assert sliced.Err? <==> w.end < sliceStart;
  }

  /** `PageOf` once the limits are checked: the ValueError of a negative
      stop, or the page a list slice gives. */
  lemma PageOfWindow<T>(listSlice: seq<T>, a: PageArgs, lim: Limits, sliceStart: int, listLength: int,
                        listSliceLength: Option<int>)
    requires CheckLimits(a) == Ok(lim)
    ensures var sliceLen := SliceLength(listSlice, listSliceLength);
      var w := PageWindow(a, lim, sliceStart, sliceLen, listLength);
      var page := PageFrom(PageItems(listSlice, w, sliceStart, sliceLen), a, lim, w, listLength);
      && PageOf(listSlice, a, sliceStart, listLength, listSliceLength) ==
           (if w.end < sliceStart then Err(ValueError) else Ok(page))
      && ListPageOf(listSlice, a, sliceStart, listLength, listSliceLength) == Ok(page)
  {
    SearchPageOfWindow(listSlice, a, lim, sliceStart, listLength, listSliceLength);
  }

  /** `connection_from_list_slice`, writing the clamped limits back into
      `args`. */
  method ConnectionFromListSlice<T>(listSlice: Sliceable<T>, args: ConnectionArgs, sliceStart: int,
                                    listLength: int, listSliceLength: Option<int>)
    returns (r: Result<Connection<T>>)
    modifies args
    ensures r == ConnectionOf(listSlice, old(args.Snapshot()), sliceStart, listLength, listSliceLength)
    ensures args.Snapshot() == old(args.Snapshot())
  {
    var a := args.Snapshot();
    var checked := ApplyLimits(args);
    if checked.Err? {
      return Err(checked.error);
    }
    if listSlice.ListOf? {
      // the trimmed list has no `to_dict`
      return Err(AttributeError);
    }
    r := BuildPage(listSlice.hits, a, checked.value, sliceStart, listLength, listSliceLength);
  }

  /** The part of `connection_from_list_slice` after the limits are
      checked, for a search: the window, then the sliced and executed search. */
  method BuildPage<T>(hits: seq<T>, a: PageArgs, lim: Limits, sliceStart: int,
                      listLength: int, listSliceLength: Option<int>) returns (r: Result<Connection<T>>)
    ensures r == SearchPage(hits, a, lim, sliceStart, listLength, listSliceLength)
  {
    var sliceLen := SliceLength(hits, listSliceLength);
    var startOffset, endOffset := ComputeWindow(a, lim, sliceStart, sliceLen, listLength);
    var w := Window(startOffset, endOffset);
    var sliceEnd := SliceEnd(sliceStart, sliceLen);
    var sliced := SearchSlice(hits, Max(w.start - sliceStart, 0), sliceLen - (sliceEnd - w.end));
    if sliced.Err? {
      return Err(sliced.error);
    }
    var page := AssemblePage(sliced.value, a, lim, w, listLength);
    r := Ok(page);
  }

  /** The edges of the page's items and the page info around them. */
  method AssemblePage<T>(items: seq<T>, a: PageArgs, lim: Limits, w: Window, listLength: int)
    returns (c: Connection<T>)
    ensures c == PageFrom(items, a, lim, w, listLength)
  {
    var edges := BuildEdges(items, w.start);
    c := Connection(edges, MakePageInfo(edges, a, lim, w, listLength));
  }
}
