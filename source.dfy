/** `SourceFilterBackend`: restricting the stored fields a search returns,
    from the `source` argument or else the configured source fields. */
module Source {
  import opened Wrappers
  import opened Dicts
  import opened Values
  import opened Query

  const PREFIX := "source"

  /** `prepare_source_fields` as written: `dict(...)` of the configured
      source fields is taken before the argument is looked at, so a
      configuration in the list form (`["title", "author.*"]`) raises. */
  function PrepareSourceAsWritten(args: Dict<string, Value>, config: Value): (r: Result<Value>)
    ensures r.Ok? <==> PyDict(config).Ok?
    ensures r.Ok? && Truthy(GetOr(args, PREFIX, List([]))) ==> r.value == GetOr(args, PREFIX, List([]))
  {
    var sourceArgs := GetOr(args, PREFIX, List([]));
    var fields :- PyDict(config);
    if Truthy(sourceArgs) then Ok(sourceArgs) else Ok(Obj(fields))
  }

  /** `prepare_source_fields` as intended: a non-empty argument wins, and
      otherwise the configuration is used as it is, whatever its form. */
  function PrepareSource(args: Dict<string, Value>, config: Value): (r: Value)
    ensures HasKey(args, PREFIX) && Truthy(Get(args, PREFIX).value) ==> r == Get(args, PREFIX).value
    ensures !(HasKey(args, PREFIX) && Truthy(Get(args, PREFIX).value)) ==> r == config
  {
    var sourceArgs := GetOr(args, PREFIX, List([]));
    if Truthy(sourceArgs) then sourceArgs else config
  }

  /** For a configuration that is a dict, the two agree. */
  lemma AsWrittenAgreesOnDicts(args: Dict<string, Value>, config: Value)
    requires config.Obj?
    ensures PrepareSourceAsWritten(args, config) == Ok(PrepareSource(args, config))
  {
  }

  /** The documented list form is rejected as written, even when a source
      argument is given, and used as it is once corrected. */
  lemma ListConfigRejected()
    ensures PrepareSourceAsWritten([(PREFIX, List([Str("title")]))], List([Str("title"), Str("author.*")])) == Err(ValueError)
    ensures PrepareSource([], List([Str("title"), Str("author.*")])) == List([Str("title"), Str("author.*")])
  {
    var xs := [Str("title"), Str("author.*")];
    assert DictPair(xs[0]) == Err(ValueError);
    assert DictFrom([], xs) == Err(ValueError);
  }

  /** `filter`: the source spec is set only when the prepared value is
      non-empty; nothing else about the request changes. A configuration
      `dict(...)` rejects is an error before anything is set. */
  function SourceFilter(qs: Search, args: Dict<string, Value>, config: Value): (r: Result<Search>)
    ensures r.Ok? <==> PyDict(config).Ok?
    ensures r.Ok? ==>
      r.value.queries == qs.queries && r.value.filters == qs.filters && r.value.sort == qs.sort &&
      r.value.aggs == qs.aggs && r.value.highlight == qs.highlight
    ensures r.Ok? ==> var p := PrepareSourceAsWritten(args, config).value;
      r.value.source == if Truthy(p) then Some(p) else qs.source
  {
    var fields :- PrepareSourceAsWritten(args, config);
    if Truthy(fields) then Ok(SetSource(qs, fields)) else Ok(qs)
  }

  /** With a dict configuration the search sets the corrected source: a
      non-empty argument, or else the configuration when it is non-empty. */
  lemma SourceFilterOnDicts(qs: Search, args: Dict<string, Value>, config: Value)
    requires config.Obj?
    ensures var p := PrepareSource(args, config);
      SourceFilter(qs, args, config) == Ok(if Truthy(p) then SetSource(qs, p) else qs)
  {
    AsWrittenAgreesOnDicts(args, config);
  }

  /** With neither an argument nor a configuration, the request is left as
      it is; an empty configuration that `dict(...)` cannot take (`None`,
      `False`, `0`) is an error instead. */
  lemma NothingToRestrict(qs: Search, args: Dict<string, Value>, config: Value)
    requires !HasKey(args, PREFIX) && !Truthy(config)
    ensures SourceFilter(qs, args, config) == if PyDict(config).Ok? then Ok(qs) else Err(PyDict(config).error)
  {
    if config.List? {
      assert config.items == [];
    }
  }

  /** `get_backend_query_fields`: the enum members are the node's field
      names without `_id`, each its own value; `remove` fails when `_id` is
      not among them. */
  function SourceEnumMembers(nodeFields: seq<string>): (r: Result<Dict<string, string>>)
    ensures r.Ok? <==> "_id" in nodeFields
    ensures r.Ok? ==> |r.value| == |nodeFields| - 1
    ensures r.Ok? ==> forall k :: HasKey(r.value, k) ==> Get(r.value, k) == Some(k)
  {
    var keys :- RemoveFirst(nodeFields, "_id");
    Ok(Pairs(keys))
  }

  /** The position of the first occurrence of `x`, or `|xs|`. */
  function IndexOf(xs: seq<string>, x: string): (i: nat)
    ensures i <= |xs| && x !in xs[..i]
    ensures i < |xs| ==> xs[i] == x
    ensures i == |xs| <==> x !in xs
    decreases |xs|
  {
    if xs == [] then 0
    else if xs[0] == x then 0
    else
      var i := IndexOf(xs[1..], x);
      assert xs[..i + 1] == [xs[0]] + xs[1..][..i];
      i + 1
  }

  /** `list.remove(x)`: drops the first occurrence, ValueError without one. */
  function RemoveFirst(xs: seq<string>, x: string): (r: Result<seq<string>>)
    ensures r.Ok? <==> x in xs
    ensures r.Ok? ==> |r.value| == |xs| - 1
    ensures r.Ok? ==> forall y :: y != x ==> (y in r.value <==> y in xs)
  {
    var i := IndexOf(xs, x);
    if i == |xs| then Err(ValueError)
    else
      var r := xs[..i] + xs[i + 1..];
      assert forall j :: 0 <= j < |r| ==> r[j] == if j < i then xs[j] else xs[j + 1];
      assert forall j :: 0 <= j < |xs| && j != i ==> xs[j] == if j < i then r[j] else r[j - 1];
      Ok(r)
  }

  /** `zip(keys, keys)`. */
  function Pairs(keys: seq<string>): (r: Dict<string, string>)
    ensures |r| == |keys|
    ensures forall i :: 0 <= i < |keys| ==> r[i] == (keys[i], keys[i])
  {
    seq(|keys|, i requires 0 <= i < |keys| => (keys[i], keys[i]))
  }

  /** The members are exactly the node's other fields. */
  lemma SourceEnumKeys(nodeFields: seq<string>, k: string)
    requires "_id" in nodeFields && k != "_id"
    ensures HasKey(SourceEnumMembers(nodeFields).value, k) <==> k in nodeFields
  {
    var keys := RemoveFirst(nodeFields, "_id").value;
    var d := Pairs(keys);
    HasKeyKeys(d, k);
    assert Keys(d) == keys;
  }
}
