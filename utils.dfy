/** Document inspection helpers: the sorted, `_id`-seeded field map of a
    document and the description given to a converted field. */
module Utils {
  import opened Wrappers
  import opened Dicts
  import opened Strs
  import opened Documents

  const ID_FIELD_NAME := "_id"

  // ---------------------------------------------------------------------
  // Sorting a dict's items by key, as `sorted(d.items())` does for a dict
  // (the keys are distinct, so the values are never compared).
  // ---------------------------------------------------------------------

  predicate SortedByKey<V>(d: Dict<string, V>) {
    forall i, j :: 0 <= i < j < |d| ==> StrLt(d[i].0, d[j].0)
  }

  /** A strictly sorted dict has distinct keys. */
  lemma SortedDistinct<V>(d: Dict<string, V>)
    requires SortedByKey(d)
    ensures Distinct(d)
  {
    forall i, j | 0 <= i < j < |d| ensures d[i].0 != d[j].0 {
      if d[i].0 == d[j].0 {
        StrLtIrreflexive(d[i].0);
      }
    }
  }

  /** Inserts `x` in front of the first entry with a larger key. */
  function Insert<V>(x: (string, V), s: Dict<string, V>): (r: Dict<string, V>)
    requires SortedByKey(s)
    requires forall j :: 0 <= j < |s| ==> s[j].0 != x.0
    ensures SortedByKey(r)
    ensures multiset(r) == multiset(s) + multiset{x}
    ensures r != [] && (r[0] == x || (s != [] && r[0] == s[0]))
  {
    if s == [] then [x]
    else if StrLt(x.0, s[0].0) then
      InsertFront(x, s);
      [x] + s
    else
      SortedTail(s);
      assert forall j :: 0 <= j < |s[1..]| ==> s[1..][j] == s[j + 1];
      var t := Insert(x, s[1..]);
      assert s == [s[0]] + s[1..];
      StrLtTotal(x.0, s[0].0);
      InsertBehind(s[0], t, s[1..]);
      [s[0]] + t
  }

  /** The rest of a sorted dict is sorted. */
  lemma SortedTail<V>(s: Dict<string, V>)
    requires SortedByKey(s) && s != []
    ensures SortedByKey(s[1..])
  {
    forall i, j | 0 <= i < j < |s| - 1 ensures StrLt(s[1..][i].0, s[1..][j].0) {
      assert s[1..][i] == s[i + 1] && s[1..][j] == s[j + 1];
    }
  }

  lemma InsertFront<V>(x: (string, V), s: Dict<string, V>)
    requires SortedByKey(s) && s != [] && StrLt(x.0, s[0].0)
    ensures SortedByKey([x] + s)
  {
    var r := [x] + s;
    forall i, j | 0 <= i < j < |r| ensures StrLt(r[i].0, r[j].0) {
      if i == 0 && j > 1 {
        StrLtTransitive(x.0, s[0].0, s[j - 1].0);
      }
    }
  }

  /** Putting `y` in front of a sorted `t` whose entries are those of a
      sorted tail of `y` plus one larger entry keeps it sorted. */
  lemma InsertBehind<V>(y: (string, V), t: Dict<string, V>, tail: Dict<string, V>)
    requires SortedByKey(t) && SortedByKey([y] + tail)
    requires t != [] && (t[0] in multiset(tail) || StrLt(y.0, t[0].0))
    ensures SortedByKey([y] + t)
  {
    var r := [y] + t;
    assert StrLt(y.0, t[0].0) by {
      if t[0] in multiset(tail) {
        var k :| 0 <= k < |tail| && tail[k] == t[0];
        assert ([y] + tail)[0] == y && ([y] + tail)[k + 1] == t[0];
      }
    }
    forall i, j | 0 <= i < j < |r| ensures StrLt(r[i].0, r[j].0) {
      if i == 0 && j > 1 {
        StrLtTransitive(y.0, t[0].0, t[j - 1].0);
      }
    }
  }

  /** `sorted(d.items())` for a dict with distinct keys. */
  function SortByKey<V>(d: Dict<string, V>): (r: Dict<string, V>)
    requires Distinct(d)
    ensures SortedByKey(r)
    ensures multiset(r) == multiset(d)
    decreases |d|
  {
    if d == [] then []
    else
      NotInTail(d);
      var t := SortByKey(d[1..]);
      KeyAbsent(d[1..], t, d[0].0);
      assert d == [d[0]] + d[1..];
      Insert(d[0], t)
  }

  /** A key absent from `d` is absent from any rearrangement of it. */
  lemma KeyAbsent<V>(d: Dict<string, V>, t: Dict<string, V>, k: string)
    requires multiset(t) == multiset(d) && !HasKey(d, k)
    ensures forall j :: 0 <= j < |t| ==> t[j].0 != k
  {
    forall j | 0 <= j < |t| ensures t[j].0 != k {
      assert t[j] in multiset(d);
      var i :| 0 <= i < |d| && d[i] == t[j];
    }
  }

  /** With distinct keys, the value under a key is the one paired with it. */
  lemma GetMember<V>(d: Dict<string, V>, k: string, v: V)
    requires Distinct(d)
    ensures Get(d, k) == Some(v) <==> (k, v) in d
  {
    if (k, v) in d {
      var i :| 0 <= i < |d| && d[i] == (k, v);
      FindUnique(d, k, i);
    }
  }

  /** Sorting keeps every key's value. */
  lemma SortByKeyGet<V>(d: Dict<string, V>, k: string)
    requires Distinct(d)
    ensures Get(SortByKey(d), k) == Get(d, k)
  {
    var r := SortByKey(d);
    SortedDistinct(r);
    forall v ensures Get(d, k) == Some(v) <==> Get(r, k) == Some(v) {
      GetMember(d, k, v);
      GetMember(r, k, v);
      assert (k, v) in multiset(d) <==> (k, v) in multiset(r);
    }
    if Get(r, k).Some? {
      assert Get(d, k) == Some(Get(r, k).value);
    }
  }

  // ---------------------------------------------------------------------
  // get_document_fields
  // ---------------------------------------------------------------------

  /** The `attributes` dict after reading `props` in order, skipping the
      names in `excluding`. */
  function Collect(acc: Dict<string, EsField>, props: Dict<string, EsField>, excluding: seq<string>): Dict<string, EsField>
    decreases |props|
  {
    if props == [] then acc
    else Collect(if props[0].0 in excluding then acc else Put(acc, props[0].0, props[0].1), props[1..], excluding)
  }

  /** A property that is read and not excluded ends with its own value;
      every other key keeps its value from `acc`. */
  lemma {:induction false} CollectGet(acc: Dict<string, EsField>, props: Dict<string, EsField>, excluding: seq<string>, k: string)
    requires Distinct(props)
    ensures Get(Collect(acc, props, excluding), k)
      == if HasKey(props, k) && k !in excluding then Get(props, k) else Get(acc, k)
    decreases |props|
  {
    if props != [] {
      var acc' := if props[0].0 in excluding then acc else Put(acc, props[0].0, props[0].1);
      if props[0].0 !in excluding {
        PutGet(acc, props[0].0, props[0].1, k);
      }
      NotInTail(props);
      CollectGet(acc', props[1..], excluding, k);
      if k == props[0].0 {
        FindUnique(props, k, 0);
      } else {
        FindUnique(props, k, Find(props[1..], k) + 1);
      }
    }
  }

  lemma {:induction false} CollectDistinct(acc: Dict<string, EsField>, props: Dict<string, EsField>, excluding: seq<string>)
    requires Distinct(acc)
    ensures Distinct(Collect(acc, props, excluding))
    decreases |props|
  {
    if props != [] {
      PutDistinct(acc, props[0].0, props[0].1);
      CollectDistinct(if props[0].0 in excluding then acc else Put(acc, props[0].0, props[0].1), props[1..], excluding);
    }
  }

  /** `get_document_fields(document, excluding)`: `_id` first as a keyword
      field, then every mapping property not in `excluding`, then the items
      sorted by name. A missing `excluding` is the empty list. */
  method GetDocumentFields(document: Document, excluding: seq<string>) returns (r: Dict<string, EsField>)
    requires Distinct(document.properties)
    ensures r == DocumentFields(document, excluding)
  {
    var props := document.properties;
    var attributes: Dict<string, EsField> := [(ID_FIELD_NAME, KEYWORD_FIELD)];
    var i := 0;
    while i < |props|
      invariant 0 <= i <= |props|
      invariant Collect(attributes, props[i..], excluding) == Collect([(ID_FIELD_NAME, KEYWORD_FIELD)], props, excluding)
    {
      assert props[i..][1..] == props[i + 1..];
      var (name, attr) := props[i];
      if name !in excluding {
        attributes := Put(attributes, name, attr);
      }
      i := i + 1;
    }
    CollectDistinct([(ID_FIELD_NAME, KEYWORD_FIELD)], props, excluding);
    r := SortByKey(attributes);
  }

  /** What `get_document_fields` returns. */
  function DocumentFields(document: Document, excluding: seq<string>): (r: Dict<string, EsField>)
    requires Distinct(document.properties)
  {
    CollectDistinct([(ID_FIELD_NAME, KEYWORD_FIELD)], document.properties, excluding);
    SortByKey(Collect([(ID_FIELD_NAME, KEYWORD_FIELD)], document.properties, excluding))
  }

  /** The document fields: `_id` is always there (a keyword field unless a
      property of that name overrides it), the non-excluded properties are
      there with their own values, the excluded ones are not, and the keys
      come in ascending order. */
  lemma DocumentFieldsProperties(document: Document, excluding: seq<string>, k: string)
    requires Distinct(document.properties)
    ensures var r := DocumentFields(document, excluding);
      && SortedByKey(r)
      && HasKey(r, ID_FIELD_NAME)
      && (k != ID_FIELD_NAME ==>
            Get(r, k) == if HasKey(document.properties, k) && k !in excluding then Get(document.properties, k) else None)
      && (k == ID_FIELD_NAME ==>
            Get(r, k) == if HasKey(document.properties, k) && k !in excluding then Get(document.properties, k) else Some(KEYWORD_FIELD))
  {
    var seed := [(ID_FIELD_NAME, KEYWORD_FIELD)];
    CollectDistinct(seed, document.properties, excluding);
    var c := Collect(seed, document.properties, excluding);
    SortByKeyGet(c, k);
    SortByKeyGet(c, ID_FIELD_NAME);
    CollectGet(seed, document.properties, excluding, k);
    CollectGet(seed, document.properties, excluding, ID_FIELD_NAME);
    FindUnique(seed, ID_FIELD_NAME, 0);
  }

  /** `get_field_description(field)`: the parts collected are the field's
      `name` when it has one, joined by newlines. */
  function GetFieldDescription(field: EsField): (r: string)
    ensures r == field.name.GetOr("")
  {
    var parts := if field.name.Some? then [field.name.value] else [];
    Join(parts, "\n")
  }
}
