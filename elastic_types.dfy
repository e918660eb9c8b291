/** The field maps behind `ElasticsearchObjectType`: which document fields
    are converted, which are deferred as references to the document itself,
    the fields that filter backends add, and the precedence kept by a
    rescan. */
module ElasticTypes {
  import opened Wrappers
  import opened Dicts
  import opened Documents
  import opened Utils
  import opened Converter
  import Highlight
  import Score

  /** The two maps `construct_fields` returns: converted fields and
      self-referenced fields. */
  datatype Scan<C> = Scan(fields: Dict<string, C>, selfReferenced: Dict<string, EsField>)

  /** What becomes of one document field: skipped, self-referenced,
      converted, or (through a self-referencing sub-field) both. */
  datatype Outcome<C> = Skip | SelfRef | Keep(c: C) | SelfRefKeep(c: C)
  {
    /** The field lands in `self_referenced`. */
    predicate Deferred() { SelfRef? || SelfRefKeep? }
    /** The field lands in `fields`, with conversion `c`. */
    predicate Kept() { Keep? || SelfRefKeep? }
  }

  /** A field conversion: an error, a falsy result (None) or a converted
      field. The library's own table is `LibraryConversion`; conversions
      registered elsewhere may yield a falsy result. */
  type Conversion<C> = EsField -> Result<Option<C>>

  function LibraryConversion(f: EsField): (r: Result<Option<Converted>>)
    ensures r.Ok? ==> r.value.Some?
    ensures r.Err? <==> f.kind.OtherKind?
  {
    var c :- Convert(f);
    Ok(Some(c))
  }

  /** Not dropped by `only_fields` (when non-empty) or `exclude_fields`. */
  predicate Selected(onlyFields: seq<string>, excludeFields: seq<string>, name: string) {
    !((onlyFields != [] && name !in onlyFields) || name in excludeFields)
  }

  /** A multi-valued field with neither a doc class nor sub-fields. */
  predicate Unsupported(f: EsField) {
    f.multi && f.docClass.None? && f.subFields.None?
  }

  predicate SubFieldRefers(subs: Dict<string, string>, doc: string) {
    exists i :: 0 <= i < |subs| && subs[i].1 == doc
  }

  /** A multi-valued field that refers to the document: through the class of
      one of its sub-fields when it has sub-fields, and otherwise through its
      doc class. */
  predicate RefersToDocument(f: EsField, doc: string) {
    f.multi && if f.subFields.Some? then SubFieldRefers(f.subFields.value, doc) else f.docClass == Some(doc)
  }

  /** The outcome for one field, as the loop is written: unselected and
      unsupported fields are skipped. A field whose doc class is the
      document is deferred and not converted. A field with a sub-field of
      the document's class is deferred, but the `continue` under it only
      ends the sub-field loop, so the field is converted as well. Any other
      field is converted, a falsy conversion being skipped. */
  function Classify<C>(doc: string, onlyFields: seq<string>, excludeFields: seq<string>, name: string, f: EsField, convert: Conversion<C>): (r: Result<Outcome<C>>)
    ensures !Selected(onlyFields, excludeFields, name) || Unsupported(f) ==> r == Ok(Skip)
    ensures r.Ok? && r.value.Deferred() <==>
      Selected(onlyFields, excludeFields, name) && !Unsupported(f) && RefersToDocument(f, doc)
      && (f.subFields.None? || convert(f).Ok?)
    ensures r.Ok? && r.value.Kept() <==>
      Selected(onlyFields, excludeFields, name) && !Unsupported(f) && !(RefersToDocument(f, doc) && f.subFields.None?)
      && convert(f).Ok? && convert(f).value.Some?
    ensures r.Ok? && r.value.Kept() ==> convert(f) == Ok(Some(r.value.c))
    ensures r.Err? ==> convert(f) == Err(r.error)
  {
    if !Selected(onlyFields, excludeFields, name) || Unsupported(f) then Ok(Skip)
    else
      var refers := RefersToDocument(f, doc);
      if refers && f.subFields.None? then Ok(SelfRef)
      else
        var c :- convert(f);
        Ok(if c.None? then (if refers then SelfRef else Skip)
           else if refers then SelfRefKeep(c.value) else Keep(c.value))
  }

  function Apply<C>(s: Scan<C>, name: string, f: EsField, o: Outcome<C>): Scan<C> {
    match o
    case Skip => s
    case SelfRef => s.(selfReferenced := Put(s.selfReferenced, name, f))
    case Keep(c) => s.(fields := Put(s.fields, name, c))
    case SelfRefKeep(c) => s.(selfReferenced := Put(s.selfReferenced, name, f), fields := Put(s.fields, name, c))
  }

  /** The loop of `construct_fields` over `items`, continued from `acc`; a
      failing conversion ends it. */
  function ScanFrom<C>(acc: Scan<C>, items: Dict<string, EsField>, doc: string, onlyFields: seq<string>, excludeFields: seq<string>, convert: Conversion<C>): Result<Scan<C>>
    decreases |items|
  {
    if items == [] then Ok(acc)
    else
      var o :- Classify(doc, onlyFields, excludeFields, items[0].0, items[0].1, convert);
      ScanFrom(Apply(acc, items[0].0, items[0].1, o), items[1..], doc, onlyFields, excludeFields, convert)
  }

  /** What `construct_fields(document, registry, only_fields,
      exclude_fields)` returns: the scan of the sorted document fields. */
  function ConstructFieldsSpec<C>(document: Document, onlyFields: seq<string>, excludeFields: seq<string>, convert: Conversion<C>): Result<Scan<C>>
    requires Distinct(document.properties)
  {
    ScanFrom(Scan([], []), DocumentFields(document, []), document.className, onlyFields, excludeFields, convert)
  }

  /** The scan fails exactly when some field it converts fails to convert. */
  lemma {:induction false} ScanFromErr<C>(acc: Scan<C>, items: Dict<string, EsField>, doc: string, onlyFields: seq<string>, excludeFields: seq<string>, convert: Conversion<C>)
    ensures ScanFrom(acc, items, doc, onlyFields, excludeFields, convert).Err? <==>
      exists i :: 0 <= i < |items| && Classify(doc, onlyFields, excludeFields, items[i].0, items[i].1, convert).Err?
    decreases |items|
  {
    if items != [] {
      var o := Classify(doc, onlyFields, excludeFields, items[0].0, items[0].1, convert);
      if o.Ok? {
        ScanFromErr(Apply(acc, items[0].0, items[0].1, o.value), items[1..], doc, onlyFields, excludeFields, convert);
        if exists i :: 0 <= i < |items| && Classify(doc, onlyFields, excludeFields, items[i].0, items[i].1, convert).Err? {
          var i :| 0 <= i < |items| && Classify(doc, onlyFields, excludeFields, items[i].0, items[i].1, convert).Err?;
          assert items[1..][i - 1] == items[i];
        }
        forall i | 0 <= i < |items[1..]| ensures items[1..][i] == items[i + 1] {
        }
      }
    }
  }

  /** The outcome of the field under `k` in distinct `items`. */
  function OutcomeOf<C>(items: Dict<string, EsField>, k: string, doc: string, onlyFields: seq<string>, excludeFields: seq<string>, convert: Conversion<C>): Result<Outcome<C>>
    requires HasKey(items, k)
  {
    Classify(doc, onlyFields, excludeFields, k, Get(items, k).value, convert)
  }

  /** After a successful scan, a key holds a converted field iff its field
      was kept, with the conversion as its value; other keys keep theirs. */
  lemma {:induction false} ScanFromFields<C>(acc: Scan<C>, items: Dict<string, EsField>, doc: string, onlyFields: seq<string>, excludeFields: seq<string>, convert: Conversion<C>, k: string)
    requires Distinct(items)
    requires ScanFrom(acc, items, doc, onlyFields, excludeFields, convert).Ok?
    ensures HasKey(items, k) ==> OutcomeOf(items, k, doc, onlyFields, excludeFields, convert).Ok?
    ensures Get(ScanFrom(acc, items, doc, onlyFields, excludeFields, convert).value.fields, k) ==
      if HasKey(items, k) && OutcomeOf(items, k, doc, onlyFields, excludeFields, convert).value.Kept()
      then Some(OutcomeOf(items, k, doc, onlyFields, excludeFields, convert).value.c)
      else Get(acc.fields, k)
    decreases |items|
  {
    if items != [] {
      var o := Classify(doc, onlyFields, excludeFields, items[0].0, items[0].1, convert).value;
      var acc' := Apply(acc, items[0].0, items[0].1, o);
      if o.Kept() {
        PutGet(acc.fields, items[0].0, o.c, k);
      }
      NotInTail(items);
      ScanFromFields(acc', items[1..], doc, onlyFields, excludeFields, convert, k);
      if k == items[0].0 {
        FindUnique(items, k, 0);
      } else {
        FindUnique(items, k, Find(items[1..], k) + 1);
      }
    }
  }

  /** After a successful scan, a key holds a self-referenced field iff its
      field refers to the document, with the field itself as its value. */
  lemma {:induction false} ScanFromSelfReferenced<C>(acc: Scan<C>, items: Dict<string, EsField>, doc: string, onlyFields: seq<string>, excludeFields: seq<string>, convert: Conversion<C>, k: string)
    requires Distinct(items)
    requires ScanFrom(acc, items, doc, onlyFields, excludeFields, convert).Ok?
    ensures HasKey(items, k) ==> OutcomeOf(items, k, doc, onlyFields, excludeFields, convert).Ok?
    ensures Get(ScanFrom(acc, items, doc, onlyFields, excludeFields, convert).value.selfReferenced, k) ==
      if HasKey(items, k) && OutcomeOf(items, k, doc, onlyFields, excludeFields, convert).value.Deferred()
      then Get(items, k)
      else Get(acc.selfReferenced, k)
    decreases |items|
  {
    if items != [] {
      var o := Classify(doc, onlyFields, excludeFields, items[0].0, items[0].1, convert).value;
      var acc' := Apply(acc, items[0].0, items[0].1, o);
      PutGet(acc.selfReferenced, items[0].0, items[0].1, k);
      NotInTail(items);
      ScanFromSelfReferenced(acc', items[1..], doc, onlyFields, excludeFields, convert, k);
      if k == items[0].0 {
        FindUnique(items, k, 0);
      } else {
        FindUnique(items, k, Find(items[1..], k) + 1);
      }
    }
  }

  /** What `construct_fields` gives for each document field: a converted
      field only for a selected, supported field that converts to something
      truthy and is not a self-reference through its doc class; a
      self-referenced field exactly for a selected, supported field that
      refers to the document. A field in both maps refers to the document
      through a sub-field. */
  lemma ConstructFieldsProperties<C>(document: Document, onlyFields: seq<string>, excludeFields: seq<string>, convert: Conversion<C>, k: string)
    requires Distinct(document.properties)
    requires ConstructFieldsSpec(document, onlyFields, excludeFields, convert).Ok?
    ensures var r := ConstructFieldsSpec(document, onlyFields, excludeFields, convert).value;
      var items := DocumentFields(document, []);
      && (HasKey(r.fields, k) ==>
            && HasKey(items, k) && Selected(onlyFields, excludeFields, k)
            && !Unsupported(Get(items, k).value)
            && !(RefersToDocument(Get(items, k).value, document.className) && Get(items, k).value.subFields.None?)
            && convert(Get(items, k).value) == Ok(Get(r.fields, k)))
      && (HasKey(r.selfReferenced, k) <==>
            HasKey(items, k) && Selected(onlyFields, excludeFields, k)
            && !Unsupported(Get(items, k).value) && RefersToDocument(Get(items, k).value, document.className))
      && (HasKey(r.selfReferenced, k) ==> Get(r.selfReferenced, k) == Get(items, k))
      && (HasKey(r.fields, k) && HasKey(r.selfReferenced, k) ==> Get(items, k).value.subFields.Some?)
  {
    var items := DocumentFields(document, []);
    SortedDistinct(items);
    ScanFromFields(Scan([], []), items, document.className, onlyFields, excludeFields, convert, k);
    ScanFromSelfReferenced(Scan([], []), items, document.className, onlyFields, excludeFields, convert, k);
  }

  /** `construct_fields`: the sorted document fields are scanned in order;
      a multi-valued field is deferred when one of its sub-fields (or, with
      no sub-fields, its doc class) is the document; only the doc-class
      case skips the conversion. */
  method ConstructFields<C>(document: Document, onlyFields: seq<string>, excludeFields: seq<string>, convert: Conversion<C>)
    returns (r: Result<Scan<C>>)
    requires Distinct(document.properties)
    ensures r == ConstructFieldsSpec(document, onlyFields, excludeFields, convert)
  {
    var items := GetDocumentFields(document, []);
    var doc := document.className;
    var fields: Dict<string, C> := [];
    var selfReferenced: Dict<string, EsField> := [];
    var i := 0;
    while i < |items|
      invariant 0 <= i <= |items|
      invariant ScanFrom(Scan(fields, selfReferenced), items[i..], doc, onlyFields, excludeFields, convert)
        == ConstructFieldsSpec(document, onlyFields, excludeFields, convert)
    {
      ScanStep(Scan(fields, selfReferenced), items, i, doc, onlyFields, excludeFields, convert);
      var (name, field) := items[i];
      var isNotInOnly := onlyFields != [] && name !in onlyFields;
      var isExcluded := name in excludeFields;
      if !(isNotInOnly || isExcluded) && !Unsupported(field) {
        var selfRef := RefersToDocumentLoop(field, doc);
        if selfRef {
          selfReferenced := Put(selfReferenced, name, field);
        }
        if !(selfRef && field.subFields.None?) {
          var converted := convert(field);
          if converted.Err? {
            return Err(converted.error);
          }
          if converted.value.Some? {
            fields := Put(fields, name, converted.value.value);
          }
        }
      }
      i := i + 1;
    }
    r := Ok(Scan(fields, selfReferenced));
  }

  /** One round of the scan at position `i`. */
  lemma ScanStep<C>(acc: Scan<C>, items: Dict<string, EsField>, i: nat, doc: string, onlyFields: seq<string>, excludeFields: seq<string>, convert: Conversion<C>)
    requires i < |items|
    ensures var o := Classify(doc, onlyFields, excludeFields, items[i].0, items[i].1, convert);
      ScanFrom(acc, items[i..], doc, onlyFields, excludeFields, convert) ==
        if o.Err? then Err(o.error)
        else ScanFrom(Apply(acc, items[i].0, items[i].1, o.value), items[i + 1..], doc, onlyFields, excludeFields, convert)
  {
    assert items[i..][1..] == items[i + 1..];
  }

  /** The check of `construct_fields` for a multi-valued field: any
      sub-field of the document's class, or with no sub-fields the doc
      class itself. */
  method RefersToDocumentLoop(field: EsField, doc: string) returns (selfRef: bool)
    ensures selfRef == RefersToDocument(field, doc)
  {
    selfRef := false;
    if field.multi && field.subFields.Some? {
      var subs := field.subFields.value;
      var j := 0;
      while j < |subs|
        invariant 0 <= j <= |subs|
        invariant selfRef <==> exists jj :: 0 <= jj < j && subs[jj].1 == doc
      {
        if subs[j].1 == doc {
          selfRef := true;
        }
        j := j + 1;
      }
    } else if field.multi {
      selfRef := field.docClass == Some(doc);
    }
  }

  // ---------------------------------------------------------------------
  // The loop as evidently intended: a self-referencing field is deferred
  // and never converted, through a sub-field as through the doc class.
  // ---------------------------------------------------------------------

  function ClassifyIntended<C>(doc: string, onlyFields: seq<string>, excludeFields: seq<string>, name: string, f: EsField, convert: Conversion<C>): (r: Result<Outcome<C>>)
    ensures !Selected(onlyFields, excludeFields, name) || Unsupported(f) ==> r == Ok(Skip)
    ensures r == Ok(SelfRef) <==> Selected(onlyFields, excludeFields, name) && !Unsupported(f) && RefersToDocument(f, doc)
    ensures r.Ok? ==> !r.value.SelfRefKeep?
    ensures r.Ok? && r.value.Keep? ==> !RefersToDocument(f, doc) && convert(f) == Ok(Some(r.value.c))
  {
    if !Selected(onlyFields, excludeFields, name) || Unsupported(f) then Ok(Skip)
    else if RefersToDocument(f, doc) then Ok(SelfRef)
    else
      var c :- convert(f);
      Ok(if c.None? then Skip else Keep(c.value))
  }

  function ScanIntended<C>(acc: Scan<C>, items: Dict<string, EsField>, doc: string, onlyFields: seq<string>, excludeFields: seq<string>, convert: Conversion<C>): Result<Scan<C>>
    decreases |items|
  {
    if items == [] then Ok(acc)
    else
      var o :- ClassifyIntended(doc, onlyFields, excludeFields, items[0].0, items[0].1, convert);
      ScanIntended(Apply(acc, items[0].0, items[0].1, o), items[1..], doc, onlyFields, excludeFields, convert)
  }

  /** Where no field refers to the document through a sub-field, the scan
      as written and the intended one agree. */
  lemma {:induction false} ScanIntendedAgrees<C>(acc: Scan<C>, items: Dict<string, EsField>, doc: string, onlyFields: seq<string>, excludeFields: seq<string>, convert: Conversion<C>)
    requires forall i :: 0 <= i < |items| ==> !(RefersToDocument(items[i].1, doc) && items[i].1.subFields.Some?)
    ensures ScanIntended(acc, items, doc, onlyFields, excludeFields, convert) == ScanFrom(acc, items, doc, onlyFields, excludeFields, convert)
    decreases |items|
  {
    if items != [] {
      var o := Classify(doc, onlyFields, excludeFields, items[0].0, items[0].1, convert);
      assert o == ClassifyIntended(doc, onlyFields, excludeFields, items[0].0, items[0].1, convert);
      if o.Ok? {
        forall i | 0 <= i < |items[1..]|
          ensures !(RefersToDocument(items[1..][i].1, doc) && items[1..][i].1.subFields.Some?)
        {
          assert items[1..][i] == items[i + 1];
        }
        ScanIntendedAgrees(Apply(acc, items[0].0, items[0].1, o.value), items[1..], doc, onlyFields, excludeFields, convert);
      }
    }
  }

  /** The intended scan never puts a field in both maps: a key that neither
      map held before ends up converted or self-referenced, not both. */
  lemma {:induction false} ScanIntendedSeparates<C>(acc: Scan<C>, items: Dict<string, EsField>, doc: string, onlyFields: seq<string>, excludeFields: seq<string>, convert: Conversion<C>, k: string)
    requires Distinct(items)
    requires ScanIntended(acc, items, doc, onlyFields, excludeFields, convert).Ok?
    requires !(HasKey(acc.fields, k) && HasKey(acc.selfReferenced, k))
    requires HasKey(items, k) ==> !HasKey(acc.fields, k) && !HasKey(acc.selfReferenced, k)
    ensures var r := ScanIntended(acc, items, doc, onlyFields, excludeFields, convert).value;
      !(HasKey(r.fields, k) && HasKey(r.selfReferenced, k))
    decreases |items|
  {
    if items != [] {
      var (name, f) := items[0];
      var o := ClassifyIntended(doc, onlyFields, excludeFields, name, f, convert).value;
      var acc' := Apply(acc, name, f, o);
      PutGet(acc.selfReferenced, name, f, k);
      if o.Keep? {
        PutGet(acc.fields, name, o.c, k);
      }
      NotInTail(items);
      if k == name {
        FindUnique(items, k, 0);
      } else if HasKey(items[1..], k) {
        FindUnique(items, k, Find(items[1..], k) + 1);
      }
      ScanIntendedSeparates(acc', items[1..], doc, onlyFields, excludeFields, convert, k);
    }
  }

  /** A multi-valued text field of `Post` with a sub-field of class `Post`. */
  const SELF_TAGS := EsField(Text, Some("text"), false, true, None, Some([("raw", "Post")]))

  /** As written, that field ends up both converted and self-referenced. */
  lemma SelfReferenceConvertedAsWritten()
    ensures var r := ScanFrom(Scan([], []), [("tags", SELF_TAGS)], "Post", [], [], LibraryConversion);
      r.Ok? && HasKey(r.value.fields, "tags") && HasKey(r.value.selfReferenced, "tags")
  {
    SelfTagsRefers();
    var c := Convert(SELF_TAGS);
    assert c.Ok?;
    assert LibraryConversion(SELF_TAGS) == Ok(Some(c.value));
    assert Classify("Post", [], [], "tags", SELF_TAGS, LibraryConversion) == Ok(SelfRefKeep(c.value));
    var s := Scan([("tags", c.value)], [("tags", SELF_TAGS)]);
    assert Put([], "tags", SELF_TAGS) == [("tags", SELF_TAGS)];
    assert Put([], "tags", c.value) == [("tags", c.value)];
    assert Apply(Scan([], []), "tags", SELF_TAGS, SelfRefKeep(c.value)) == s;
    assert [("tags", SELF_TAGS)][1..] == [];
    assert ScanFrom(Scan([], []), [("tags", SELF_TAGS)], "Post", [], [], LibraryConversion) == Ok(s);
    FindUnique(s.fields, "tags", 0);
    FindUnique(s.selfReferenced, "tags", 0);
  }

  /** The intended scan defers the same field without converting it. */
  lemma SelfReferenceDeferred()
    ensures ScanIntended(Scan([], []), [("tags", SELF_TAGS)], "Post", [], [], LibraryConversion)
      == Ok(Scan([], [("tags", SELF_TAGS)]))
  {
    SelfTagsRefers();
    assert ClassifyIntended("Post", [], [], "tags", SELF_TAGS, LibraryConversion) == Ok(SelfRef);
    assert Put([], "tags", SELF_TAGS) == [("tags", SELF_TAGS)];
    var s: Scan<Converted> := Scan([], [("tags", SELF_TAGS)]);
    assert Apply(Scan([], []), "tags", SELF_TAGS, SelfRef) == s;
    assert [("tags", SELF_TAGS)][1..] == [];
    assert ScanIntended(s, [], "Post", [], [], LibraryConversion) == Ok(s);
  }

  lemma SelfTagsRefers()
    ensures Selected([], [], "tags") && !Unsupported(SELF_TAGS) && RefersToDocument(SELF_TAGS, "Post")
    ensures SELF_TAGS.subFields.Some?
  {
    assert SELF_TAGS.subFields.value[0].1 == "Post";
  }

  // ---------------------------------------------------------------------
  // construct_self_referenced_fields
  // ---------------------------------------------------------------------

  /** The conversion loop over the deferred fields, continued from `acc`. */
  function ConvertFrom<C>(acc: Dict<string, C>, items: Dict<string, EsField>, convert: Conversion<C>): Result<Dict<string, C>>
    decreases |items|
  {
    if items == [] then Ok(acc)
    else
      var c :- convert(items[0].1);
      ConvertFrom(if c.None? then acc else Put(acc, items[0].0, c.value), items[1..], convert)
  }

  /** After a successful conversion loop, a key holds the conversion of its
      field when that is truthy; other keys keep their value. */
  lemma {:induction false} ConvertFromGet<C>(acc: Dict<string, C>, items: Dict<string, EsField>, convert: Conversion<C>, k: string)
    requires Distinct(items)
    requires ConvertFrom(acc, items, convert).Ok?
    ensures HasKey(items, k) ==> convert(Get(items, k).value).Ok?
    ensures Get(ConvertFrom(acc, items, convert).value, k) ==
      if HasKey(items, k) && convert(Get(items, k).value).value.Some?
      then convert(Get(items, k).value).value
      else Get(acc, k)
    decreases |items|
  {
    if items != [] {
      var c := convert(items[0].1).value;
      if c.Some? {
        PutGet(acc, items[0].0, c.value, k);
      }
      NotInTail(items);
      ConvertFromGet(if c.None? then acc else Put(acc, items[0].0, c.value), items[1..], convert, k);
      if k == items[0].0 {
        FindUnique(items, k, 0);
      } else {
        FindUnique(items, k, Find(items[1..], k) + 1);
      }
    }
  }

  /** `construct_self_referenced_fields(self_referenced, registry)`. */
  method ConstructSelfReferencedFields<C>(selfReferenced: Dict<string, EsField>, convert: Conversion<C>)
    returns (r: Result<Dict<string, C>>)
    ensures r == ConvertFrom([], selfReferenced, convert)
  {
    var fields: Dict<string, C> := [];
    var i := 0;
    while i < |selfReferenced|
      invariant 0 <= i <= |selfReferenced|
      invariant ConvertFrom(fields, selfReferenced[i..], convert) == ConvertFrom([], selfReferenced, convert)
    {
      assert selfReferenced[i..][1..] == selfReferenced[i + 1..];
      var (name, field) := selfReferenced[i];
      var converted := convert(field);
      if converted.Err? {
        return Err(converted.error);
      }
      if converted.value.Some? {
        fields := Put(fields, name, converted.value.value);
      }
      i := i + 1;
    }
    r := Ok(fields);
  }

  // ---------------------------------------------------------------------
  // construct_backend_fields
  // ---------------------------------------------------------------------

  /** `construct_backend_fields(backends, connection)`: the document fields
      of each backend, merged in order, a later backend winning. */
  method ConstructBackendFields(backends: seq<Dict<string, string>>) returns (r: Dict<string, string>)
    ensures r == UpdateAll([], backends)
  {
    r := [];
    var i := 0;
    while i < |backends|
      invariant 0 <= i <= |backends|
      invariant UpdateAll(r, backends[i..]) == UpdateAll([], backends)
    {
      assert backends[i..][1..] == backends[i + 1..];
      r := Update(r, backends[i]);
      i := i + 1;
    }
  }

  /** The highlight and score backends together add `highlight` and
      `score`. */
  lemma HighlightAndScoreFields()
    ensures UpdateAll([], [Highlight.DOCUMENT_FIELDS, Score.DOCUMENT_FIELDS])
      == [("highlight", "HighlightField"), ("score", "ScoreField")]
  {
    var ds := [Highlight.DOCUMENT_FIELDS, Score.DOCUMENT_FIELDS];
    var h := [("highlight", "HighlightField")];
    var hs := [("highlight", "HighlightField"), ("score", "ScoreField")];
    assert Put([], "highlight", "HighlightField") == h;
    assert Update([], Highlight.DOCUMENT_FIELDS) == h by {
      assert Highlight.DOCUMENT_FIELDS[1..] == [];
    }
    assert Find(h, "score") == 1;
    assert Put(h, "score", "ScoreField") == hs;
    assert Update(h, Score.DOCUMENT_FIELDS) == hs by {
      assert Score.DOCUMENT_FIELDS[1..] == [];
    }
    assert UpdateAll(hs, ds[1..][1..]) == hs;
    assert UpdateAll(h, ds[1..]) == hs;
  }

  // ---------------------------------------------------------------------
  // rescan_fields
  // ---------------------------------------------------------------------

  /** A field of a generated type: a converted document field or a field
      contributed by a backend, named by its type. */
  datatype MetaField = DocumentField(c: Converted) | BackendField(typeName: string)

  /** The rescan loop: a converted field is added only under a key that is
      not there yet. */
  function AddMissing(d: Dict<string, MetaField>, e: Dict<string, Converted>): Dict<string, MetaField>
    decreases |e|
  {
    if e == [] then d
    else AddMissing(if HasKey(d, e[0].0) then d else Put(d, e[0].0, DocumentField(e[0].1)), e[1..])
  }

  /** A rescan keeps every existing field and adds the new ones. */
  lemma {:induction false} AddMissingGet(d: Dict<string, MetaField>, e: Dict<string, Converted>, k: string)
    requires Distinct(e)
    ensures Get(AddMissing(d, e), k) ==
      if HasKey(d, k) then Get(d, k)
      else if HasKey(e, k) then Some(DocumentField(Get(e, k).value))
      else None
    decreases |e|
  {
    if e != [] {
      var d' := if HasKey(d, e[0].0) then d else Put(d, e[0].0, DocumentField(e[0].1));
      PutGet(d, e[0].0, DocumentField(e[0].1), k);
      PutHasKey(d, e[0].0, DocumentField(e[0].1), k);
      NotInTail(e);
      AddMissingGet(d', e[1..], k);
      if k == e[0].0 {
        FindUnique(e, k, 0);
      } else {
        FindUnique(e, k, Find(e[1..], k) + 1);
      }
    }
  }

  /** The options of a generated type that a rescan reads and updates. */
  class TypeOptions {
    const document: Document
    const onlyFields: seq<string>
    const excludeFields: seq<string>
    var fields: Dict<string, MetaField>

    constructor(document: Document, onlyFields: seq<string>, excludeFields: seq<string>, fields: Dict<string, MetaField>)
      ensures this.document == document && this.onlyFields == onlyFields && this.excludeFields == excludeFields
      ensures this.fields == fields
    {
      this.document := document;
      this.onlyFields := onlyFields;
      this.excludeFields := excludeFields;
      this.fields := fields;
    }

    /** `rescan_fields()`: the document is scanned again and any converted
        field not present yet is added; the initial scan takes precedence. */
    method RescanFields() returns (r: Result<()>)
      requires Distinct(document.properties)
      modifies this
      ensures var scan := ConstructFieldsSpec(document, onlyFields, excludeFields, LibraryConversion);
        && (scan.Err? ==> r == Err(scan.error) && fields == old(fields))
        && (scan.Ok? ==> r == Ok(()) && fields == AddMissing(old(fields), scan.value.fields))
    {
      var scan := ConstructFields(document, onlyFields, excludeFields, LibraryConversion);
      if scan.Err? {
        return Err(scan.error);
      }
      var converted := scan.value.fields;
      var i := 0;
      while i < |converted|
        invariant 0 <= i <= |converted|
        invariant AddMissing(fields, converted[i..]) == AddMissing(old(fields), converted)
      {
        assert converted[i..][1..] == converted[i + 1..];
        var (name, c) := converted[i];
        if !HasKey(fields, name) {
          fields := Put(fields, name, DocumentField(c));
        }
        i := i + 1;
      }
      r := Ok(());
    }
  }
}
