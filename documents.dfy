/** The `elasticsearch_dsl` field and document objects that the library
    inspects. Only what it reads is kept: the field class, the class-level
    `name`, the `_required` and `_multi` flags, and whether the field has a
    `_doc_class` or `fields` (sub-fields) attribute. */
module Documents {
  import opened Wrappers
  import opened Dicts

  /** The field classes the converter dispatches on; any other class is
      `OtherKind`, named by its class name. */
  datatype FieldKind =
    | Text | Keyword
    | Byte | Integer | Long | Short
    | Boolean
    | Double | HalfFloat | Float | ScaledFloat
    | Date
    | Object | Nested
    | OtherKind(className: string)

  /** A mapping field. `docClass` is the name of its `_doc_class` when it has
      one; `subFields` maps each sub-field name to the name of the sub-field's
      class when the field has a `fields` attribute. */
  datatype EsField = EsField(
    kind: FieldKind,
    name: Option<string>,
    required: bool,
    multi: bool,
    docClass: Option<string>,
    subFields: Option<Dict<string, string>>)

  /** A document class: its class name and its mapping properties, in the
      mapping's order. */
  datatype Document = Document(className: string, properties: Dict<string, EsField>)

  /** `elasticsearch_dsl.Keyword()`, which carries elasticsearch-dsl's
      class-level name `keyword`. */
  const KEYWORD_FIELD := EsField(Keyword, Some("keyword"), false, false, None, None)
}
