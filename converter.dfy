/** `convert_elasticsearch_field`: the single-dispatch table from an
    Elasticsearch field class to the GraphQL scalar that represents it. */
module Converter {
  import opened Wrappers
  import opened Documents
  import opened Utils

  /** The graphene scalar types the table produces. */
  datatype Scalar = String | Int | Boolean | Float | DateTime | JSONString

  /** A converted field: its scalar type, `description` and `required`. */
  datatype Converted = Converted(scalar: Scalar, description: string, required: bool)

  /** The registered conversions, by field class; None for a class with no
      registration. */
  function ScalarOf(kind: FieldKind): (r: Option<Scalar>)
    ensures r.None? <==> kind.OtherKind?
  {
    match kind
    case Text => Some(String)
    case Keyword => Some(String)
    case Byte => Some(Int)
    case Integer => Some(Int)
    case Long => Some(Int)
    case Short => Some(Int)
    case Boolean => Some(Scalar.Boolean)
    case Double => Some(Scalar.Float)
    case HalfFloat => Some(Scalar.Float)
    case Float => Some(Scalar.Float)
    case ScaledFloat => Some(Scalar.Float)
    case Date => Some(DateTime)
    case Object => Some(JSONString)
    case Nested => Some(JSONString)
    case OtherKind(_) => None
  }

  /** `convert_elasticsearch_field(field)`: an unregistered class raises
      ElasticsearchConversionError; a registered one yields its scalar,
      carrying the field's description and `required` flag. */
  function Convert(field: EsField): (r: Result<Converted>)
    ensures r.Err? <==> field.kind.OtherKind?
    ensures r.Err? ==> r.error == ConversionError
    ensures r.Ok? ==> r.value.description == field.name.GetOr("") && r.value.required == field.required
  {
    match ScalarOf(field.kind)
    case None => Err(ConversionError)
    case Some(s) => Ok(Converted(s, GetFieldDescription(field), field.required))
  }

  /** The table by groups: text kinds become String, integral kinds Int,
      Boolean Boolean, floating kinds Float, Date DateTime, and Object and
      Nested JSONString. */
  lemma ConvertTable(field: EsField)
    ensures field.kind in {Text, Keyword} ==> Convert(field).Ok? && Convert(field).value.scalar == String
    ensures field.kind in {Byte, Integer, Long, Short} ==> Convert(field).Ok? && Convert(field).value.scalar == Int
    ensures field.kind == FieldKind.Boolean ==> Convert(field).Ok? && Convert(field).value.scalar == Scalar.Boolean
    ensures field.kind in {Double, HalfFloat, FieldKind.Float, ScaledFloat} ==> Convert(field).Ok? && Convert(field).value.scalar == Scalar.Float
    ensures field.kind == Date ==> Convert(field).Ok? && Convert(field).value.scalar == DateTime
    ensures field.kind in {Object, Nested} ==> Convert(field).Ok? && Convert(field).value.scalar == JSONString
  {
  }

  /** Two fields of the same class convert to the same scalar, whatever
      their other attributes. */
  lemma ConvertDependsOnKind(f: EsField, g: EsField)
    requires f.kind == g.kind && !f.kind.OtherKind?
    ensures Convert(f).Ok? && Convert(g).Ok? && Convert(f).value.scalar == Convert(g).value.scalar
  {
  }
}
