/** Names and values the backends compare against. The library keeps them in
    its `constants` module; the values here follow the lookup names the
    filtering documentation lists. */
module Constants {
  import opened Values

  const VALUE := "value"
  const LOWER := "lower"
  const UPPER := "upper"
  const GTE := "gte"
  const LTE := "lte"
  const BOOST := "boost"
  const ALL := "query"

  const LOOKUP_FILTER_TERM := "term"
  const LOOKUP_FILTER_TERMS := "terms"
  const LOOKUP_FILTER_RANGE := "range"
  const LOOKUP_FILTER_EXISTS := "exists"
  const LOOKUP_FILTER_PREFIX := "prefix"
  const LOOKUP_FILTER_WILDCARD := "wildcard"
  const LOOKUP_FILTER_REGEXP := "regexp"
  const LOOKUP_FILTER_FUZZY := "fuzzy"
  const LOOKUP_FILTER_TYPE := "type"
  const LOOKUP_FILTER_GEO_DISTANCE := "geo_distance"
  const LOOKUP_FILTER_GEO_POLYGON := "geo_polygon"
  const LOOKUP_FILTER_GEO_BOUNDING_BOX := "geo_bounding_box"
  const LOOKUP_QUERY_CONTAINS := "contains"
  const LOOKUP_QUERY_IN := "in"
  const LOOKUP_QUERY_GT := "gt"
  const LOOKUP_QUERY_GTE := "gte"
  const LOOKUP_QUERY_LT := "lt"
  const LOOKUP_QUERY_LTE := "lte"
  const LOOKUP_QUERY_STARTSWITH := "starts_with"
  const LOOKUP_QUERY_ENDSWITH := "ends_with"
  const LOOKUP_QUERY_ISNULL := "is_null"
  const LOOKUP_QUERY_EXCLUDE := "exclude"

  /** Every lookup a filter field accepts when it lists none; `term` first,
      so it is the default lookup. */
  const ALL_LOOKUP_FILTERS_AND_QUERIES: seq<string> := [
    LOOKUP_FILTER_TERM, LOOKUP_FILTER_TERMS, LOOKUP_FILTER_RANGE,
    LOOKUP_FILTER_EXISTS, LOOKUP_FILTER_PREFIX, LOOKUP_FILTER_WILDCARD,
    LOOKUP_FILTER_REGEXP, LOOKUP_FILTER_FUZZY, LOOKUP_FILTER_TYPE,
    LOOKUP_FILTER_GEO_DISTANCE, LOOKUP_FILTER_GEO_POLYGON,
    LOOKUP_FILTER_GEO_BOUNDING_BOX, LOOKUP_QUERY_CONTAINS, LOOKUP_QUERY_IN,
    LOOKUP_QUERY_GT, LOOKUP_QUERY_GTE, LOOKUP_QUERY_LT, LOOKUP_QUERY_LTE,
    LOOKUP_QUERY_STARTSWITH, LOOKUP_QUERY_ENDSWITH, LOOKUP_QUERY_ISNULL,
    LOOKUP_QUERY_EXCLUDE
  ]

  /** The key set of the lookup-to-argument-type table: the lookups that have
      a GraphQL input type (regexp, fuzzy and type have none). */
  const LOOKUP_FILTER_MAPPING: seq<string> := [
    LOOKUP_FILTER_TERM, LOOKUP_FILTER_TERMS, LOOKUP_FILTER_RANGE,
    LOOKUP_FILTER_EXISTS, LOOKUP_FILTER_PREFIX, LOOKUP_FILTER_WILDCARD,
    LOOKUP_FILTER_GEO_DISTANCE, LOOKUP_FILTER_GEO_POLYGON,
    LOOKUP_FILTER_GEO_BOUNDING_BOX, LOOKUP_QUERY_CONTAINS, LOOKUP_QUERY_IN,
    LOOKUP_QUERY_GT, LOOKUP_QUERY_GTE, LOOKUP_QUERY_LT, LOOKUP_QUERY_LTE,
    LOOKUP_QUERY_STARTSWITH, LOOKUP_QUERY_ENDSWITH, LOOKUP_QUERY_ISNULL,
    LOOKUP_QUERY_EXCLUDE
  ]

  const TRUE_VALUES: seq<Value> := [
    Str("t"), Str("T"), Str("true"), Str("True"), Str("TRUE"), Str("1"), Int(1), Bool(true)
  ]
  const FALSE_VALUES: seq<Value> := [
    Str("f"), Str("F"), Str("false"), Str("False"), Str("FALSE"), Str("0"), Int(0), Bool(false)
  ]

  const SEPARATOR_LOOKUP_FILTER := "."
  const SEPARATOR_LOOKUP_COMPLEX_VALUE := ":"
  const SEPARATOR_LOOKUP_COMPLEX_MULTIPLE_VALUE := ","
  const SEPARATOR_LOOKUP_NAME := "__"

  /** The values of the `Direction` enum's members `ASC` and `DESC`. */
  const ORDER_ASC := "asc"
  const ORDER_DESC := "desc"

  const MATCHING_OPTION_MUST := "must"
  const MATCHING_OPTION_SHOULD := "should"
  const MATCHING_OPTIONS: seq<string> := [MATCHING_OPTION_MUST, MATCHING_OPTION_SHOULD]
  const DEFAULT_MATCHING_OPTION := MATCHING_OPTION_SHOULD

  /** No value is both a true value and a false value. */
  lemma TrueFalseDisjoint(v: Value)
    ensures !(PyIn(v, TRUE_VALUES) && PyIn(v, FALSE_VALUES))
  {
  }
}
