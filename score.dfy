/** `ScoreFilterBackend`: exposes each hit's relevance score as a `score`
    field of the node; it adds no query argument and leaves the request as
    it is. */
module Score {
  import opened Wrappers
  import opened Dicts
  import opened Query

  const PREFIX := "score"
  const SCORE_FIELD_NAME := "score"

  /** `has_query_fields`: the backend contributes no query argument. */
  const HAS_QUERY_FIELDS := false

  /** `score_fields`: the one field, read from the hit's `_score`. */
  const SCORE_FIELDS: Dict<string, string> := [(SCORE_FIELD_NAME, "_score")]

  /** `get_backend_document_fields`: the single document field. */
  const DOCUMENT_FIELDS: Dict<string, string> := [(SCORE_FIELD_NAME, "ScoreField")]

  /** `field_belongs_to`: membership in the score fields. */
  function FieldBelongsTo(field: string): (r: bool)
    ensures r <==> field == SCORE_FIELD_NAME
  {
    if HasKey(SCORE_FIELDS, field) then
      assert SCORE_FIELDS[Find(SCORE_FIELDS, field)].0 == field;
      true
    else false
  }

  /** `filter`: the identity. */
  function ScoreFilter(qs: Search): (r: Search)
    ensures r == qs
  {
    qs
  }

  /** The score fields and the document fields have the same single key. */
  lemma ScoreKeys()
    ensures Keys(SCORE_FIELDS) == Keys(DOCUMENT_FIELDS) == [SCORE_FIELD_NAME]
    ensures Get(SCORE_FIELDS, SCORE_FIELD_NAME) == Some("_score")
  {
  }
}
