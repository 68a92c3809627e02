/**
 * What the three stream dashboards read from Kinesis. The poll itself
 * (`get_records` with `Limit=100`) is network I/O and is not part of this
 * model; its answer is passed in as a `Response`.
 */
module Records {
  import opened Wrappers

  /**
   * One record's payload after `json.loads`. `Undecodable` stands for every
   * payload on which reading the review raises (invalid JSON, not an object,
   * a `reviews.text` value that is not a string): the scripts catch that and
   * move on. `Decoded(None)` is an object without the `reviews.text` key.
   */
  datatype Record = Undecodable | Decoded(reviewText: Option<string>)

  /**
   * The answer to one poll: its records and the next shard iterator. The
   * scripts ask for at most `RecordLimit` records; the type does not bound
   * them, and only `SnapshotDashboard.WindowBound` relies on the limit.
   */
  datatype Response = Response(records: seq<Record>, nextShardIterator: string)

  /** The `Limit` passed to every `get_records` call. */
  const RecordLimit := 100

  /** `data.get("reviews.text", "")`, or `None` when reading the field raises. */
  function ReviewText(r: Record): (t: Option<string>)
    ensures t.None? <==> r.Undecodable?
    ensures r.Decoded? && r.reviewText.None? ==> t == Some("")
  {
    match r
    case Undecodable => None
    case Decoded(text) => Some(text.GetOr(""))
  }
}
