/**
 * kinesis_dashboard.py: a feed of the five most recent non-blank reviews,
 * newest first, each stripped and cut to 200 characters. Rendering with
 * Streamlit and the two-second sleep are not part of this model.
 */
module RecentReviews {
  import opened Wrappers
  import opened Text
  import opened Records

  /** `MAX_REVIEWS`: how many reviews the feed keeps. */
  const MaxReviews := 5

  /** `review[:200]`: how many characters of a review the feed keeps. */
  const MaxReviewChars := 200

  /** What the feed shows for a record: the start of its stripped review, unless the review is missing or blank. */
  function Shown(r: Record): (s: Option<string>)
    ensures s.Some? <==> r.Decoded? && !AllSpace(ReviewText(r).value)
    ensures s.Some? ==> 0 < |s.value| <= MaxReviewChars && s.value <= Strip(ReviewText(r).value)
  {
    match ReviewText(r)
    case None => None
    case Some(text) =>
      var review := Strip(text);
      if review == [] then None else Some(Take(review, MaxReviewChars))
  }

  /** What one record puts in front of the feed: its shown review, or nothing. */
  function Yield(r: Record): seq<string> {
    var s := Shown(r);
    if s.Some? then [s.value] else []
  }

  /** The reviews a batch of records puts on the feed, the last record's first. */
  function NewestFirst(records: seq<Record>): (s: seq<string>)
    ensures |s| <= |records|
  {
    if records == [] then []
    else
      Yield(records[|records| - 1]) + NewestFirst(records[..|records| - 1])
  }

  lemma NewestFirstStep(records: seq<Record>, i: nat)
    requires i < |records|
    ensures NewestFirst(records[..i + 1]) == Yield(records[i]) + NewestFirst(records[..i])
  {
    assert records[..i + 1][..i] == records[..i];
  }

  /** Absorbing one more record onto a feed built from `records[..i]` gives the feed built from `records[..i + 1]`. */
  lemma FeedStep(records: seq<Record>, i: nat, start: seq<string>, before: seq<string>)
    requires i < |records|
    requires before == Take(NewestFirst(records[..i]) + start, MaxReviews)
    ensures Take(Yield(records[i]) + before, MaxReviews) == Take(NewestFirst(records[..i + 1]) + start, MaxReviews)
  {
    NewestFirstStep(records, i);
    PrependThenTake(Yield(records[i]), NewestFirst(records[..i]), start, MaxReviews);
  }

  /** Every review a batch puts on the feed is what the feed shows for one of the batch's records. */
  lemma {:induction false} NewestFirstShown(records: seq<Record>)
    ensures forall x | x in NewestFirst(records) :: exists j :: 0 <= j < |records| && Shown(records[j]) == Some(x)
  {
    if records != [] {
      var n := |records| - 1;
      NewestFirstShown(records[..n]);
      forall x | x in NewestFirst(records)
        ensures exists j :: 0 <= j < |records| && Shown(records[j]) == Some(x)
      {
        if x in Yield(records[n]) {
          assert Shown(records[n]) == Some(x);
        } else {
          assert x in NewestFirst(records[..n]);
          var j :| 0 <= j < n && Shown(records[..n][j]) == Some(x);
          assert records[..n][j] == records[j];
        }
      }
    }
  }

  /** A feed entry: non-empty, and no longer than `MaxReviewChars`. */
  predicate Fits(review: string) {
    0 < |review| <= MaxReviewChars
  }

  class Feed {
    var shardIterator: string
    var reviewBuffer: seq<string>

    /** The buffer never holds more than `MaxReviews` entries, each of which fits. */
    predicate Valid()
      reads this
    {
      |reviewBuffer| <= MaxReviews && forall i :: 0 <= i < |reviewBuffer| ==> Fits(reviewBuffer[i])
    }

    /** `shardIterator` comes from `get_shard_iterator(..., 'LATEST')`. */
    constructor (shardIterator: string)
      ensures Valid()
      ensures this.shardIterator == shardIterator && reviewBuffer == []
    {
      this.shardIterator := shardIterator;
      reviewBuffer := [];
    }

    /** The body of the per-record loop (lines 34-39): insert at the front, then keep the first five. */
    method Absorb(record: Record)
      requires Valid()
      modifies this
      ensures Valid()
      ensures shardIterator == old(shardIterator)
      ensures reviewBuffer == Take(Yield(record) + old(reviewBuffer), MaxReviews)
    {
      var review := Shown(record);  // None when reading the text raised or it is blank
      if review.Some? {
        reviewBuffer := [review.value] + reviewBuffer;
        reviewBuffer := Take(reviewBuffer, MaxReviews);
      }
    }

    /** The `for record in records` loop (lines 33-41). */
    method AbsorbAll(records: seq<Record>)
      requires Valid()
      modifies this
      ensures Valid()
      ensures shardIterator == old(shardIterator)
      ensures reviewBuffer == Take(NewestFirst(records) + old(reviewBuffer), MaxReviews)
    {
      var i := 0;
      while i < |records|
        invariant 0 <= i <= |records|
        invariant Valid()
        invariant shardIterator == old(shardIterator)
        invariant reviewBuffer == Take(NewestFirst(records[..i]) + old(reviewBuffer), MaxReviews)
      {
        FeedStep(records, i, old(reviewBuffer), reviewBuffer);
        Absorb(records[i]);
        i := i + 1;
      }
      assert records[..i] == records;
    }

    /** One pass of the `while True` loop: take the poll's answer and absorb its records. */
    method Tick(response: Response)
      requires Valid()
      modifies this
      ensures Valid()
      ensures shardIterator == response.nextShardIterator
      ensures reviewBuffer == Take(NewestFirst(response.records) + old(reviewBuffer), MaxReviews)
    {
      shardIterator := response.nextShardIterator;
      AbsorbAll(response.records);
    }
  }

  /**
   * One insert-then-truncate step on a buffer of at most `MaxReviews`
   * entries: a blank record leaves it as it was; otherwise the shown review
   * comes first, followed by the first `MaxReviews - 1` old entries in order.
   */
  lemma PushFront(r: Record, buffer: seq<string>)
    requires |buffer| <= MaxReviews
    ensures var b := Take(Yield(r) + buffer, MaxReviews);
      && (Shown(r).None? ==> b == buffer)
      && (Shown(r).Some? ==>
            && |b| == (if |buffer| < MaxReviews then |buffer| + 1 else MaxReviews)
            && b[0] == Shown(r).value
            && b[1..] == buffer[..|b| - 1])
  {
    var s := Shown(r);
    if s.Some? {
      assert Yield(r) == [s.value];
      TakePush(s.value, buffer, MaxReviews);
    } else {
      assert Yield(r) + buffer == buffer;
    }
  }

  /** A poll that puts at least `MaxReviews` reviews on the feed replaces the whole buffer. */
  lemma FullPollReplaces(records: seq<Record>, buffer: seq<string>)
    requires |NewestFirst(records)| >= MaxReviews
    ensures Take(NewestFirst(records) + buffer, MaxReviews) == NewestFirst(records)[..MaxReviews]
  {
  }
}
