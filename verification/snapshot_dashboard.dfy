/**
 * matplotlib_dashboard.py: reviews are gathered into a window; after a poll
 * that leaves 50 or more reviews in it, the window is drained into one
 * snapshot (top ten words, score histogram, average score) and emptied. The
 * snapshot is rendered to a PNG and uploaded to S3, which this model leaves
 * out; the window is emptied whether or not the upload worked.
 */
module SnapshotDashboard {
  import opened Wrappers
  import opened Text
  import opened WordTally
  import opened Sentiment
  import opened Records

  /** A drain happens after a poll that leaves at least this many reviews in the window. */
  const DrainThreshold := 50

  /** How many words the snapshot's bar chart shows (`most_common(10)`). */
  const TopWordCount := 10

  /** `{"review_text": review, "sentiment_score": sentiment}` */
  datatype ReviewEntry = ReviewEntry(reviewText: string, sentimentScore: real)

  /** What one drain hands to the renderer. */
  datatype Snapshot = Snapshot(topWords: Tally, scores: seq<real>, averageScore: real)

  /** The window entry a record yields: its stripped review and that review's polarity, unless the review is missing or blank. */
  function EntryOf(r: Record, polarity: string -> real): (e: Option<ReviewEntry>)
    ensures e.Some? ==> r.Decoded? && e.value.reviewText == Strip(ReviewText(r).value) != []
    ensures e.Some? ==> e.value.sentimentScore == polarity(e.value.reviewText)
    ensures e.Some? <==> r.Decoded? && !AllSpace(ReviewText(r).value)
  {
    match ReviewText(r)
    case None => None
    case Some(text) =>
      var review := Strip(text);
      if review == [] then None else Some(ReviewEntry(review, polarity(review)))
  }

  /** What one record adds to the window: its entry, or nothing. */
  function Yield(r: Record, polarity: string -> real): seq<ReviewEntry> {
    var e := EntryOf(r, polarity);
    if e.Some? then [e.value] else []
  }

  /** The entries a batch of records adds to the window, in arrival order. */
  function Absorbed(records: seq<Record>, polarity: string -> real): (es: seq<ReviewEntry>)
    ensures |es| <= |records|
  {
    if records == [] then []
    else Absorbed(records[..|records| - 1], polarity) + Yield(records[|records| - 1], polarity)
  }

  lemma AbsorbedStep(records: seq<Record>, i: nat, polarity: string -> real)
    requires i < |records|
    ensures Absorbed(records[..i + 1], polarity) == Absorbed(records[..i], polarity) + Yield(records[i], polarity)
  {
    assert records[..i + 1][..i] == records[..i];
  }

  /** The words of all reviews in a window, review after review. */
  function WindowWords(window: seq<ReviewEntry>, wordTokenize: string -> seq<string>): seq<string> {
    if window == [] then []
    else WindowWords(window[..|window| - 1], wordTokenize) + ReviewWords(window[|window| - 1].reviewText, wordTokenize)
  }

  lemma {:induction false} WindowWordsAlpha(window: seq<ReviewEntry>, wordTokenize: string -> seq<string>)
    ensures forall i :: 0 <= i < |WindowWords(window, wordTokenize)| ==> IsAlpha(WindowWords(window, wordTokenize)[i])
  {
    if window != [] {
      WindowWordsAlpha(window[..|window| - 1], wordTokenize);
    }
  }

  /** Counting a window grown by one review is counting the old window and then that review's words. */
  lemma WindowCountAppend(window: seq<ReviewEntry>, e: ReviewEntry, wordTokenize: string -> seq<string>)
    ensures Count(WindowWords(window + [e], wordTokenize))
         == AddAll(Count(WindowWords(window, wordTokenize)), ReviewWords(e.reviewText, wordTokenize))
  {
    assert (window + [e])[..|window|] == window;
    AddAllAppend([], WindowWords(window, wordTokenize), ReviewWords(e.reviewText, wordTokenize));
  }

  function WindowScores(window: seq<ReviewEntry>): (r: seq<real>)
    ensures |r| == |window|
    ensures forall i :: 0 <= i < |window| ==> r[i] == window[i].sentimentScore
  {
    seq(|window|, i requires 0 <= i < |window| => window[i].sentimentScore)
  }

  /** The snapshot of a non-empty window: `most_common(10)` of its words and the mean of all its scores. */
  function SnapshotOf(window: seq<ReviewEntry>, wordTokenize: string -> seq<string>): (s: Snapshot)
    requires |window| > 0
    ensures |s.topWords| <= TopWordCount && NonIncreasing(s.topWords)
    ensures s.scores == WindowScores(window)
  {
    var scores := WindowScores(window);
    Snapshot(MostCommon(Count(WindowWords(window, wordTokenize)), TopWordCount), scores, Mean(scores))
  }

  /**
   * What a snapshot holds: only alphabetic words, each with its number of
   * occurrences in the window, none left out that beats a shown one; and an
   * average that lies within the range of the scores.
   */
  lemma SnapshotSpec(window: seq<ReviewEntry>, wordTokenize: string -> seq<string>, lo: real, hi: real)
    requires |window| > 0
    requires forall i :: 0 <= i < |window| ==> lo <= window[i].sentimentScore <= hi
    ensures var s := SnapshotOf(window, wordTokenize);
      && lo <= s.averageScore <= hi
      && (forall i :: 0 <= i < |s.topWords| ==>
            IsAlpha(s.topWords[i].0) && s.topWords[i].1 == Occ(WindowWords(window, wordTokenize), s.topWords[i].0))
      && (forall w :: w in WindowWords(window, wordTokenize) && (forall i :: 0 <= i < |s.topWords| ==> s.topWords[i].0 != w) ==>
            forall i :: 0 <= i < |s.topWords| ==> s.topWords[i].1 >= Occ(WindowWords(window, wordTokenize), w))
  {
    var words := WindowWords(window, wordTokenize);
    MeanBounds(WindowScores(window), lo, hi);
    WindowWordsAlpha(window, wordTokenize);
    MostCommonCounts(words, TopWordCount);
    forall w | w in words && (forall i :: 0 <= i < |MostCommon(Count(words), TopWordCount)| ==> MostCommon(Count(words), TopWordCount)[i].0 != w)
      ensures forall i :: 0 <= i < |MostCommon(Count(words), TopWordCount)| ==> MostCommon(Count(words), TopWordCount)[i].1 >= Occ(words, w)
    {
      MostCommonBeats(words, TopWordCount, w);
    }
  }

  /**
   * A poll returns at most `RecordLimit` records, so the window a drain
   * snapshots holds fewer than `DrainThreshold + RecordLimit` reviews.
   */
  lemma WindowBound(window: seq<ReviewEntry>, records: seq<Record>, polarity: string -> real)
    requires |window| < DrainThreshold && |records| <= RecordLimit
    ensures |window + Absorbed(records, polarity)| < DrainThreshold + RecordLimit
  {
  }

  /** A non-empty review with no whitespace at either end, together with its own polarity. */
  predicate IsStored(e: ReviewEntry, polarity: string -> real) {
    && e.reviewText != []
    && !IsSpace(e.reviewText[0]) && !IsSpace(e.reviewText[|e.reviewText| - 1])
    && e.sentimentScore == polarity(e.reviewText)
  }

  predicate AllStored(window: seq<ReviewEntry>, polarity: string -> real) {
    forall e | e in window :: IsStored(e, polarity)
  }

  /** The counter invariant: the counter holds exactly the words of the reviews in the window. */
  ghost predicate Tracks(window: seq<ReviewEntry>, counter: Tally, wordTokenize: string -> seq<string>) {
    counter == Count(WindowWords(window, wordTokenize))
  }

  /** Every entry a record yields is a stored review. */
  lemma EntryStored(r: Record, polarity: string -> real)
    ensures EntryOf(r, polarity).Some? ==> IsStored(EntryOf(r, polarity).value, polarity)
  {
  }

  /** Every entry a batch of records yields is a stored review. */
  lemma {:induction false} AbsorbedStored(records: seq<Record>, polarity: string -> real)
    ensures AllStored(Absorbed(records, polarity), polarity)
  {
    if records != [] {
      AbsorbedStored(records[..|records| - 1], polarity);
      EntryStored(records[|records| - 1], polarity);
    }
  }

  /** Absorbing one record keeps the counter invariant. */
  lemma TracksYield(window: seq<ReviewEntry>, counter: Tally, r: Record, polarity: string -> real, wordTokenize: string -> seq<string>)
    requires Tracks(window, counter, wordTokenize)
    ensures var e := EntryOf(r, polarity);
      e.Some? ==> Tracks(window + [e.value], AddAll(counter, ReviewWords(e.value.reviewText, wordTokenize)), wordTokenize)
  {
    var e := EntryOf(r, polarity);
    if e.Some? {
      WindowCountAppend(window, e.value, wordTokenize);
    }
  }

  class Dashboard {
    /** TextBlob's polarity, a collaborator outside this model. */
    const polarity: string -> real
    /** NLTK's `word_tokenize`, a collaborator outside this model. */
    const wordTokenize: string -> seq<string>

    var shardIterator: string
    var reviewData: seq<ReviewEntry>
    var wordCounter: Tally

    /** The counter holds exactly the words of the reviews in the window. */
    ghost predicate Consistent()
      reads this
    {
      Tracks(reviewData, wordCounter, wordTokenize)
    }

    /**
     * Between polls the counter is consistent, every entry is a non-blank
     * stripped review with its own polarity, and the window is below the
     * drain threshold.
     */
    ghost predicate Valid()
      reads this
    {
      Consistent() && AllStored(reviewData, polarity) && |reviewData| < DrainThreshold
    }

    /** `shardIterator` comes from `get_shard_iterator(..., 'TRIM_HORIZON')`. */
    constructor (shardIterator: string, polarity: string -> real, wordTokenize: string -> seq<string>)
      ensures Valid()
      ensures this.shardIterator == shardIterator && this.polarity == polarity && this.wordTokenize == wordTokenize
      ensures reviewData == [] && wordCounter == []
    {
      this.polarity := polarity;
      this.wordTokenize := wordTokenize;
      this.shardIterator := shardIterator;
      reviewData := [];
      wordCounter := [];
    }

    /** The body of the per-record loop (lines 43-55). */
    method Absorb(record: Record)
      requires Consistent()
      modifies this
      ensures Consistent()
      ensures shardIterator == old(shardIterator)
      ensures reviewData == old(reviewData) + Yield(record, polarity)
    {
      var entry := EntryOf(record, polarity);  // None when reading the text raised or it is blank
      if entry.Some? {
        TracksYield(reviewData, wordCounter, record, polarity, wordTokenize);
        reviewData := reviewData + [entry.value];
        wordCounter := AddAll(wordCounter, ReviewWords(entry.value.reviewText, wordTokenize));
      }
    }

    /** The `for record in records` loop (lines 42-55), absorbing one record after another. */
    method AbsorbAll(records: seq<Record>)
      requires Consistent()
      modifies this
      ensures Consistent()
      ensures shardIterator == old(shardIterator)
      ensures reviewData == old(reviewData) + Absorbed(records, polarity)
    {
      var i := 0;
      while i < |records|
        invariant 0 <= i <= |records|
        invariant Consistent()
        invariant shardIterator == old(shardIterator)
        invariant reviewData == old(reviewData) + Absorbed(records[..i], polarity)
      {
        AbsorbedStep(records, i, polarity);
        Absorb(records[i]);
        i := i + 1;
      }
      assert records[..i] == records;
    }

    /**
     * One pass of the `while True` loop: take the poll's answer, absorb its
     * records, and drain the window if it has reached the threshold.
     * `uploaded` is the outcome of the S3 upload, which the script only logs.
     */
    method Tick(response: Response, uploaded: bool) returns (snapshot: Option<Snapshot>)
      requires Valid()
      modifies this
      ensures Valid()
      ensures shardIterator == response.nextShardIterator
      ensures var window := old(reviewData) + Absorbed(response.records, polarity);
        if |window| >= DrainThreshold then
          snapshot == Some(SnapshotOf(window, wordTokenize)) && reviewData == [] && wordCounter == []
        else
          snapshot == None && reviewData == window && wordCounter == Count(WindowWords(window, wordTokenize))
      ensures snapshot.Some? ==>
        DrainThreshold <= |snapshot.value.scores| < DrainThreshold + |response.records|
    {
      AbsorbAll(response.records);
      AbsorbedStored(response.records, polarity);
      shardIterator := response.nextShardIterator;
      snapshot := None;
      if |reviewData| >= DrainThreshold {
        var topWords := MostCommon(wordCounter, TopWordCount);
        var scores := WindowScores(reviewData);
        var average := Mean(scores);
        snapshot := Some(Snapshot(topWords, scores, average));
        reviewData := [];
        wordCounter := [];
      }
    }
  }
}
