/**
 * dashboard.py: every poll's reviews are counted and scored, the top five
 * words, the score histogram and the average score are shown, and then both
 * accumulators are cleared, so each view covers exactly one poll's records.
 * Rendering with Streamlit and matplotlib, and the ten-second sleep, are not
 * part of this model.
 */
module LiveDashboard {
  import opened Wrappers
  import opened Text
  import opened WordTally
  import opened Sentiment
  import opened Records

  /** How many words the view lists (`most_common(5)`). */
  const TopWordCount := 5

  /** What one refresh shows; `averageScore` is `None` when no score was collected. */
  datatype View = View(topWords: Tally, scores: seq<real>, averageScore: Option<real>)

  /**
   * The review a record contributes, as read and NOT stripped: only the
   * blankness test looks at the stripped text.
   */
  function AcceptedText(r: Record): (t: Option<string>)
    ensures t.Some? <==> r.Decoded? && !AllSpace(ReviewText(r).value)
    ensures t.Some? ==> t.value == ReviewText(r).value
  {
    match ReviewText(r)
    case None => None
    case Some(review) => if Strip(review) == [] then None else Some(review)
  }

  /** The reviews a batch of records contributes, in arrival order. */
  function Accepted(records: seq<Record>): (texts: seq<string>)
    ensures |texts| <= |records|
  {
    if records == [] then []
    else
      var t := AcceptedText(records[|records| - 1]);
      Accepted(records[..|records| - 1]) + (if t.Some? then [t.value] else [])
  }

  lemma AcceptedStep(records: seq<Record>, i: nat)
    requires i < |records|
    ensures var t := AcceptedText(records[i]);
      Accepted(records[..i + 1]) == Accepted(records[..i]) + (if t.Some? then [t.value] else [])
  {
    assert records[..i + 1][..i] == records[..i];
  }

  /** The words of a sequence of reviews, review after review. */
  function BatchWords(texts: seq<string>, wordTokenize: string -> seq<string>): seq<string> {
    if texts == [] then []
    else BatchWords(texts[..|texts| - 1], wordTokenize) + ReviewWords(texts[|texts| - 1], wordTokenize)
  }

  lemma {:induction false} BatchWordsAlpha(texts: seq<string>, wordTokenize: string -> seq<string>)
    ensures forall w | w in BatchWords(texts, wordTokenize) :: IsAlpha(w)
  {
    if texts != [] {
      BatchWordsAlpha(texts[..|texts| - 1], wordTokenize);
    }
  }

  /** The average shown under the charts: present exactly when there are scores, and then their mean. */
  function Average(scores: seq<real>): (a: Option<real>)
    ensures a.Some? <==> |scores| > 0
    ensures a.Some? ==> a.value * |scores| as real == Sum(scores)
  {
    if |scores| > 0 then Some(Mean(scores)) else None
  }

  /** The view of one poll's accepted reviews. */
  function ViewOf(texts: seq<string>, polarity: string -> real, wordTokenize: string -> seq<string>): (v: View)
    ensures |v.topWords| <= TopWordCount && NonIncreasing(v.topWords)
    ensures |v.scores| == |texts|
    ensures v.averageScore.Some? <==> texts != []
  {
    var scores := ScoresOf(texts, polarity);
    View(MostCommon(Count(BatchWords(texts, wordTokenize)), TopWordCount), scores, Average(scores))
  }

  /**
   * What a view holds: each listed word is an alphabetic word of the poll's
   * reviews together with its number of occurrences, no word left out
   * occurs more often than a listed one, the scores are the
   * reviews' polarities in arrival order, and the average lies within the
   * range of the scores.
   */
  lemma ViewSpec(texts: seq<string>, polarity: string -> real, wordTokenize: string -> seq<string>, lo: real, hi: real)
    requires forall i :: 0 <= i < |texts| ==> lo <= polarity(texts[i]) <= hi
    ensures var v := ViewOf(texts, polarity, wordTokenize);
      && (forall i :: 0 <= i < |v.topWords| ==>
            IsAlpha(v.topWords[i].0) && v.topWords[i].1 == Occ(BatchWords(texts, wordTokenize), v.topWords[i].0))
      && (forall i :: 0 <= i < |texts| ==> v.scores[i] == polarity(texts[i]))
      && (forall w :: w in BatchWords(texts, wordTokenize) && (forall i :: 0 <= i < |v.topWords| ==> v.topWords[i].0 != w) ==>
            forall i :: 0 <= i < |v.topWords| ==> v.topWords[i].1 >= Occ(BatchWords(texts, wordTokenize), w))
      && (v.averageScore.Some? ==> lo <= v.averageScore.value <= hi)
  {
    var words := BatchWords(texts, wordTokenize);
    BatchWordsAlpha(texts, wordTokenize);
    MostCommonCounts(words, TopWordCount);
    forall w | w in words && (forall i :: 0 <= i < |MostCommon(Count(words), TopWordCount)| ==> MostCommon(Count(words), TopWordCount)[i].0 != w)
      ensures forall i :: 0 <= i < |MostCommon(Count(words), TopWordCount)| ==> MostCommon(Count(words), TopWordCount)[i].1 >= Occ(words, w)
    {
      MostCommonBeats(words, TopWordCount, w);
    }
    if texts != [] {
      MeanBounds(ScoresOf(texts, polarity), lo, hi);
    }
  }

  /** `counts` and `scores` are exactly the word counts and the polarities of `texts`. */
  ghost predicate Tracks(texts: seq<string>, counts: Tally, scores: seq<real>, polarity: string -> real, wordTokenize: string -> seq<string>) {
    && counts == Count(BatchWords(texts, wordTokenize))
    && scores == ScoresOf(texts, polarity)
  }

  /** Counting one more review's words and appending its score keeps the accumulators in step. */
  lemma TracksAppend(texts: seq<string>, counts: Tally, scores: seq<real>, t: string, polarity: string -> real, wordTokenize: string -> seq<string>)
    requires Tracks(texts, counts, scores, polarity, wordTokenize)
    ensures Tracks(texts + [t], AddAll(counts, ReviewWords(t, wordTokenize)), scores + [polarity(t)], polarity, wordTokenize)
  {
    assert (texts + [t])[..|texts|] == texts;
    AddAllAppend([], BatchWords(texts, wordTokenize), ReviewWords(t, wordTokenize));
    ScoresOfAppend(texts, [t], polarity);
  }

  class Dashboard {
    /** TextBlob's polarity, a collaborator outside this model. */
    const polarity: string -> real
    /** NLTK's `word_tokenize`, a collaborator outside this model. */
    const wordTokenize: string -> seq<string>

    var shardIterator: string
    var wordCounts: Tally
    var sentimentScores: seq<real>

    /** Between refreshes both accumulators are empty: lines 91-92 clear them on every pass. */
    predicate Valid()
      reads this
    {
      wordCounts == [] && sentimentScores == []
    }

    /** The accumulators hold exactly the words and scores of `texts`. */
    ghost predicate Holds(texts: seq<string>)
      reads this
    {
      Tracks(texts, wordCounts, sentimentScores, polarity, wordTokenize)
    }

    /** `shardIterator` comes from `get_shard_iterator(..., 'TRIM_HORIZON')`. */
    constructor (shardIterator: string, polarity: string -> real, wordTokenize: string -> seq<string>)
      ensures Valid()
      ensures this.shardIterator == shardIterator && this.polarity == polarity && this.wordTokenize == wordTokenize
    {
      this.polarity := polarity;
      this.wordTokenize := wordTokenize;
      this.shardIterator := shardIterator;
      wordCounts := [];
      sentimentScores := [];
    }

    /** The body of the per-record loop (lines 40-53): the words are counted first, then the score is kept. */
    method Absorb(record: Record, ghost texts: seq<string>)
      requires Holds(texts)
      modifies this
      ensures shardIterator == old(shardIterator)
      ensures var t := AcceptedText(record);
        Holds(texts + if t.Some? then [t.value] else [])
    {
      var review := AcceptedText(record);  // None when reading the text raised or it is blank
      if review.Some? {
        TracksAppend(texts, wordCounts, sentimentScores, review.value, polarity, wordTokenize);
        var words := ReviewWords(review.value, wordTokenize);
        wordCounts := AddAll(wordCounts, words);
        var sentiment := polarity(review.value);
        sentimentScores := sentimentScores + [sentiment];
      } else {
        assert texts + [] == texts;
      }
    }

    /** The `for record in records` loop (lines 39-56), starting from cleared accumulators. */
    method AbsorbAll(records: seq<Record>)
      requires Valid()
      modifies this
      ensures shardIterator == old(shardIterator)
      ensures Holds(Accepted(records))
    {
      var i := 0;
      while i < |records|
        invariant 0 <= i <= |records|
        invariant shardIterator == old(shardIterator)
        invariant Holds(Accepted(records[..i]))
      {
        AcceptedStep(records, i);
        Absorb(records[i], Accepted(records[..i]));
        i := i + 1;
      }
      assert records[..i] == records;
    }

    /**
     * One pass of the `while True` loop: take the poll's answer, absorb its
     * records, build the view and clear both accumulators.
     */
    method Tick(response: Response) returns (view: View)
      requires Valid()
      modifies this
      ensures Valid()
      ensures shardIterator == response.nextShardIterator
      ensures view == ViewOf(Accepted(response.records), polarity, wordTokenize)
    {
      shardIterator := response.nextShardIterator;
      AbsorbAll(response.records);
      var topWords := MostCommon(wordCounts, TopWordCount);
      var average := None;
      if |sentimentScores| > 0 {
        average := Some(Sum(sentimentScores) / |sentimentScores| as real);
      }
      view := View(topWords, sentimentScores, average);
      wordCounts := [];
      sentimentScores := [];
    }
  }
}
