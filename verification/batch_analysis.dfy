/**
 * analyze_reviews.py: the one-shot word count and sentiment tally over all
 * reviews, once serially and once split into chunks whose partial results
 * are merged. The worker pool only runs `count_words_chunk` and
 * `analyze_sentiment_chunk` on each chunk; here the chunks are processed one
 * after the other, which yields the same list of partial results.
 */
module BatchAnalysis {
  import opened Wrappers
  import opened Text
  import opened WordTally
  import opened Sentiment

  /** How many of the most frequent words the report keeps (`sorted_words[:10]`). */
  const TopWordCount := 10

  /** `range(0, len(texts), 0)` raises `ValueError` when the chunk size is zero. */
  datatype BatchError = ZeroChunkSize

  datatype BatchReport = BatchReport(
    serialCounts: Tally,          // word_counts_serial
    chunks: seq<seq<string>>,     // chunks
    mergedCounts: Tally,          // final_word_counts
    sortedWords: Tally,           // sorted_words
    topWords: Tally,              // top_words
    sentiment: SentimentCounts)   // final_sentiment

  /** The tokens of all reviews, review after review. */
  function Tokens(texts: seq<string>): seq<string> {
    if texts == [] then [] else Tokens(texts[..|texts| - 1]) + Tokenize(texts[|texts| - 1])
  }

  lemma {:induction false} TokensAppend(a: seq<string>, b: seq<string>)
    ensures Tokens(a + b) == Tokens(a) + Tokens(b)
    decreases |b|
  {
    if b == [] {
      assert a + b == a;
    } else {
      var ab := a + b;
      assert ab[..|ab| - 1] == a + b[..|b| - 1];
      assert ab[|ab| - 1] == b[|b| - 1];
      TokensAppend(a, b[..|b| - 1]);
    }
  }

  /** `count_words_chunk`: the word counts of one chunk of reviews. */
  method CountWordsChunk(chunk: seq<string>) returns (counts: Tally)
    ensures counts == Count(Tokens(chunk))
    ensures Wf(counts)
    ensures forall w :: Get(counts, w) == Occ(Tokens(chunk), w)
    ensures forall w :: Has(counts, w) <==> w in Tokens(chunk)
  {
    counts := [];
    var i := 0;
    while i < |chunk|
      invariant 0 <= i <= |chunk|
      invariant counts == Count(Tokens(chunk[..i]))
    {
      var done := Tokens(chunk[..i]);
      var words := Tokenize(chunk[i]);
      var j := 0;
      while j < |words|
        invariant 0 <= j <= |words|
        invariant counts == AddAll(Count(done), words[..j])
      {
        AddAllAppend(Count(done), words[..j], [words[j]]);
        assert words[..j + 1] == words[..j] + [words[j]];
        counts := Bump(counts, words[j], 1);
        j := j + 1;
      }
      assert words[..j] == words;
      AddAllAppend([], done, words);
      assert chunk[..i + 1][..i] == chunk[..i];
      i := i + 1;
    }
    assert chunk[..i] == chunk;
    CountSpec(Tokens(chunk));
  }

  /** `analyze_sentiment_chunk`: one bucket raised per review, chosen by the sign of its polarity. */
  method AnalyzeSentimentChunk(chunk: seq<string>, polarity: string -> real) returns (result: SentimentCounts)
    ensures result == SentimentOf(ScoresOf(chunk, polarity))
    ensures result.Total() == |chunk|
  {
    result := NoSentiment;
    var i := 0;
    while i < |chunk|
      invariant 0 <= i <= |chunk|
      invariant result == SentimentOf(ScoresOf(chunk[..i], polarity))
    {
      var score := polarity(chunk[i]);
      ghost var next := ScoresOf(chunk[..i + 1], polarity);
      assert next[..i] == ScoresOf(chunk[..i], polarity) && next[i] == score;
      assert SentimentOf(next) == result.Record(Classify(score));
      if score > 0.0 {
        result := result.(positive := result.positive + 1);
      } else if score < 0.0 {
        result := result.(negative := result.negative + 1);
      } else {
        result := result.(neutral := result.neutral + 1);
      }
      i := i + 1;
    }
    assert chunk[..i] == chunk;
    TallyByClass(ScoresOf(chunk, polarity));
  }

  function Min(a: nat, b: nat): nat { if a < b then a else b }

  /** `[texts[i:i + size] for i in range(start, len(texts), size)]` */
  function ChunksFrom(texts: seq<string>, size: nat, start: nat): seq<seq<string>>
    requires size > 0
    decreases |texts| - start
  {
    if start >= |texts| then []
    else [texts[start..Min(start + size, |texts|)]] + ChunksFrom(texts, size, start + size)
  }

  /** The chunk list of line 53, or the error `range` raises for a zero step. */
  function SplitChunks(texts: seq<string>, chunkSize: nat): (r: Result<seq<seq<string>>, BatchError>)
    ensures r.Failure? <==> chunkSize == 0
  {
    if chunkSize == 0 then Failure(ZeroChunkSize) else Success(ChunksFrom(texts, chunkSize, 0))
  }

  lemma {:induction false} ChunksFromSpec(texts: seq<string>, size: nat, start: nat)
    requires size > 0 && start <= |texts|
    ensures var cs := ChunksFrom(texts, size, start);
      && Concat(cs) == texts[start..]
      && (forall k :: 0 <= k < |cs| - 1 ==> |cs[k]| == size)
      && (cs != [] ==> 0 < |cs[|cs| - 1]| <= size)
      && (cs != [] <==> start < |texts|)
    decreases |texts| - start
  {
    var cs := ChunksFrom(texts, size, start);
    if start < |texts| {
      var head := texts[start..Min(start + size, |texts|)];
      if start + size < |texts| {
        ChunksFromSpec(texts, size, start + size);
        assert texts[start..] == head + texts[start + size..];
      } else {
        assert ChunksFrom(texts, size, start + size) == [];
        assert cs == [head];
        assert Concat(cs) == head + Concat<string>([]);
      }
    }
  }

  /**
   * For a positive chunk size the chunks put back together are exactly the
   * reviews, every chunk but the last holds `chunkSize` reviews and the last
   * holds between one and `chunkSize`.
   */
  lemma SplitChunksSpec(texts: seq<string>, chunkSize: nat)
    requires chunkSize > 0
    ensures var cs := SplitChunks(texts, chunkSize).value;
      && Concat(cs) == texts
      && (forall k :: 0 <= k < |cs| - 1 ==> |cs[k]| == chunkSize)
      && (cs != [] ==> 0 < |cs[|cs| - 1]| <= chunkSize)
      && (cs == [] <==> texts == [])
  {
    ChunksFromSpec(texts, chunkSize, 0);
  }

  /** The per-chunk counts, in chunk order, as `pool.map(count_words_chunk, chunks)` returns them. */
  function ChunkCounts(chunks: seq<seq<string>>): (r: seq<Tally>)
    ensures |r| == |chunks|
  {
    seq(|chunks|, k requires 0 <= k < |chunks| => Count(Tokens(chunks[k])))
  }

  /** All partial counts merged into one, first to last. */
  function MergeAll(results: seq<Tally>): Tally {
    if results == [] then [] else AddTally(MergeAll(results[..|results| - 1]), results[|results| - 1])
  }

  /** The merge loop of lines 58-61. */
  method MergeWordCounts(results: seq<Tally>) returns (merged: Tally)
    ensures merged == MergeAll(results)
  {
    merged := [];
    var i := 0;
    while i < |results|
      invariant 0 <= i <= |results|
      invariant merged == MergeAll(results[..i])
    {
      var before := MergeAll(results[..i]);
      var wc := results[i];
      var j := 0;
      while j < |wc|
        invariant 0 <= j <= |wc|
        invariant merged == AddTally(before, wc[..j])
      {
        AddTallyAppend(before, wc[..j], [wc[j]]);
        assert wc[..j + 1] == wc[..j] + [wc[j]];
        merged := Bump(merged, wc[j].0, wc[j].1);
        j := j + 1;
      }
      assert wc[..j] == wc;
      assert results[..i + 1][..i] == results[..i];
      i := i + 1;
    }
    assert results[..i] == results;
  }

  /**
   * The central claim of the script: merging the per-chunk counts gives
   * exactly the serial count of everything the chunks hold, with the same
   * counts and the same key order.
   */
  lemma {:induction false} ChunkedCountIsSerial(chunks: seq<seq<string>>)
    ensures MergeAll(ChunkCounts(chunks)) == Count(Tokens(Concat(chunks)))
    decreases |chunks|
  {
    if chunks == [] {
      assert Concat(chunks) == [];
    } else {
      var init, last := chunks[..|chunks| - 1], chunks[|chunks| - 1];
      var cc := ChunkCounts(chunks);
      assert cc[..|chunks| - 1] == ChunkCounts(init);
      var before := Tokens(Concat(init));
      calc {
        MergeAll(cc);
        AddTally(MergeAll(ChunkCounts(init)), Count(Tokens(last)));
        { ChunkedCountIsSerial(init); }
        AddTally(Count(before), Count(Tokens(last)));
        { MergeCount(Count(before), Tokens(last)); }
        AddAll(Count(before), Tokens(last));
        { AddAllAppend([], before, Tokens(last)); }
        Count(before + Tokens(last));
        { TokensAppend(Concat(init), last); }
        Count(Tokens(Concat(init) + last));
        { ConcatLast(chunks); }
        Count(Tokens(Concat(chunks)));
      }
    }
  }

  lemma ConcatLast<T>(chunks: seq<seq<T>>)
    requires chunks != []
    ensures Concat(chunks) == Concat(chunks[..|chunks| - 1]) + chunks[|chunks| - 1]
  {
    var init, last := chunks[..|chunks| - 1], chunks[|chunks| - 1];
    assert chunks == init + [last];
    ConcatAppend(init, [last]);
    assert Concat([last]) == last + Concat<T>([]);
  }

  /** The merged count over the chunks of `texts` equals the serial count of `texts`. */
  lemma ParallelCountIsSerial(texts: seq<string>, chunkSize: nat)
    requires chunkSize > 0
    ensures MergeAll(ChunkCounts(SplitChunks(texts, chunkSize).value)) == Count(Tokens(texts))
  {
    SplitChunksSpec(texts, chunkSize);
    ChunkedCountIsSerial(SplitChunks(texts, chunkSize).value);
  }

  /** The per-chunk sentiment tallies, in chunk order. */
  function ChunkSentiments(chunks: seq<seq<string>>, polarity: string -> real): (r: seq<SentimentCounts>)
    ensures |r| == |chunks|
  {
    seq(|chunks|, k requires 0 <= k < |chunks| => SentimentOf(ScoresOf(chunks[k], polarity)))
  }

  /** All partial tallies added up, first to last. */
  function SumTallies(parts: seq<SentimentCounts>): SentimentCounts {
    if parts == [] then NoSentiment else SumTallies(parts[..|parts| - 1]).Plus(parts[|parts| - 1])
  }

  /** The merge loop of lines 73-75. */
  method MergeSentiment(parts: seq<SentimentCounts>) returns (total: SentimentCounts)
    ensures total == SumTallies(parts)
  {
    total := NoSentiment;
    var i := 0;
    while i < |parts|
      invariant 0 <= i <= |parts|
      invariant total == SumTallies(parts[..i])
    {
      assert parts[..i + 1][..i] == parts[..i];
      total := total.Plus(parts[i]);
      i := i + 1;
    }
    assert parts[..i] == parts;
  }

  /** The summed chunk tallies are the tally of all reviews, so they add up to the number of reviews. */
  lemma {:induction false} ChunkedSentimentIsSerial(chunks: seq<seq<string>>, polarity: string -> real)
    ensures SumTallies(ChunkSentiments(chunks, polarity)) == SentimentOf(ScoresOf(Concat(chunks), polarity))
    ensures SumTallies(ChunkSentiments(chunks, polarity)).Total() == |Concat(chunks)|
    decreases |chunks|
  {
    if chunks == [] {
      assert Concat(chunks) == [];
      assert ScoresOf(Concat(chunks), polarity) == [];
    } else {
      var init, last := chunks[..|chunks| - 1], chunks[|chunks| - 1];
      var cs := ChunkSentiments(chunks, polarity);
      assert cs[..|chunks| - 1] == ChunkSentiments(init, polarity);
      var before := ScoresOf(Concat(init), polarity);
      calc {
        SumTallies(cs);
        SumTallies(ChunkSentiments(init, polarity)).Plus(SentimentOf(ScoresOf(last, polarity)));
        { ChunkedSentimentIsSerial(init, polarity); }
        SentimentOf(before).Plus(SentimentOf(ScoresOf(last, polarity)));
        { TallyAppend(before, ScoresOf(last, polarity)); }
        SentimentOf(before + ScoresOf(last, polarity));
        { ScoresOfAppend(Concat(init), last, polarity); }
        SentimentOf(ScoresOf(Concat(init) + last, polarity));
        { ConcatLast(chunks); }
        SentimentOf(ScoresOf(Concat(chunks), polarity));
      }
    }
    TallyByClass(ScoresOf(Concat(chunks), polarity));
  }

  /** `pool.map(count_words_chunk, chunks)`, one chunk after the other. */
  method CountChunks(chunks: seq<seq<string>>) returns (results: seq<Tally>)
    ensures results == ChunkCounts(chunks)
  {
    results := [];
    var k := 0;
    while k < |chunks|
      invariant 0 <= k <= |chunks|
      invariant |results| == k
      invariant forall j :: 0 <= j < k ==> results[j] == Count(Tokens(chunks[j]))
    {
      var counts := CountWordsChunk(chunks[k]);
      results := results + [counts];
      k := k + 1;
    }
    assert forall j :: 0 <= j < |chunks| ==> results[j] == ChunkCounts(chunks)[j];
  }

  /** `pool.map(analyze_sentiment_chunk, chunks)`, one chunk after the other. */
  method AnalyzeChunks(chunks: seq<seq<string>>, polarity: string -> real) returns (results: seq<SentimentCounts>)
    ensures results == ChunkSentiments(chunks, polarity)
  {
    results := [];
    var k := 0;
    while k < |chunks|
      invariant 0 <= k <= |chunks|
      invariant |results| == k
      invariant forall j :: 0 <= j < k ==> results[j] == SentimentOf(ScoresOf(chunks[j], polarity))
    {
      var s := AnalyzeSentimentChunk(chunks[k], polarity);
      results := results + [s];
      k := k + 1;
    }
    assert forall j :: 0 <= j < |chunks| ==> results[j] == ChunkSentiments(chunks, polarity)[j];
  }

  lemma QuotientPositive(n: nat, d: nat)
    requires d >= 1
    ensures n / d == 0 <==> n < d
  {
    if n >= d {
      assert n / d >= 1 by {
        assert n == d * (n / d) + n % d;
        assert n % d < d;
      }
    }
  }

  /**
   * The main block of the script, without the timing, plotting, CSV and S3
   * steps. `cpus` is `cpu_count()`.
   */
  method AnalyzeReviews(texts: seq<string>, cpus: nat, polarity: string -> real)
    returns (r: Result<BatchReport, BatchError>)
    requires cpus >= 1
    ensures r.Failure? <==> |texts| < cpus
    ensures r.Success? ==> var rep := r.value;
      && rep.serialCounts == Count(Tokens(texts))
      && SplitChunks(texts, |texts| / cpus) == Success(rep.chunks)
      && Concat(rep.chunks) == texts
      && (forall k :: 0 <= k < |rep.chunks| - 1 ==> |rep.chunks[k]| == |texts| / cpus)
      && |rep.chunks| > 0 && 0 < |rep.chunks[|rep.chunks| - 1]| <= |texts| / cpus
      && rep.mergedCounts == rep.serialCounts
      && rep.sortedWords == SortByCount(rep.mergedCounts)
      && rep.topWords == MostCommon(rep.mergedCounts, TopWordCount)
      && rep.sentiment == SentimentOf(ScoresOf(texts, polarity))
      && rep.sentiment.Total() == |texts|
  {
    // Lines 42-45 repeat the body of count_words_chunk over all reviews.
    var serial := CountWordsChunk(texts);
    var chunkSize := |texts| / cpus;
    QuotientPositive(|texts|, cpus);
    var split := SplitChunks(texts, chunkSize);
    if split.Failure? {
      return Failure(split.error);
    }
    var chunks := split.value;
    SplitChunksSpec(texts, chunkSize);

    var wordResults := CountChunks(chunks);
    var merged := MergeWordCounts(wordResults);
    ChunkedCountIsSerial(chunks);
    var sortedWords := SortByCount(merged);

    var sentimentChunks := AnalyzeChunks(chunks, polarity);
    var sentiment := MergeSentiment(sentimentChunks);
    ChunkedSentimentIsSerial(chunks, polarity);

    var topWords := sortedWords[..Min(TopWordCount, |sortedWords|)];
    SortByCountSpec(merged);
    r := Success(BatchReport(serial, chunks, merged, sortedWords, topWords, sentiment));
  }
}
