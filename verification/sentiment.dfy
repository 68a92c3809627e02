/**
 * Sentiment classes and tallies. The polarity itself comes from TextBlob,
 * which is not part of this model: callers pass it as a function from a
 * review's text to a real number.
 */
module Sentiment {

  datatype Polarity = Positive | Negative | Neutral

  /** The strict sign test of `analyze_sentiment_chunk`: zero is neutral. */
  function Classify(score: real): (p: Polarity)
    ensures p == Positive <==> score > 0.0
    ensures p == Negative <==> score < 0.0
    ensures p == Neutral <==> score == 0.0
  {
    if score > 0.0 then Positive else if score < 0.0 then Negative else Neutral
  }

  /** The `{"positive": .., "negative": .., "neutral": ..}` result of one chunk. */
  datatype SentimentCounts = SentimentCounts(positive: nat, negative: nat, neutral: nat) {
    function Total(): nat { positive + negative + neutral }

    /** `Counter.update` with another tally: key-wise addition. */
    function Plus(other: SentimentCounts): SentimentCounts {
      SentimentCounts(positive + other.positive, negative + other.negative, neutral + other.neutral)
    }

    /** The tally with the bucket of `p` raised by one. */
    function Record(p: Polarity): SentimentCounts {
      match p
      case Positive => this.(positive := positive + 1)
      case Negative => this.(negative := negative + 1)
      case Neutral => this.(neutral := neutral + 1)
    }
  }

  const NoSentiment := SentimentCounts(0, 0, 0)

  /** The tally of a sequence of polarity scores, built one score at a time. */
  function SentimentOf(scores: seq<real>): SentimentCounts {
    if scores == [] then NoSentiment
    else SentimentOf(scores[..|scores| - 1]).Record(Classify(scores[|scores| - 1]))
  }

  function Classes(scores: seq<real>): (r: seq<Polarity>)
    ensures |r| == |scores|
  {
    seq(|scores|, i requires 0 <= i < |scores| => Classify(scores[i]))
  }

  /** The polarity of each review, in order. */
  function ScoresOf(texts: seq<string>, polarity: string -> real): (r: seq<real>)
    ensures |r| == |texts|
    ensures forall i :: 0 <= i < |texts| ==> r[i] == polarity(texts[i])
  {
    seq(|texts|, i requires 0 <= i < |texts| => polarity(texts[i]))
  }

  lemma ScoresOfAppend(a: seq<string>, b: seq<string>, polarity: string -> real)
    ensures ScoresOf(a + b, polarity) == ScoresOf(a, polarity) + ScoresOf(b, polarity)
  {
  }

  /**
   * Each bucket of the tally counts exactly the scores of its class, so
   * the three buckets add up to the number of scores.
   */
  lemma {:induction false} TallyByClass(scores: seq<real>)
    ensures SentimentOf(scores).positive == multiset(Classes(scores))[Positive]
    ensures SentimentOf(scores).negative == multiset(Classes(scores))[Negative]
    ensures SentimentOf(scores).neutral == multiset(Classes(scores))[Neutral]
    ensures SentimentOf(scores).Total() == |scores|
  {
    if scores != [] {
      var init := scores[..|scores| - 1];
      TallyByClass(init);
      assert Classes(scores) == Classes(init) + [Classify(scores[|scores| - 1])];
    }
  }

  lemma PlusRecord(x: SentimentCounts, y: SentimentCounts, p: Polarity)
    ensures x.Plus(y).Record(p) == x.Plus(y.Record(p))
  {
  }

  /** Tallying two parts separately and adding the tallies is tallying the whole. */
  lemma {:induction false} TallyAppend(a: seq<real>, b: seq<real>)
    ensures SentimentOf(a + b) == SentimentOf(a).Plus(SentimentOf(b))
    decreases |b|
  {
    if b == [] {
      assert a + b == a;
      assert SentimentOf(b) == NoSentiment;
    } else {
      var init, last := b[..|b| - 1], b[|b| - 1];
      var ab := a + b;
      assert ab[..|ab| - 1] == a + init;
      assert ab[|ab| - 1] == last;
      TallyAppend(a, init);
      PlusRecord(SentimentOf(a), SentimentOf(init), Classify(last));
    }
  }

  /** Python's `sum()` over the scores. */
  function Sum(s: seq<real>): real {
    if s == [] then 0.0 else Sum(s[..|s| - 1]) + s[|s| - 1]
  }

  /** `sum(s) / len(s)`, the same value as pandas' `Series.mean()`. */
  function Mean(s: seq<real>): real
    requires |s| > 0
  {
    Sum(s) / |s| as real
  }

  lemma {:induction false} SumBounds(s: seq<real>, lo: real, hi: real)
    requires forall i :: 0 <= i < |s| ==> lo <= s[i] <= hi
    ensures |s| as real * lo <= Sum(s) <= |s| as real * hi
  {
    if s != [] {
      SumBounds(s[..|s| - 1], lo, hi);
    }
  }

  /** The mean lies within any bounds that every score lies within (for TextBlob, [-1, 1]). */
  lemma MeanBounds(s: seq<real>, lo: real, hi: real)
    requires |s| > 0
    requires forall i :: 0 <= i < |s| ==> lo <= s[i] <= hi
    ensures lo <= Mean(s) <= hi
  {
    SumBounds(s, lo, hi);
    var n := |s| as real;
    DivideBounds(n * lo, Sum(s), n);
    DivideBounds(Sum(s), n * hi, n);
    CancelScale(lo, n);
    CancelScale(hi, n);
  }

  lemma CancelScale(x: real, n: real)
    requires n > 0.0
    ensures (n * x) / n == x
  {
  }

  /** Dividing by a positive number keeps an inequality. */
  lemma DivideBounds(a: real, b: real, n: real)
    requires n > 0.0 && a <= b
    ensures a / n <= b / n
  {
    assert b / n - a / n == (b - a) / n;
  }
}
