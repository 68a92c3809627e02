/**
 * Word counters. Python's `defaultdict(int)` and `Counter` keep their keys in
 * insertion order, and that order decides ties when the counts are sorted; a
 * counter is therefore a sequence of (word, count) entries, one per word, in
 * the order the words were first added.
 */
module WordTally {
  import opened Text

  type Entry = (string, nat)
  type Tally = seq<Entry>

  /** Whether `w` has an entry. */
  predicate Has(t: Tally, w: string) {
    t != [] && (t[0].0 == w || Has(t[1..], w))
  }

  /** No word has two entries. */
  predicate Distinct(t: Tally) {
    t == [] || (!Has(t[1..], t[0].0) && Distinct(t[1..]))
  }

  /** Every stored count is at least one: a word that never occurred has no key. */
  predicate Positive(t: Tally) {
    forall i :: 0 <= i < |t| ==> t[i].1 > 0
  }

  predicate Wf(t: Tally) { Distinct(t) && Positive(t) }

  /** `counts[w]` of a `defaultdict(int)` or `Counter`: zero for a missing word. */
  function Get(t: Tally, w: string): nat {
    if t == [] then 0 else if t[0].0 == w then t[0].1 else Get(t[1..], w)
  }

  /** `counts[w] += k`: an existing entry is raised in place, a new word goes to the end. */
  function Bump(t: Tally, w: string, k: nat): Tally {
    if t == [] then [(w, k)]
    else if t[0].0 == w then [(w, t[0].1 + k)] + t[1..]
    else [t[0]] + Bump(t[1..], w, k)
  }

  /** Number of occurrences of `w` in `ws`. */
  function Occ(ws: seq<string>, w: string): nat {
    if ws == [] then 0 else (if ws[0] == w then 1 else 0) + Occ(ws[1..], w)
  }

  /** `for w in ws: counts[w] += 1`, which is also `Counter.update(ws)`. */
  function AddAll(t: Tally, ws: seq<string>): Tally
    decreases ws
  {
    if ws == [] then t else AddAll(Bump(t, ws[0], 1), ws[1..])
  }

  /** A fresh counter fed with `ws`. */
  function Count(ws: seq<string>): Tally {
    AddAll([], ws)
  }

  /** `for word, count in u.items(): t[word] += count` */
  function AddTally(t: Tally, u: Tally): Tally
    decreases u
  {
    if u == [] then t else AddTally(Bump(t, u[0].0, u[0].1), u[1..])
  }

  /** `[word for word in tokens if word.isalpha()]` */
  function AlphaWords(tokens: seq<string>): (r: seq<string>)
    ensures |r| <= |tokens|
    ensures forall i :: 0 <= i < |r| ==> IsAlpha(r[i])
  {
    if tokens == [] then [] else (if IsAlpha(tokens[0]) then [tokens[0]] else []) + AlphaWords(tokens[1..])
  }

  /** The alphabetic words of one review: `[w for w in word_tokenize(review.lower()) if w.isalpha()]`. */
  function ReviewWords(review: string, wordTokenize: string -> seq<string>): (r: seq<string>)
    ensures forall i :: 0 <= i < |r| ==> IsAlpha(r[i])
  {
    AlphaWords(wordTokenize(Lower(review)))
  }

  /** The filter keeps every alphabetic token as often as it occurs, and nothing else. */
  lemma {:induction false} AlphaWordsOcc(tokens: seq<string>, w: string)
    ensures Occ(AlphaWords(tokens), w) == if IsAlpha(w) then Occ(tokens, w) else 0
  {
    if tokens != [] {
      AlphaWordsOcc(tokens[1..], w);
      OccAppend(if IsAlpha(tokens[0]) then [tokens[0]] else [], AlphaWords(tokens[1..]), w);
    }
  }

  lemma {:induction false} OccAppend(a: seq<string>, b: seq<string>, w: string)
    ensures Occ(a + b, w) == Occ(a, w) + Occ(b, w)
  {
    if a == [] {
      assert a + b == b;
    } else {
      assert (a + b)[0] == a[0];
      assert (a + b)[1..] == a[1..] + b;
      OccAppend(a[1..], b, w);
    }
  }

  // ---------------------------------------------------------------- Bump

  lemma {:induction false} BumpGet(t: Tally, w: string, k: nat, v: string)
    ensures Get(Bump(t, w, k), v) == Get(t, v) + (if v == w then k else 0)
  {
    if t != [] && t[0].0 != w {
      BumpGet(t[1..], w, k, v);
    }
  }

  lemma {:induction false} BumpHas(t: Tally, w: string, k: nat, v: string)
    ensures Has(Bump(t, w, k), v) <==> Has(t, v) || v == w
  {
    if t != [] && t[0].0 != w {
      BumpHas(t[1..], w, k, v);
    }
  }

  lemma {:induction false} BumpAbsent(t: Tally, w: string, k: nat)
    requires !Has(t, w)
    ensures Bump(t, w, k) == t + [(w, k)]
  {
    if t != [] {
      BumpAbsent(t[1..], w, k);
    }
  }

  lemma {:induction false} BumpWf(t: Tally, w: string, k: nat)
    requires Wf(t) && k > 0
    ensures Wf(Bump(t, w, k))
  {
    if t != [] && t[0].0 != w {
      BumpWf(t[1..], w, k);
      BumpHas(t[1..], w, k, t[0].0);
    }
  }

  lemma {:induction false} BumpBump(t: Tally, w: string, a: nat, b: nat)
    ensures Bump(Bump(t, w, a), w, b) == Bump(t, w, a + b)
  {
    if t != [] && t[0].0 != w {
      BumpBump(t[1..], w, a, b);
    }
  }

  /** Raising a word that already has an entry commutes with any other raise. */
  lemma {:induction false} BumpCommute(t: Tally, w: string, a: nat, v: string, b: nat)
    requires Has(t, w)
    ensures Bump(Bump(t, w, a), v, b) == Bump(Bump(t, v, b), w, a)
  {
    if t[0].0 != w && t[0].0 != v {
      BumpCommute(t[1..], w, a, v, b);
    }
  }

  // ---------------------------------------------------------------- AddAll

  lemma {:induction false} AddAllAppend(t: Tally, a: seq<string>, b: seq<string>)
    ensures AddAll(t, a + b) == AddAll(AddAll(t, a), b)
    decreases a
  {
    if a == [] {
      assert a + b == b;
    } else {
      assert (a + b)[0] == a[0];
      assert (a + b)[1..] == a[1..] + b;
      AddAllAppend(Bump(t, a[0], 1), a[1..], b);
    }
  }

  lemma {:induction false} AddAllGet(t: Tally, ws: seq<string>, v: string)
    ensures Get(AddAll(t, ws), v) == Get(t, v) + Occ(ws, v)
    decreases ws
  {
    if ws != [] {
      AddAllGet(Bump(t, ws[0], 1), ws[1..], v);
      BumpGet(t, ws[0], 1, v);
    }
  }

  lemma {:induction false} AddAllHas(t: Tally, ws: seq<string>, v: string)
    ensures Has(AddAll(t, ws), v) <==> Has(t, v) || v in ws
    decreases ws
  {
    if ws != [] {
      AddAllHas(Bump(t, ws[0], 1), ws[1..], v);
      BumpHas(t, ws[0], 1, v);
      assert ws == [ws[0]] + ws[1..];
    }
  }

  lemma {:induction false} AddAllWf(t: Tally, ws: seq<string>)
    requires Wf(t)
    ensures Wf(AddAll(t, ws))
    decreases ws
  {
    if ws != [] {
      BumpWf(t, ws[0], 1);
      AddAllWf(Bump(t, ws[0], 1), ws[1..]);
    }
  }

  /**
   * What a counter fed with `ws` holds: one entry per distinct word, whose
   * count is the word's number of occurrences; words that never occur have no key.
   */
  lemma CountSpec(ws: seq<string>)
    ensures Wf(Count(ws))
    ensures forall v :: Get(Count(ws), v) == Occ(ws, v)
    ensures forall v :: Has(Count(ws), v) <==> v in ws
  {
    AddAllWf([], ws);
    forall v ensures Get(Count(ws), v) == Occ(ws, v) && (Has(Count(ws), v) <==> v in ws) {
      AddAllGet([], ws, v);
      AddAllHas([], ws, v);
    }
  }

  // ---------------------------------------------------------------- AddTally

  lemma {:induction false} AddTallyAppend(t: Tally, a: Tally, b: Tally)
    ensures AddTally(t, a + b) == AddTally(AddTally(t, a), b)
    decreases a
  {
    if a == [] {
      assert a + b == b;
    } else {
      assert (a + b)[0] == a[0];
      assert (a + b)[1..] == a[1..] + b;
      AddTallyAppend(Bump(t, a[0].0, a[0].1), a[1..], b);
    }
  }

  lemma {:induction false} AddTallyPresentBump(s: Tally, u: Tally, w: string, k: nat)
    requires Has(s, w)
    ensures AddTally(Bump(s, w, k), u) == Bump(AddTally(s, u), w, k)
    decreases u
  {
    if u != [] {
      var s' := Bump(s, u[0].0, u[0].1);
      BumpCommute(s, w, k, u[0].0, u[0].1);
      BumpHas(s, u[0].0, u[0].1, w);
      AddTallyPresentBump(s', u[1..], w, k);
    }
  }

  /** Merging a counter raised by `k` at `w` is merging it and then raising by `k` at `w`. */
  lemma {:induction false} AddTallyBump(t: Tally, c: Tally, w: string, k: nat)
    ensures AddTally(t, Bump(c, w, k)) == Bump(AddTally(t, c), w, k)
    decreases c
  {
    if c == [] {
    } else if c[0].0 == w {
      var r := c[1..];
      assert Bump(c, w, k) == [(w, c[0].1 + k)] + r;
      BumpBump(t, w, c[0].1, k);
      BumpHas(t, w, c[0].1, w);
      AddTallyPresentBump(Bump(t, w, c[0].1), r, w, k);
    } else {
      AddTallyBump(Bump(t, c[0].0, c[0].1), c[1..], w, k);
    }
  }

  lemma {:induction false} AddTallyAddAll(t: Tally, c: Tally, ws: seq<string>)
    ensures AddTally(t, AddAll(c, ws)) == AddAll(AddTally(t, c), ws)
    decreases ws
  {
    if ws != [] {
      AddTallyAddAll(t, Bump(c, ws[0], 1), ws[1..]);
      AddTallyBump(t, c, ws[0], 1);
    }
  }

  /**
   * Merging a separately built counter for `ws` into `t` gives exactly what
   * counting `ws` straight into `t` gives: the same counts AND the same key order.
   */
  lemma MergeCount(t: Tally, ws: seq<string>)
    ensures AddTally(t, Count(ws)) == AddAll(t, ws)
  {
    AddTallyAddAll(t, [], ws);
  }

  // ---------------------------------------------------------------- sorting

  /** Counts never increase from left to right. */
  ghost predicate NonIncreasing(s: Tally) {
    forall i, j :: 0 <= i < j < |s| ==> s[i].1 >= s[j].1
  }

  /** Places `e` after every entry whose count is at least `e`'s. */
  function Insert(s: Tally, e: Entry): Tally {
    if s == [] then [e]
    else if s[0].1 >= e.1 then [s[0]] + Insert(s[1..], e)
    else [e] + s
  }

  /**
   * `sorted(t, key=lambda x: x[1], reverse=True)`: descending by count,
   * entries with equal counts left in their original order.
   */
  function SortByCount(t: Tally): Tally {
    if t == [] then [] else Insert(SortByCount(t[..|t| - 1]), t[|t| - 1])
  }

  /** The entries with count `c`, in order. */
  function WithCount(s: Tally, c: nat): Tally {
    if s == [] then [] else (if s[0].1 == c then [s[0]] else []) + WithCount(s[1..], c)
  }

  lemma {:induction false} WithCountAppend(a: Tally, b: Tally, c: nat)
    ensures WithCount(a + b, c) == WithCount(a, c) + WithCount(b, c)
  {
    if a == [] {
      assert a + b == b;
    } else {
      var h: Tally := if a[0].1 == c then [a[0]] else [];
      assert (a + b)[0] == a[0];
      assert (a + b)[1..] == a[1..] + b;
      WithCountAppend(a[1..], b, c);
      calc {
        WithCount(a + b, c);
        h + WithCount(a[1..] + b, c);
        h + (WithCount(a[1..], c) + WithCount(b, c));
        (h + WithCount(a[1..], c)) + WithCount(b, c);
        WithCount(a, c) + WithCount(b, c);
      }
    }
  }

  lemma {:induction false} WithCountAbove(s: Tally, c: nat)
    requires forall i :: 0 <= i < |s| ==> s[i].1 < c
    ensures WithCount(s, c) == []
  {
    if s != [] {
      WithCountAbove(s[1..], c);
    }
  }

  lemma {:induction false} InsertContents(s: Tally, e: Entry)
    ensures |Insert(s, e)| == |s| + 1
    ensures multiset(Insert(s, e)) == multiset(s) + multiset{e}
  {
    if s != [] && s[0].1 >= e.1 {
      InsertContents(s[1..], e);
      assert s == [s[0]] + s[1..];
    }
  }

  lemma {:induction false} InsertBounded(s: Tally, e: Entry, m: nat)
    requires forall i :: 0 <= i < |s| ==> s[i].1 <= m
    requires e.1 <= m
    ensures forall i :: 0 <= i < |Insert(s, e)| ==> Insert(s, e)[i].1 <= m
  {
    if s != [] && s[0].1 >= e.1 {
      InsertBounded(s[1..], e, m);
    }
  }

  lemma {:induction false} InsertSorted(s: Tally, e: Entry)
    requires NonIncreasing(s)
    ensures NonIncreasing(Insert(s, e))
  {
    if s != [] && s[0].1 >= e.1 {
      InsertSorted(s[1..], e);
      InsertBounded(s[1..], e, s[0].1);
    }
  }

  lemma {:induction false} InsertStable(s: Tally, e: Entry, c: nat)
    requires NonIncreasing(s)
    ensures WithCount(Insert(s, e), c) == WithCount(s, c) + (if e.1 == c then [e] else [])
  {
    var y: Tally := if e.1 == c then [e] else [];
    if s == [] {
      WithCountCons(e, [], c);
    } else if s[0].1 >= e.1 {
      var rest := Insert(s[1..], e);
      assert Insert(s, e) == [s[0]] + rest;
      assert s == [s[0]] + s[1..];
      NonIncreasingTail(s);
      InsertStable(s[1..], e, c);
      WithCountCons(s[0], rest, c);
      WithCountCons(s[0], s[1..], c);
    } else {
      assert Insert(s, e) == [e] + s;
      WithCountCons(e, s, c);
      if e.1 == c {
        WithCountAbove(s, c);
      }
    }
  }

  lemma NonIncreasingTail(s: Tally)
    requires s != [] && NonIncreasing(s)
    ensures NonIncreasing(s[1..])
  {
    forall i, j | 0 <= i < j < |s| - 1
      ensures s[1..][i].1 >= s[1..][j].1
    {
      assert s[1..][i] == s[i + 1] && s[1..][j] == s[j + 1];
    }
  }

  lemma WithCountCons(x: Entry, rest: Tally, c: nat)
    ensures WithCount([x] + rest, c) == (if x.1 == c then [x] else []) + WithCount(rest, c)
  {
    assert ([x] + rest)[0] == x;
    assert ([x] + rest)[1..] == rest;
  }



  /**
   * The sort is a permutation with non-increasing counts, and it is stable:
   * for every count, the entries having that count keep their relative order.
   */
  lemma {:induction false} SortByCountSpec(t: Tally)
    ensures |SortByCount(t)| == |t|
    ensures multiset(SortByCount(t)) == multiset(t)
    ensures NonIncreasing(SortByCount(t))
    ensures forall c :: WithCount(SortByCount(t), c) == WithCount(t, c)
  {
    if t != [] {
      var init, last := t[..|t| - 1], t[|t| - 1];
      assert t == init + [last];
      SortByCountSpec(init);
      InsertContents(SortByCount(init), last);
      InsertSorted(SortByCount(init), last);
      forall c ensures WithCount(SortByCount(t), c) == WithCount(t, c) {
        InsertStable(SortByCount(init), last, c);
        WithCountAppend(init, [last], c);
      }
    }
  }

  /**
   * `Counter.most_common(n)`, and `sorted_words[:n]` of the batch script: the
   * first `n` entries of the stable descending sort.
   */
  function MostCommon(t: Tally, n: nat): (r: Tally)
    ensures |r| == if |t| < n then |t| else n
    ensures NonIncreasing(r)
    ensures multiset(r) <= multiset(t)
  {
    SortByCountSpec(t);
    var s := SortByCount(t);
    var k := if |t| < n then |t| else n;
    assert s == s[..k] + s[k..];
    s[..k]
  }

  /** No entry left out of `MostCommon(t, n)` has a higher count than any entry in it. */
  lemma MostCommonIsTop(t: Tally, n: nat, e: Entry)
    requires e in t && e !in MostCommon(t, n)
    ensures forall i :: 0 <= i < |MostCommon(t, n)| ==> MostCommon(t, n)[i].1 >= e.1
  {
    SortByCountSpec(t);
    var s := SortByCount(t);
    assert e in multiset(s);
    var j :| 0 <= j < |s| && s[j] == e;
    var r := MostCommon(t, n);
    assert r == s[..|r|];
    assert j >= |r|;
  }

  /** An entry of a well-formed counter holds the counter's count for its word. */
  lemma {:induction false} EntryIsCount(t: Tally, e: Entry)
    requires Distinct(t) && e in t
    ensures Has(t, e.0) && Get(t, e.0) == e.1
  {
    if t[0] != e {
      MemberHas(t[1..], e);
      EntryIsCount(t[1..], e);
    }
  }

  lemma {:induction false} MemberHas(t: Tally, e: Entry)
    requires e in t
    ensures Has(t, e.0)
  {
    if t[0] != e {
      MemberHas(t[1..], e);
    }
  }

  /** Every entry `most_common` reports from a count of `ws` is a word of `ws` with its number of occurrences. */
  lemma MostCommonCounts(ws: seq<string>, n: nat)
    ensures forall i :: 0 <= i < |MostCommon(Count(ws), n)| ==>
      && MostCommon(Count(ws), n)[i].0 in ws
      && MostCommon(Count(ws), n)[i].1 == Occ(ws, MostCommon(Count(ws), n)[i].0)
  {
    var r := MostCommon(Count(ws), n);
    CountSpec(ws);
    forall i | 0 <= i < |r|
      ensures r[i].0 in ws && r[i].1 == Occ(ws, r[i].0)
    {
      assert r[i] in multiset(Count(ws));
      EntryIsCount(Count(ws), r[i]);
    }
  }

  /** A word that has a key has the entry holding its count. */
  lemma {:induction false} HasEntry(t: Tally, w: string)
    requires Has(t, w)
    ensures (w, Get(t, w)) in t
  {
    if t[0].0 != w {
      HasEntry(t[1..], w);
    }
  }

  /** A word of `ws` that `most_common` does not report occurs no more often than any word it does report. */
  lemma MostCommonBeats(ws: seq<string>, n: nat, w: string)
    requires w in ws
    requires forall i :: 0 <= i < |MostCommon(Count(ws), n)| ==> MostCommon(Count(ws), n)[i].0 != w
    ensures forall i :: 0 <= i < |MostCommon(Count(ws), n)| ==> MostCommon(Count(ws), n)[i].1 >= Occ(ws, w)
  {
    var top := MostCommon(Count(ws), n);
    CountSpec(ws);
    HasEntry(Count(ws), w);
    var e := (w, Get(Count(ws), w));
    assert e !in top;
    MostCommonIsTop(Count(ws), n, e);
  }
}
