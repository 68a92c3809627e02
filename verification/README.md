# Amazon review analytics — verified model of the aggregation logic

The repository analyses Amazon product reviews in two ways.

- A batch script (`analyze_reviews.py`) does two things over the whole CSV of reviews:
  - it counts words, once serially and once split into chunks whose partial counts are merged;
  - it tallies positive, negative and neutral reviews, then ranks the words by frequency.
- Three dashboards poll a Kinesis stream of review records:
  - `matplotlib_dashboard.py` keeps a window of reviews. Once a poll leaves 50 or more reviews in it, it drains the window into one snapshot: the top ten words, the score histogram and the average score.
  - `dashboard.py` shows the top five words and the average score of each poll's reviews. It then clears its accumulators.
  - `kinesis_dashboard.py` keeps the five most recent reviews, newest first, each cut to 200 characters.

This project models that aggregation logic in Dafny and proves what it promises.

Modules, one per file:

- `Text`: `strip`, `lower`, `isalpha`, slicing, and the tokenizer `re.findall(r'\b\w+\b', text.lower())`.
- `WordTally`: a `defaultdict(int)` or `Counter` of words. It is an insertion-ordered sequence of `(word, count)` pairs, so the order that decides ties in the stable sort is part of the model. The module also holds the sort by descending count and `most_common`.
- `Sentiment`: the strict-sign classification, the three-bucket tally, and sums and means of scores.
- `Records`: a Kinesis record after `json.loads`, and the answer to one poll.
- `BatchAnalysis`: `analyze_reviews.py`.
- `SnapshotDashboard`: `matplotlib_dashboard.py`.
- `LiveDashboard`: `dashboard.py`.
- `RecentReviews`: `kinesis_dashboard.py`.

The stateful scripts are classes. Each class has the script's variables as fields and three kinds of method:

- `Absorb` is the body of the per-record loop.
- `AbsorbAll` is the loop itself.
- `Tick` is one pass of the `while True` loop.

Each method is proved against a specification function of the poll's records, for example `Absorbed`, `Accepted` or `NewestFirst`. Separate lemmas state what those functions mean.

TextBlob's polarity and NLTK's `word_tokenize` are foreign code. They enter as function-typed parameters, or as constant fields of the dashboard objects. The Kinesis poll enters as a `Response` value.

## Model

| member | source | states |
|---|---|---|
| Text.LowerChar | analyze_reviews.py:12 | the lower-cased character is never upper case; upper-case letters move down by 32 and everything else is unchanged |
| Text.Lower | analyze_reviews.py:12 | `lower()` keeps the length and lower-cases each character in place |
| Text.LeadingSpace | matplotlib_dashboard.py:46 | the count of leading characters that `strip()` removes covers only whitespace and stops at the first non-whitespace character |
| Text.TrimStart | matplotlib_dashboard.py:46 | the result is a suffix of the input, what was dropped is all whitespace, and the result does not start with whitespace |
| Text.TrimEnd | matplotlib_dashboard.py:46 | the result is a prefix of the input, what was dropped is all whitespace, and the result does not end with whitespace |
| Text.Strip | matplotlib_dashboard.py:46-47 | `strip()` is empty exactly when the text is all whitespace; a non-empty result starts and ends with non-whitespace |
| Text.Take | kinesis_dashboard.py:38-39 | `s[:n]` has length `min(n, len(s))` and is a prefix of `s` |
| Text.TakePush | kinesis_dashboard.py:38-39 | inserting at the front of a list of at most `n` entries and cutting to `n` puts the new entry first and keeps the old entries in order, dropping at most the last |
| Text.PrependThenTake | kinesis_dashboard.py:38-39 | inserting entries in front of a cut list and cutting again is cutting the whole list once |
| Text.TakeAfterPrepend | kinesis_dashboard.py:38-39 | cutting the list to `n` before inserting at the front and cutting again is the same as cutting once |
| Text.ConcatAppend | analyze_reviews.py:53 | concatenating two lists of chunks is concatenating their concatenations |
| Text.ScanTokens | analyze_reviews.py:12 | every run the scanner collects is a non-empty run of lower-case word characters |
| Text.ScanKeepsWordChars | analyze_reviews.py:12 | the collected runs spell out exactly the word characters of the scanned text, in order |
| Text.TokenizeSpec | analyze_reviews.py:11-12 | every token is non-empty, made only of `\w` characters, and has no upper-case letter; the tokens in order are exactly the word characters of the lower-cased text |
| Text.NoWordCharsNoTokens | analyze_reviews.py:12 | a text without word characters has no runs |
| Text.Tokenize | analyze_reviews.py:11-12 | `re.findall(r'\b\w+\b', text.lower())` as a left-to-right scan of the lower-cased text; its tokens are stated by `TokenizeSpec`, `TokenizeSplit`, `TokenizeWord` and `TokenizeBlank` |
| Text.TokenizeSplit | analyze_reviews.py:11-12 | a non-word character splits the text into two parts that are tokenized independently, so no token crosses it |
| Text.TokenizeWord | analyze_reviews.py:11-12 | a non-empty run of word characters is exactly one token, its lower-cased form; with `TokenizeSplit` and `TokenizeBlank` this fixes the tokens of every text |
| Text.TokenizeBlank | analyze_reviews.py:11-12 | the empty text, and any text without word characters, gives no tokens |
| WordTally.AlphaWords | dashboard.py:48 | the filtered list is no longer than the tokens and holds only alphabetic words |
| WordTally.ReviewWords | matplotlib_dashboard.py:51-52 | the words of a review that are counted are all alphabetic |
| WordTally.AlphaWordsOcc | dashboard.py:47-48 | the filter keeps every alphabetic token exactly as often as it occurs and drops every other word |
| WordTally.OccAppend | analyze_reviews.py:16-18 | occurrences in a concatenation add up |
| WordTally.BumpGet | analyze_reviews.py:18 | `counts[w] += k` raises the count of `w` by `k` and leaves every other count alone |
| WordTally.BumpHas | analyze_reviews.py:18 | after `counts[w] += k` the keys are the old keys plus `w` |
| WordTally.BumpAbsent | analyze_reviews.py:18 | adding a new key appends it at the end, keeping insertion order |
| WordTally.BumpWf | analyze_reviews.py:18 | a count raised by a positive amount keeps keys distinct and counts positive |
| WordTally.BumpBump | analyze_reviews.py:61 | two raises of the same key are one raise by the sum |
| WordTally.BumpCommute | analyze_reviews.py:61 | raises of two keys that are both already present commute |
| WordTally.AddAllAppend | analyze_reviews.py:43-45 | counting a concatenation is counting the first part and then the second |
| WordTally.AddAll | analyze_reviews.py:14-19 | `counts[word] += 1` for each word in turn, also `Counter.update(words)`; its effect is stated by `AddAllGet`, `AddAllHas`, `AddAllWf` and `AddAllAppend` |
| WordTally.AddAllGet | analyze_reviews.py:16-18 | after counting a word list, each count is the old count plus the word's occurrences |
| WordTally.AddAllHas | analyze_reviews.py:16-18 | after counting, the keys are the old keys plus the counted words |
| WordTally.AddAllWf | analyze_reviews.py:16-18 | counting keeps keys distinct and counts positive |
| WordTally.CountSpec | analyze_reviews.py:14-19 | the count of each word is its number of occurrences; words that never occur have no key; keys are distinct |
| WordTally.AddTally | analyze_reviews.py:59-61 | `final[word] += count` for each entry of a map in turn; its effect is stated by `AddTallyAppend`, `AddTallyAddAll` and `MergeCount` |
| WordTally.AddTallyAppend | analyze_reviews.py:58-61 | merging a concatenation of maps is merging one and then the other |
| WordTally.AddTallyPresentBump | analyze_reviews.py:58-61 | merging after raising a key the merged map already holds equals raising after merging |
| WordTally.AddTallyBump | analyze_reviews.py:58-61 | merging a map whose key was raised equals merging and then raising |
| WordTally.AddTallyAddAll | analyze_reviews.py:58-61 | merging a chunk's counts equals counting that chunk's words on top |
| WordTally.MergeCount | analyze_reviews.py:58-61 | merging the counts of a word list into a map is counting the list into the map, with the same keys in the same order |
| WordTally.WithCountAppend | analyze_reviews.py:63 | the entries with a given count, taken from a concatenation, come in order |
| WordTally.WithCountAbove | analyze_reviews.py:63 | a list whose counts are all below `c` has no entry with count `c` |
| WordTally.InsertContents | analyze_reviews.py:63 | an insertion step of the sort adds exactly one entry |
| WordTally.InsertBounded | analyze_reviews.py:63 | an insertion step keeps every count under a common bound |
| WordTally.InsertSorted | analyze_reviews.py:63 | an insertion step keeps the counts non-increasing |
| WordTally.InsertStable | analyze_reviews.py:63 | an insertion step puts the new entry after the entries with the same count |
| WordTally.SortByCount | analyze_reviews.py:63 | `sorted(items, key=count, reverse=True)` as a stable insertion sort; its result is characterised by `SortByCountSpec` |
| WordTally.SortByCountSpec | analyze_reviews.py:63 | `sorted(..., key=count, reverse=True)` is a permutation with non-increasing counts; entries with equal counts keep their insertion order |
| WordTally.MostCommon | analyze_reviews.py:108 | the top list has `min(n, len)` entries with non-increasing counts, all drawn from the map |
| WordTally.MostCommonIsTop | dashboard.py:58 | no entry left out of the top list has a higher count than any entry in it |
| WordTally.EntryIsCount | analyze_reviews.py:63 | an entry of the map holds the map's count for its word |
| WordTally.MemberHas | analyze_reviews.py:63 | the word of an entry is a key of the map |
| WordTally.MostCommonCounts | matplotlib_dashboard.py:62 | every reported entry is a counted word together with its number of occurrences |
| WordTally.MostCommonBeats | matplotlib_dashboard.py:62 | a counted word that is not reported occurs no more often than any reported word |
| Sentiment.Classify | analyze_reviews.py:25-30 | polarity above zero is positive, below zero is negative, exactly zero is neutral, in both directions |
| Sentiment.Classes | analyze_reviews.py:23-24 | one class per review |
| Sentiment.ScoresOf | dashboard.py:52-53 | one score per review, in order, each the review's polarity |
| Sentiment.ScoresOfAppend | dashboard.py:53 | scores of a concatenation are the concatenated scores |
| Sentiment.SentimentOf | analyze_reviews.py:22-31 | the `positive`/`negative`/`neutral` dict of a list of scores, one classified score after another; its buckets are stated by `TallyByClass` and `TallyAppend` |
| Sentiment.TallyByClass | analyze_reviews.py:21-31 | each bucket counts exactly the reviews of its class, and the buckets add up to the number of reviews |
| Sentiment.TallyAppend | analyze_reviews.py:73-75 | the tally of a concatenation is the key-wise sum of the tallies |
| Sentiment.SumBounds | matplotlib_dashboard.py:75 | a sum of scores within `[lo, hi]` lies within `[n*lo, n*hi]` |
| Sentiment.Mean | matplotlib_dashboard.py:75 | `df["sentiment_score"].mean()`, the sum over the count; its range is stated by `MeanBounds` |
| Sentiment.MeanBounds | matplotlib_dashboard.py:75 | the mean of scores within `[lo, hi]` lies within `[lo, hi]` |
| Records.ReviewText | matplotlib_dashboard.py:45-46 | reading the review fails exactly for undecodable records, and a missing key reads as the empty text |
| BatchAnalysis.TokensAppend | analyze_reviews.py:43-44 | the tokens of a concatenation of reviews are the concatenated tokens |
| BatchAnalysis.CountWordsChunk | analyze_reviews.py:14-19 | the chunk's map holds each token with its number of occurrences across the chunk, and no other key |
| BatchAnalysis.AnalyzeSentimentChunk | analyze_reviews.py:21-31 | the chunk's tally classifies each review once, so the buckets add up to the chunk's length |
| BatchAnalysis.SplitChunks | analyze_reviews.py:52-53 | splitting fails exactly when the chunk size is zero |
| BatchAnalysis.ChunksFrom | analyze_reviews.py:53 | `[texts[i:i + size] for i in range(start, len(texts), size)]` with Python's clamped slices; its chunks are stated by `ChunksFromSpec` |
| BatchAnalysis.ChunksFromSpec | analyze_reviews.py:53 | the slices from `start` concatenate to `texts[start:]`; every slice but the last is full, and the last is non-empty and at most full |
| BatchAnalysis.SplitChunksSpec | analyze_reviews.py:51-53 | for a positive chunk size the chunks concatenate back to the texts, every chunk but the last has exactly `chunk_size` reviews, and the last has at most that many |
| BatchAnalysis.ChunkCounts | analyze_reviews.py:55-56 | one count per chunk |
| BatchAnalysis.MergeWordCounts | analyze_reviews.py:58-61 | the merge loop adds the chunk maps together, key by key, in order |
| BatchAnalysis.ChunkedCountIsSerial | analyze_reviews.py:42-45 | merging the chunk counts gives exactly the serial count of all the chunks' reviews, with the same counts and the same key order |
| BatchAnalysis.ConcatLast | analyze_reviews.py:53 | the concatenation of the chunks ends with the last chunk |
| BatchAnalysis.ParallelCountIsSerial | analyze_reviews.py:42-61 | for every positive chunk size, the chunked and merged count equals the serial count of the texts |
| BatchAnalysis.ChunkSentiments | analyze_reviews.py:70-71 | one tally per chunk |
| BatchAnalysis.MergeSentiment | analyze_reviews.py:73-75 | the merge loop adds the chunk tallies key-wise |
| BatchAnalysis.ChunkedSentimentIsSerial | analyze_reviews.py:70-75 | the merged tally equals the tally of all reviews, and its buckets add up to the number of reviews |
| BatchAnalysis.CountChunks | analyze_reviews.py:55-56 | `pool.map(count_words_chunk, chunks)` gives each chunk's count, in chunk order |
| BatchAnalysis.AnalyzeChunks | analyze_reviews.py:70-71 | `pool.map(analyze_sentiment_chunk, chunks)` gives each chunk's tally, in chunk order |
| BatchAnalysis.QuotientPositive | analyze_reviews.py:52 | `len(texts) // cpu_count()` is zero exactly when there are fewer reviews than CPUs |
| BatchAnalysis.AnalyzeReviews | analyze_reviews.py:37-108 | the run fails exactly when there are fewer reviews than CPUs. Otherwise the chunks are those of `SplitChunks` with size `len(texts) // cpus`: they rebuild the texts, every chunk but the last has exactly that size and the last is non-empty and at most that size. The merged count equals the serial count, the sorted list is the stable sort, the top words are its first ten, and the sentiment tally covers every review once |
| SnapshotDashboard.EntryOf | matplotlib_dashboard.py:44-50 | a record yields an entry exactly when its review is readable and not blank; the entry holds the stripped review and that review's polarity |
| SnapshotDashboard.Absorbed | matplotlib_dashboard.py:43-55 | a batch adds at most one entry per record |
| SnapshotDashboard.AbsorbedStep | matplotlib_dashboard.py:43 | absorbing one more record appends what that record yields |
| SnapshotDashboard.WindowWordsAlpha | matplotlib_dashboard.py:52-53 | only alphabetic words are counted |
| SnapshotDashboard.WindowCountAppend | matplotlib_dashboard.py:51-53 | adding a review to the window raises the counter by exactly that review's alphabetic lower-cased tokens |
| SnapshotDashboard.WindowScores | matplotlib_dashboard.py:58-68 | the histogram data is the window's scores, one per entry, in order |
| SnapshotDashboard.SnapshotOf | matplotlib_dashboard.py:57-75 | the drained top list has at most 10 entries with non-increasing counts, and the scores are those of the whole window |
| SnapshotDashboard.SnapshotSpec | matplotlib_dashboard.py:62-75 | each top word is alphabetic and shown with its number of occurrences in the window, no word of the window left out occurs more often than a shown one, and the average lies within the range of the scores |
| SnapshotDashboard.EntryStored | matplotlib_dashboard.py:46-50 | a stored entry is a non-empty stripped review with its own polarity |
| SnapshotDashboard.AbsorbedStored | matplotlib_dashboard.py:43-55 | every entry a batch of records adds to the window is a non-empty stripped review with its own polarity |
| SnapshotDashboard.TracksYield | matplotlib_dashboard.py:43-55 | absorbing a record keeps the counter equal to the count of the window's words |
| SnapshotDashboard.WindowBound | matplotlib_dashboard.py:39-57 | with `Limit=100` on each poll, a window below 50 reviews grows to fewer than 150 before the drain test |
| SnapshotDashboard.Dashboard.constructor | matplotlib_dashboard.py:32-33 | the window and the counter start empty |
| SnapshotDashboard.Dashboard.Absorb | matplotlib_dashboard.py:43-55 | a blank, missing or unreadable review changes nothing; otherwise exactly one entry is appended, and the counter stays the count of the window's words |
| SnapshotDashboard.Dashboard.AbsorbAll | matplotlib_dashboard.py:42-55 | the window grows by exactly the entries the batch yields, in order |
| SnapshotDashboard.Dashboard.Tick | matplotlib_dashboard.py:39-96 | the iterator is always replaced. The drain fires exactly when the window holds 50 or more reviews; it then returns the window's snapshot and leaves both structures empty, whatever the upload did. A drained window can hold more than 50 reviews but fewer than 50 plus the batch size |
| LiveDashboard.AcceptedText | dashboard.py:41-44 | a record contributes exactly when its review is readable and not blank; what it contributes is the review as read, not stripped |
| LiveDashboard.Accepted | dashboard.py:39-44 | a batch contributes at most one review per record |
| LiveDashboard.AcceptedStep | dashboard.py:39 | absorbing one more record appends what that record contributes |
| LiveDashboard.BatchWordsAlpha | dashboard.py:47-49 | only alphabetic words are counted |
| LiveDashboard.Average | dashboard.py:86-87 | there is an average exactly when there are scores, and then average times count is the sum |
| LiveDashboard.ViewOf | dashboard.py:58-87 | the top list has at most 5 entries with non-increasing counts, there is one score per review, and there is an average exactly when there was a review |
| LiveDashboard.ViewSpec | dashboard.py:47-58 | each top word is alphabetic with its number of occurrences, no word of the poll left out occurs more often than a listed one, each score is its review's polarity, and the average lies within the range of the scores |
| LiveDashboard.TracksAppend | dashboard.py:47-53 | counting a review's words and appending its one score keeps both accumulators equal to those of the reviews absorbed |
| LiveDashboard.Dashboard.constructor | dashboard.py:31-32 | both accumulators start empty |
| LiveDashboard.Dashboard.Absorb | dashboard.py:40-53 | a blank, missing or unreadable review changes nothing; otherwise its words are counted and exactly one score is appended |
| LiveDashboard.Dashboard.AbsorbAll | dashboard.py:39-56 | after the loop the accumulators hold exactly the words and scores of the batch's accepted reviews |
| LiveDashboard.Dashboard.Tick | dashboard.py:35-92 | the iterator is always replaced; the view is that of this poll's accepted reviews; both accumulators are empty afterwards, even after an empty batch |
| RecentReviews.Shown | kinesis_dashboard.py:36-38 | a record is shown exactly when its review is readable and not blank, as a non-empty prefix of at most 200 characters of the stripped review |
| RecentReviews.NewestFirst | kinesis_dashboard.py:33-38 | a batch puts at most one review per record on the feed |
| RecentReviews.NewestFirstStep | kinesis_dashboard.py:38 | a later record's review goes in front of the earlier ones |
| RecentReviews.FeedStep | kinesis_dashboard.py:38-39 | one insert-and-truncate step on the feed of `records[:i]` gives the feed of `records[:i+1]` |
| RecentReviews.NewestFirstShown | kinesis_dashboard.py:36-38 | every review put on the feed is what is shown for one of the batch's records |
| RecentReviews.PushFront | kinesis_dashboard.py:36-39 | a blank review leaves the buffer unchanged; otherwise the shown review comes first, followed by the first four old entries in the same order |
| RecentReviews.FullPollReplaces | kinesis_dashboard.py:38-39 | a poll with at least five shown reviews replaces the whole buffer with its five newest |
| RecentReviews.Feed.constructor | kinesis_dashboard.py:26 | the buffer starts empty |
| RecentReviews.Feed.Absorb | kinesis_dashboard.py:34-39 | the buffer becomes the first `MAX_REVIEWS` of the shown review followed by the old buffer, and stays at most 5 entries of 1 to 200 characters |
| RecentReviews.Feed.AbsorbAll | kinesis_dashboard.py:33-41 | the buffer becomes the first five of the batch's shown reviews, newest first, followed by the old buffer |
| RecentReviews.Feed.Tick | kinesis_dashboard.py:29-41 | the iterator is always replaced; the buffer keeps at most `MAX_REVIEWS` (5) entries, each non-empty and at most 200 characters |

## Left out

- Network and storage I/O is not modelled. This covers `describe_stream`, `get_shard_iterator`, `get_records`, the S3 uploads, the CSV reading and writing, and the PNG files. The poll's answer is a `Response` parameter. The initial shard iterator is a constructor argument. The upload outcome of the snapshot dashboard is a `Tick` parameter that the model, like the script, ignores.
- Rendering is not modelled: matplotlib, Streamlit, printing and logging. Neither are `time.sleep`, the timing measurements and `KeyboardInterrupt` handling.
- `multiprocessing.Pool` is not modelled. `pool.map` is the loops `CountChunks` and `AnalyzeChunks`, which yield the same list of results in the same order.
- TextBlob and NLTK are function parameters with no properties assumed. This leaves out an exception raised inside them, which the scripts catch per record:
  - in `dashboard.py`, an exception in TextBlob would leave a review's words counted without its score;
  - in `matplotlib_dashboard.py`, an exception in `word_tokenize` would leave the entry appended to the window with its words uncounted, a state that `Dashboard.Consistent()` rules out.
- `json.loads` is not modelled. Every payload on which reading the review raises becomes `Undecodable`, and is skipped as the scripts skip it. This covers invalid JSON, a non-object and a non-string field.
- Scores are reals, not IEEE floats. Rounding in `sum / len` and in pandas' mean is not modelled.
- `str.lower`, `\w` and `str.isalpha` are modelled on ASCII. Python applies them to all of Unicode. `str.strip` uses Python's full whitespace set.
- The CSV loading of the batch script is not modelled. This covers `read_csv` and `dropna`. The reviews come in as a list of strings.
- The `zip(*top_words)` at analyze_reviews.py:109 is left out as plotting. It raises when no word was counted.
- `cpus` is a parameter of `AnalyzeReviews`, required to be at least 1. `cpu_count()` never returns less.
- The scripts have no time-triggered drain, no count of skipped records, no backoff after a failed poll and no bound on the window's memory other than the one `WindowBound` states; the model has none either.
- The snapshot dashboard clears its window after every drain, whether or not the upload succeeded. The window can exceed 50 reviews, because the drain is tested only once per poll. `Dashboard.Tick` states both.
- kinesis_producer.py, upload_to_s3.py and download_from_s3.py are not part of this model. They only move data between CSV files, S3 and the stream.
