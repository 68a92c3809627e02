/**
 * Character classes and string helpers the review scripts rely on: Python's
 * `str.strip()`, `str.lower()`, `str.isalpha()`, slicing `s[:n]`, and the
 * tokenizer `re.findall(r'\b\w+\b', text.lower())` of analyze_reviews.py.
 * Letters, digits and case are those of ASCII.
 */
module Text {

  /** The characters Python's `str.isspace()` accepts. */
  predicate IsSpace(c: char) {
    c == ' ' || '\t' <= c <= '\r' || '\U{1C}' <= c <= '\U{1F}' || c == '\U{85}' || c == '\U{A0}'
    || c == '\U{1680}' || '\U{2000}' <= c <= '\U{200A}' || c == '\U{2028}' || c == '\U{2029}'
    || c == '\U{202F}' || c == '\U{205F}' || c == '\U{3000}'
  }

  predicate IsUpper(c: char) { 'A' <= c <= 'Z' }

  predicate IsLetter(c: char) { 'a' <= c <= 'z' || IsUpper(c) }

  predicate IsDigit(c: char) { '0' <= c <= '9' }

  /** A character matched by the regular-expression class `\w`. */
  predicate IsWordChar(c: char) { IsLetter(c) || IsDigit(c) || c == '_' }

  /** Python's `str.isalpha()`: non-empty and made of letters only. */
  predicate IsAlpha(s: string) {
    |s| > 0 && forall i :: 0 <= i < |s| ==> IsLetter(s[i])
  }

  predicate AllSpace(s: string) {
    forall i :: 0 <= i < |s| ==> IsSpace(s[i])
  }

  function LowerChar(c: char): (r: char)
    ensures !IsUpper(r)
    ensures IsUpper(c) ==> r as int == c as int + 32
    ensures !IsUpper(c) ==> r == c
  {
    if IsUpper(c) then (c as int + 32) as char else c
  }

  /** `str.lower()` */
  function Lower(s: string): (r: string)
    ensures |r| == |s|
    ensures forall i :: 0 <= i < |s| ==> r[i] == LowerChar(s[i])
  {
    seq(|s|, i requires 0 <= i < |s| => LowerChar(s[i]))
  }

  /** How many whitespace characters `s` starts with. */
  function LeadingSpace(s: string): (k: nat)
    ensures k <= |s| && AllSpace(s[..k])
    ensures k < |s| ==> !IsSpace(s[k])
  {
    if s != [] && IsSpace(s[0]) then
      var k := LeadingSpace(s[1..]);
      assert s[..k + 1] == [s[0]] + s[1..][..k];
      k + 1
    else
      0
  }

  /** Drops leading whitespace; the result is a suffix of `s`. */
  function TrimStart(s: string): (r: string)
    ensures |r| <= |s| && r == s[|s| - |r|..]
    ensures AllSpace(s[..|s| - |r|])
    ensures r != [] ==> !IsSpace(r[0])
  {
    s[LeadingSpace(s)..]
  }

  /** Drops trailing whitespace; the result is a prefix of `s`. */
  function TrimEnd(s: string): (r: string)
    ensures |r| <= |s| && r == s[..|r|]
    ensures AllSpace(s[|r|..])
    ensures r != [] ==> !IsSpace(r[|r| - 1])
  {
    if s != [] && IsSpace(s[|s| - 1]) then
      var r := TrimEnd(s[..|s| - 1]);
      assert s[|r|..] == s[..|s| - 1][|r|..] + [s[|s| - 1]];
      r
    else
      assert s[|s|..] == [];
      s
  }

  /** `str.strip()`: whitespace cut away on either side. */
  function Strip(s: string): (r: string)
    ensures |r| <= |s|
    ensures r == [] <==> AllSpace(s)
    ensures r != [] ==> !IsSpace(r[0]) && !IsSpace(r[|r| - 1])
  {
    var t := TrimStart(s);
    assert t == [] ==> s == s[..|s|] + t;
    TrimEnd(t)
  }

  /** `s[:n]` for `n >= 0`, on strings and lists alike: the first `n` elements, or all of them. */
  function Take<T>(s: seq<T>, n: nat): (r: seq<T>)
    ensures |r| == if |s| < n then |s| else n
    ensures r == s[..|r|]
  {
    if |s| <= n then s else s[..n]
  }

  /** Inserting at the front of a list of at most `n` elements and cutting to `n` drops at most the old last element. */
  lemma TakePush<T>(x: T, s: seq<T>, n: nat)
    requires 1 <= n && |s| <= n
    ensures var b := Take([x] + s, n);
      && |b| == (if |s| < n then |s| + 1 else n)
      && b[0] == x
      && b[1..] == s[..|b| - 1]
  {
    var b := Take([x] + s, n);
    assert b == ([x] + s)[..|b|];
    assert b[1..] == s[..|b| - 1];
  }

  /** Cutting before prepending changes nothing once the result is cut again. */
  lemma TakeAfterPrepend<T>(a: seq<T>, b: seq<T>, n: nat)
    ensures Take(a + Take(b, n), n) == Take(a + b, n)
  {
    var l := Take(a + Take(b, n), n);
    var r := Take(a + b, n);
    assert |l| == |r|;
    forall i | 0 <= i < |l|
      ensures l[i] == r[i]
    {
      if i >= |a| {
        assert l[i] == Take(b, n)[i - |a|];
      }
    }
  }

  /** Prepending `a` to the first `n` of `b + c` and cutting to `n` is cutting `(a + b) + c` to `n`. */
  lemma PrependThenTake<T>(a: seq<T>, b: seq<T>, c: seq<T>, n: nat)
    ensures Take(a + Take(b + c, n), n) == Take((a + b) + c, n)
  {
    TakeAfterPrepend(a, b + c, n);
    assert a + (b + c) == (a + b) + c;
  }

  /** The concatenation of a list of sequences (strings, or lists of reviews). */
  function Concat<T>(ts: seq<seq<T>>): seq<T> {
    if ts == [] then [] else ts[0] + Concat(ts[1..])
  }

  lemma {:induction false} ConcatAppend<T>(a: seq<seq<T>>, b: seq<seq<T>>)
    ensures Concat(a + b) == Concat(a) + Concat(b)
  {
    if a != [] {
      assert (a + b)[0] == a[0];
      assert (a + b)[1..] == a[1..] + b;
      ConcatAppend(a[1..], b);
    } else {
      assert a + b == b;
    }
  }

  /** The word characters of `s`, in order. */
  function WordChars(s: string): string {
    if s == [] then [] else (if IsWordChar(s[0]) then [s[0]] else []) + WordChars(s[1..])
  }

  /**
   * A left-to-right scan that collects maximal runs of word characters;
   * `run` is the run in progress.
   */
  function Scan(s: string, run: string): seq<string>
    decreases |s|
  {
    if s == [] then (if run == [] then [] else [run])
    else if IsWordChar(s[0]) then Scan(s[1..], run + [s[0]])
    else (if run == [] then [] else [run]) + Scan(s[1..], [])
  }

  /** `re.findall(r'\b\w+\b', text.lower())` */
  function Tokenize(text: string): seq<string> {
    Scan(Lower(text), [])
  }

  /** What every token is made of: at least one character, word characters only, no upper case. */
  predicate IsToken(t: string) {
    |t| > 0 && forall i :: 0 <= i < |t| ==> IsWordChar(t[i]) && !IsUpper(t[i])
  }

  predicate NoUpper(s: string) {
    forall i :: 0 <= i < |s| ==> !IsUpper(s[i])
  }

  lemma {:induction false} ScanTokens(s: string, run: string)
    requires NoUpper(s)
    requires forall i :: 0 <= i < |run| ==> IsWordChar(run[i]) && !IsUpper(run[i])
    ensures forall j :: 0 <= j < |Scan(s, run)| ==> IsToken(Scan(s, run)[j])
  {
    if s != [] {
      if IsWordChar(s[0]) {
        ScanTokens(s[1..], run + [s[0]]);
      } else {
        ScanTokens(s[1..], []);
      }
    }
  }

  lemma {:induction false} ScanKeepsWordChars(s: string, run: string)
    ensures Concat(Scan(s, run)) == run + WordChars(s)
  {
    if s == [] {
      if run != [] {
        assert Concat([run]) == run + Concat([]);
      }
    } else if IsWordChar(s[0]) {
      ScanKeepsWordChars(s[1..], run + [s[0]]);
    } else {
      var head: seq<string> := if run == [] then [] else [run];
      ScanKeepsWordChars(s[1..], []);
      ConcatAppend(head, Scan(s[1..], []));
      if run != [] {
        assert Concat([run]) == run + Concat([]);
      }
    }
  }

  /**
   * The tokenizer's contract: every token is a non-empty run of lower-case
   * word characters, and the tokens spell out, in order, exactly the word
   * characters of the lower-cased text.
   */
  lemma TokenizeSpec(text: string)
    ensures forall j :: 0 <= j < |Tokenize(text)| ==> IsToken(Tokenize(text)[j])
    ensures Concat(Tokenize(text)) == WordChars(Lower(text))
  {
    ScanTokens(Lower(text), []);
    ScanKeepsWordChars(Lower(text), []);
  }

  /** A character outside `\w` ends the run in progress; the scan goes on from an empty run. */
  lemma {:induction false} ScanSplit(a: string, c: char, b: string, run: string)
    requires !IsWordChar(c)
    ensures Scan(a + [c] + b, run) == Scan(a, run) + Scan(b, [])
  {
    var s := a + [c] + b;
    if a == [] {
      assert s[1..] == b;
    } else {
      assert s[0] == a[0];
      assert s[1..] == a[1..] + [c] + b;
      if IsWordChar(a[0]) {
        ScanSplit(a[1..], c, b, run + [a[0]]);
      } else {
        ScanSplit(a[1..], c, b, []);
      }
    }
  }

  /** Word characters only extend the run in progress, which the end of the text closes. */
  lemma {:induction false} ScanWord(w: string, run: string)
    requires forall i :: 0 <= i < |w| ==> IsWordChar(w[i])
    ensures Scan(w, run) == if run + w == [] then [] else [run + w]
  {
    if w == [] {
      assert run + w == run;
    } else {
      ScanWord(w[1..], run + [w[0]]);
      assert (run + [w[0]]) + w[1..] == run + w;
    }
  }

  /**
   * Tokens never straddle a non-word character: the text splits there into
   * two texts that are tokenized on their own.
   */
  lemma TokenizeSplit(a: string, c: char, b: string)
    requires !IsWordChar(c)
    ensures Tokenize(a + [c] + b) == Tokenize(a) + Tokenize(b)
  {
    assert Lower(a + [c] + b) == Lower(a) + [LowerChar(c)] + Lower(b);
    ScanSplit(Lower(a), LowerChar(c), Lower(b), []);
  }

  /**
   * A maximal run of word characters is one token, lower-cased. With
   * `TokenizeSplit` and `TokenizeBlank` this fixes the tokens of every text.
   */
  lemma TokenizeWord(w: string)
    requires |w| > 0
    requires forall i :: 0 <= i < |w| ==> IsWordChar(w[i])
    ensures Tokenize(w) == [Lower(w)]
  {
    ScanWord(Lower(w), []);
    assert [] + Lower(w) == Lower(w);
  }

  lemma {:induction false} NoWordCharsNoTokens(s: string)
    requires forall i :: 0 <= i < |s| ==> !IsWordChar(s[i])
    ensures Scan(s, []) == []
  {
    if s != [] {
      NoWordCharsNoTokens(s[1..]);
    }
  }

  /** Text without word characters, the empty and the all-blank text among it, gives no tokens. */
  lemma TokenizeBlank(text: string)
    requires forall i :: 0 <= i < |text| ==> !IsWordChar(text[i])
    ensures Tokenize(text) == []
  {
    NoWordCharsNoTokens(Lower(text));
  }
}
