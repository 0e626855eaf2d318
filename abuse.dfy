/** Episode data preparation for the abuse-detection driver: tokenisation, the
    token-to-id lookup of the dataset reader, vocabulary id assignment, and
    the loaders' bucketing, in-place padding and support/query split. Files
    and CSV parsing are left to the caller: rows and lines enter as values. */
module Abuse {
  import opened Results

  const PAD: string := "<PAD>"
  const UNK: string := "<UNK>"

  function Min(a: int, b: int): int { if a < b then a else b }

  function Max(a: int, b: int): int { if a < b then b else a }

  // ---------------------------------------------------------------------------
  // Tokenisation: `text.split(' ')`
  // ---------------------------------------------------------------------------

  /** Python's `str.split(sep)` with an explicit one-character separator:
      every separator ends a token, so empty tokens are kept. */
  function Split(s: string, sep: char): (r: seq<string>)
    ensures |r| >= 1
    ensures forall i :: 0 <= i < |r| ==> sep !in r[i]
  {
    if s == [] then [""]
    else
      var rest := Split(s[1..], sep);
      if s[0] == sep then [""] + rest
      else [[s[0]] + rest[0]] + rest[1..]
  }

  /** `sep.join(tokens)`. */
  function Join(tokens: seq<string>, sep: char): string
    requires |tokens| >= 1
  {
    if |tokens| == 1 then tokens[0] else tokens[0] + [sep] + Join(tokens[1..], sep)
  }

  function Tokenize(text: string): seq<string>
  {
    Split(text, ' ')
  }

  lemma {:induction false} JoinSplit(s: string, sep: char)
    ensures Join(Split(s, sep), sep) == s
  {
    if s != [] {
      var rest := Split(s[1..], sep);
      JoinSplit(s[1..], sep);
      var r := Split(s, sep);
      if s[0] == sep {
        assert r[1..] == rest;
      } else if |rest| > 1 {
        assert r[1..] == rest[1..];
        assert Join(rest, sep) == rest[0] + [sep] + Join(rest[1..], sep);
      }
    }
  }

  lemma {:induction false} SplitWordThen(w: string, s: string, sep: char)
    requires sep !in w
    ensures Split(w + s, sep) == [w + Split(s, sep)[0]] + Split(s, sep)[1..]
  {
    if w != [] {
      SplitWordThen(w[1..], s, sep);
      assert (w + s)[1..] == w[1..] + s;
      assert (w + s)[0] == w[0];
      assert [w[0]] + (w[1..] + Split(s, sep)[0]) == w + Split(s, sep)[0];
    } else {
      var r := Split(s, sep);
      assert w + s == s;
      assert w + r[0] == r[0];
      assert r == [r[0]] + r[1..];
    }
  }

  lemma {:induction false} SplitJoin(tokens: seq<string>, sep: char)
    requires |tokens| >= 1
    requires forall i :: 0 <= i < |tokens| ==> sep !in tokens[i]
    ensures Split(Join(tokens, sep), sep) == tokens
  {
    if |tokens| == 1 {
      SplitWordThen(tokens[0], "", sep);
      assert tokens[0] + "" == tokens[0];
    } else {
      var j := Join(tokens[1..], sep);
      SplitJoin(tokens[1..], sep);
      assert Join(tokens, sep) == tokens[0] + ([sep] + j);
      SplitWordThen(tokens[0], [sep] + j, sep);
      assert ([sep] + j)[1..] == j;
      assert tokens[0] + "" == tokens[0];
    }
  }

  /** Tokenising then joining with a space gives back the text, the result is
      never empty and no token holds a space; and space-free tokens joined
      with spaces tokenise back to themselves. */
  lemma TokenizeRoundTrip(text: string, tokens: seq<string>)
    ensures |Tokenize(text)| >= 1 && Join(Tokenize(text), ' ') == text
    ensures |tokens| >= 1 && (forall i :: 0 <= i < |tokens| ==> ' ' !in tokens[i]) ==>
              Tokenize(Join(tokens, ' ')) == tokens
  {
    JoinSplit(text, ' ');
    if |tokens| >= 1 && (forall i :: 0 <= i < |tokens| ==> ' ' !in tokens[i]) {
      SplitJoin(tokens, ' ');
    }
  }

  /** Two spaces in a row give an empty token between them. */
  lemma EmptyTokensKept()
    ensures Tokenize("a  b") == ["a", "", "b"]
  {
    SplitJoin(["a", "", "b"], ' ');
    assert Join(["a", "", "b"], ' ') == "a  b";
  }

  // ---------------------------------------------------------------------------
  // Class labels: `int(clazz)`
  // ---------------------------------------------------------------------------

  predicate AllDigits(s: string)
  {
    forall i :: 0 <= i < |s| ==> '0' <= s[i] <= '9'
  }

  function DigitsValue(ds: string): nat
    requires AllDigits(ds)
  {
    if ds == [] then 0 else DigitsValue(ds[..|ds| - 1]) * 10 + (ds[|ds| - 1] as int - '0' as int)
  }

  /** `int(s)` for an optional sign followed by ASCII decimal digits; any
      other text is a ValueError (`None`). */
  function ParseInt(s: string): Option<int>
  {
    if |s| > 0 && (s[0] == '-' || s[0] == '+') then
      if |s| > 1 && AllDigits(s[1..]) then
        var v: int := DigitsValue(s[1..]);
        Some(if s[0] == '-' then -v else v)
      else None
    else if |s| > 0 && AllDigits(s) then Some(DigitsValue(s))
    else None
  }

  /** `str(n)` for a natural number. */
  function Decimal(n: nat): string
  {
    if n < 10 then [('0' as int + n) as char]
    else Decimal(n / 10) + [('0' as int + n % 10) as char]
  }

  function IntString(n: int): string
  {
    if n < 0 then "-" + Decimal(-n) else Decimal(n)
  }

  lemma {:induction false} DecimalDigits(n: nat)
    ensures |Decimal(n)| >= 1 && AllDigits(Decimal(n)) && Decimal(n)[0] != '-' && Decimal(n)[0] != '+'
    ensures DigitsValue(Decimal(n)) == n
  {
    if n >= 10 {
      DecimalDigits(n / 10);
      var d := Decimal(n);
      assert d[..|d| - 1] == Decimal(n / 10);
    }
  }

  /** Every integer label written in decimal is read back unchanged. */
  lemma ParseIntRoundTrip(n: int)
    ensures ParseInt(IntString(n)) == Some(n)
  {
    if n < 0 {
      DecimalDigits(-n);
      assert IntString(n)[1..] == Decimal(-n);
    } else {
      DecimalDigits(n);
    }
  }

  // ---------------------------------------------------------------------------
  // The dataset reader
  // ---------------------------------------------------------------------------

  /** A list of samples with their class labels: the pair `read_dataset`
      returns and the `DataLoader` dataset class. */
  datatype Dataset = Dataset(samples: seq<seq<int>>, classes: seq<int>) {
    /** `__len__` counts the labels. */
    function Len(): nat
    {
      |classes|
    }

    /** `__getitem__` for an index below `Len()`; `None` is the IndexError
        raised when the samples run out first. */
    function GetItem(index: nat): Option<(seq<int>, int)>
      requires index < Len()
    {
      if index < |samples| then Some((samples[index], classes[index])) else None
    }
  }

  /** Every index the dataset admits is served exactly when there are at
      least as many samples as labels. */
  lemma DatasetServesAll(d: Dataset)
    ensures (forall index :: 0 <= index < d.Len() ==> d.GetItem(index).Some?) <==>
              |d.samples| >= |d.classes|
  {
    if |d.samples| < |d.classes| {
      assert d.GetItem(|d.samples|).None?;
    }
  }

  /** `[vocab.get(t, vocab['<UNK>']) for t in tokens]`. */
  function TokenIds(tokens: seq<string>, vocab: map<string, int>): (ids: seq<int>)
    requires UNK in vocab
    ensures |ids| == |tokens|
    ensures forall i :: 0 <= i < |tokens| && tokens[i] in vocab ==> ids[i] == vocab[tokens[i]]
    ensures forall i :: 0 <= i < |tokens| && tokens[i] !in vocab ==> ids[i] == vocab[UNK]
    ensures forall i :: 0 <= i < |ids| ==> ids[i] in vocab.Values
  {
    seq(|tokens|, i requires 0 <= i < |tokens| => if tokens[i] in vocab then vocab[tokens[i]] else vocab[UNK])
  }

  /** Why a data row stops the reader: it does not have three fields, its
      label is not an integer, or `<UNK>` is missing from the vocabulary
      (its lookup is the default argument, evaluated for every token). */
  datatype RowFault = WrongFieldCount | NotAnInteger | NoUnknownToken

  datatype ReadError = ReadError(row: nat, fault: RowFault)

  /** One data row `(_, text, clazz)` as token ids and a label. */
  function ParseRow(row: seq<string>, vocab: map<string, int>): Result<(seq<int>, int), RowFault>
  {
    if |row| != 3 then Err(WrongFieldCount)
    else match ParseInt(row[2])
      case None => Err(NotAnInteger)
      case Some(c) => if UNK !in vocab then Err(NoUnknownToken) else Ok((TokenIds(Tokenize(row[1]), vocab), c))
  }

  /** The reader: the first row is the header and is never examined; every
      later row gives one sample and one label, in order; the first faulty
      row ends the read. */
  method ReadDataset(rows: seq<seq<string>>, vocab: map<string, int>) returns (r: Result<Dataset, ReadError>)
    ensures r.Ok? <==> forall i :: 1 <= i < |rows| ==> ParseRow(rows[i], vocab).Ok?
    ensures r.Err? ==>
              && 1 <= r.error.row < |rows|
              && ParseRow(rows[r.error.row], vocab) == Err(r.error.fault)
              && forall i :: 1 <= i < r.error.row ==> ParseRow(rows[i], vocab).Ok?
    ensures r.Ok? ==>
              && |r.value.samples| == |r.value.classes| == (if rows == [] then 0 else |rows| - 1)
              && forall i :: 1 <= i < |rows| ==>
                   ParseRow(rows[i], vocab) == Ok((r.value.samples[i - 1], r.value.classes[i - 1]))
  {
    var samples: seq<seq<int>> := [];
    var classes: seq<int> := [];
    var count := 0;
    for i := 0 to |rows|
      invariant count == i
      invariant |samples| == |classes| == (if i == 0 then 0 else i - 1)
      invariant forall j :: 1 <= j < i ==> ParseRow(rows[j], vocab) == Ok((samples[j - 1], classes[j - 1]))
    {
      count := count + 1;
      if count == 1 {
        continue;
      }
      var line := rows[i];
      if |line| != 3 {
        return Err(ReadError(i, WrongFieldCount));
      }
      var text, clazz := line[1], line[2];
      var parsed := ParseInt(clazz);
      if parsed.None? {
        return Err(ReadError(i, NotAnInteger));
      }
      classes := classes + [parsed.value];
      if UNK !in vocab {
        return Err(ReadError(i, NoUnknownToken));
      }
      samples := samples + [TokenIds(Tokenize(text), vocab)];
    }
    r := Ok(Dataset(samples, classes));
  }

  // ---------------------------------------------------------------------------
  // Vocabulary ids
  // ---------------------------------------------------------------------------

  /** The characters Python's `str.split()` and `str.strip()` treat as
      whitespace. */
  predicate IsSpace(c: char)
  {
    || c == ' ' || ('\t' <= c <= '\r') || ('\U{1C}' <= c <= '\U{1F}')
    || c == '\U{85}' || c == '\U{A0}' || c == '\U{1680}'
    || ('\U{2000}' <= c <= '\U{200A}') || c == '\U{2028}' || c == '\U{2029}'
    || c == '\U{202F}' || c == '\U{205F}' || c == '\U{3000}'
  }

  function SkipSpace(s: string): (r: string)
    ensures r == [] || !IsSpace(r[0])
  {
    if s != [] && IsSpace(s[0]) then SkipSpace(s[1..]) else s
  }

  function TakeWord(s: string): (w: string)
    ensures forall i :: 0 <= i < |w| ==> !IsSpace(w[i])
  {
    if s == [] || IsSpace(s[0]) then [] else [s[0]] + TakeWord(s[1..])
  }

  /** `line.strip().split()[0]`; `None` is the IndexError of a blank line. */
  function FirstWord(line: string): Option<string>
  {
    var t := SkipSpace(line);
    if t == [] then None else Some(TakeWord(t))
  }

  lemma {:induction false} TakeWordOf(w: string, rest: string)
    requires forall i :: 0 <= i < |w| ==> !IsSpace(w[i])
    requires rest == [] || IsSpace(rest[0])
    ensures TakeWord(w + rest) == w
  {
    if w != [] {
      assert (w + rest)[1..] == w[1..] + rest;
      TakeWordOf(w[1..], rest);
    } else {
      assert w + rest == rest;
    }
  }

  /** An embedding line `word v1 v2 ...` yields its word, whatever leading
      whitespace precedes it. */
  lemma FirstWordOfEntry(indent: string, w: string, rest: string)
    requires forall i :: 0 <= i < |indent| ==> IsSpace(indent[i])
    requires w != [] && forall i :: 0 <= i < |w| ==> !IsSpace(w[i])
    requires rest == [] || IsSpace(rest[0])
    ensures FirstWord(indent + w + rest) == Some(w)
  {
    SkipIndent(indent, w + rest);
    assert indent + w + rest == indent + (w + rest);
    TakeWordOf(w, rest);
  }

  lemma {:induction false} SkipIndent(indent: string, s: string)
    requires forall i :: 0 <= i < |indent| ==> IsSpace(indent[i])
    requires s == [] || !IsSpace(s[0])
    ensures SkipSpace(indent + s) == s
  {
    if indent != [] {
      assert (indent + s)[1..] == indent[1..] + s;
      SkipIndent(indent[1..], s);
    } else {
      assert indent + s == s;
    }
  }

  /** The ids after inserting `words` in order into `{'<PAD>': 0}`, each
      word taking the size of the map at that moment. */
  function Assign(words: seq<string>): (v: map<string, int>)
    ensures PAD in v
    ensures forall w :: w in words ==> w in v
    ensures forall w :: w in v ==> w == PAD || w in words
    ensures forall w :: w in v ==> 0 <= v[w] <= |words|
    ensures forall w :: w in v && w != PAD ==> 1 <= v[w]
    ensures |v| <= |words| + 1
  {
    if words == [] then map[PAD := 0]
    else
      var v := Assign(words[..|words| - 1]);
      v[words[|words| - 1] := |v|]
  }

  /** `vocab['<UNK>'] = len(vocab)`. */
  function WithUnknown(v: map<string, int>): (u: map<string, int>)
    ensures UNK in u && u[UNK] == |v|
    ensures forall w :: w in v && w != UNK ==> w in u && u[w] == v[w]
    ensures |u| == if UNK in v then |v| else |v| + 1
  {
    v[UNK := |v|]
  }

  datatype Vocabulary = Vocabulary(ids: map<string, int>, size: nat)

  datatype LoadError = BlankLine(line: nat)

  /** Every line after the first has a first word. */
  predicate AllWords(lines: seq<string>)
  {
    forall i :: 1 <= i < |lines| ==> FirstWord(lines[i]).Some?
  }

  /** The first words of the lines after the header. */
  function EntryWords(lines: seq<string>): (ws: seq<string>)
    requires AllWords(lines)
    ensures |ws| == if lines == [] then 0 else |lines| - 1
  {
    if |lines| <= 1 then []
    else EntryWords(lines[..|lines| - 1]) + [FirstWord(lines[|lines| - 1]).value]
  }

  /** Entry word `i` is the first word of line `i + 1`. */
  lemma {:induction false} EntryWordsAt(lines: seq<string>)
    requires AllWords(lines)
    ensures forall i :: 0 <= i < |EntryWords(lines)| ==> Some(EntryWords(lines)[i]) == FirstWord(lines[i + 1])
  {
    if |lines| > 1 {
      var init := lines[..|lines| - 1];
      assert forall j :: 0 <= j < |init| ==> init[j] == lines[j];
      EntryWordsAt(init);
    }
  }

  /** The vocabulary loader: the header line is skipped, every later line's
      first word takes the next id, and `<UNK>` takes the id after them. */
  method LoadVocab(lines: seq<string>) returns (r: Result<Vocabulary, LoadError>)
    ensures r.Ok? <==> AllWords(lines)
    ensures r.Err? ==>
              && 1 <= r.error.line < |lines|
              && FirstWord(lines[r.error.line]).None?
              && forall i :: 1 <= i < r.error.line ==> FirstWord(lines[i]).Some?
    ensures r.Ok? ==> r.value.ids == WithUnknown(Assign(EntryWords(lines))) && r.value.size == |r.value.ids|
  {
    var vocab := map[PAD := 0];
    var count := 0;
    for i := 0 to |lines|
      invariant count == i
      invariant AllWords(lines[..i])
      invariant vocab == Assign(EntryWords(lines[..i]))
    {
      count := count + 1;
      if count == 1 {
        assert AllWords(lines[..1]) && EntryWords(lines[..1]) == [] by { HeaderOnly(lines); }
        continue;
      }
      var word := FirstWord(lines[i]);
      if word.None? {
        assert !AllWords(lines) && forall j :: 1 <= j < i ==> FirstWord(lines[j]).Some? by {
          WordsBefore(lines, i);
        }
        return Err(BlankLine(i));
      }
      assert AllWords(lines[..i + 1]) && Assign(EntryWords(lines[..i + 1])) == vocab[word.value := |vocab|] by {
        EntryWordsStep(lines, i);
      }
      vocab := vocab[word.value := |vocab|];
    }
    assert lines[..|lines|] == lines;
    vocab := vocab[UNK := |vocab|];
    r := Ok(Vocabulary(vocab, |vocab|));
  }

  lemma HeaderOnly(lines: seq<string>)
    requires |lines| >= 1
    ensures AllWords(lines[..1]) && EntryWords(lines[..1]) == []
  {
  }

  lemma WordsBefore(lines: seq<string>, i: nat)
    requires 1 <= i < |lines| && AllWords(lines[..i]) && FirstWord(lines[i]).None?
    ensures forall j :: 1 <= j < i ==> FirstWord(lines[j]).Some?
    ensures !AllWords(lines)
  {
    forall j | 1 <= j < i ensures FirstWord(lines[j]).Some? {
      assert lines[..i][j] == lines[j];
    }
  }

  /** Inserting one more word gives it the current size of the map. */
  lemma AssignSnoc(words: seq<string>, w: string)
    ensures Assign(words + [w]) == Assign(words)[w := |Assign(words)|]
  {
    assert (words + [w])[..|words|] == words;
  }

  lemma EntryWordsStep(lines: seq<string>, i: nat)
    requires 1 <= i < |lines| && AllWords(lines[..i]) && FirstWord(lines[i]).Some?
    ensures AllWords(lines[..i + 1])
    ensures EntryWords(lines[..i + 1]) == EntryWords(lines[..i]) + [FirstWord(lines[i]).value]
    ensures var v := Assign(EntryWords(lines[..i]));
      Assign(EntryWords(lines[..i + 1])) == v[FirstWord(lines[i]).value := |v|]
  {
    var next := lines[..i + 1];
    assert next[..i] == lines[..i];
    assert next[i] == lines[i];
    forall j | 1 <= j < i + 1 ensures FirstWord(next[j]).Some? {
      if j < i {
        assert lines[..i][j] == next[j];
      }
    }
    AssignSnoc(EntryWords(lines[..i]), FirstWord(lines[i]).value);
  }

  /** `<PAD>` keeps id 0 unless a line's word is `<PAD>` itself. */
  lemma {:induction false} PadIsZero(words: seq<string>)
    requires PAD !in words
    ensures Assign(words)[PAD] == 0
  {
    if words != [] {
      var init := words[..|words| - 1];
      assert forall w :: w in init ==> w in words;
      PadIsZero(init);
    }
  }

  /** With distinct words, none of them `<PAD>`, the k-th word gets id k + 1
      and the map grows by one per word. */
  lemma {:induction false} DistinctWordsConsecutive(words: seq<string>)
    requires PAD !in words
    requires forall i, j :: 0 <= i < j < |words| ==> words[i] != words[j]
    ensures |Assign(words)| == |words| + 1
    ensures forall k :: 0 <= k < |words| ==> Assign(words)[words[k]] == k + 1
  {
    if words != [] {
      var init := words[..|words| - 1];
      var last := words[|words| - 1];
      assert forall w :: w in init ==> w in words;
      DistinctWordsConsecutive(init);
      assert last !in init;
      assert last !in Assign(init);
    }
  }

  /** With distinct words, none of them `<PAD>` or `<UNK>`: `<PAD>` is 0, the
      words are 1..n in file order, `<UNK>` is n + 1, the size is n + 2, and
      the ids are exactly 0..n+1, one word each. */
  lemma DenseIds(words: seq<string>)
    requires PAD !in words && UNK !in words
    requires forall i, j :: 0 <= i < j < |words| ==> words[i] != words[j]
    ensures var u := WithUnknown(Assign(words));
      && u[PAD] == 0
      && (forall k :: 0 <= k < |words| ==> u[words[k]] == k + 1)
      && u[UNK] == |words| + 1
      && |u| == |words| + 2
      && (forall id :: id in u.Values <==> 0 <= id < |words| + 2)
      && (forall w1, w2 :: w1 in u && w2 in u && u[w1] == u[w2] ==> w1 == w2)
  {
    PadIsZero(words);
    DistinctWordsConsecutive(words);
    var v := Assign(words);
    assert UNK !in v;
    var u := WithUnknown(v);
    assert forall w :: w in u ==> w == UNK || w in v;
    DenseLayout(words, u);
  }

  /** The value set and injectivity of a map that sends `<PAD>` to 0, the
      k-th word to k + 1, `<UNK>` to n + 1 and has no other key. */
  lemma DenseLayout(words: seq<string>, u: map<string, int>)
    requires PAD !in words && UNK !in words
    requires forall w :: w in u ==> w == PAD || w == UNK || w in words
    requires PAD in u && u[PAD] == 0 && UNK in u && u[UNK] == |words| + 1
    requires forall k :: 0 <= k < |words| ==> words[k] in u && u[words[k]] == k + 1
    ensures forall id :: id in u.Values <==> 0 <= id < |words| + 2
    ensures forall w1, w2 :: w1 in u && w2 in u && u[w1] == u[w2] ==> w1 == w2
  {
    forall id | 0 <= id < |words| + 2 ensures id in u.Values {
      if id == 0 {
        assert u[PAD] == id;
      } else if id == |words| + 1 {
        assert u[UNK] == id;
      } else {
        assert u[words[id - 1]] == id;
      }
    }
    forall w | w in u ensures 0 <= u[w] < |words| + 2 {
      if w != PAD && w != UNK {
        var k :| 0 <= k < |words| && words[k] == w;
      }
    }
    forall w1, w2 | w1 in u && w2 in u && u[w1] == u[w2] ensures w1 == w2 {
      if w1 != PAD && w1 != UNK && w2 != PAD && w2 != UNK {
        var i1 :| 0 <= i1 < |words| && words[i1] == w1;
        var i2 :| 0 <= i2 < |words| && words[i2] == w2;
      }
    }
  }

  /** A repeated word re-assigns itself without growing the map, so the next
      new word receives the very same id. */
  lemma RepeatedWordCollides(init: seq<string>, w: string, u: string)
    requires w in init && u !in init && u != w && u != PAD
    ensures var v := Assign(init + [w, u]); v[w] == v[u] == |Assign(init)|
  {
    var v0 := Assign(init);
    AssignSnoc(init, w);
    AssignSnoc(init + [w], u);
    assert init + [w] + [u] == init + [w, u];
    var v1 := Assign(init + [w]);
    assert w in v0;
    assert v1.Keys == v0.Keys;
    assert |v1| == |v0|;
    assert u !in v1;
  }

  // ---------------------------------------------------------------------------
  // Loaders: bucketing, padding and the support/query split
  // ---------------------------------------------------------------------------

  /** The bucket `x[clazz]` addresses in the two-element list `x`: Python
      also accepts -2 and -1; anything else is an IndexError (`None`). */
  function BucketIndex(clazz: int): Option<nat>
  {
    if 0 <= clazz < 2 then Some(clazz)
    else if -2 <= clazz < 0 then Some(clazz + 2)
    else None
  }

  /** The two buckets and the running maximum length. */
  datatype Buckets = Buckets(zero: seq<seq<int>>, one: seq<seq<int>>, maxLen: nat)

  /** The buckets after the first `n` (sample, class) pairs, or the index of
      the first pair whose class addresses no bucket. */
  function Bucketed(samples: seq<seq<int>>, classes: seq<int>, cap: nat, n: nat): Result<Buckets, nat>
    requires n <= |samples| && n <= |classes|
  {
    if n == 0 then Ok(Buckets([], [], 0))
    else match Bucketed(samples, classes, cap, n - 1)
      case Err(e) => Err(e)
      case Ok(b) =>
        var s := samples[n - 1];
        match BucketIndex(classes[n - 1])
        case None => Err(n - 1)
        case Some(k) =>
          if k == 0 then
            if |b.zero| == cap then Ok(b) else Ok(Buckets(b.zero + [s], b.one, Max(|s|, b.maxLen)))
          else
            if |b.one| == cap then Ok(b) else Ok(Buckets(b.zero, b.one + [s], Max(|s|, b.maxLen)))
  }

  /** The samples of the first `n` pairs whose class addresses bucket `k`,
      in input order. */
  function OfClass(samples: seq<seq<int>>, classes: seq<int>, k: nat, n: nat): seq<seq<int>>
    requires n <= |samples| && n <= |classes|
  {
    if n == 0 then []
    else OfClass(samples, classes, k, n - 1) +
         (if BucketIndex(classes[n - 1]) == Some(k) then [samples[n - 1]] else [])
  }

  /** `s[:k]` */
  function Take<T>(s: seq<T>, k: nat): (r: seq<T>)
    ensures |r| == Min(|s|, k)
    ensures r == s[..|r|]
  {
    if |s| <= k then s else s[..k]
  }

  /** `s[k:]` */
  function Drop<T>(s: seq<T>, k: nat): (r: seq<T>)
    ensures |r| == |s| - Min(|s|, k)
    ensures Take(s, k) + r == s
  {
    if |s| <= k then [] else s[k..]
  }

  /** `m` is the largest length in the two buckets, or 0 when they are empty. */
  ghost predicate IsMaxLength(m: nat, a: seq<seq<int>>, b: seq<seq<int>>)
  {
    && (forall i :: 0 <= i < |a| ==> |a[i]| <= m)
    && (forall i :: 0 <= i < |b| ==> |b[i]| <= m)
    && (m == 0 || (exists i :: 0 <= i < |a| && |a[i]| == m) || (exists i :: 0 <= i < |b| && |b[i]| == m))
  }

  /** A bucketing error is exactly a class outside -2..1, reported at its
      first occurrence. */
  lemma {:induction false} BucketedErrors(samples: seq<seq<int>>, classes: seq<int>, cap: nat, n: nat)
    requires n <= |samples| && n <= |classes|
    ensures Bucketed(samples, classes, cap, n).Ok? <==> forall i :: 0 <= i < n ==> BucketIndex(classes[i]).Some?
    ensures Bucketed(samples, classes, cap, n).Err? ==>
              var e := Bucketed(samples, classes, cap, n).error;
              e < n && BucketIndex(classes[e]).None? && forall i :: 0 <= i < e ==> BucketIndex(classes[i]).Some?
  {
    if n > 0 {
      BucketedErrors(samples, classes, cap, n - 1);
    }
  }

  /** First come, first kept: each bucket holds the first `cap` samples of its
      class in input order (all of them when fewer), and `maxLen` is the
      largest length among the kept samples. */
  lemma BucketsFirstCome(samples: seq<seq<int>>, classes: seq<int>, cap: nat, n: nat)
    requires n <= |samples| && n <= |classes|
    requires Bucketed(samples, classes, cap, n).Ok?
    ensures var b := Bucketed(samples, classes, cap, n).value;
      && b.zero == Take(OfClass(samples, classes, 0, n), cap)
      && b.one == Take(OfClass(samples, classes, 1, n), cap)
      && IsMaxLength(b.maxLen, b.zero, b.one)
  {
    BucketContents(samples, classes, cap, n);
    BucketMaxLength(samples, classes, cap, n);
  }

  lemma {:induction false} BucketContents(samples: seq<seq<int>>, classes: seq<int>, cap: nat, n: nat)
    requires n <= |samples| && n <= |classes|
    requires Bucketed(samples, classes, cap, n).Ok?
    ensures var b := Bucketed(samples, classes, cap, n).value;
      && b.zero == Take(OfClass(samples, classes, 0, n), cap)
      && b.one == Take(OfClass(samples, classes, 1, n), cap)
  {
    if n > 0 {
      BucketedStep(samples, classes, cap, n);
      BucketContents(samples, classes, cap, n - 1);
      var s := samples[n - 1];
      OfClassStep(samples, classes, n);
      if BucketIndex(classes[n - 1]).value == 0 {
        TakeAppend(OfClass(samples, classes, 0, n - 1), s, cap);
      } else {
        TakeAppend(OfClass(samples, classes, 1, n - 1), s, cap);
      }
    }
  }

  lemma {:induction false} BucketMaxLength(samples: seq<seq<int>>, classes: seq<int>, cap: nat, n: nat)
    requires n <= |samples| && n <= |classes|
    requires Bucketed(samples, classes, cap, n).Ok?
    ensures var b := Bucketed(samples, classes, cap, n).value;
      IsMaxLength(b.maxLen, b.zero, b.one)
  {
    if n > 0 {
      BucketedStep(samples, classes, cap, n);
      BucketMaxLength(samples, classes, cap, n - 1);
      var b := Bucketed(samples, classes, cap, n - 1).value;
      var s := samples[n - 1];
      if BucketIndex(classes[n - 1]).value == 0 {
        if |b.zero| != cap {
          MaxLengthGrowsFirst(b.maxLen, b.zero, b.one, s);
        }
      } else {
        if |b.one| != cap {
          MaxLengthGrowsSecond(b.maxLen, b.zero, b.one, s);
        }
      }
    }
  }

  /** One pair's effect on a bucketing that has not failed. */
  lemma BucketedStep(samples: seq<seq<int>>, classes: seq<int>, cap: nat, n: nat)
    requires 0 < n <= |samples| && n <= |classes|
    requires Bucketed(samples, classes, cap, n).Ok?
    ensures Bucketed(samples, classes, cap, n - 1).Ok? && BucketIndex(classes[n - 1]).Some?
    ensures var b := Bucketed(samples, classes, cap, n - 1).value;
      var s := samples[n - 1];
      var c := Bucketed(samples, classes, cap, n).value;
      if BucketIndex(classes[n - 1]).value == 0 then
        c == if |b.zero| == cap then b else Buckets(b.zero + [s], b.one, Max(|s|, b.maxLen))
      else
        c == if |b.one| == cap then b else Buckets(b.zero, b.one + [s], Max(|s|, b.maxLen))
  {
  }

  lemma OfClassStep(samples: seq<seq<int>>, classes: seq<int>, n: nat)
    requires 0 < n <= |samples| && n <= |classes|
    ensures BucketIndex(classes[n - 1]) == Some(0) ==>
      && OfClass(samples, classes, 0, n) == OfClass(samples, classes, 0, n - 1) + [samples[n - 1]]
      && OfClass(samples, classes, 1, n) == OfClass(samples, classes, 1, n - 1)
    ensures BucketIndex(classes[n - 1]) == Some(1) ==>
      && OfClass(samples, classes, 0, n) == OfClass(samples, classes, 0, n - 1)
      && OfClass(samples, classes, 1, n) == OfClass(samples, classes, 1, n - 1) + [samples[n - 1]]
  {
  }

  lemma MaxLengthGrowsFirst(m: nat, a: seq<seq<int>>, b: seq<seq<int>>, s: seq<int>)
    requires IsMaxLength(m, a, b)
    ensures IsMaxLength(Max(|s|, m), a + [s], b)
  {
    var a' := a + [s];
    assert forall i :: 0 <= i < |a| ==> a'[i] == a[i];
    if |s| >= m {
      assert a'[|a|] == s;
    } else if m != 0 && exists i :: 0 <= i < |a| && |a[i]| == m {
      var i :| 0 <= i < |a| && |a[i]| == m;
      assert a'[i] == a[i];
    }
  }

  lemma MaxLengthGrowsSecond(m: nat, a: seq<seq<int>>, b: seq<seq<int>>, s: seq<int>)
    requires IsMaxLength(m, a, b)
    ensures IsMaxLength(Max(|s|, m), a, b + [s])
  {
    var b' := b + [s];
    assert forall i :: 0 <= i < |b| ==> b'[i] == b[i];
    if |s| >= m {
      assert b'[|b|] == s;
    } else if m != 0 && exists i :: 0 <= i < |b| && |b[i]| == m {
      var i :| 0 <= i < |b| && |b[i]| == m;
      assert b'[i] == b[i];
    }
  }

  lemma TakeAppend<T>(f: seq<T>, x: T, cap: nat)
    ensures |Take(f, cap)| == cap ==> Take(f + [x], cap) == Take(f, cap)
    ensures |Take(f, cap)| < cap ==> Take(f + [x], cap) == Take(f, cap) + [x]
  {
    if |f| >= cap {
      assert (f + [x])[..cap] == f[..cap];
    }
  }

  /** `while len(s) < max_len: s.append(pad)`, as a value. */
  function Padded(s: seq<int>, n: nat, pad: int): (r: seq<int>)
    ensures |r| == Max(|s|, n)
    ensures r[..|s|] == s
    ensures forall k :: |s| <= k < |r| ==> r[k] == pad
  {
    if |s| < n then s + seq(n - |s|, _ => pad) else s
  }

  lemma PaddedUnique(s: seq<int>, n: nat, pad: int, t: seq<int>)
    requires |t| == Max(|s|, n) && t[..|s|] == s
    requires forall k :: |s| <= k < |t| ==> t[k] == pad
    ensures t == Padded(s, n, pad)
  {
    var p := Padded(s, n, pad);
    forall k | 0 <= k < |t| ensures t[k] == p[k] {
      if k < |s| {
        assert t[..|s|][k] == p[..|s|][k];
      }
    }
  }

  /** The first `k` entries padded to `n`, the rest as they were. */
  function PadFirst(ss: seq<seq<int>>, k: nat, n: nat, pad: int): (r: seq<seq<int>>)
  {
    seq(|ss|, i requires 0 <= i < |ss| => if i < k then Padded(ss[i], n, pad) else ss[i])
  }

  /** One inner padding loop, on entry `i` of the bucket array `x`. */
  method PadEntry(x: array<seq<int>>, i: nat, maxLen: nat, pad: int)
    requires i < x.Length
    modifies x
    ensures x[..] == old(x[..])[i := Padded(old(x[i]), maxLen, pad)]
  {
    ghost var original := x[i];
    while |x[i]| < maxLen
      invariant |original| <= |x[i]| <= Max(|original|, maxLen)
      invariant x[i][..|original|] == original
      invariant forall k :: |original| <= k < |x[i]| ==> x[i][k] == pad
      invariant forall j :: 0 <= j < x.Length && j != i ==> x[j] == old(x[j])
      decreases maxLen - |x[i]|
    {
      x[i] := x[i] + [pad];
    }
    PaddedUnique(original, maxLen, pad, x[i]);
  }

  /** The padding loop over both buckets: for each index of bucket 0, pad
      that entry of bucket 0 and then the same entry of bucket 1, which fails
      (IndexError, `false`) once bucket 1 has no entry there. Entries of
      bucket 1 beyond bucket 0's length are never touched. */
  method PadBuckets(x0: array<seq<int>>, x1: array<seq<int>>, maxLen: nat, pad: int) returns (ok: bool)
    requires x0 != x1
    modifies x0, x1
    ensures ok <==> x0.Length <= x1.Length
    ensures ok ==> x0[..] == PadFirst(old(x0[..]), x0.Length, maxLen, pad) &&
                   x1[..] == PadFirst(old(x1[..]), x0.Length, maxLen, pad)
    ensures !ok ==> x0[..] == PadFirst(old(x0[..]), x1.Length + 1, maxLen, pad) &&
                    x1[..] == PadFirst(old(x1[..]), x1.Length, maxLen, pad)
  {
    for i := 0 to x0.Length
      invariant i <= x1.Length
      invariant x0[..] == PadFirst(old(x0[..]), i, maxLen, pad)
      invariant x1[..] == PadFirst(old(x1[..]), i, maxLen, pad)
    {
      PadEntry(x0, i, maxLen, pad);
      if i >= x1.Length {
        return false;
      }
      PadEntry(x1, i, maxLen, pad);
    }
    ok := true;
  }

  /** The support and query datasets. */
  datatype Loaders = Loaders(support: Dataset, query: Dataset)

  function Repeat(x: int, n: nat): (r: seq<int>)
  {
    seq(n, _ => x)
  }

  /** Support: the first `numShots` of each bucket with labels 0 then 1;
      query: the rest of each bucket with `numTestSamples` labels per class. */
  function SplitBuckets(zero: seq<seq<int>>, one: seq<seq<int>>, numShots: nat, numTestSamples: nat): Loaders
  {
    Loaders(
      Dataset(Take(zero, numShots) + Take(one, numShots), Repeat(0, numShots) + Repeat(1, numShots)),
      Dataset(Drop(zero, numShots) + Drop(one, numShots), Repeat(0, numTestSamples) + Repeat(1, numTestSamples)))
  }

  /** Support samples line up with their labels exactly when each bucket holds
      at least `numShots` samples, and then every support sample is labelled
      with the bucket it came from. */
  lemma SupportAligned(zero: seq<seq<int>>, one: seq<seq<int>>, numShots: nat, numTestSamples: nat)
    ensures var s := SplitBuckets(zero, one, numShots, numTestSamples).support;
      |s.samples| == |s.classes| <==> |zero| >= numShots && |one| >= numShots
    ensures var s := SplitBuckets(zero, one, numShots, numTestSamples).support;
      |zero| >= numShots && |one| >= numShots ==>
        forall i :: 0 <= i < 2 * numShots ==>
          if i < numShots then s.samples[i] == zero[i] && s.classes[i] == 0
          else s.samples[i] == one[i - numShots] && s.classes[i] == 1
  {
  }

  /** Query samples line up with their labels exactly when there are no test
      samples or both buckets are full; a short bucket leaves labels with no
      sample. */
  lemma QueryAligned(zero: seq<seq<int>>, one: seq<seq<int>>, numShots: nat, numTestSamples: nat)
    requires |zero| <= numShots + numTestSamples && |one| <= numShots + numTestSamples
    ensures var q := SplitBuckets(zero, one, numShots, numTestSamples).query;
      |q.samples| == |q.classes| <==>
        numTestSamples == 0 || (|zero| == numShots + numTestSamples && |one| == numShots + numTestSamples)
    ensures var q := SplitBuckets(zero, one, numShots, numTestSamples).query;
      |q.samples| <= |q.classes|
  {
  }

  /** After padding, every entry of bucket 0 and its partner in bucket 1 has
      exactly the maximum length, keeps its tokens as a prefix, and ends in
      pad ids; later entries of bucket 1 keep their length. */
  lemma PaddingEqualises(zero: seq<seq<int>>, one: seq<seq<int>>, maxLen: nat, pad: int)
    requires IsMaxLength(maxLen, zero, one) && |zero| <= |one|
    ensures var z, o := PadFirst(zero, |zero|, maxLen, pad), PadFirst(one, |zero|, maxLen, pad);
      && (forall i :: 0 <= i < |zero| ==> |z[i]| == maxLen && |o[i]| == maxLen)
      && (forall i :: 0 <= i < |zero| ==> z[i][..|zero[i]|] == zero[i] && o[i][..|one[i]|] == one[i])
      && (forall i, k :: 0 <= i < |zero| && |zero[i]| <= k < maxLen ==> z[i][k] == pad)
      && (forall i, k :: 0 <= i < |zero| && |one[i]| <= k < maxLen ==> o[i][k] == pad)
      && (forall i :: |zero| <= i < |one| ==> o[i] == one[i])
  {
  }

  datatype LoaderError =
    | ClassIndexError(pair: nat)   // `x[clazz]` with a class outside -2..1
    | PartnerIndexError            // `x[1][i]` with bucket 1 shorter than bucket 0

  /** `produce_loaders` with `num_shots` and `num_test_samples` as
      parameters (the driver configures 10 and 1500). The result is the
      support and query datasets; batching is left to the data loader. */
  method ProduceLoaders(samples: seq<seq<int>>, classes: seq<int>, vocab: map<string, int>,
                        numShots: nat, numTestSamples: nat)
    returns (r: Result<Loaders, LoaderError>)
    requires PAD in vocab
    ensures var b := Bucketed(samples, classes, numShots + numTestSamples, Min(|samples|, |classes|));
      && (b.Err? ==> r == Err(ClassIndexError(b.error)))
      && (b.Ok? && |b.value.one| < |b.value.zero| ==> r == Err(PartnerIndexError))
      && (b.Ok? && |b.value.zero| <= |b.value.one| ==>
            r == Ok(SplitBuckets(PadFirst(b.value.zero, |b.value.zero|, b.value.maxLen, vocab[PAD]),
                                 PadFirst(b.value.one, |b.value.zero|, b.value.maxLen, vocab[PAD]),
                                 numShots, numTestSamples)))
  {
    var x0: seq<seq<int>> := [];
    var x1: seq<seq<int>> := [];
    var maxLen: nat := 0;
    var required := numShots + numTestSamples;
    var n := Min(|samples|, |classes|);
    for i := 0 to n
      invariant Bucketed(samples, classes, required, i) == Ok(Buckets(x0, x1, maxLen))
    {
      var sample, clazz := samples[i], classes[i];
      var k := BucketIndex(clazz);
      if k.None? {
        BucketedStaysErr(samples, classes, required, i + 1, n);
        return Err(ClassIndexError(i));
      }
      if k.value == 0 {
        if |x0| == required {
          continue;
        }
        x0 := x0 + [sample];
      } else {
        if |x1| == required {
          continue;
        }
        x1 := x1 + [sample];
      }
      maxLen := Max(|sample|, maxLen);
    }
    var a0 := new seq<int>[|x0|](i requires 0 <= i < |x0| => x0[i]);
    var a1 := new seq<int>[|x1|](i requires 0 <= i < |x1| => x1[i]);
    assert a0[..] == x0 && a1[..] == x1;
    var ok := PadBuckets(a0, a1, maxLen, vocab[PAD]);
    if !ok {
      return Err(PartnerIndexError);
    }
    r := Ok(SplitBuckets(a0[..], a1[..], numShots, numTestSamples));
  }

  /** Once a bucketing error has occurred, later pairs do not change it. */
  lemma {:induction false} BucketedStaysErr(samples: seq<seq<int>>, classes: seq<int>, cap: nat, n: nat, m: nat)
    requires n <= m <= |samples| && m <= |classes|
    requires Bucketed(samples, classes, cap, n).Err?
    ensures Bucketed(samples, classes, cap, m) == Bucketed(samples, classes, cap, n)
    decreases m
  {
    if m > n {
      BucketedStaysErr(samples, classes, cap, n, m - 1);
    }
  }
}
