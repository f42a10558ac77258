/** The terminal frontend's greedy word wrap. The display width of text is the sum of its
    characters' widths, each at most two columns. */
module Wrap {
  import opened TextUtil
  import opened Seqs

  datatype Run = Run(text: string, style: nat)

  type Row = seq<Run>

  type Widths = char -> nat

  ghost predicate Narrow(w: Widths) {
    forall c :: w(c) <= 2
  }

  function Width(s: string, w: Widths): nat {
    if s == "" then 0 else Width(s[..|s| - 1], w) + w(s[|s| - 1])
  }

  function RowWidth(row: Row, w: Widths): nat {
    if row == [] then 0 else RowWidth(row[..|row| - 1], w) + Width(row[|row| - 1].text, w)
  }

  lemma {:induction false} WidthConcat(a: string, b: string, w: Widths)
    ensures Width(a + b, w) == Width(a, w) + Width(b, w)
  {
    if b == "" {
      assert a + b == a;
    } else {
      assert (a + b)[..|a + b| - 1] == a + b[..|b| - 1];
      WidthConcat(a, b[..|b| - 1], w);
    }
  }

  lemma {:induction false} RowWidthConcat(a: Row, b: Row, w: Widths)
    ensures RowWidth(a + b, w) == RowWidth(a, w) + RowWidth(b, w)
  {
    if b == [] {
      assert a + b == a;
    } else {
      assert (a + b)[..|a + b| - 1] == a + b[..|b| - 1];
      RowWidthConcat(a, b[..|b| - 1], w);
    }
  }

  function Concat(words: seq<string>): string {
    if words == [] then "" else Concat(words[..|words| - 1]) + words[|words| - 1]
  }

  function Flat(rows: seq<Row>): Row {
    if rows == [] then [] else Flat(rows[..|rows| - 1]) + rows[|rows| - 1]
  }

  lemma {:induction false} FlatConcat(a: seq<Row>, b: seq<Row>)
    ensures Flat(a + b) == Flat(a) + Flat(b)
  {
    if b == [] {
      assert a + b == a;
    } else {
      assert (a + b)[..|a + b| - 1] == a + b[..|b| - 1];
      FlatConcat(a, b[..|b| - 1]);
      Assoc(Flat(a), Flat(b[..|b| - 1]), b[|b| - 1]);
    }
  }

  // ---------------------------------------------------------------- words

  /** White space ends a word and appears nowhere else in it. */
  predicate IsWord(word: string) {
    word != "" && forall i :: 0 <= i < |word| - 1 ==> !IsWhitespace(word[i])
  }

  /** The words of a text: they concatenate to it, and only the last may lack its separator. */
  predicate AreWords(words: seq<string>, text: string) {
    && Concat(words) == text
    && (forall i :: 0 <= i < |words| ==> IsWord(words[i]))
    && forall i :: 0 <= i < |words| - 1 ==> IsWhitespace(words[i][|words[i]| - 1])
  }

  /** The next character ends up in the last word, unless that one has its separator. */
  function PushChar(before: seq<string>, ch: char): seq<string> {
    var n := |before|;
    if n > 0 && before[n - 1] != "" && !IsWhitespace(before[n - 1][|before[n - 1]| - 1])
    then before[n - 1 := before[n - 1] + [ch]]
    else before + [[ch]]
  }

  function SplitWords(text: string): seq<string> {
    if text == "" then [] else PushChar(SplitWords(text[..|text| - 1]), text[|text| - 1])
  }

  lemma ConcatUpdate(words: seq<string>, word: string)
    requires words != []
    ensures Concat(words[|words| - 1 := word]) == Concat(words[..|words| - 1]) + word
    ensures Concat(words + [word]) == Concat(words) + word
  {
    var n := |words|;
    assert words[n - 1 := word][..n - 1] == words[..n - 1];
    assert (words + [word])[..n] == words;
  }

  lemma ExtendLastWord(words: seq<string>, text: string, ch: char)
    requires AreWords(words, text) && words != [] && !IsWhitespace(words[|words| - 1][|words[|words| - 1]| - 1])
    ensures AreWords(words[|words| - 1 := words[|words| - 1] + [ch]], text + [ch])
  {
    var last := words[|words| - 1];
    ConcatUpdate(words, last + [ch]);
    assert Concat(words[..|words| - 1]) + (last + [ch]) == Concat(words) + [ch];
  }

  lemma StartWord(words: seq<string>, text: string, ch: char)
    requires AreWords(words, text)
    requires words != [] ==> IsWhitespace(words[|words| - 1][|words[|words| - 1]| - 1])
    ensures AreWords(words + [[ch]], text + [ch])
  {
    assert (words + [[ch]])[..|words|] == words;
  }

  lemma {:induction false} SplitGivesWords(text: string)
    ensures AreWords(SplitWords(text), text)
  {
    if text != "" {
      var init, ch := text[..|text| - 1], text[|text| - 1];
      SplitGivesWords(init);
      var before := SplitWords(init);
      assert text == init + [ch];
      if before != [] && !IsWhitespace(before[|before| - 1][|before[|before| - 1]| - 1]) {
        ExtendLastWord(before, init, ch);
      } else {
        StartWord(before, init, ch);
      }
    }
  }

  /** A word list whose last word is shorter than a suffix shows a separator inside that suffix. */
  lemma ShorterLastWord(a: seq<string>, text: string, y: string)
    requires AreWords(a, text) && a != [] && |a[|a| - 1]| < |y| <= |text| && y == text[|text| - |y|..]
    ensures IsWhitespace(y[|y| - |a[|a| - 1]| - 1])
  {
    var init, x := a[..|a| - 1], a[|a| - 1];
    assert text == Concat(init) + x;
    assert init != [];
    var z := init[|init| - 1];
    assert z == a[|a| - 2] && Concat(init) == Concat(init[..|init| - 1]) + z;
  }

  lemma ConcatOfWords(a: seq<string>, text: string)
    requires AreWords(a, text)
    ensures a == [] <==> text == ""
    ensures a != [] ==> |a[|a| - 1]| <= |text| && a[|a| - 1] == text[|text| - |a[|a| - 1]|..]
                        && AreWords(a[..|a| - 1], text[..|text| - |a[|a| - 1]|])
  {
    if a != [] {
      var x := a[|a| - 1];
      assert text == Concat(a[..|a| - 1]) + x;
    }
  }

  /** Those conditions leave no freedom: a text has one splitting into words. */
  lemma {:induction false} WordsAreUnique(a: seq<string>, b: seq<string>, text: string)
    requires AreWords(a, text) && AreWords(b, text)
    ensures a == b
    decreases |text|
  {
    ConcatOfWords(a, text);
    ConcatOfWords(b, text);
    if text != "" {
      var x, y := a[|a| - 1], b[|b| - 1];
      if |x| < |y| {
        ShorterLastWord(a, text, y);
      } else if |y| < |x| {
        ShorterLastWord(b, text, x);
      } else {
        WordsAreUnique(a[..|a| - 1], b[..|b| - 1], text[..|text| - |x|]);
        assert a == a[..|a| - 1] + [x] && b == b[..|b| - 1] + [y];
      }
    }
  }

  /** What the loop has made of the text read so far: finished words and the one being read. */
  ghost predicate SplitSoFar(words: seq<string>, word: string, read: string) {
    && SplitWords(read) == (if word == "" then words else words + [word])
    && (words != [] ==>
          words[|words| - 1] != "" && IsWhitespace(words[|words| - 1][|words[|words| - 1]| - 1]))
    && (word != "" ==> !IsWhitespace(word[|word| - 1]))
  }

  /** One more character joins the word being read, which is empty after a separator. */
  lemma PushCharToWord(words: seq<string>, word: string, ch: char)
    requires words == [] || (words[|words| - 1] != "" && IsWhitespace(words[|words| - 1][|words[|words| - 1]| - 1]))
    requires word != "" ==> !IsWhitespace(word[|word| - 1])
    ensures PushChar(if word == "" then words else words + [word], ch) == words + [word + [ch]]
  {
    if word == "" {
      assert word + [ch] == [ch];
    } else {
      assert (words + [word])[|words| := word + [ch]] == words + [word + [ch]];
    }
  }

  lemma SplitTurn(words: seq<string>, word: string, text: string, i: nat)
    requires i < |text| && SplitSoFar(words, word, text[..i])
    ensures IsWhitespace(text[i]) ==> SplitSoFar(words + [word + [text[i]]], "", text[..i + 1])
    ensures !IsWhitespace(text[i]) ==> SplitSoFar(words, word + [text[i]], text[..i + 1])
  {
    var read := text[..i + 1];
    assert read[..|read| - 1] == text[..i] && read[|read| - 1] == text[i];
    PushCharToWord(words, word, text[i]);
    assert SplitWords(read) == words + [word + [text[i]]];
  }

  /** The splitting loop. */
  method SplitIntoWords(text: string) returns (words: seq<string>)
    ensures words == SplitWords(text) && AreWords(words, text)
  {
    words := [];
    var word := "";
    var i := 0;
    while i < |text|
      invariant 0 <= i <= |text|
      invariant SplitSoFar(words, word, text[..i])
    {
      SplitTurn(words, word, text, i);
      word := word + [text[i]];
      if IsWhitespace(text[i]) {
        words := words + [word];
        word := "";
      }
      i := i + 1;
    }
    assert text[..i] == text;
    if word != "" {
      words := words + [word];
    }
    SplitGivesWords(text);
  }

  // ---------------------------------------------------------------- hard breaks

  /** n characters fit, and one more would not. */
  ghost predicate LongestFit(text: string, n: nat, max: nat, w: Widths) {
    n <= |text| && Width(text[..n], w) <= max && (n < |text| ==> Width(text[..n + 1], w) > max)
  }

  lemma {:induction false} LongerIsWider(text: string, m: nat, n: nat, w: Widths)
    requires m <= n <= |text|
    ensures Width(text[..m], w) <= Width(text[..n], w)
  {
    assert text[..n] == text[..m] + text[m..n];
    WidthConcat(text[..m], text[m..n], w);
  }

  lemma LongestFitIsUnique(text: string, m: nat, n: nat, max: nat, w: Widths)
    requires LongestFit(text, m, max, w) && LongestFit(text, n, max, w)
    ensures m == n
  {
    if m < n {
      LongerIsWider(text, m + 1, n, w);
    } else if n < m {
      LongerIsWider(text, n + 1, m, w);
    }
  }

  function CutFrom(text: string, i: nat, max: nat, w: Widths): (n: nat)
    requires i <= |text| && Width(text[..i], w) <= max
    ensures i <= n && LongestFit(text, n, max, w)
    decreases |text| - i
  {
    if i == |text| || Width(text[..i + 1], w) > max then i else CutFrom(text, i + 1, max, w)
  }

  /** The cutting loop. */
  method CutAtWidth(text: string, max: nat, w: Widths) returns (n: nat)
    ensures LongestFit(text, n, max, w) && n == CutFrom(text, 0, max, w)
  {
    var used := 0;
    n := 0;
    while n < |text|
      invariant 0 <= n <= |text|
      invariant used == Width(text[..n], w) <= max
    {
      assert text[..n + 1][..n] == text[..n];
      if used + w(text[n]) > max {
        break;
      }
      used := used + w(text[n]);
      n := n + 1;
    }
    LongestFitIsUnique(text, n, CutFrom(text, 0, max, w), max, w);
  }

  /** What leaves a word too wide for a row: at least one character at a time. */
  lemma CutProgresses(text: string, n: nat, max: nat, w: Widths)
    requires Narrow(w) && max >= 4 && Width(text, w) > max && LongestFit(text, n, max, w)
    ensures 0 < n < |text| && Width(text[..n], w) + 2 > max && Width(text[n..], w) == Width(text, w) - Width(text[..n], w)
  {
    assert text[..|text|] == text;
    assert text[..n + 1][..n] == text[..n];
    assert text == text[..n] + text[n..];
    WidthConcat(text[..n], text[n..], w);
  }

  /** A word's pieces: itself when it fits, else maximal cuts and what is left. */
  function Pieces(word: string, max: nat, w: Widths): seq<string>
    requires Narrow(w) && max >= 4
    decreases |word|
  {
    if Width(word, w) <= max then [word]
    else
      var n := CutFrom(word, 0, max, w);
      CutProgresses(word, n, max, w);
      [word[..n]] + Pieces(word[n..], max, w)
  }

  function Styled(texts: seq<string>, style: nat): Row {
    seq(|texts|, i requires 0 <= i < |texts| => Run(texts[i], style))
  }

  function WordPieces(words: seq<string>, style: nat, max: nat, w: Widths): Row
    requires Narrow(w) && max >= 4
  {
    if words == [] then []
    else WordPieces(words[..|words| - 1], style, max, w) + Styled(Pieces(words[|words| - 1], max, w), style)
  }

  function RunPieces(runs: seq<Run>, max: nat, w: Widths): Row
    requires Narrow(w) && max >= 4
  {
    if runs == [] then []
    else
      var last := runs[|runs| - 1];
      RunPieces(runs[..|runs| - 1], max, w) + WordPieces(SplitWords(last.text), last.style, max, w)
  }

  // ---------------------------------------------------------------- rows

  /** Rows finished, the row being filled, and its width. */
  datatype Builder = Builder(rows: seq<Row>, current: Row, width: nat)

  const NoRows := Builder([], [], 0)

  function AllRows(b: Builder): seq<Row> {
    b.rows + [b.current]
  }

  function Flushed(b: Builder, run: Run, w: Widths): Builder {
    Builder(b.rows + [b.current], [run], Width(run.text, w))
  }

  function Grown(b: Builder, run: Run, w: Widths): Builder {
    Builder(b.rows, b.current + [run], b.width + Width(run.text, w))
  }

  /** The current row, blank or not, and a hard-broken piece on a row of its own. */
  function CutOff(b: Builder, cut: Run): Builder {
    Builder(b.rows + [b.current, [cut]], [], 0)
  }

  /** One word: on the current row if there is room, on the next if not, and cut into full
      rows while no row can hold it. */
  function Placed(b: Builder, word: string, style: nat, max: nat, w: Widths): Builder
    requires Narrow(w) && max >= 4
    decreases |word|
  {
    if Width(word, w) <= max then
      if b.width + Width(word, w) > max && b.width > 0 then Flushed(b, Run(word, style), w)
      else Grown(b, Run(word, style), w)
    else
      var n := CutFrom(word, 0, max, w);
      CutProgresses(word, n, max, w);
      Placed(CutOff(b, Run(word[..n], style)), word[n..], style, max, w)
  }

  function PlacedAll(b: Builder, words: seq<string>, style: nat, max: nat, w: Widths): Builder
    requires Narrow(w) && max >= 4
  {
    if words == [] then b
    else Placed(PlacedAll(b, words[..|words| - 1], style, max, w), words[|words| - 1], style, max, w)
  }

  function Wrapped(runs: seq<Run>, max: nat, w: Widths): Builder
    requires Narrow(w) && max >= 4
  {
    if runs == [] then NoRows
    else
      var last := runs[|runs| - 1];
      PlacedAll(Wrapped(runs[..|runs| - 1], max, w), SplitWords(last.text), last.style, max, w)
  }

  /** One word of the loop: the hard-break loop, then the rest or the whole word. */
  method PlaceWord(b: Builder, word: string, style: nat, max: nat, w: Widths) returns (r: Builder)
    requires Narrow(w) && max >= 4
    ensures r == Placed(b, word, style, max, w)
  {
    r := b;
    if Width(word, w) > max {
      var rest := word;
      while Width(rest, w) > max
        invariant Placed(r, rest, style, max, w) == Placed(b, word, style, max, w)
        invariant rest != "" && (rest == word || r.width == 0)
        decreases |rest|
      {
        var n := CutAtWidth(rest, max, w);
        CutProgresses(rest, n, max, w);
        r := Builder(r.rows + [r.current, [Run(rest[..n], style)]], [], 0);
        rest := rest[n..];
      }
      r := Builder(r.rows, r.current + [Run(rest, style)], r.width + Width(rest, w));
      return;
    }
    if r.width + Width(word, w) > max && r.width > 0 {
      r := Builder(r.rows + [r.current], [], 0);
    }
    assert [] + [Run(word, style)] == [Run(word, style)];
    r := Builder(r.rows, r.current + [Run(word, style)], r.width + Width(word, w));
  }

  function MaxWidth(width: nat): (r: nat)
    ensures r >= 4 && r >= width && (r == 4 || r == width)
  {
    if width < 4 then 4 else width
  }

  /** The wrapping loop. `added` is what the caller's rows grow by. */
  method WrapRuns(runs: seq<Run>, width: nat, w: Widths) returns (added: seq<Row>)
    requires Narrow(w)
    ensures added == AllRows(Wrapped(runs, MaxWidth(width), w))
  {
    var max := MaxWidth(width);
    var b := NoRows;
    for i := 0 to |runs|
      invariant b == Wrapped(runs[..i], max, w)
    {
      assert runs[..i + 1][..i] == runs[..i];
      var words := SplitIntoWords(runs[i].text);
      ghost var before := b;
      for j := 0 to |words|
        invariant b == PlacedAll(before, words[..j], runs[i].style, max, w)
      {
        assert words[..j + 1][..j] == words[..j];
        b := PlaceWord(b, words[j], runs[i].style, max, w);
      }
      assert words[..|words|] == words;
    }
    assert runs[..|runs|] == runs;
    added := b.rows + [b.current];
  }

  // ---------------------------------------------------------------- what the rows are

  ghost predicate AllFit(rows: seq<Row>, max: nat, w: Widths) {
    forall i :: 0 <= i < |rows| ==> RowWidth(rows[i], w) <= max
  }

  /** A row holding one hard-broken piece, filled to within a wide character. */
  ghost predicate HardRow(row: Row, max: nat, w: Widths) {
    |row| == 1 && RowWidth(row, w) + 2 > max
  }

  /** A blank row stands only before a hard-broken piece. */
  ghost predicate BlanksExplained(rows: seq<Row>, max: nat, w: Widths) {
    forall i :: 0 <= i < |rows| && rows[i] == [] ==> i + 1 < |rows| && HardRow(rows[i + 1], max, w)
  }

  /** The break after row i was forced: the next row's first word did not fit any more. */
  ghost predicate Forced(rows: seq<Row>, i: nat, max: nat, w: Widths)
    requires i + 1 < |rows|
  {
    rows[i] != [] && rows[i + 1] != [] && RowWidth(rows[i], w) + Width(rows[i + 1][0].text, w) > max
  }

  ghost predicate Tight(rows: seq<Row>, max: nat, w: Widths) {
    forall i :: 0 <= i < |rows| - 1 ==> Forced(rows, i, max, w)
  }

  /** The rows so far are in order, whatever the current row holds. */
  ghost predicate Stable(b: Builder, max: nat, w: Widths) {
    b.width == RowWidth(b.current, w) <= max && AllFit(b.rows, max, w) && BlanksExplained(b.rows, max, w)
  }

  ghost predicate Good(b: Builder, max: nat, w: Widths) {
    Stable(b, max, w) && (b.rows != [] ==> b.current != [])
  }

  lemma PushedWidth(row: Row, r: Run, w: Widths)
    ensures RowWidth(row + [r], w) == RowWidth(row, w) + Width(r.text, w)
  {
    assert (row + [r])[..|row|] == row;
  }

  lemma OneRowFlat(row: Row)
    ensures Flat([row]) == row
  {
    assert [row][..0] == [];
    assert [] + row == row;
  }

  lemma AllRowsFlat(b: Builder)
    ensures Flat(AllRows(b)) == Flat(b.rows) + b.current
  {
    FlatConcat(b.rows, [b.current]);
    OneRowFlat(b.current);
  }

  lemma GoodRows(b: Builder, max: nat, w: Widths)
    requires Stable(b, max, w)
    ensures AllFit(AllRows(b), max, w)
    ensures b.current != [] ==> BlanksExplained(AllRows(b), max, w)
  {
    var all := AllRows(b);
    if b.current != [] {
      forall i | 0 <= i < |all| && all[i] == []
        ensures i + 1 < |all| && HardRow(all[i + 1], max, w)
      {
        assert b.rows[i] == [];
      }
    }
  }

  lemma FlushedIsGood(b: Builder, run: Run, max: nat, w: Widths)
    requires Stable(b, max, w) && Width(run.text, w) <= max && b.width > 0
    ensures Good(Flushed(b, run, w), max, w)
    ensures Flat(AllRows(Flushed(b, run, w))) == Flat(AllRows(b)) + [run]
  {
    GoodRows(b, max, w);
    assert [] + [run] == [run];
    PushedWidth([], run, w);
    AllRowsFlat(Flushed(b, run, w));
  }

  lemma GrownIsGood(b: Builder, run: Run, max: nat, w: Widths)
    requires Stable(b, max, w) && b.width + Width(run.text, w) <= max
    ensures Good(Grown(b, run, w), max, w)
    ensures Flat(AllRows(Grown(b, run, w))) == Flat(AllRows(b)) + [run]
  {
    PushedWidth(b.current, run, w);
    AllRowsFlat(b);
    AllRowsFlat(Grown(b, run, w));
    Assoc(Flat(b.rows), b.current, [run]);
  }

  lemma CutOffIsStable(b: Builder, cut: Run, max: nat, w: Widths)
    requires Stable(b, max, w) && Width(cut.text, w) <= max < Width(cut.text, w) + 2
    ensures Stable(CutOff(b, cut), max, w)
    ensures Flat(AllRows(CutOff(b, cut))) == Flat(AllRows(b)) + [cut]
  {
    var row: Row := [cut];
    PushedWidth([], cut, w);
    assert [] + [cut] == row;
    assert b.rows + [b.current, row] == AllRows(b) + [row];
    FlatConcat(AllRows(b), [row]);
    OneRowFlat(row);
    AllRowsFlat(CutOff(b, cut));
  }

  lemma GrowsTight(rows: seq<Row>, current: Row, run: Run, max: nat, w: Widths)
    ensures Tight(rows + [current], max, w) ==> Tight(rows + [current + [run]], max, w)
  {
    if Tight(rows + [current], max, w) {
      var a: seq<Row>, b: seq<Row> := rows + [current], rows + [current + [run]];
      forall i | 0 <= i < |b| - 1
        ensures Forced(b, i, max, w)
      {
        assert Forced(a, i, max, w);
      }
    }
  }

  lemma BreakTight(rows: seq<Row>, current: Row, run: Run, max: nat, w: Widths)
    requires RowWidth(current, w) > 0 && RowWidth(current, w) + Width(run.text, w) > max
    ensures Tight(rows + [current], max, w) ==> Tight(rows + [current] + [[run]], max, w)
  {
    if Tight(rows + [current], max, w) {
      var a: seq<Row>, b: seq<Row> := rows + [current], rows + [current] + [[run]];
      forall i | 0 <= i < |b| - 1
        ensures Forced(b, i, max, w)
      {
        if i < |a| - 1 {
          assert Forced(a, i, max, w);
        }
      }
    }
  }

  lemma StyledConcat(a: seq<string>, b: seq<string>, style: nat)
    ensures Styled(a + b, style) == Styled(a, style) + Styled(b, style)
  {
  }

  /** The first piece of a word too wide for a row is its longest fitting cut. */
  lemma CutStep(word: string, n: nat, style: nat, max: nat, w: Widths)
    requires Narrow(w) && max >= 4 && Width(word, w) > max && n == CutFrom(word, 0, max, w)
    ensures 0 < n < |word| && Width(word[..n], w) <= max < Width(word[..n], w) + 2
    ensures Styled(Pieces(word, max, w), style)
            == [Run(word[..n], style)] + Styled(Pieces(word[n..], max, w), style)
  {
    CutProgresses(word, n, max, w);
    var rest := Pieces(word[n..], max, w);
    assert Pieces(word, max, w) == [word[..n]] + rest;
    StyledConcat([word[..n]], rest, style);
    assert Styled([word[..n]], style) == [Run(word[..n], style)];
  }

  /** A word that fits adds itself, and breaks the row only when it must. */
  lemma FittingPlaced(b: Builder, word: string, style: nat, max: nat, w: Widths)
    requires Narrow(w) && max >= 4 && Stable(b, max, w) && Width(word, w) <= max
    ensures var r := Placed(b, word, style, max, w);
            && Good(r, max, w) && r.current != []
            && Flat(AllRows(r)) == Flat(AllRows(b)) + [Run(word, style)]
            && (if RowWidth(b.current, w) > 0 && RowWidth(b.current, w) + Width(word, w) > max
                then AllRows(r) == AllRows(b) + [[Run(word, style)]]
                else AllRows(r) == b.rows + [b.current + [Run(word, style)]])
            && (Tight(AllRows(b), max, w) ==> Tight(AllRows(r), max, w))
  {
    var run := Run(word, style);
    if b.width + Width(word, w) > max && b.width > 0 {
      FlushedIsGood(b, run, max, w);
      BreakTight(b.rows, b.current, run, max, w);
    } else {
      GrownIsGood(b, run, max, w);
      GrowsTight(b.rows, b.current, run, max, w);
    }
  }

  lemma PlacedCut(b: Builder, word: string, n: nat, style: nat, max: nat, w: Widths)
    requires Narrow(w) && max >= 4 && Width(word, w) > max && n == CutFrom(word, 0, max, w)
    ensures n < |word| && Placed(b, word, style, max, w) == Placed(CutOff(b, Run(word[..n], style)), word[n..], style, max, w)
  {
    CutProgresses(word, n, max, w);
  }

  lemma {:induction false} PlacedIsGood(b: Builder, word: string, style: nat, max: nat, w: Widths)
    requires Narrow(w) && max >= 4 && Stable(b, max, w)
    ensures Good(Placed(b, word, style, max, w), max, w) && Placed(b, word, style, max, w).current != []
    decreases |word|
  {
    if Width(word, w) <= max {
      FittingPlaced(b, word, style, max, w);
    } else {
      var n := CutFrom(word, 0, max, w);
      CutStep(word, n, style, max, w);
      PlacedCut(b, word, n, style, max, w);
      CutOffIsStable(b, Run(word[..n], style), max, w);
      PlacedIsGood(CutOff(b, Run(word[..n], style)), word[n..], style, max, w);
    }
  }

  lemma WholePiece(word: string, style: nat, max: nat, w: Widths)
    requires Narrow(w) && max >= 4 && Width(word, w) <= max
    ensures Styled(Pieces(word, max, w), style) == [Run(word, style)]
  {
  }

  /** If the rest adds its pieces behind the cut, the word adds all of its pieces. */
  lemma CutAddsPieces(b: Builder, word: string, n: nat, style: nat, max: nat, w: Widths)
    requires Narrow(w) && max >= 4 && Stable(b, max, w)
    requires Width(word, w) > max && n == CutFrom(word, 0, max, w) < |word|
    requires var cutOff := CutOff(b, Run(word[..n], style));
             Flat(AllRows(Placed(cutOff, word[n..], style, max, w)))
             == Flat(AllRows(cutOff)) + Styled(Pieces(word[n..], max, w), style)
    ensures Flat(AllRows(Placed(b, word, style, max, w)))
            == Flat(AllRows(b)) + Styled(Pieces(word, max, w), style)
  {
    var cut, others := Run(word[..n], style), Styled(Pieces(word[n..], max, w), style);
    PlacedCut(b, word, n, style, max, w);
    CutStep(word, n, style, max, w);
    CutOffIsStable(b, cut, max, w);
    Assoc(Flat(AllRows(b)), [cut], others);
  }

  /** Any word adds its pieces, in order. */
  lemma {:induction false} PlacedAddsPieces(b: Builder, word: string, style: nat, max: nat, w: Widths)
    requires Narrow(w) && max >= 4 && Stable(b, max, w)
    ensures Flat(AllRows(Placed(b, word, style, max, w)))
            == Flat(AllRows(b)) + Styled(Pieces(word, max, w), style)
    decreases |word|
  {
    if Width(word, w) <= max {
      FittingPlaced(b, word, style, max, w);
      WholePiece(word, style, max, w);
    } else {
      var n := CutFrom(word, 0, max, w);
      CutProgresses(word, n, max, w);
      CutOffIsStable(b, Run(word[..n], style), max, w);
      PlacedAddsPieces(CutOff(b, Run(word[..n], style)), word[n..], style, max, w);
      CutAddsPieces(b, word, n, style, max, w);
    }
  }

  // ---------------------------------------------------------------- hard breaks in rows

  lemma PiecesOfFitting(word: string, max: nat, w: Widths)
    requires Narrow(w) && max >= 4 && Width(word, w) <= max
    ensures Pieces(word, max, w) == [word]
  {
  }

  /** A word too wide for a row is cut after the longest prefix that fits, which is neither
      empty nor all of it; and the rest likewise. */
  lemma PiecesOfOversized(word: string, max: nat, w: Widths) returns (n: nat)
    requires Narrow(w) && max >= 4 && Width(word, w) > max
    ensures 0 < n < |word| && LongestFit(word, n, max, w) && n == CutFrom(word, 0, max, w)
    ensures Pieces(word, max, w) == [word[..n]] + Pieces(word[n..], max, w)
  {
    n := CutFrom(word, 0, max, w);
    CutProgresses(word, n, max, w);
  }

  /** Together the pieces are the word, and the last one fits too. */
  lemma {:induction false} PiecesJoin(word: string, max: nat, w: Widths)
    requires Narrow(w) && max >= 4
    ensures var ps := Pieces(word, max, w);
            ps != [] && Concat(ps) == word && Width(ps[|ps| - 1], w) <= max
    decreases |word|
  {
    if Width(word, w) <= max {
      PiecesOfFitting(word, max, w);
      ConcatOne(word);
    } else {
      var n := PiecesOfOversized(word, max, w);
      PiecesJoin(word[n..], max, w);
      CutJoins(word, n, Pieces(word[n..], max, w));
    }
  }

  lemma ConcatOne(word: string)
    ensures Concat([word]) == word
  {
    assert [word][..0] == [] && [] + word == word;
  }

  lemma CutJoins(word: string, n: nat, ps: seq<string>)
    requires n <= |word| && ps != [] && Concat(ps) == word[n..]
    ensures Concat([word[..n]] + ps) == word && ([word[..n]] + ps)[|ps|] == ps[|ps| - 1]
  {
    ConcatCons(word[..n], ps);
    Rejoined(word, n);
  }

  lemma Rejoined(word: string, n: nat)
    requires n <= |word|
    ensures word[..n] + word[n..] == word
  {
  }

  lemma {:induction false} ConcatCons(first: string, words: seq<string>)
    ensures Concat([first] + words) == first + Concat(words)
  {
    if words == [] {
      assert [first] + words == [first];
      ConcatOne(first);
      assert first + "" == first;
    } else {
      ConcatCons(first, words[..|words| - 1]);
      assert ([first] + words)[..|words|] == [first] + words[..|words| - 1];
      Assoc(first, Concat(words[..|words| - 1]), words[|words| - 1]);
    }
  }

  /** Rows of a hard break: every piece on a row of its own, with a blank one between two that
      are followed by more, and none before the last. */
  function PieceRows(ps: seq<string>, style: nat): seq<Row>
    requires ps != []
  {
    if |ps| == 1 then [[Run(ps[0], style)]]
    else [[Run(ps[0], style)]] + (if |ps| == 2 then [] else [[]]) + PieceRows(ps[1..], style)
  }

  lemma PieceRowsStep(first: string, ps: seq<string>, style: nat)
    requires ps != []
    ensures PieceRows([first] + ps, style)
            == [[Run(first, style)]] + (if |ps| == 1 then [] else [[]]) + PieceRows(ps, style)
  {
    assert ([first] + ps)[1..] == ps;
  }

  /** When the rest fits after one cut. */
  lemma OneCutRows(b: Builder, word: string, n: nat, style: nat, max: nat, w: Widths)
    requires Narrow(w) && max >= 4 && Stable(b, max, w) && Width(word, w) > max
    requires n == CutFrom(word, 0, max, w) < |word| && Width(word[n..], w) <= max
    ensures AllRows(Placed(b, word, style, max, w)) == AllRows(b) + [[Run(word[..n], style)], [Run(word[n..], style)]]
  {
    PlacedCut(b, word, n, style, max, w);
    PlacedOnBlank(CutOff(b, Run(word[..n], style)), word[n..], style, max, w);
    RowsAfterCut(b, Run(word[..n], style), Run(word[n..], style), w);
  }

  lemma PlacedOnBlank(b: Builder, word: string, style: nat, max: nat, w: Widths)
    requires Narrow(w) && max >= 4 && b.width == 0 && Width(word, w) <= max
    ensures Placed(b, word, style, max, w) == Grown(b, Run(word, style), w)
  {
  }

  lemma RowsAfterCut(b: Builder, cut: Run, rest: Run, w: Widths)
    ensures AllRows(Grown(CutOff(b, cut), rest, w)) == AllRows(b) + [[cut], [rest]]
  {
    assert [] + [rest] == [rest];
  }

  /** A word too wide for a row ends the row it finds, blank or not, and takes rows of its own. */
  lemma {:induction false} OversizedTakesItsOwnRows(b: Builder, word: string, style: nat, max: nat, w: Widths)
    requires Narrow(w) && max >= 4 && Stable(b, max, w) && Width(word, w) > max
    ensures Pieces(word, max, w) != []
    ensures AllRows(Placed(b, word, style, max, w)) == AllRows(b) + PieceRows(Pieces(word, max, w), style)
    decreases |word|
  {
    var n := PiecesOfOversized(word, max, w);
    var cut, rest := Run(word[..n], style), word[n..];
    var ps := Pieces(rest, max, w);
    if Width(rest, w) <= max {
      OneCutRows(b, word, n, style, max, w);
      PiecesOfFitting(rest, max, w);
      PieceRowsStep(word[..n], [rest], style);
      assert [[cut]] + [] + [[Run(rest, style)]] == [[cut], [Run(rest, style)]];
    } else {
      CutStep(word, n, style, max, w);
      PlacedCut(b, word, n, style, max, w);
      CutOffIsStable(b, cut, max, w);
      OversizedTakesItsOwnRows(CutOff(b, cut), rest, style, max, w);
      ManyCutRows(b, cut, word[..n], ps, style, max, w);
      var _ := PiecesOfOversized(rest, max, w);
      assert |ps| > 1;
    }
  }

  lemma ManyCutRows(b: Builder, cut: Run, first: string, ps: seq<string>, style: nat, max: nat, w: Widths)
    requires ps != [] && cut == Run(first, style)
    ensures |ps| > 1 ==> AllRows(CutOff(b, cut)) + PieceRows(ps, style) == AllRows(b) + PieceRows([first] + ps, style)
  {
    PieceRowsStep(first, ps, style);
    assert AllRows(CutOff(b, cut)) == AllRows(b) + ([[cut]] + [[]]);
    Assoc(AllRows(b), [[cut]] + [[]], PieceRows(ps, style));
  }

  ghost predicate NoneOversized(words: seq<string>, max: nat, w: Widths) {
    forall i :: 0 <= i < |words| ==> Width(words[i], w) <= max
  }

  lemma {:induction false} PlacedAllIsGood(b: Builder, words: seq<string>, style: nat, max: nat, w: Widths)
    requires Narrow(w) && max >= 4 && Good(b, max, w)
    ensures var r := PlacedAll(b, words, style, max, w);
            && Good(r, max, w)
            && Flat(AllRows(r)) == Flat(AllRows(b)) + WordPieces(words, style, max, w)
  {
    if words == [] {
      assert Flat(AllRows(b)) + [] == Flat(AllRows(b));
    } else {
      var init, last := words[..|words| - 1], words[|words| - 1];
      PlacedAllIsGood(b, init, style, max, w);
      PlacedIsGood(PlacedAll(b, init, style, max, w), last, style, max, w);
      PlacedAddsPieces(PlacedAll(b, init, style, max, w), last, style, max, w);
      Assoc(Flat(AllRows(b)), WordPieces(init, style, max, w), Styled(Pieces(last, max, w), style));
    }
  }

  lemma {:induction false} PlacedAllIsTight(b: Builder, words: seq<string>, style: nat, max: nat, w: Widths)
    requires Narrow(w) && max >= 4 && Good(b, max, w) && Tight(AllRows(b), max, w)
    requires NoneOversized(words, max, w)
    ensures Tight(AllRows(PlacedAll(b, words, style, max, w)), max, w)
  {
    if words != [] {
      var init, last := words[..|words| - 1], words[|words| - 1];
      assert last == words[|words| - 1];
      PlacedAllIsTight(b, init, style, max, w);
      PlacedAllIsGood(b, init, style, max, w);
      FittingPlaced(PlacedAll(b, init, style, max, w), last, style, max, w);
    }
  }

  lemma {:induction false} WrappedIsGood(runs: seq<Run>, max: nat, w: Widths)
    requires Narrow(w) && max >= 4
    ensures Good(Wrapped(runs, max, w), max, w)
    ensures Flat(AllRows(Wrapped(runs, max, w))) == RunPieces(runs, max, w)
  {
    if runs == [] {
      AllRowsFlat(NoRows);
    } else {
      var init, last := runs[..|runs| - 1], runs[|runs| - 1];
      WrappedIsGood(init, max, w);
      PlacedAllIsGood(Wrapped(init, max, w), SplitWords(last.text), last.style, max, w);
    }
  }

  /** For every input: each row fits; read in order the rows hold exactly the words, those too
      wide for any row in maximal cuts; and a blank row is one before a hard-broken piece, or
      the only row. */
  lemma WrapLaws(runs: seq<Run>, max: nat, w: Widths)
    requires Narrow(w) && max >= 4
    ensures var rows := AllRows(Wrapped(runs, max, w));
            && rows != [] && AllFit(rows, max, w) && Flat(rows) == RunPieces(runs, max, w)
            && (|rows| > 1 ==> BlanksExplained(rows, max, w))
  {
    WrappedIsGood(runs, max, w);
    GoodRows(Wrapped(runs, max, w), max, w);
  }

  ghost predicate AllWordsFit(runs: seq<Run>, max: nat, w: Widths) {
    forall i :: 0 <= i < |runs| ==> NoneOversized(SplitWords(runs[i].text), max, w)
  }

  /** When every word fits, every break was forced. */
  lemma {:induction false} WrappedIsTight(runs: seq<Run>, max: nat, w: Widths)
    requires Narrow(w) && max >= 4 && AllWordsFit(runs, max, w)
    ensures Tight(AllRows(Wrapped(runs, max, w)), max, w)
  {
    if runs != [] {
      var init, last := runs[..|runs| - 1], runs[|runs| - 1];
      WrappedIsTight(init, max, w);
      WrappedIsGood(init, max, w);
      assert NoneOversized(SplitWords(last.text), max, w);
      PlacedAllIsTight(Wrapped(init, max, w), SplitWords(last.text), last.style, max, w);
    }
  }

  // ---------------------------------------------------------------- conservation

  function StyledChars(row: Row): seq<(char, nat)> {
    if row == [] then []
    else
      var last := row[|row| - 1];
      StyledChars(row[..|row| - 1]) + Painted(last.text, last.style)
  }

  function Painted(text: string, style: nat): seq<(char, nat)> {
    seq(|text|, i requires 0 <= i < |text| => (text[i], style))
  }

  lemma PaintedConcat(a: string, b: string, style: nat)
    ensures Painted(a + b, style) == Painted(a, style) + Painted(b, style)
  {
  }

  lemma {:induction false} StyledCharsConcat(a: Row, b: Row)
    ensures StyledChars(a + b) == StyledChars(a) + StyledChars(b)
  {
    if b == [] {
      assert a + b == a;
    } else {
      assert (a + b)[..|a + b| - 1] == a + b[..|b| - 1];
      StyledCharsConcat(a, b[..|b| - 1]);
      Assoc(StyledChars(a), StyledChars(b[..|b| - 1]), Painted(b[|b| - 1].text, b[|b| - 1].style));
    }
  }

  lemma OneRun(text: string, style: nat)
    ensures StyledChars([Run(text, style)]) == Painted(text, style)
  {
    assert [Run(text, style)][..0] == [];
  }

  lemma {:induction false} PiecesConserve(word: string, style: nat, max: nat, w: Widths)
    requires Narrow(w) && max >= 4
    ensures StyledChars(Styled(Pieces(word, max, w), style)) == Painted(word, style)
    decreases |word|
  {
    if Width(word, w) <= max {
      assert Styled([word], style) == [Run(word, style)];
      OneRun(word, style);
    } else {
      var n := CutFrom(word, 0, max, w);
      CutStep(word, n, style, max, w);
      var cut, rest := word[..n], Styled(Pieces(word[n..], max, w), style);
      PiecesConserve(word[n..], style, max, w);
      StyledCharsConcat([Run(cut, style)], rest);
      OneRun(cut, style);
      PaintedConcat(cut, word[n..], style);
      assert cut + word[n..] == word;
    }
  }

  lemma {:induction false} WordsConserve(words: seq<string>, style: nat, max: nat, w: Widths)
    requires Narrow(w) && max >= 4
    ensures StyledChars(WordPieces(words, style, max, w)) == Painted(Concat(words), style)
  {
    if words != [] {
      var init, last := words[..|words| - 1], words[|words| - 1];
      WordsConserve(init, style, max, w);
      PiecesConserve(last, style, max, w);
      StyledCharsConcat(WordPieces(init, style, max, w), Styled(Pieces(last, max, w), style));
      PaintedConcat(Concat(init), last, style);
    }
  }

  lemma {:induction false} RunPiecesConserve(runs: seq<Run>, max: nat, w: Widths)
    requires Narrow(w) && max >= 4
    ensures StyledChars(RunPieces(runs, max, w)) == StyledChars(runs)
  {
    if runs != [] {
      var init, last := runs[..|runs| - 1], runs[|runs| - 1];
      RunPiecesConserve(init, max, w);
      WordsConserve(SplitWords(last.text), last.style, max, w);
      SplitGivesWords(last.text);
      StyledCharsConcat(RunPieces(init, max, w), WordPieces(SplitWords(last.text), last.style, max, w));
    }
  }

  /** Read in order, the rows carry exactly the characters of the input, each in its style. */
  lemma WrapConserves(runs: seq<Run>, max: nat, w: Widths)
    requires Narrow(w) && max >= 4
    ensures StyledChars(Flat(AllRows(Wrapped(runs, max, w)))) == StyledChars(runs)
  {
    WrapLaws(runs, max, w);
    RunPiecesConserve(runs, max, w);
  }

  // ---------------------------------------------------------------- optimality

  /** Greedy stays ahead: rows whose breaks were all forced are no more than the rows of any
      other in-order split, even one that has `extra` words to place before them. */
  lemma {:induction false} ForcedStaysAhead(greedy: seq<Row>, other: seq<Row>, extra: Row, max: nat, w: Widths)
    requires greedy != [] && greedy[0] != [] && Tight(greedy, max, w)
    requires AllFit(other, max, w) && Flat(other) == extra + Flat(greedy)
    ensures |greedy| <= |other|
    decreases |other|
  {
    FlatOfFirst(greedy);
    if other != [] && |greedy| > 1 {
      FlatOfFirst(other);
      var first, all := other[0], extra + Flat(greedy);
      assert other[0] == all[..|first|];
      if |first| <= |extra| {
        assert Flat(other[1..]) == extra[|first|..] + Flat(greedy);
        ForcedStaysAhead(greedy, other[1..], extra[|first|..], max, w);
      } else {
        FirstRowEndsInside(greedy, first, extra, max, w);
        var taken := |first| - |extra|;
        assert all == extra + greedy[0] + Flat(greedy[1..]);
        assert Flat(other[1..]) == greedy[0][taken..] + Flat(greedy[1..]);
        TailTight(greedy, max, w);
        ForcedStaysAhead(greedy[1..], other[1..], greedy[0][taken..], max, w);
      }
    }
  }

  lemma FlatOfFirst(rows: seq<Row>)
    requires rows != []
    ensures Flat(rows) == rows[0] + Flat(rows[1..])
  {
    FlatConcat([rows[0]], rows[1..]);
    assert [rows[0]] + rows[1..] == rows;
    assert Flat([rows[0]]) == Flat([]) + rows[0];
  }

  lemma TailTight(rows: seq<Row>, max: nat, w: Widths)
    requires |rows| > 1 && Tight(rows, max, w)
    ensures Tight(rows[1..], max, w) && rows[1] != []
  {
    assert Forced(rows, 0, max, w);
    forall i | 0 <= i < |rows[1..]| - 1
      ensures Forced(rows[1..], i, max, w)
    {
      assert Forced(rows, i + 1, max, w);
    }
  }

  lemma PrefixThrough<T>(first: seq<T>, a: seq<T>, x: T, rest: seq<T>)
    requires first <= a + ([x] + rest) && |first| > |a|
    ensures first == a + [x] + first[|a| + 1..]
  {
    assert forall i :: 0 <= i < |first| ==> first[i] == (a + ([x] + rest))[i];
  }

  lemma FlatThroughNextWord(greedy: seq<Row>) returns (rest: Row)
    requires |greedy| > 1 && greedy[1] != []
    ensures Flat(greedy) == greedy[0] + ([greedy[1][0]] + rest)
  {
    FlatOfFirst(greedy);
    FlatOfFirst(greedy[1..]);
    rest := greedy[1][1..] + Flat(greedy[2..]);
    assert greedy[1] == [greedy[1][0]] + greedy[1][1..];
    Assoc([greedy[1][0]], greedy[1][1..], Flat(greedy[2..]));
    assert greedy[1..][1..] == greedy[2..];
  }

  /** A row that takes in a whole greedy row and the word after it is too wide. */
  lemma TakingMoreOverflows(greedy: seq<Row>, first: Row, extra: Row, max: nat, w: Widths)
    requires |greedy| > 1 && Tight(greedy, max, w)
    requires |extra| + |greedy[0]| < |first| && first <= extra + Flat(greedy)
    ensures RowWidth(first, w) > max
  {
    assert Forced(greedy, 0, max, w);
    var g, next := greedy[0], greedy[1][0];
    var rest := FlatThroughNextWord(greedy);
    Assoc(extra, g, [next] + rest);
    PrefixThrough(first, extra + g, next, rest);
    RowWidthConcat(extra + g + [next], first[|extra + g| + 1..], w);
    PushedWidth(extra + g, next, w);
    RowWidthConcat(extra, g, w);
  }

  /** A row that fits and starts no later than a greedy row ends no later than it either. */
  lemma FirstRowEndsInside(greedy: seq<Row>, first: Row, extra: Row, max: nat, w: Widths)
    requires |greedy| > 1 && Tight(greedy, max, w) && RowWidth(first, w) <= max
    requires |extra| < |first| && first <= extra + Flat(greedy)
    ensures |first| - |extra| <= |greedy[0]|
  {
    if |first| - |extra| > |greedy[0]| {
      TakingMoreOverflows(greedy, first, extra, max, w);
    }
  }

  lemma TightRowsStart(rows: seq<Row>, max: nat, w: Widths)
    requires rows != [] && Tight(rows, max, w)
    ensures rows[0] == [] ==> |rows| == 1 && Flat(rows) == []
    ensures rows[0] != [] ==> Flat(rows) != []
  {
    FlatOfFirst(rows);
    if |rows| > 1 {
      assert Forced(rows, 0, max, w);
    }
  }

  /** Rows whose breaks were all forced are fewest; of nothing there is one blank row. */
  lemma TightIsOptimal(wrapped: seq<Row>, other: seq<Row>, max: nat, w: Widths)
    requires wrapped != [] && Tight(wrapped, max, w)
    requires AllFit(other, max, w) && Flat(other) == Flat(wrapped)
    ensures Flat(wrapped) == [] ==> wrapped == [[]]
    ensures Flat(wrapped) != [] ==> |wrapped| <= |other|
  {
    TightRowsStart(wrapped, max, w);
    if wrapped[0] != [] {
      assert [] + Flat(wrapped) == Flat(wrapped);
      ForcedStaysAhead(wrapped, other, [], max, w);
    }
  }

  /** With every word fitting, the pieces are the words themselves. */
  lemma {:induction false} FittingWordsStayWhole(words: seq<string>, style: nat, max: nat, w: Widths)
    requires Narrow(w) && max >= 4 && NoneOversized(words, max, w)
    ensures WordPieces(words, style, max, w) == Styled(words, style)
  {
    if words != [] {
      var init, last := words[..|words| - 1], words[|words| - 1];
      FittingWordsStayWhole(init, style, max, w);
      StyledConcat(init, [last], style);
      assert init + [last] == words;
    }
  }

  /** The words of all runs, each in its run's style. */
  function StyledWords(runs: seq<Run>): Row {
    if runs == [] then []
    else
      var last := runs[|runs| - 1];
      StyledWords(runs[..|runs| - 1]) + Styled(SplitWords(last.text), last.style)
  }

  lemma {:induction false} FittingRunsStayWhole(runs: seq<Run>, max: nat, w: Widths)
    requires Narrow(w) && max >= 4 && AllWordsFit(runs, max, w)
    ensures RunPieces(runs, max, w) == StyledWords(runs)
  {
    if runs != [] {
      var last := runs[|runs| - 1];
      FittingRunsStayWhole(runs[..|runs| - 1], max, w);
      assert NoneOversized(SplitWords(last.text), max, w);
      FittingWordsStayWhole(SplitWords(last.text), last.style, max, w);
    }
  }

  /** Optimality: when every word fits, no in-order split of the words into fitting rows has
      fewer rows than the wrap, which for empty text is one blank row. */
  lemma WrapIsOptimal(runs: seq<Run>, other: seq<Row>, max: nat, w: Widths)
    requires Narrow(w) && max >= 4 && AllWordsFit(runs, max, w)
    requires AllFit(other, max, w) && Flat(other) == StyledWords(runs)
    ensures StyledWords(runs) == [] ==> AllRows(Wrapped(runs, max, w)) == [[]]
    ensures StyledWords(runs) != [] ==> |AllRows(Wrapped(runs, max, w))| <= |other|
  {
    var rows := AllRows(Wrapped(runs, max, w));
    WrapLaws(runs, max, w);
    WrappedIsTight(runs, max, w);
    FittingRunsStayWhole(runs, max, w);
    TightIsOptimal(rows, other, max, w);
  }
}
