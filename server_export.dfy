/**
 * The export side of the FastAPI service: the file name of a rendered
 * deck, the CSV rows of the flashcard and MCQ exports (with Python's
 * `csv.writer` quoting), the Anki lines, and the plain-text MCQ export.
 */
module Export {
  import opened Wrappers
  import opened Text
  import opened Quiz

  // ---- the deck's file name ----

  /** The characters the file-name filter keeps. */
  predicate SafeChar(c: char) {
    IsAlnum(c) || c == ' ' || c == '-' || c == '_'
  }

  /** `"".join(c for c in s if c.isalnum() or c in (' ', '-', '_'))`. */
  function KeepSafe(s: string): (r: string)
    ensures forall k :: 0 <= k < |r| ==> SafeChar(r[k])
  {
    if s == [] then [] else (if SafeChar(s[0]) then [s[0]] else []) + KeepSafe(s[1..])
  }

  /**
   * The file name of `create_powerpoint_with_images`: the title, "_visual_"
   * and the timestamp, with ".pptx" appended; unsafe characters dropped
   * (the dot included), trailing blanks stripped, blanks turned into '_',
   * and ".pptx" appended once more.
   */
  function DeckFileName(title: string, timestamp: string): string {
    ReplaceChar(RStrip(KeepSafe(title + "_visual_" + timestamp + ".pptx")), ' ', '_') + ".pptx"
  }

  /** The name ends in ".pptx", has no blank, and before the suffix holds only letters, digits, '-' and '_'. */
  lemma DeckFileNameIsSafe(title: string, timestamp: string)
    ensures EndsWith(DeckFileName(title, timestamp), ".pptx")
    ensures ' ' !in DeckFileName(title, timestamp)
    ensures var n := DeckFileName(title, timestamp);
      forall k :: 0 <= k < |n| - 5 ==> IsAlnum(n[k]) || n[k] == '-' || n[k] == '_'
  {
    var n := DeckFileName(title, timestamp);
    var stem := ReplaceChar(RStrip(KeepSafe(title + "_visual_" + timestamp + ".pptx")), ' ', '_');
    assert n[|n| - 5..] == ".pptx";
    assert forall k :: 0 <= k < |stem| ==> n[k] == stem[k];
  }

  /** A string of safe characters passes the filter unchanged. */
  lemma {:induction false} KeepSafeOfSafe(s: string)
    requires forall k :: 0 <= k < |s| ==> SafeChar(s[k])
    ensures KeepSafe(s) == s
  {
    if s != [] {
      KeepSafeOfSafe(s[1..]);
    }
  }

  lemma {:induction false} KeepSafeAppend(a: string, b: string)
    ensures KeepSafe(a + b) == KeepSafe(a) + KeepSafe(b)
  {
    if a == [] {
      assert a + b == b;
    } else {
      assert (a + b)[1..] == a[1..] + b;
      KeepSafeAppend(a[1..], b);
    }
  }

  /**
   * For a title of letters, digits, '-' and '_' and a timestamp of digits
   * and '_' (the `%Y%m%d_%H%M%S` shape), only the dot is dropped, so the
   * name ends in "pptx.pptx".
   */
  lemma DeckFileNameOfPlainTitle(title: string, timestamp: string)
    requires forall k :: 0 <= k < |title| ==> IsAlnum(title[k]) || title[k] == '-' || title[k] == '_'
    requires forall k :: 0 <= k < |timestamp| ==> IsAlnum(timestamp[k]) || timestamp[k] == '_'
    ensures DeckFileName(title, timestamp) == title + "_visual_" + timestamp + "pptx" + ".pptx"
  {
    var stem := title + "_visual_" + timestamp;
    var kept := stem + "pptx";
    assert forall k :: 0 <= k < |kept| ==> IsAlnum(kept[k]) || kept[k] == '-' || kept[k] == '_' by {
      forall k | 0 <= k < |kept| ensures IsAlnum(kept[k]) || kept[k] == '-' || kept[k] == '_' {
        if k < |title| {
          assert kept[k] == title[k];
        } else if k < |title| + 8 {
          assert kept[k] == "_visual_"[k - |title|];
        } else if k < |stem| {
          assert kept[k] == timestamp[k - |title| - 8];
        } else {
          assert kept[k] == "pptx"[k - |stem|];
        }
      }
    }
    DotDropped(stem);
    KeepSafeOfSafe(kept);
    PlainStays(kept);
  }

  /** The filter drops the dot of the extension and keeps the rest. */
  lemma DotDropped(stem: string)
    ensures KeepSafe(stem + ".pptx") == KeepSafe(stem + "pptx")
  {
    KeepSafeAppend(stem, ".pptx");
    KeepSafeAppend(stem, "pptx");
    assert KeepSafe(".pptx") == KeepSafe("pptx");
  }

  /** A name of letters, digits, '-' and '_' survives the strip and the replacement. */
  lemma PlainStays(s: string)
    requires forall k :: 0 <= k < |s| ==> IsAlnum(s[k]) || s[k] == '-' || s[k] == '_'
    ensures ReplaceChar(RStrip(s), ' ', '_') == s
  {
    if s != [] {
      assert !IsSpace(s[|s| - 1]);
    }
    assert RStrip(s) == s;
  }

  // ---- CSV ----

  /** Characters that make `csv.writer` (QUOTE_MINIMAL, ',' and '"') quote a field. */
  predicate NeedsQuotes(s: string) {
    exists k :: 0 <= k < |s| && (s[k] == ',' || s[k] == '"' || s[k] == '\r' || s[k] == '\n')
  }

  /** Every '"' doubled. */
  function DoubleQuotes(s: string): (r: string)
    ensures |r| >= |s|
  {
    if s == [] then [] else (if s[0] == '"' then "\"\"" else [s[0]]) + DoubleQuotes(s[1..])
  }

  /** One field as `csv.writer` writes it. */
  function EncodeField(s: string): string {
    if NeedsQuotes(s) then "\"" + DoubleQuotes(s) + "\"" else s
  }

  /** One row: the fields joined by ',' and ended by "\r\n". */
  function EncodeRow(cells: seq<string>): string {
    Join(",", seq(|cells|, k requires 0 <= k < |cells| => EncodeField(cells[k]))) + "\r\n"
  }

  /** Undoing the doubling: `""` back to `"`. */
  function Undouble(s: string): string
    decreases |s|
  {
    if |s| >= 2 && s[0] == '"' && s[1] == '"' then "\"" + Undouble(s[2..])
    else if s == [] then []
    else [s[0]] + Undouble(s[1..])
  }

  /** How a CSV reader reads one field back. */
  function DecodeField(e: string): string {
    if |e| >= 2 && e[0] == '"' && e[|e| - 1] == '"' then Undouble(e[1..|e| - 1]) else e
  }

  lemma {:induction false} UndoubleDoubles(s: string)
    ensures Undouble(DoubleQuotes(s)) == s
  {
    if s != [] {
      UndoubleDoubles(s[1..]);
      if s[0] == '"' {
        assert DoubleQuotes(s)[2..] == DoubleQuotes(s[1..]);
      } else {
        assert DoubleQuotes(s)[1..] == DoubleQuotes(s[1..]);
      }
    }
  }

  /** Every field a CSV export writes reads back as the text it was given. */
  lemma FieldRoundTrip(s: string)
    ensures DecodeField(EncodeField(s)) == s
  {
    if NeedsQuotes(s) {
      var e := EncodeField(s);
      assert e[1..|e| - 1] == DoubleQuotes(s);
      UndoubleDoubles(s);
    } else if |s| >= 2 && s[0] == '"' {
      assert NeedsQuotes(s);
    }
  }

  /** The header of the flashcard CSV. */
  const FlashcardHeader: seq<string> := ["Question", "Answer", "Topic", "Tags", "Difficulty"]

  /** The CSV cells of one card; the tags are joined with ", ". */
  function CardCells(c: Card): (r: seq<string>)
    ensures |r| == |FlashcardHeader|
  {
    [c.question, c.answer, c.topic, Join(", ", c.tags), c.difficulty]
  }

  /** The rows after the header, one per card in order. */
  function CardRows(cards: seq<Card>): string {
    if cards == [] then [] else CardRows(cards[..|cards| - 1]) + EncodeRow(CardCells(cards[|cards| - 1]))
  }

  /**
   * The body of `export_flashcards_csv`: the header row, then one row per
   * card in the order given.
   */
  method FlashcardsCsv(cards: seq<Card>) returns (output: string)
    ensures output == EncodeRow(FlashcardHeader) + CardRows(cards)
  {
    output := EncodeRow(FlashcardHeader);
    for i := 0 to |cards|
      invariant output == EncodeRow(FlashcardHeader) + CardRows(cards[..i])
    {
      assert cards[..i + 1][..i] == cards[..i];
      output := output + EncodeRow(CardCells(cards[i]));
    }
    assert cards[..|cards|] == cards;
  }

  // ---- the MCQ CSV row ----

  /** The index of the first marked option, if any. */
  function FirstMarked(options: seq<McqOption>): (r: Option<nat>)
    ensures r.Some? ==> r.value < |options| && Marked(options[r.value])
    ensures r.Some? ==> forall k :: 0 <= k < r.value ==> !Marked(options[k])
    ensures r.None? ==> forall k :: 0 <= k < |options| ==> !Marked(options[k])
  {
    if options == [] then None
    else if Marked(options[0]) then Some(0)
    else match FirstMarked(options[1..])
      case None => None
      case Some(k) => Some(k + 1)
  }

  /** `chr(65 + i)`. */
  function Letter(i: nat): string {
    if 65 + i < 0xD800 then [(65 + i) as char] else ""
  }

  /** The "Correct Answer" cell: the letter of the first marked option, or "" when none is marked. */
  function CorrectLetter(options: seq<McqOption>): string {
    match FirstMarked(options)
    case None => ""
    case Some(i) => Letter(i)
  }

  /**
   * The loop that finds the correct answer: the letter of the first marked
   * option, stopping there.
   */
  method FindCorrectLetter(options: seq<McqOption>) returns (letter: string)
    ensures letter == CorrectLetter(options)
  {
    letter := "";
    for i := 0 to |options|
      invariant forall k :: 0 <= k < i ==> !Marked(options[k])
    {
      if Marked(options[i]) {
        letter := Letter(i);
        assert FirstMarked(options) == Some(i) by { FirstMarkedIsFirst(options, i); }
        return;
      }
    }
    assert FirstMarked(options).None?;
  }

  lemma FirstMarkedIsFirst(options: seq<McqOption>, i: nat)
    requires i < |options| && Marked(options[i])
    requires forall k :: 0 <= k < i ==> !Marked(options[k])
    ensures FirstMarked(options) == Some(i)
  {
  }

  /** The four option cells: the texts of the first four options, "" for a missing one. */
  function OptionCells(options: seq<McqOption>): (r: seq<string>)
    ensures |r| == 4
  {
    seq(4, k requires 0 <= k < 4 => if k < |options| then options[k].text.GetOr("") else "")
  }

  /** The loop that fills `option_texts = ["", "", "", ""]` from `options[:4]`, in place. */
  method FillOptionCells(options: seq<McqOption>) returns (cells: seq<string>)
    ensures cells == OptionCells(options)
  {
    var texts := new string[4](_ => "");
    var first := Take(options, 4);
    for i := 0 to |first|
      invariant forall k :: 0 <= k < i ==> texts[k] == first[k].text.GetOr("")
      invariant forall k :: i <= k < 4 ==> texts[k] == ""
    {
      texts[i] := first[i].text.GetOr("");
    }
    cells := texts[..];
  }

  /** The header of the MCQ CSV. */
  const McqHeader: seq<string> :=
    ["Question", "Option A", "Option B", "Option C", "Option D", "Correct Answer", "Explanation", "Topic", "Difficulty", "Bloom Level"]

  /** The CSV cells of one question. */
  function McqCells(q: Mcq): (r: seq<string>)
    ensures |r| == |McqHeader|
  {
    [q.questionText] + OptionCells(q.options) + [CorrectLetter(q.options), q.explanation, q.topic, q.difficulty, q.bloomLevel]
  }

  /** The row-building body of the loop of `export_mcqs_csv`. */
  method McqCsvCells(q: Mcq) returns (cells: seq<string>)
    ensures cells == McqCells(q)
  {
    var letter := FindCorrectLetter(q.options);
    var texts := FillOptionCells(q.options);
    cells := [q.questionText] + texts + [letter, q.explanation, q.topic, q.difficulty, q.bloomLevel];
  }

  /** At most one option marked: the first marked one is the only one. */
  lemma {:induction false} OneMarkedIsFirst(options: seq<McqOption>, i: nat)
    requires CorrectCount(options) == 1 && i < |options| && Marked(options[i])
    ensures FirstMarked(options) == Some(i)
  {
    if !Marked(options[0]) {
      assert options[1..][i - 1] == options[i];
      OneMarkedIsFirst(options[1..], i - 1);
    } else if i != 0 {
      assert options[1..][i - 1] == options[i];
      NoMarkedAfterTheOnly(options[1..], i - 1);
    }
  }

  lemma {:induction false} NoMarkedAfterTheOnly(options: seq<McqOption>, i: nat)
    requires CorrectCount(options) == 0 && i < |options|
    ensures !Marked(options[i])
  {
    if i != 0 {
      assert options[1..][i - 1] == options[i];
      NoMarkedAfterTheOnly(options[1..], i - 1);
    }
  }

  lemma {:induction false} SomeMarked(options: seq<McqOption>)
    requires CorrectCount(options) >= 1
    ensures exists i :: 0 <= i < |options| && Marked(options[i])
  {
    if !Marked(options[0]) {
      SomeMarked(options[1..]);
      var i :| 0 <= i < |options[1..]| && Marked(options[1..][i]);
      assert Marked(options[i + 1]);
    }
  }

  /**
   * For a question with four options and exactly one marked, the "Correct
   * Answer" cell is one of "A" to "D" and names the marked option, whose
   * text stands in the matching option cell.
   */
  lemma McqRowNamesTheAnswer(q: Mcq)
    requires WellFormedMcq(q)
    ensures var cells := McqCells(q);
      exists i :: 0 <= i < 4 && cells[5] == Letter(i) && Marked(q.options[i])
        && cells[1 + i] == q.options[i].text.GetOr("")
  {
    SomeMarked(q.options);
    var i :| 0 <= i < |q.options| && Marked(q.options[i]);
    OneMarkedIsFirst(q.options, i);
    assert McqCells(q)[1 + i] == OptionCells(q.options)[i];
  }

  // ---- Anki ----

  /** The third Anki column: the topic followed by the space-joined tags, or the topic alone. */
  function AnkiTags(c: Card): string {
    var tags := Join(" ", c.tags);
    if tags != [] then Strip(c.topic + " " + tags) else c.topic
  }

  /** One line of the Anki export: question, answer and tags separated by tabs. */
  function AnkiLine(c: Card): string {
    c.question + "\t" + c.answer + "\t" + AnkiTags(c) + "\n"
  }

  function AnkiLines(cards: seq<Card>): string {
    if cards == [] then [] else AnkiLines(cards[..|cards| - 1]) + AnkiLine(cards[|cards| - 1])
  }

  /** The loop of `export_flashcards_anki`: one line per card in order. */
  method AnkiExport(cards: seq<Card>) returns (output: string)
    ensures output == AnkiLines(cards)
  {
    output := "";
    for i := 0 to |cards|
      invariant output == AnkiLines(cards[..i])
    {
      assert cards[..i + 1][..i] == cards[..i];
      output := output + AnkiLine(cards[i]);
    }
    assert cards[..|cards|] == cards;
  }

  /** `s.split(c)`. */
  function SplitOn(s: string, c: char): (r: seq<string>)
    ensures |r| >= 1
  {
    if s == [] then [[]]
    else
      var rest := SplitOn(s[1..], c);
      if s[0] == c then [[]] + rest else [[s[0]] + rest[0]] + rest[1..]
  }

  lemma {:induction false} SplitOnFree(a: string, c: char)
    requires c !in a
    ensures SplitOn(a, c) == [a]
  {
    if a != [] {
      SplitOnFree(a[1..], c);
      assert [a[0]] + a[1..] == a;
    }
  }

  lemma {:induction false} SplitOnJoin(a: string, c: char, b: string)
    requires c !in a
    ensures SplitOn(a + [c] + b, c) == [a] + SplitOn(b, c)
  {
    if a == [] {
      assert a + [c] + b == [c] + b;
      assert ([c] + b)[1..] == b;
    } else {
      assert (a + [c] + b)[1..] == a[1..] + [c] + b;
      SplitOnJoin(a[1..], c, b);
      assert [a[0]] + a[1..] == a;
    }
  }

  /**
   * When the question, answer and tags hold no tab, splitting a line's text
   * on tabs gives back exactly the three columns.
   */
  lemma AnkiLineColumns(c: Card)
    requires '\t' !in c.question && '\t' !in c.answer && '\t' !in AnkiTags(c)
    ensures var line := AnkiLine(c);
      SplitOn(line[..|line| - 1], '\t') == [c.question, c.answer, AnkiTags(c)]
  {
    var line := AnkiLine(c);
    assert line[..|line| - 1] == c.question + ['\t'] + (c.answer + ['\t'] + AnkiTags(c));
    SplitOnJoin(c.question, '\t', c.answer + ['\t'] + AnkiTags(c));
    SplitOnJoin(c.answer, '\t', AnkiTags(c));
    SplitOnFree(AnkiTags(c), '\t');
  }

  // ---- the plain-text MCQ export ----

  /** One option line: " * " before the marked ones, three blanks before the others. */
  function OptionLine(j: nat, o: McqOption): string {
    (if Marked(o) then " * " else "   ") + Letter(j) + ". " + o.text.GetOr("") + "\n"
  }

  /** The option lines of a question, lettered from `from`. */
  function OptionLines(options: seq<McqOption>, from: nat): seq<string>
    decreases |options|
  {
    if options == [] then [] else [OptionLine(from, options[0])] + OptionLines(options[1..], from + 1)
  }

  /** How many lines carry the " * " marker. */
  function StarredLines(lines: seq<string>): nat {
    if lines == [] then 0 else (if StartsWith(lines[0], " * ") then 1 else 0) + StarredLines(lines[1..])
  }

  /** Exactly the marked options get a starred line, so a well-formed question shows one star. */
  lemma {:induction false} StarsMatchMarks(options: seq<McqOption>, from: nat)
    ensures |OptionLines(options, from)| == |options|
    ensures StarredLines(OptionLines(options, from)) == CorrectCount(options)
    decreases |options|
  {
    if options != [] {
      StarsMatchMarks(options[1..], from + 1);
      var line := OptionLine(from, options[0]);
      assert StartsWith(line, " * ") <==> Marked(options[0]) by {
        assert line[..3] == (if Marked(options[0]) then " * " else "   ");
      }
      assert OptionLines(options, from)[1..] == OptionLines(options[1..], from + 1);
    }
  }

  /** The text of one question, numbered `n` from 1. */
  function QuestionBlock(n: nat, q: Mcq): string {
    "Question " + NatToString(n) + ": " + q.questionText + "\n\n"
    + Join("", OptionLines(q.options, 0))
    + "\nExplanation: " + q.explanation + "\n"
    + "Topic: " + q.topic + ", Difficulty: " + q.difficulty + "\n"
    + seq(40, _ => '-') + "\n\n"
  }

  function QuestionBlocks(mcqs: seq<Mcq>): string {
    if mcqs == [] then [] else QuestionBlocks(mcqs[..|mcqs| - 1]) + QuestionBlock(|mcqs|, mcqs[|mcqs| - 1])
  }

  /** The header: set name, question count, generation time, then a rule of 50 '='. */
  function TextHeader(setName: string, count: nat, generated: string): string {
    "MCQ Set: " + setName + "\n" + "Total Questions: " + NatToString(count) + "\n"
    + "Generated: " + generated + "\n\n" + seq(50, _ => '=') + "\n\n"
  }

  /** The body of the loop of `export_mcqs_pdf` for question `n`, with its inner loop over the options. */
  method QuestionText(n: nat, q: Mcq) returns (block: string)
    ensures block == QuestionBlock(n, q)
  {
    var head := "Question " + NatToString(n) + ": " + q.questionText + "\n\n";
    var options := "";
    ghost var lines: seq<string> := [];
    for j := 0 to |q.options|
      invariant lines == OptionLines(q.options[..j], 0)
      invariant options == Join("", lines)
    {
      var line := OptionLine(j, q.options[j]);
      OptionLinesSnoc(q.options[..j + 1], 0);
      assert q.options[..j + 1][..j] == q.options[..j];
      JoinSnoc(lines, line);
      options := options + line;
      lines := lines + [line];
    }
    assert q.options[..|q.options|] == q.options;
    block := head + options
      + "\nExplanation: " + q.explanation + "\n"
      + "Topic: " + q.topic + ", Difficulty: " + q.difficulty + "\n"
      + seq(40, _ => '-') + "\n\n";
  }

  /**
   * `export_mcqs_pdf`, which writes plain text: the header, then one block
   * per question numbered from 1, built with `content +=`. `generated`
   * stands for the formatted current time.
   */
  method McqTextExport(setName: string, mcqs: seq<Mcq>, generated: string) returns (content: string)
    ensures content == TextHeader(setName, |mcqs|, generated) + QuestionBlocks(mcqs)
  {
    var body := QuestionTexts(mcqs);
    content := TextHeader(setName, |mcqs|, generated) + body;
  }

  /** The loop of `export_mcqs_pdf` over the questions, numbering them from 1. */
  method QuestionTexts(mcqs: seq<Mcq>) returns (body: string)
    ensures body == QuestionBlocks(mcqs)
  {
    body := "";
    for i := 0 to |mcqs|
      invariant body == QuestionBlocks(mcqs[..i])
    {
      var block := QuestionText(i + 1, mcqs[i]);
      BlocksSnoc(mcqs, i);
      body := body + block;
    }
    assert mcqs[..|mcqs|] == mcqs;
  }

  lemma BlocksSnoc(mcqs: seq<Mcq>, i: nat)
    requires i < |mcqs|
    ensures QuestionBlocks(mcqs[..i + 1]) == QuestionBlocks(mcqs[..i]) + QuestionBlock(i + 1, mcqs[i])
  {
    assert mcqs[..i + 1][..i] == mcqs[..i];
  }

  lemma {:induction false} OptionLinesSnoc(options: seq<McqOption>, from: nat)
    requires options != []
    ensures OptionLines(options, from)
      == OptionLines(options[..|options| - 1], from) + [OptionLine(from + |options| - 1, options[|options| - 1])]
    decreases |options|
  {
    if |options| > 1 {
      OptionLinesSnoc(options[1..], from + 1);
      assert options[1..][..|options[1..]| - 1] == options[..|options| - 1][1..];
    }
  }

  lemma {:induction false} JoinSnoc(lines: seq<string>, line: string)
    ensures Join("", lines + [line]) == Join("", lines) + line
    decreases |lines|
  {
    if |lines| == 1 {
      assert lines + [line] == [lines[0], line];
    } else if |lines| > 1 {
      assert (lines + [line])[1..] == lines[1..] + [line];
      JoinSnoc(lines[1..], line);
    }
  }
}
