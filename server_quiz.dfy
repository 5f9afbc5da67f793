/**
 * Flashcards and multiple-choice questions in the FastAPI service: the
 * normalisation of the chat model's reply, the fallback sets, the
 * one-correct-option repair done in place on the option list, and the
 * difficulty histogram stored with an MCQ set.
 */
module Quiz {
  import opened Wrappers
  import opened Text
  import opened Json

  // ---- flashcards ----

  /** One entry of the "flashcards" list in the model's JSON reply; absent keys are None. */
  datatype DraftCard = DraftCard(
    question: Option<string>,
    answer: Option<string>,
    topic: Option<string>,
    tags: Option<seq<string>>,
    difficulty: Option<string>)

  /** A stored flashcard (its timestamps left out); review and correct counts start at 0. */
  datatype Card = Card(
    cardId: string,
    question: string,
    answer: string,
    cardType: string,
    topic: string,
    tags: seq<string>,
    difficulty: string,
    sourceDoc: string,
    reviewCount: nat,
    correctCount: nat)

  /**
   * Card `i` of the reply: id "fc_{i+1}_{hex}", numbered placeholders for a
   * missing question or answer, topic "General", no tags, difficulty
   * "medium" by default and lower-cased.
   */
  function NormalizeCard(i: nat, draft: DraftCard, cardType: string, title: string, hex: string): Card {
    Card(
      "fc_" + NatToString(i + 1) + "_" + hex,
      draft.question.GetOr("Question " + NatToString(i + 1)),
      draft.answer.GetOr("Answer " + NatToString(i + 1)),
      cardType,
      draft.topic.GetOr("General"),
      draft.tags.GetOr([]),
      Lower(draft.difficulty.GetOr("medium")),
      title, 0, 0)
  }

  /**
   * The post-processing loop of `generate_flashcard_content`: every entry
   * normalised in order, then `processed_cards[:card_count]`.
   */
  method ProcessCards(drafts: seq<DraftCard>, cardCount: int, cardType: string, title: string, hex: nat -> string)
    returns (cards: seq<Card>)
    ensures |cards| == |Take(drafts, cardCount)|
    ensures forall k :: 0 <= k < |cards| ==> cards[k] == NormalizeCard(k, drafts[k], cardType, title, hex(k))
    ensures |cards| <= |drafts| && (0 <= cardCount ==> |cards| <= cardCount)
    ensures forall k :: 0 <= k < |cards| ==>
      cards[k].cardType == cardType && cards[k].sourceDoc == title && cards[k].difficulty == Lower(cards[k].difficulty)
  {
    var processed: seq<Card> := [];
    for i := 0 to |drafts|
      invariant |processed| == i
      invariant forall k :: 0 <= k < i ==> processed[k] == NormalizeCard(k, drafts[k], cardType, title, hex(k))
    {
      processed := processed + [NormalizeCard(i, drafts[i], cardType, title, hex(i))];
      LowerIdempotent(drafts[i].difficulty.GetOr("medium"));
    }
    cards := Take(processed, cardCount);
  }

  /** The fallback sets hold at most ten entries. */
  const FallbackLimit: nat := 10

  /** `len(range(min(count, 10)))`. */
  function FallbackSize(count: int): (n: nat)
    ensures n <= FallbackLimit
    ensures 0 <= count <= FallbackLimit ==> n == count
  {
    if count < 0 then 0 else if count < FallbackLimit then count else FallbackLimit
  }

  function FallbackCard(i: nat, cardType: string, title: string, hex: string): Card {
    Card(
      "fallback_" + NatToString(i + 1) + "_" + hex,
      "What is the main topic of " + title + "?",
      "This is a fallback flashcard for " + title + ". Please review the document and create custom flashcards.",
      cardType, "General", ["fallback", "review"], "easy", title, 0, 0)
  }

  /**
   * `create_fallback_flashcards`: min(count, 10) cards (none for a count
   * below one), each an "easy" card on topic "General" tagged "fallback"
   * and "review".
   */
  method CreateFallbackCards(title: string, count: int, cardType: string, hex: nat -> string) returns (cards: seq<Card>)
    ensures |cards| == FallbackSize(count)
    ensures forall k :: 0 <= k < |cards| ==> cards[k] == FallbackCard(k, cardType, title, hex(k))
    ensures forall k :: 0 <= k < |cards| ==> cards[k].difficulty == "easy" && cards[k].tags == ["fallback", "review"]
  {
    cards := [];
    var n := FallbackSize(count);
    for i := 0 to n
      invariant |cards| == i
      invariant forall k :: 0 <= k < i ==> cards[k] == FallbackCard(k, cardType, title, hex(k))
    {
      cards := cards + [FallbackCard(i, cardType, title, hex(i))];
    }
  }

  // ---- MCQ options ----

  /**
   * An answer option. `isCorrect` is whatever the reply held under
   * "is_correct" (Null when it was absent), read with Python truthiness.
   */
  datatype McqOption = McqOption(text: Option<string>, isCorrect: Value)

  predicate Marked(o: McqOption) {
    Truthy(o.isCorrect)
  }

  /** `sum(1 for opt in options if opt.get("is_correct", False))`. */
  function CorrectCount(options: seq<McqOption>): (n: nat)
    ensures n <= |options|
  {
    if options == [] then 0 else (if Marked(options[0]) then 1 else 0) + CorrectCount(options[1..])
  }

  /** The four options put in place of a list that does not have exactly four. */
  const PlaceholderOptions: seq<McqOption> := [
    McqOption(Some("Option A"), Bool(true)),
    McqOption(Some("Option B"), Bool(false)),
    McqOption(Some("Option C"), Bool(false)),
    McqOption(Some("Option D"), Bool(false))]

  /** The options with every mark cleared and the first one marked. */
  function MarkFirstOnly(options: seq<McqOption>): (r: seq<McqOption>)
    requires options != []
    ensures |r| == |options|
    ensures forall k :: 0 <= k < |r| ==> r[k].text == options[k].text
    ensures r[0].isCorrect == Bool(true) && forall k :: 0 < k < |r| ==> r[k].isCorrect == Bool(false)
  {
    seq(|options|, k requires 0 <= k < |options| => options[k].(isCorrect := Bool(k == 0)))
  }

  /** The options `generate_mcq_content` keeps for one question. */
  function FixedOptions(options: seq<McqOption>): seq<McqOption> {
    var four := if |options| != 4 then PlaceholderOptions else options;
    if CorrectCount(four) != 1 then MarkFirstOnly(four) else four
  }

  /** Only the first option marked means exactly one option marked. */
  lemma {:induction false} FirstOnlyCount(options: seq<McqOption>)
    requires options != [] && Marked(options[0])
    requires forall k :: 0 < k < |options| ==> !Marked(options[k])
    ensures CorrectCount(options) == 1
  {
    NoneMarkedCount(options[1..]);
  }

  lemma {:induction false} NoneMarkedCount(options: seq<McqOption>)
    requires forall k :: 0 <= k < |options| ==> !Marked(options[k])
    ensures CorrectCount(options) == 0
  {
    if options != [] {
      NoneMarkedCount(options[1..]);
    }
  }

  /**
   * Every normalised question has exactly four options and exactly one of
   * them marked; a reply with four options and one mark is kept as it is,
   * and four options with any other number of marks keep their texts with
   * only the first marked.
   */
  lemma FixedOptionsOneCorrect(options: seq<McqOption>)
    ensures |FixedOptions(options)| == 4 && CorrectCount(FixedOptions(options)) == 1
    ensures |options| == 4 && CorrectCount(options) == 1 ==> FixedOptions(options) == options
    ensures |options| == 4 && CorrectCount(options) != 1 ==>
      && (forall k :: 0 <= k < 4 ==> FixedOptions(options)[k].text == options[k].text)
      && Marked(FixedOptions(options)[0])
      && (forall k :: 0 < k < 4 ==> !Marked(FixedOptions(options)[k]))
  {
    var four := if |options| != 4 then PlaceholderOptions else options;
    if CorrectCount(four) != 1 {
      FirstOnlyCount(MarkFirstOnly(four));
    }
  }

  /**
   * The repair of the marks, done in place on the option dictionaries:
   * every mark is cleared, then the first option is marked.
   */
  method MarkFirstInPlace(options: array<McqOption>)
    requires options.Length > 0
    modifies options
    ensures options[..] == MarkFirstOnly(old(options[..]))
  {
    for k := 0 to options.Length
      invariant forall j :: 0 <= j < k ==> options[j] == old(options[j]).(isCorrect := Bool(false))
      invariant forall j :: k <= j < options.Length ==> options[j] == old(options[j])
    {
      options[k] := options[k].(isCorrect := Bool(false));
    }
    options[0] := options[0].(isCorrect := Bool(true));
  }

  /**
   * The option checks of `generate_mcq_content`: a list without exactly four
   * options is replaced by the placeholders, and a list whose marks are not
   * exactly one is repaired in place.
   */
  method NormalizeOptions(given: seq<McqOption>) returns (options: seq<McqOption>)
    ensures options == FixedOptions(given)
    ensures |options| == 4 && CorrectCount(options) == 1
  {
    options := given;
    if |options| != 4 {
      options := PlaceholderOptions;
    }
    if CorrectCount(options) != 1 {
      var list := new McqOption[4](k requires 0 <= k < 4 => options[k]);
      assert list[..] == options;
      MarkFirstInPlace(list);
      options := list[..];
    }
    FixedOptionsOneCorrect(given);
  }

  // ---- MCQs ----

  /** One entry of the "mcqs" list in the model's JSON reply; absent keys are None. */
  datatype DraftMcq = DraftMcq(
    questionText: Option<string>,
    options: Option<seq<McqOption>>,
    explanation: Option<string>,
    topic: Option<string>,
    difficulty: Option<string>,
    bloomLevel: Option<string>)

  /** A stored question (its timestamps left out); the attempt counters start at 0. */
  datatype Mcq = Mcq(
    questionId: string,
    questionText: string,
    options: seq<McqOption>,
    explanation: string,
    questionType: string,
    topic: string,
    difficulty: string,
    bloomLevel: string,
    sourceDoc: string,
    timesAttempted: nat,
    timesCorrect: nat)

  /** Question `i` of the reply, with its options repaired and its defaults filled in. */
  function NormalizeMcq(i: nat, draft: DraftMcq, questionType: string, title: string, hex: string): Mcq {
    Mcq(
      "mcq_" + NatToString(i + 1) + "_" + hex,
      draft.questionText.GetOr("Question " + NatToString(i + 1)),
      FixedOptions(draft.options.GetOr([])),
      draft.explanation.GetOr("Explanation not provided."),
      questionType,
      draft.topic.GetOr("General"),
      Lower(draft.difficulty.GetOr("medium")),
      Lower(draft.bloomLevel.GetOr("remember")),
      title, 0, 0)
  }

  /** A question as the set promises it: four options, exactly one marked. */
  predicate WellFormedMcq(q: Mcq) {
    |q.options| == 4 && CorrectCount(q.options) == 1
  }

  /**
   * The post-processing loop of `generate_mcq_content`: every entry
   * normalised in order, then `processed_mcqs[:question_count]`.
   */
  method ProcessMcqs(drafts: seq<DraftMcq>, questionCount: int, questionType: string, title: string, hex: nat -> string)
    returns (mcqs: seq<Mcq>)
    ensures |mcqs| == |Take(drafts, questionCount)|
    ensures forall k :: 0 <= k < |mcqs| ==> mcqs[k] == NormalizeMcq(k, drafts[k], questionType, title, hex(k))
    ensures |mcqs| <= |drafts| && (0 <= questionCount ==> |mcqs| <= questionCount)
    ensures forall k :: 0 <= k < |mcqs| ==> WellFormedMcq(mcqs[k])
  {
    var processed: seq<Mcq> := [];
    for i := 0 to |drafts|
      invariant |processed| == i
      invariant forall k :: 0 <= k < i ==> processed[k] == NormalizeMcq(k, drafts[k], questionType, title, hex(k))
    {
      var q := BuildMcq(i, drafts[i], questionType, title, hex(i));
      processed := processed + [q];
    }
    mcqs := Take(processed, questionCount);
    forall k | 0 <= k < |mcqs| ensures WellFormedMcq(mcqs[k]) {
      assert mcqs[k] == processed[k];
      FixedOptionsOneCorrect(drafts[k].options.GetOr([]));
    }
  }

  /** One pass of the loop body: question `i` with its options repaired in place. */
  method BuildMcq(i: nat, draft: DraftMcq, questionType: string, title: string, hex: string) returns (q: Mcq)
    ensures q == NormalizeMcq(i, draft, questionType, title, hex)
    ensures WellFormedMcq(q)
  {
    var options := NormalizeOptions(draft.options.GetOr([]));
    q := Mcq(
      "mcq_" + NatToString(i + 1) + "_" + hex,
      draft.questionText.GetOr("Question " + NatToString(i + 1)),
      options,
      draft.explanation.GetOr("Explanation not provided."),
      questionType,
      draft.topic.GetOr("General"),
      Lower(draft.difficulty.GetOr("medium")),
      Lower(draft.bloomLevel.GetOr("remember")),
      title, 0, 0);
  }

  /** Question `i` of the fallback set: the first option is the only one marked. */
  function FallbackMcq(i: nat, questionType: string, title: string, hex: string): Mcq {
    Mcq(
      "fallback_mcq_" + NatToString(i + 1) + "_" + hex,
      "What is the main topic of " + title + "?",
      [McqOption(Some("This is a fallback question for " + title), Bool(true)),
       McqOption(Some("Please regenerate MCQs for better questions"), Bool(false)),
       McqOption(Some("Review the document content"), Bool(false)),
       McqOption(Some("Create custom questions manually"), Bool(false))],
      "This is a fallback MCQ for " + title + ". Please regenerate for better questions based on the actual content.",
      questionType, "General", "easy", "remember", title, 0, 0)
  }

  /**
   * `create_fallback_mcqs`: min(count, 10) questions (none for a count below
   * one), each with four options of which only the first is marked.
   */
  method CreateFallbackMcqs(title: string, count: int, questionType: string, hex: nat -> string) returns (mcqs: seq<Mcq>)
    ensures |mcqs| == FallbackSize(count)
    ensures forall k :: 0 <= k < |mcqs| ==> mcqs[k] == FallbackMcq(k, questionType, title, hex(k))
    ensures forall k :: 0 <= k < |mcqs| ==> WellFormedMcq(mcqs[k]) && Marked(mcqs[k].options[0])
  {
    mcqs := [];
    var n := FallbackSize(count);
    for i := 0 to n
      invariant |mcqs| == i
      invariant forall k :: 0 <= k < i ==> mcqs[k] == FallbackMcq(k, questionType, title, hex(k)) && WellFormedMcq(mcqs[k])
    {
      var q := FallbackMcq(i, questionType, title, hex(i));
      FirstOnlyCount(q.options);
      mcqs := mcqs + [q];
    }
  }

  /**
   * `generate_mcq_content` once the reply is in: `drafts` is the reply's
   * "mcqs" list, or None when the call raised or the reply held no such
   * list, in which case the fallback set is returned. Every question of
   * either kind is well formed.
   */
  method GenerateMcqContent(drafts: Option<seq<DraftMcq>>, title: string, questionCount: int, questionType: string,
                            hex: nat -> string, fallbackHex: nat -> string)
    returns (mcqs: seq<Mcq>)
    ensures 0 <= questionCount ==> |mcqs| <= questionCount
    ensures drafts.None? ==> |mcqs| == FallbackSize(questionCount)
    ensures forall k :: 0 <= k < |mcqs| ==> WellFormedMcq(mcqs[k])
  {
    if drafts.Some? {
      mcqs := ProcessMcqs(drafts.value, questionCount, questionType, title, hex);
    } else {
      mcqs := CreateFallbackMcqs(title, questionCount, questionType, fallbackHex);
    }
  }

  // ---- the difficulty histogram ----

  /** How many of `ds` equal `d`. */
  function Occurrences(ds: seq<string>, d: string): (n: nat)
    ensures n <= |ds|
  {
    if ds == [] then 0 else Occurrences(ds[..|ds| - 1], d) + (if ds[|ds| - 1] == d then 1 else 0)
  }

  /** The sum of a histogram's counts. */
  ghost function Total(m: map<string, nat>): nat
    decreases |m|
  {
    if m == map[] then 0 else var d :| d in m; m[d] + Total(m - {d})
  }

  /** The total can be split at any key, not only the one `Total` happens to pick. */
  lemma {:induction false} TotalSplit(m: map<string, nat>, d: string)
    requires d in m
    ensures Total(m) == m[d] + Total(m - {d})
    decreases |m|
  {
    var e :| e in m && Total(m) == m[e] + Total(m - {e});
    if e != d {
      TotalSplit(m - {e}, d);
      TotalSplit(m - {d}, e);
      assert m - {e} - {d} == m - {d} - {e};
    }
  }

  /** Adding one to a key's count adds one to the total. */
  lemma TotalBump(m: map<string, nat>, d: string)
    ensures Total(m[d := (if d in m then m[d] else 0) + 1]) == Total(m) + 1
  {
    var m' := m[d := (if d in m then m[d] else 0) + 1];
    TotalSplit(m', d);
    assert m' - {d} == m - {d};
    if d in m {
      TotalSplit(m, d);
    } else {
      assert m - {d} == m;
    }
  }

  /** The difficulty of every question, in order. */
  function Difficulties(mcqs: seq<Mcq>): (ds: seq<string>)
    ensures |ds| == |mcqs| && forall k :: 0 <= k < |mcqs| ==> ds[k] == mcqs[k].difficulty
  {
    seq(|mcqs|, k requires 0 <= k < |mcqs| => mcqs[k].difficulty)
  }

  /** The histogram the counting loop has built after seeing `ds`. */
  function Histogram(ds: seq<string>): map<string, nat> {
    if ds == [] then map[]
    else
      var m := Histogram(ds[..|ds| - 1]);
      var d := ds[|ds| - 1];
      m[d := (if d in m then m[d] else 0) + 1]
  }

  /**
   * The histogram's keys are exactly the difficulties that occur, each
   * counted as often as it occurs, and the counts add up to the number of
   * questions.
   */
  lemma {:induction false} HistogramCounts(ds: seq<string>)
    ensures forall d :: d in Histogram(ds) <==> d in ds
    ensures forall d :: d in Histogram(ds) ==> Histogram(ds)[d] == Occurrences(ds, d)
    ensures Total(Histogram(ds)) == |ds|
  {
    if ds != [] {
      var front := ds[..|ds| - 1];
      var d := ds[|ds| - 1];
      var m := Histogram(front);
      assert Histogram(ds) == m[d := (if d in m then m[d] else 0) + 1];
      HistogramCounts(front);
      TotalBump(m, d);
      assert ds == front + [d];
      forall e
        ensures e in Histogram(ds) <==> e in ds
      {
        assert e in ds <==> e in front || e == d;
      }
      forall e | e in Histogram(ds)
        ensures Histogram(ds)[e] == Occurrences(ds, e)
      {
        if e != d {
          assert Histogram(ds)[e] == m[e];
        } else if d !in m {
          NotOccurring(front, d);
        }
      }
    }
  }

  /**
   * The counting loop of `generate_mcqs`: `dist[diff] = dist.get(diff, 0) + 1`
   * for the difficulty of each question.
   */
  method DifficultyDistribution(mcqs: seq<Mcq>) returns (dist: map<string, nat>)
    ensures dist == Histogram(Difficulties(mcqs))
    ensures Total(dist) == |mcqs|
  {
    ghost var ds := Difficulties(mcqs);
    dist := map[];
    for i := 0 to |mcqs|
      invariant dist == Histogram(ds[..i])
    {
      var diff := mcqs[i].difficulty;
      assert ds[..i + 1][..i] == ds[..i];
      dist := dist[diff := (if diff in dist then dist[diff] else 0) + 1];
    }
    assert ds[..|mcqs|] == ds;
    HistogramCounts(ds);
  }

  lemma {:induction false} NotOccurring(ds: seq<string>, d: string)
    requires d !in ds
    ensures Occurrences(ds, d) == 0
  {
    if ds != [] {
      assert ds == ds[..|ds| - 1] + [ds[|ds| - 1]];
      NotOccurring(ds[..|ds| - 1], d);
    }
  }
}
