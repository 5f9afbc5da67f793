/**
 * The option validators of the projects app. Each serializer is a list of
 * declared fields; validating a request body either yields the cleaned
 * options (`validated_data`) or the names of the fields that failed.
 *
 * The per-field rules are Django REST framework's: a missing field takes its
 * default or, without one, is an error; `null` is refused; a ChoiceField
 * takes only one of its strings; an IntegerField takes an integer within its
 * bounds; a BooleanField takes a boolean, 0/1 or one of DRF's true/false
 * words; a CharField takes a string or an integer, trims surrounding
 * whitespace and refuses what is then blank.
 */
module Serializers {
  import opened Wrappers
  import opened Json
  import opened Text
  import opened Models

  datatype Field =
    | IntegerField(name: string, min: int, max: int, intDefault: int)
    | BooleanField(name: string, boolDefault: bool)
    | ChoiceField(name: string, choices: seq<string>, choiceDefault: Option<string>)
    | CharField(name: string)

  /** The strings DRF's BooleanField reads as true. */
  const TrueWords: set<string> := {"t", "T", "y", "Y", "yes", "Yes", "YES", "true", "True", "TRUE", "on", "On", "ON", "1"}

  /** The strings DRF's BooleanField reads as false. */
  const FalseWords: set<string> := {"f", "F", "n", "N", "no", "No", "NO", "false", "False", "FALSE", "off", "Off", "OFF", "0"}

  /** `str(i)` for an integer. */
  function IntToString(i: int): (r: string)
    ensures r != []
  {
    if i < 0 then "-" + NatToString(-i) else NatToString(i)
  }

  /** One field's cleaned value, or the field's name when it rejects the body. */
  function CleanField(f: Field, data: Object): Result<Value, string> {
    if f.name !in data then
      match f
      case IntegerField(_, _, _, d) => Ok(Int(d))
      case BooleanField(_, d) => Ok(Bool(d))
      case ChoiceField(_, _, d) => if d.Some? then Ok(Str(d.value)) else Err(f.name)
      case CharField(_) => Err(f.name)
    else
      var v := data[f.name];
      match f
      case IntegerField(_, lo, hi, _) =>
        if v.Int? && lo <= v.i <= hi then Ok(v) else Err(f.name)
      case BooleanField(_, _) =>
        if v.Bool? then Ok(v)
        else if v == Int(1) || (v.Str? && v.s in TrueWords) then Ok(Bool(true))
        else if v == Int(0) || (v.Str? && v.s in FalseWords) then Ok(Bool(false))
        else Err(f.name)
      case ChoiceField(_, choices, _) =>
        if v.Str? && v.s in choices then Ok(v) else Err(f.name)
      case CharField(_) =>
        if v.Str? && !IsBlank(v.s) then Ok(Str(Strip(v.s)))
        else if v.Int? then Ok(Str(IntToString(v.i)))
        else Err(f.name)
  }

  /** The field names are pairwise distinct. */
  predicate DistinctNames(fields: seq<Field>) {
    forall i, j :: 0 <= i < j < |fields| ==> fields[i].name != fields[j].name
  }

  /** The declared field names. */
  function Names(fields: seq<Field>): set<string> {
    if fields == [] then {} else Names(fields[..|fields| - 1]) + {fields[|fields| - 1].name}
  }

  /** `serializer.is_valid()` and `serializer.validated_data`, or the failing field names. */
  function Validate(fields: seq<Field>, data: Object): (r: Result<Object, seq<string>>)
    ensures r.Ok? <==> forall i :: 0 <= i < |fields| ==> CleanField(fields[i], data).Ok?
    ensures r.Ok? ==> r.value.Keys == Names(fields)
    ensures r.Err? ==> r.error != []
    ensures r.Err? ==> forall n :: n in r.error ==>
      exists i :: 0 <= i < |fields| && fields[i].name == n && CleanField(fields[i], data).Err?
  {
    if fields == [] then Ok(map[])
    else
      var init := fields[..|fields| - 1];
      var last := fields[|fields| - 1];
      var rest := Validate(init, data);
      match (rest, CleanField(last, data))
      case (Ok(m), Ok(v)) => Ok(m[last.name := v])
      case (Ok(_), Err(n)) => Err([n])
      case (Err(ns), Ok(_)) => Err(ns)
      case (Err(ns), Err(n)) => Err(ns + [n])
  }

  /** Each validated option holds the cleaned value of the field of that name. */
  lemma {:induction false} ValidatedValue(fields: seq<Field>, data: Object, i: nat)
    requires DistinctNames(fields) && i < |fields|
    requires Validate(fields, data).Ok?
    ensures fields[i].name in Validate(fields, data).value
    ensures Validate(fields, data).value[fields[i].name] == CleanField(fields[i], data).value
  {
    InNames(fields, fields[i].name);
    var init := fields[..|fields| - 1];
    if i < |fields| - 1 {
      assert init[i] == fields[i];
      assert DistinctNames(init);
      assert Validate(init, data).Ok? by {
        forall j | 0 <= j < |init| ensures CleanField(init[j], data).Ok? {
          assert init[j] == fields[j];
        }
      }
      ValidatedValue(init, data, i);
    }
  }

  /** A name is declared exactly when some field carries it. */
  lemma {:induction false} InNames(fields: seq<Field>, n: string)
    ensures n in Names(fields) <==> exists i :: 0 <= i < |fields| && fields[i].name == n
  {
    if fields != [] {
      var init := fields[..|fields| - 1];
      InNames(init, n);
      if n in Names(init) {
        var i :| 0 <= i < |init| && init[i].name == n;
        assert fields[i].name == n;
      }
      if exists i :: 0 <= i < |fields| && fields[i].name == n {
        var i :| 0 <= i < |fields| && fields[i].name == n;
        if i < |init| {
          assert init[i].name == n;
        }
      }
    }
  }

  lemma NamesOf3(fs: seq<Field>)
    requires |fs| == 3
    ensures Names(fs) == {fs[0].name, fs[1].name, fs[2].name}
  {
    assert fs[..2][..1] == [fs[0]] && [fs[0]][..0] == [];
    assert Names([fs[0]]) == {fs[0].name};
    assert Names(fs[..2]) == {fs[0].name, fs[1].name};
  }

  lemma NamesOf4(fs: seq<Field>)
    requires |fs| == 4
    ensures Names(fs) == {fs[0].name, fs[1].name, fs[2].name, fs[3].name}
  {
    NamesOf3(fs[..3]);
  }

  lemma NamesOf5(fs: seq<Field>)
    requires |fs| == 5
    ensures Names(fs) == {fs[0].name, fs[1].name, fs[2].name, fs[3].name, fs[4].name}
  {
    NamesOf4(fs[..4]);
  }

  // The declared serializers, field by field.

  const AllCodes: seq<string> := ["PPT", "FLASH", "MCQ", "POD"]
  const DifficultyChoices: seq<string> := ["easy", "medium", "hard", "mixed"]
  const LengthChoices: seq<string> := ["quick", "medium", "comprehensive"]
  const FocusChoices: seq<string> := ["full_document", "key_concepts", "summary"]
  const StyleChoices: seq<string> := ["neutral", "enthusiastic", "formal", "conversational"]
  const GenderChoices: seq<string> := ["male", "female"]
  const AccentChoices: seq<string> := ["american", "british", "indian", "australian", "canadian"]

  /** GenerateContentSerializer's one field: any of the four content codes. */
  const KindField: Field := ChoiceField("content_type", AllCodes, None)

  /** A kind serializer's own content_type: only that kind's code. */
  function OwnKindField(k: ContentType): Field {
    ChoiceField("content_type", [Code(k)], None)
  }

  const PodcastVoiceFields: seq<Field> := [
    ChoiceField("voice_style", StyleChoices, Some("neutral")),
    ChoiceField("voice_gender", GenderChoices, Some("female")),
    ChoiceField("voice_accent", AccentChoices, Some("american"))]

  /** The fields of the serializer that validates a request for kind `k`. */
  function KindFields(k: ContentType): seq<Field> {
    match k
    case Presentation => [
      OwnKindField(k),
      IntegerField("slides_count", 3, 20, 10),
      BooleanField("include_images", false)]
    case Flashcards => [
      OwnKindField(k),
      IntegerField("cards_count", 5, 50, 20),
      ChoiceField("card_type", ["qa", "true_false", "fill_blank"], Some("qa")),
      ChoiceField("difficulty", DifficultyChoices, Some("mixed"))]
    case McqSet => [
      OwnKindField(k),
      IntegerField("questions_count", 5, 30, 15),
      ChoiceField("questions_type", ["single_correct", "multiple_correct", "true_false"], Some("single_correct")),
      ChoiceField("difficulty", DifficultyChoices, Some("mixed"))]
    case Podcast => [
      OwnKindField(k),
      ChoiceField("podcast_length", LengthChoices, Some("medium")),
      ChoiceField("content_focus", FocusChoices, Some("full_document"))] + PodcastVoiceFields
  }

  /** PodcastScriptGenerateSerializer: the inherited content_type plus length and focus. */
  const ScriptFields: seq<Field> := [
    KindField,
    ChoiceField("podcast_length", LengthChoices, Some("medium")),
    ChoiceField("content_focus", FocusChoices, Some("full_document"))]

  /** PodcastAudioGenerateSerializer: the inherited content_type, the script and the voice. */
  const AudioFields: seq<Field> := [KindField, CharField("script_text")] + PodcastVoiceFields

  /** `serializer_map.get(content_type)`: the kind whose serializer handles a raw content_type value. */
  function SerializerKind(contentType: Option<Value>): (r: Option<ContentType>)
    ensures r.Some? <==> contentType.Some? && contentType.value.Str? && contentType.value.s in AllCodes
    ensures r.Some? ==> contentType == Some(Str(Code(r.value)))
  {
    match contentType
    case Some(Str(s)) => ContentTypeOf(s)
    case _ => None
  }

  /** The value a request gives a field, if it gives one. */
  function Given(data: Object, name: string): Option<Value> {
    if name in data then Some(data[name]) else None
  }

  /** A given value DRF's BooleanField accepts. */
  predicate BooleanLike(v: Value) {
    v.Bool? || v == Int(0) || v == Int(1) || (v.Str? && (v.s in TrueWords || v.s in FalseWords))
  }

  /**
   * Presentation options: content_type must be "PPT"; slides_count is an
   * integer in [3, 20], 10 when absent; include_images is a boolean, false
   * when absent; nothing else is kept.
   */
  lemma PresentationOptions(data: Object)
    ensures var r := Validate(KindFields(Presentation), data);
      && (r.Ok? <==>
            Given(data, "content_type") == Some(Str("PPT"))
            && (Given(data, "slides_count").Some? ==> data["slides_count"].Int? && 3 <= data["slides_count"].i <= 20)
            && (Given(data, "include_images").Some? ==> BooleanLike(data["include_images"])))
      && (r.Ok? ==>
            r.value.Keys == {"content_type", "slides_count", "include_images"}
            && r.value["content_type"] == Str("PPT")
            && r.value["slides_count"].Int? && 3 <= r.value["slides_count"].i <= 20
            && ("slides_count" !in data ==> r.value["slides_count"] == Int(10))
            && r.value["include_images"].Bool?
            && ("include_images" !in data ==> r.value["include_images"] == Bool(false)))
  {
    var fs := KindFields(Presentation);
    var r := Validate(fs, data);
    if r.Ok? {
      NamesOf3(fs);
      assert DistinctNames(fs);
      ValidatedValue(fs, data, 0);
      ValidatedValue(fs, data, 1);
      ValidatedValue(fs, data, 2);
    }
  }

  /** The four flashcard fields one by one, with their distinct names. */
  lemma FlashcardFieldsShape()
    ensures |KindFields(Flashcards)| == 4
    ensures KindFields(Flashcards)[0] == ChoiceField("content_type", ["FLASH"], None)
    ensures KindFields(Flashcards)[1] == IntegerField("cards_count", 5, 50, 20)
    ensures KindFields(Flashcards)[2] == ChoiceField("card_type", ["qa", "true_false", "fill_blank"], Some("qa"))
    ensures KindFields(Flashcards)[3] == ChoiceField("difficulty", DifficultyChoices, Some("mixed"))
    ensures DistinctNames(KindFields(Flashcards))
    ensures Names(KindFields(Flashcards)) == {"content_type", "cards_count", "card_type", "difficulty"}
  {
    NamesOf4(KindFields(Flashcards));
  }

  /** The four MCQ fields one by one, with their distinct names. */
  lemma McqFieldsShape()
    ensures |KindFields(McqSet)| == 4
    ensures KindFields(McqSet)[0] == ChoiceField("content_type", ["MCQ"], None)
    ensures KindFields(McqSet)[1] == IntegerField("questions_count", 5, 30, 15)
    ensures KindFields(McqSet)[2] == ChoiceField("questions_type", ["single_correct", "multiple_correct", "true_false"], Some("single_correct"))
    ensures KindFields(McqSet)[3] == ChoiceField("difficulty", DifficultyChoices, Some("mixed"))
    ensures DistinctNames(KindFields(McqSet))
    ensures Names(KindFields(McqSet)) == {"content_type", "questions_count", "questions_type", "difficulty"}
  {
    NamesOf4(KindFields(McqSet));
  }

  /**
   * Flashcard options: content_type must be "FLASH"; cards_count is an
   * integer in [5, 50], 20 when absent; card_type is one of qa, true_false,
   * fill_blank (qa when absent); difficulty is one of easy, medium, hard,
   * mixed (mixed when absent).
   */
  lemma FlashcardOptions(data: Object)
    ensures var r := Validate(KindFields(Flashcards), data);
      r.Ok? ==>
        r.value.Keys == {"content_type", "cards_count", "card_type", "difficulty"}
        && r.value["content_type"] == Str("FLASH")
        && r.value["cards_count"].Int? && 5 <= r.value["cards_count"].i <= 50
        && ("cards_count" !in data ==> r.value["cards_count"] == Int(20))
        && r.value["card_type"] in {Str("qa"), Str("true_false"), Str("fill_blank")}
        && ("card_type" !in data ==> r.value["card_type"] == Str("qa"))
        && r.value["difficulty"] in {Str("easy"), Str("medium"), Str("hard"), Str("mixed")}
        && ("difficulty" !in data ==> r.value["difficulty"] == Str("mixed"))
  {
    var fs := KindFields(Flashcards);
    var r := Validate(fs, data);
    if r.Ok? {
      FlashcardFieldsShape();
      ValidatedValue(fs, data, 0);
      ValidatedValue(fs, data, 1);
      ChoiceOption(fs, data, 2);
      ChoiceOption(fs, data, 3);
    }
  }

  /**
   * MCQ options: content_type must be "MCQ"; questions_count is an integer in
   * [5, 30], 15 when absent; questions_type is one of single_correct,
   * multiple_correct, true_false (single_correct when absent); difficulty as
   * for flashcards.
   */
  lemma McqOptions(data: Object)
    ensures var r := Validate(KindFields(McqSet), data);
      r.Ok? ==>
        r.value.Keys == {"content_type", "questions_count", "questions_type", "difficulty"}
        && r.value["content_type"] == Str("MCQ")
        && r.value["questions_count"].Int? && 5 <= r.value["questions_count"].i <= 30
        && ("questions_count" !in data ==> r.value["questions_count"] == Int(15))
        && r.value["questions_type"] in {Str("single_correct"), Str("multiple_correct"), Str("true_false")}
        && ("questions_type" !in data ==> r.value["questions_type"] == Str("single_correct"))
        && r.value["difficulty"] in {Str("easy"), Str("medium"), Str("hard"), Str("mixed")}
        && ("difficulty" !in data ==> r.value["difficulty"] == Str("mixed"))
  {
    var fs := KindFields(McqSet);
    var r := Validate(fs, data);
    if r.Ok? {
      McqFieldsShape();
      ValidatedValue(fs, data, 0);
      ValidatedValue(fs, data, 1);
      ChoiceOption(fs, data, 2);
      ChoiceOption(fs, data, 3);
    }
  }

  /** The five audio fields one by one, with their distinct names. */
  lemma AudioFieldsShape()
    ensures |AudioFields| == 5
    ensures AudioFields[0] == KindField && AudioFields[1] == CharField("script_text")
    ensures AudioFields[2] == ChoiceField("voice_style", StyleChoices, Some("neutral"))
    ensures AudioFields[3] == ChoiceField("voice_gender", GenderChoices, Some("female"))
    ensures AudioFields[4] == ChoiceField("voice_accent", AccentChoices, Some("american"))
    ensures DistinctNames(AudioFields)
    ensures Names(AudioFields) == {"content_type", "script_text", "voice_style", "voice_gender", "voice_accent"}
  {
    NamesOf5(AudioFields);
  }

  /**
   * A validated choice field holds a string: one of its choices when the
   * body gave one, its default when the body left it out.
   */
  lemma ChoiceOption(fs: seq<Field>, data: Object, i: nat)
    requires DistinctNames(fs) && i < |fs| && fs[i].ChoiceField? && Validate(fs, data).Ok?
    ensures var f := fs[i];
      var v := Validate(fs, data).value;
      && f.name in v && v[f.name].Str?
      && (f.name in data ==> v[f.name].s in f.choices)
      && (f.name !in data ==> f.choiceDefault.Some? && v[f.name] == Str(f.choiceDefault.value))
  {
    ValidatedValue(fs, data, i);
    assert CleanField(fs[i], data).Ok?;
  }

  /**
   * Audio options, the script: script_text is required, must be a string or
   * an integer, and is kept trimmed and non-empty; content_type is still
   * required and may be any of the four codes.
   */
  lemma AudioScriptOption(data: Object)
    ensures var r := Validate(AudioFields, data);
      r.Ok? ==>
        "script_text" in data && (data["script_text"].Str? || data["script_text"].Int?)
        && r.value.Keys == {"content_type", "script_text", "voice_style", "voice_gender", "voice_accent"}
        && r.value["content_type"] in {Str("PPT"), Str("FLASH"), Str("MCQ"), Str("POD")}
        && r.value["script_text"].Str? && r.value["script_text"].s != []
        && (data["script_text"].Str? ==> r.value["script_text"] == Str(Strip(data["script_text"].s)))
  {
    var fs := AudioFields;
    var r := Validate(fs, data);
    if r.Ok? {
      AudioFieldsShape();
      ChoiceOption(fs, data, 0);
      assert CleanField(fs[1], data).Ok?;
      ValidatedValue(fs, data, 1);
      var t := data["script_text"];
      if t.Str? {
        StripEmptyIffBlank(t.s);
      }
    }
  }

  /**
   * Audio options, the voice: style, gender and accent come from their 4, 2
   * and 5 choices and default to neutral, female and american.
   */
  lemma AudioVoiceOptions(data: Object)
    ensures var r := Validate(AudioFields, data);
      r.Ok? ==>
        r.value.Keys == {"content_type", "script_text", "voice_style", "voice_gender", "voice_accent"}
        && r.value["voice_style"] in {Str("neutral"), Str("enthusiastic"), Str("formal"), Str("conversational")}
        && ("voice_style" !in data ==> r.value["voice_style"] == Str("neutral"))
        && r.value["voice_gender"] in {Str("male"), Str("female")}
        && ("voice_gender" !in data ==> r.value["voice_gender"] == Str("female"))
        && r.value["voice_accent"] in {Str("american"), Str("british"), Str("indian"), Str("australian"), Str("canadian")}
        && ("voice_accent" !in data ==> r.value["voice_accent"] == Str("american"))
  {
    var fs := AudioFields;
    var r := Validate(fs, data);
    if r.Ok? {
      AudioFieldsShape();
      ChoiceOption(fs, data, 2);
      ChoiceOption(fs, data, 3);
      ChoiceOption(fs, data, 4);
    }
  }

  /** Each kind serializer accepts only its own code, so a body naming another kind is rejected. */
  lemma KindMismatchRejected(k: ContentType, other: ContentType, data: Object)
    requires k != other
    requires Given(data, "content_type") == Some(Str(Code(other)))
    ensures Validate(KindFields(k), data).Err?
  {
    assert CleanField(KindFields(k)[0], data).Err?;
  }

  /** No validated option set carries the key "slide_count". */
  lemma NoSlideCountKey(k: ContentType, data: Object)
    ensures Validate(KindFields(k), data).Ok? ==> "slide_count" !in Validate(KindFields(k), data).value
  {
    var fs := KindFields(k);
    var r := Validate(fs, data);
    if r.Ok? {
      InNames(fs, "slide_count");
    }
  }
}
