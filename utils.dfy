/**
 * The helpers of the projects app that the views and the jobs call: the
 * cost of a chat completion, the podcast voice table, the S3 key and local
 * path of a download, text extraction by file suffix, the options the
 * generators read, and the per-slide cost accumulation of the presentation
 * builder. The chat model, the image model, the parsers and the TTS engine
 * are not modelled: what they return is a parameter.
 */
module Utils {
  import opened Wrappers
  import opened Json
  import opened Text
  import opened Models
  import opened Serializers

  // ---- calculate_cost ----

  /** The token counts a chat completion reports. */
  datatype Usage = Usage(promptTokens: nat, completionTokens: nat)

  /** Per-token prices of one model; `EmptyPrice` is an entry that is falsy (an empty dict or None). */
  datatype Price = Price(input: real, output: real) | EmptyPrice

  /** `settings.OPENAI_PRICING`: model name to prices. */
  type Pricing = map<string, Price>

  /** The chat model every generator uses. */
  const ChatModel: string := "gpt-5-nano"

  /** A chat completion as the caller sees it: the decoded payload and its usage, or a raised error. */
  datatype ChatReply<T> = Reply(payload: T, usage: Usage) | CallFailed

  /** `calculate_cost(model_name, usage)`. */
  function CalculateCost(pricing: Pricing, model: string, usage: Usage): real {
    if model !in pricing || pricing[model].EmptyPrice? then 0.0
    else usage.promptTokens as real * pricing[model].input + usage.completionTokens as real * pricing[model].output
  }

  /** A model without a pricing entry, or with an empty one, costs nothing. */
  lemma UnpricedModelIsFree(pricing: Pricing, model: string, usage: Usage)
    requires model !in pricing || pricing[model].EmptyPrice?
    ensures CalculateCost(pricing, model, usage) == 0.0
  {
  }

  /** With non-negative prices the cost is non-negative and grows with each token count. */
  lemma CostMonotone(pricing: Pricing, model: string, u1: Usage, u2: Usage)
    requires model in pricing && pricing[model].Price? && pricing[model].input >= 0.0 && pricing[model].output >= 0.0
    requires u1.promptTokens <= u2.promptTokens && u1.completionTokens <= u2.completionTokens
    ensures 0.0 <= CalculateCost(pricing, model, u1) <= CalculateCost(pricing, model, u2)
  {
    var p := pricing[model];
    MulMonotone(u1.promptTokens as real, u2.promptTokens as real, p.input);
    MulMonotone(u1.completionTokens as real, u2.completionTokens as real, p.output);
    assert CalculateCost(pricing, model, u1) == u1.promptTokens as real * p.input + u1.completionTokens as real * p.output;
    assert CalculateCost(pricing, model, u2) == u2.promptTokens as real * p.input + u2.completionTokens as real * p.output;
  }

  lemma MulMonotone(a: real, b: real, c: real)
    requires 0.0 <= a <= b && 0.0 <= c
    ensures 0.0 <= a * c <= b * c
  {
  }

  /** The cost is the sum of what the prompt and the completion cost on their own. */
  lemma CostSplits(pricing: Pricing, model: string, u: Usage)
    ensures CalculateCost(pricing, model, u)
      == CalculateCost(pricing, model, Usage(u.promptTokens, 0)) + CalculateCost(pricing, model, Usage(0, u.completionTokens))
  {
  }

  // ---- the podcast voice ----

  /** The voice used when (accent, gender, style) has no entry. */
  const DefaultVoice: string := "en-US-AriaNeural"

  /**
   * `voice_map` in generate_podcast_audio_from_script, 40 entries keyed by
   * (accent, gender, style), written as a lookup: None where the dictionary
   * has no entry.
   */
  function VoiceEntry(accent: string, gender: string, style: string): Option<string> {
    if accent == "american" then
      if gender == "female" then
        if style == "neutral" then Some("en-US-AriaNeural")
        else if style == "enthusiastic" then Some("en-US-JennyNeural")
        else if style == "formal" then Some("en-US-SaraNeural")
        else if style == "conversational" then Some("en-US-AriaNeural")
        else None
      else if gender == "male" then
        if style == "neutral" then Some("en-US-GuyNeural")
        else if style == "enthusiastic" then Some("en-US-BrianNeural")
        else if style == "formal" then Some("en-US-DavisNeural")
        else if style == "conversational" then Some("en-US-GuyNeural")
        else None
      else None
    else if accent == "british" then
      if gender == "female" then
        if style == "neutral" then Some("en-GB-SoniaNeural")
        else if style == "enthusiastic" then Some("en-GB-LibbyNeural")
        else if style == "formal" then Some("en-GB-SoniaNeural")
        else if style == "conversational" then Some("en-GB-MaisieNeural")
        else None
      else if gender == "male" then
        if style == "neutral" then Some("en-GB-RyanNeural")
        else if style == "enthusiastic" then Some("en-GB-ThomasNeural")
        else if style == "formal" then Some("en-GB-RyanNeural")
        else if style == "conversational" then Some("en-GB-AlfieNeural")
        else None
      else None
    else if accent == "indian" then
      if gender == "female" then
        if style == "neutral" then Some("en-IN-NeerjaNeural")
        else if style == "enthusiastic" then Some("en-IN-NeerjaNeural")
        else if style == "formal" then Some("en-IN-NeerjaNeural")
        else if style == "conversational" then Some("en-IN-NeerjaNeural")
        else None
      else if gender == "male" then
        if style == "neutral" then Some("en-IN-PrabhatNeural")
        else if style == "enthusiastic" then Some("en-IN-PrabhatNeural")
        else if style == "formal" then Some("en-IN-PrabhatNeural")
        else if style == "conversational" then Some("en-IN-PrabhatNeural")
        else None
      else None
    else if accent == "australian" then
      if gender == "female" then
        if style == "neutral" then Some("en-AU-NatashaNeural")
        else if style == "enthusiastic" then Some("en-AU-NatashaNeural")
        else if style == "formal" then Some("en-AU-NatashaNeural")
        else if style == "conversational" then Some("en-AU-NatashaNeural")
        else None
      else if gender == "male" then
        if style == "neutral" then Some("en-AU-WilliamNeural")
        else if style == "enthusiastic" then Some("en-AU-WilliamNeural")
        else if style == "formal" then Some("en-AU-WilliamNeural")
        else if style == "conversational" then Some("en-AU-WilliamNeural")
        else None
      else None
    else if accent == "canadian" then
      if gender == "female" then
        if style == "neutral" then Some("en-CA-ClaraNeural")
        else if style == "enthusiastic" then Some("en-CA-ClaraNeural")
        else if style == "formal" then Some("en-CA-ClaraNeural")
        else if style == "conversational" then Some("en-CA-ClaraNeural")
        else None
      else if gender == "male" then
        if style == "neutral" then Some("en-CA-LiamNeural")
        else if style == "enthusiastic" then Some("en-CA-LiamNeural")
        else if style == "formal" then Some("en-CA-LiamNeural")
        else if style == "conversational" then Some("en-CA-LiamNeural")
        else None
      else None
    else None
  }

  /** `voice_map.get((accent, gender, style), "en-US-AriaNeural")`. */
  function VoiceFor(accent: string, gender: string, style: string): string {
    VoiceEntry(accent, gender, style).GetOr(DefaultVoice)
  }

  /** Every combination the audio serializer accepts has its own entry. */
  lemma VoiceTableTotal(accent: string, gender: string, style: string)
    requires accent in AccentChoices && gender in GenderChoices && style in StyleChoices
    ensures VoiceEntry(accent, gender, style).Some?
  {
  }

  /** The table holds the accepted combinations and nothing else, so any other key falls back to the default. */
  lemma VoiceTableDomain(accent: string, gender: string, style: string)
    requires !(accent in AccentChoices && gender in GenderChoices && style in StyleChoices)
    ensures VoiceEntry(accent, gender, style).None? && VoiceFor(accent, gender, style) == DefaultVoice
  {
  }

  /** For the Indian, Australian and Canadian accents the style never matters. */
  lemma VoiceIgnoresStyle(accent: string, gender: string, s1: string, s2: string)
    requires accent in {"indian", "australian", "canadian"}
    requires s1 in StyleChoices && s2 in StyleChoices
    ensures VoiceFor(accent, gender, s1) == VoiceFor(accent, gender, s2)
  {
  }

  /**
   * The voice the audio generator picks from its options: each of style,
   * gender and accent is read with its default; a non-string value matches
   * no key, so the default voice is used.
   */
  function AudioVoice(options: Object): string {
    var style := Get(options, "voice_style", Str("neutral"));
    var gender := Get(options, "voice_gender", Str("female"));
    var accent := Get(options, "voice_accent", Str("american"));
    if style.Str? && gender.Str? && accent.Str? then VoiceFor(accent.s, gender.s, style.s) else DefaultVoice
  }

  /** For validated audio options the voice is the table's entry for the chosen accent, gender and style. */
  lemma ValidatedVoice(data: Object)
    requires Validate(AudioFields, data).Ok?
    ensures var o := Validate(AudioFields, data).value;
      && "voice_accent" in o && "voice_gender" in o && "voice_style" in o
      && o["voice_accent"].Str? && o["voice_gender"].Str? && o["voice_style"].Str?
      && VoiceEntry(o["voice_accent"].s, o["voice_gender"].s, o["voice_style"].s).Some?
      && AudioVoice(o) == VoiceEntry(o["voice_accent"].s, o["voice_gender"].s, o["voice_style"].s).value
  {
    AudioVoiceOptions(data);
    var o := Validate(AudioFields, data).value;
    VoiceTableTotal(o["voice_accent"].s, o["voice_gender"].s, o["voice_style"].s);
  }

  // ---- download_file_from_s3 ----

  /** The key download_file_from_s3 asks the bucket for; None where `split('.com/', 1)[1]` raises. */
  function DownloadKey(key: string): (r: Option<string>)
    ensures !StartsWith(key, "http") ==> r == Some(key)
  {
    if StartsWith(key, "http") then AfterFirst(key, ".com/") else Some(key)
  }

  const DownloadDir: string := "/tmp/downloads/"

  /** `os.path.join("/tmp/downloads/", os.path.basename(key))`. */
  function DownloadPath(key: string): (r: string)
    ensures StartsWith(r, DownloadDir)
    ensures '/' !in r[|DownloadDir|..]
  {
    DownloadDir + Basename(key)
  }

  /** The URL the upload view hands back for a key. */
  function UploadUrl(bucket: string, region: string, key: string): string {
    "https://" + bucket + ".s3." + region + ".amazonaws.com/" + key
  }

  /** The URL a job stores for an artifact it uploaded. */
  function ArtifactUrl(bucket: string, key: string): string {
    "https://" + bucket + ".s3.amazonaws.com/" + key
  }

  /**
   * In "https://" + host + ".com/" + rest, where host has no '/', the first
   * ".com/" is the one after the host.
   */
  lemma {:induction false} FirstComSlash(host: string, rest: string)
    requires '/' !in host
    ensures AfterFirst("https://" + host + ".com/" + rest, ".com/") == Some(rest)
  {
    var prefix := "https://" + host;
    var s := prefix + ".com/" + rest;
    assert s == prefix + ".com/" + rest;
    forall j | 0 <= j < |prefix| ensures !OccursAt(s, ".com/", j) {
      if j + 5 <= |s| {
        if j < 4 {
          assert s[j] == "https://"[j];
          assert s[j..j + 5][0] != '.';
        } else if j + 4 < |prefix| {
          assert s[j + 4] == host[j - 4];
          assert s[j..j + 5][4] != '/';
        } else {
          assert s[j + 4] == ".com/"[j + 4 - |prefix|];
          assert s[j..j + 5][4] != '/';
        }
      }
    }
    AfterFirstOfJoin(prefix, ".com/", rest);
  }

  /** Downloading from an upload URL fetches the uploaded key again, when bucket and region have no '/'. */
  lemma DownloadKeyOfUploadUrl(bucket: string, region: string, key: string)
    requires '/' !in bucket && '/' !in region
    ensures DownloadKey(UploadUrl(bucket, region, key)) == Some(key)
  {
    var host := bucket + ".s3." + region + ".amazonaws";
    assert UploadUrl(bucket, region, key) == "https://" + host + ".com/" + key;
    FirstComSlash(host, key);
  }

  /** The key the jobs delete for a stored URL: the text after the first ".com/". */
  function StoredKey(url: string): Option<string> {
    AfterFirst(url, ".com/")
  }

  /** Stripping an artifact URL recovers the key it was built from, when the bucket has no '/'. */
  lemma StoredKeyOfArtifactUrl(bucket: string, key: string)
    requires '/' !in bucket
    ensures StoredKey(ArtifactUrl(bucket, key)) == Some(key)
  {
    var host := bucket + ".s3.amazonaws";
    assert ArtifactUrl(bucket, key) == "https://" + host + ".com/" + key;
    FirstComSlash(host, key);
  }

  // ---- extract_text_from_file ----

  /**
   * What the document libraries read from the downloaded file: the PDF
   * pages' extracted text (a page may yield none), the DOCX paragraphs, the
   * decoded text file. None where the library raises on this file.
   */
  datatype Document = Document(
    pdfPages: Option<seq<Option<string>>>,
    docxParagraphs: Option<seq<string>>,
    textContent: Option<string>)

  /** `text += page.extract_text() or ""` over the pages. */
  function PdfText(pages: seq<Option<string>>): string {
    if pages == [] then "" else PdfText(pages[..|pages| - 1]) + pages[|pages| - 1].GetOr("")
  }

  /** `text += para.text + "\n"` over the paragraphs. */
  function DocxText(paragraphs: seq<string>): string {
    if paragraphs == [] then "" else DocxText(paragraphs[..|paragraphs| - 1]) + paragraphs[|paragraphs| - 1] + "\n"
  }

  /** The paragraphs joined by newlines, with a final newline after the last one. */
  lemma {:induction false} DocxTextIsJoin(paragraphs: seq<string>)
    requires paragraphs != []
    ensures DocxText(paragraphs) == Join("\n", paragraphs) + "\n"
  {
    if |paragraphs| > 1 {
      var init := paragraphs[..|paragraphs| - 1];
      DocxTextIsJoin(init);
      JoinSnoc(init, paragraphs[|paragraphs| - 1]);
      assert init + [paragraphs[|paragraphs| - 1]] == paragraphs;
    }
  }

  lemma {:induction false} JoinSnoc(xs: seq<string>, x: string)
    requires xs != []
    ensures Join("\n", xs + [x]) == Join("\n", xs) + "\n" + x
  {
    if |xs| == 1 {
      assert (xs + [x])[1..] == [x];
    } else {
      assert (xs + [x])[1..] == xs[1..] + [x];
      JoinSnoc(xs[1..], x);
    }
  }

  /** What extract_text_from_file returns for a path, or None where it raises. */
  function ExtractedText(path: string, doc: Document): Option<string> {
    if EndsWith(path, ".pdf") then
      (if doc.pdfPages.Some? then Some(PdfText(doc.pdfPages.value)) else None)
    else if EndsWith(path, ".docx") then
      (if doc.docxParagraphs.Some? then Some(DocxText(doc.docxParagraphs.value)) else None)
    else if EndsWith(path, ".txt") then
      doc.textContent
    else Some("")
  }

  /** A path with none of the three suffixes yields the empty text and never raises. */
  lemma UnsupportedSuffixIsEmpty(path: string, doc: Document)
    requires !EndsWith(path, ".pdf") && !EndsWith(path, ".docx") && !EndsWith(path, ".txt")
    ensures ExtractedText(path, doc) == Some("")
  {
  }

  method JoinPdfPages(pages: seq<Option<string>>) returns (text: string)
    ensures text == PdfText(pages)
  {
    text := "";
    for i := 0 to |pages|
      invariant text == PdfText(pages[..i])
    {
      assert pages[..i + 1][..i] == pages[..i];
      text := text + pages[i].GetOr("");
    }
    assert pages[..|pages|] == pages;
  }

  method JoinParagraphs(paragraphs: seq<string>) returns (text: string)
    ensures text == DocxText(paragraphs)
  {
    text := "";
    for i := 0 to |paragraphs|
      invariant text == DocxText(paragraphs[..i])
    {
      assert paragraphs[..i + 1][..i] == paragraphs[..i];
      text := text + paragraphs[i] + "\n";
    }
    assert paragraphs[..|paragraphs|] == paragraphs;
  }

  /**
   * `extract_text_from_file(path)`: the text by suffix, or None where a
   * library raises; in both cases the file is gone afterwards (`finally`).
   */
  method ExtractText(b: Backend, path: string, doc: Document) returns (r: Option<string>)
    modifies b
    ensures r == ExtractedText(path, doc)
    ensures b.State() == old(b.State()).(localFiles := old(b.localFiles) - {path})
  {
    r := Some("");
    if EndsWith(path, ".pdf") {
      if doc.pdfPages.Some? {
        var text := JoinPdfPages(doc.pdfPages.value);
        r := Some(text);
      } else {
        r := None;
      }
    } else if EndsWith(path, ".docx") {
      if doc.docxParagraphs.Some? {
        var text := JoinParagraphs(doc.docxParagraphs.value);
        r := Some(text);
      } else {
        r := None;
      }
    } else if EndsWith(path, ".txt") {
      r := doc.textContent;
    }
    b.localFiles := b.localFiles - {path};
  }

  // ---- download_file_from_s3 followed by extract_text_from_file ----

  /** Why the download or the extraction raised. */
  datatype FetchFailure =
    | KeyWithoutHost    // an "http" key with no ".com/": IndexError
    | DownloadFailed
    | ExtractFailed

  /**
   * Downloading a project's file and extracting its text: the file is
   * written under /tmp/downloads/ and removed again by the extraction.
   */
  function FetchText(w: World, s3FileKey: string, downloadSucceeds: bool, document: Document): (r: (World, Result<string, FetchFailure>))
    ensures r.0 == w.(localFiles := r.0.localFiles) && r.0.localFiles <= w.localFiles
  {
    var key := DownloadKey(s3FileKey);
    if key.None? then (w, Err(KeyWithoutHost))
    else if !downloadSucceeds then (w, Err(DownloadFailed))
    else
      var local := DownloadPath(key.value);
      var w1 := w.(localFiles := w.localFiles + {local} - {local});
      match ExtractedText(local, document)
      case None => (w1, Err(ExtractFailed))
      case Some(text) => (w1, Ok(text))
  }

  /** The download followed by the extraction, as the views and the jobs run them. */
  method RunFetchText(b: Backend, s3FileKey: string, downloadSucceeds: bool, document: Document)
    returns (text: Result<string, FetchFailure>)
    modifies b
    ensures (b.State(), text) == FetchText(old(b.State()), s3FileKey, downloadSucceeds, document)
  {
    var key := DownloadKey(s3FileKey);
    if key.None? {
      return Err(KeyWithoutHost);
    }
    if !downloadSucceeds {
      return Err(DownloadFailed);
    }
    var local := DownloadPath(key.value);
    b.localFiles := b.localFiles + {local};
    var extracted := ExtractText(b, local, document);
    if extracted.None? {
      return Err(ExtractFailed);
    }
    return Ok(extracted.value);
  }

  // ---- the options the generators read ----

  /** The prompt's excerpt of the document: `text[:limit]`. */
  function Excerpt(text: string, limit: nat): (r: string)
    ensures |r| <= limit && |r| <= |text| && r == text[..|r|]
    ensures |text| <= limit ==> r == text
  {
    if |text| <= limit then text else text[..limit]
  }

  /** The slide count the presentation prompt asks for: `options.get("slide_count", 8)`. */
  function RequestedSlideCount(options: Object): Value {
    Get(options, "slide_count", Int(8))
  }

  /** `options.get("include_images", False)`, read as a condition. */
  function IncludeImages(options: Object): bool {
    Truthy(Get(options, "include_images", Bool(false)))
  }

  /**
   * The presentation generator reads "slide_count" while the validator
   * produces "slides_count": for any validated request the prompt asks for 8
   * slides, whatever slides_count was.
   */
  lemma ValidatedSlideCountIgnored(data: Object)
    requires Validate(KindFields(Presentation), data).Ok?
    ensures RequestedSlideCount(Validate(KindFields(Presentation), data).value) == Int(8)
  {
    NoSlideCountKey(Presentation, data);
  }

  /** include_images is read under the key the validator writes, so the request's choice is honoured. */
  lemma ValidatedIncludeImages(data: Object)
    requires Validate(KindFields(Presentation), data).Ok?
    ensures var o := Validate(KindFields(Presentation), data).value;
      o["include_images"].Bool? && IncludeImages(o) == o["include_images"].b
  {
    PresentationOptions(data);
  }

  /** What the flashcard prompt asks for: count, card type and difficulty, each with its default. */
  function FlashcardRequest(options: Object): (Value, Value, Value) {
    (Get(options, "cards_count", Int(20)), Get(options, "card_type", Str("qa")), Get(options, "difficulty", Str("mixed")))
  }

  /** What the MCQ prompt asks for: count, question type and difficulty, each with its default. */
  function McqRequest(options: Object): (Value, Value, Value) {
    (Get(options, "questions_count", Int(15)), Get(options, "questions_type", Str("single_correct")), Get(options, "difficulty", Str("mixed")))
  }

  /** The flashcard generator reads exactly the validated count, type and difficulty. */
  lemma ValidatedFlashcardRequest(data: Object)
    requires Validate(KindFields(Flashcards), data).Ok?
    ensures var o := Validate(KindFields(Flashcards), data).value;
      var (count, cardType, difficulty) := FlashcardRequest(o);
      count.Int? && 5 <= count.i <= 50
      && cardType in {Str("qa"), Str("true_false"), Str("fill_blank")}
      && difficulty in {Str("easy"), Str("medium"), Str("hard"), Str("mixed")}
      && ("cards_count" in data ==> count == data["cards_count"])
  {
    FlashcardOptions(data);
    var fs := KindFields(Flashcards);
    if "cards_count" in data {
      FlashcardFieldsShape();
      ValidatedValue(fs, data, 1);
    }
  }

  /** The MCQ generator reads exactly the validated count, type and difficulty. */
  lemma ValidatedMcqRequest(data: Object)
    requires Validate(KindFields(McqSet), data).Ok?
    ensures var o := Validate(KindFields(McqSet), data).value;
      var (count, questionType, difficulty) := McqRequest(o);
      count.Int? && 5 <= count.i <= 30
      && questionType in {Str("single_correct"), Str("multiple_correct"), Str("true_false")}
      && difficulty in {Str("easy"), Str("medium"), Str("hard"), Str("mixed")}
      && ("questions_count" in data ==> count == data["questions_count"])
  {
    McqOptions(data);
    var fs := KindFields(McqSet);
    if "questions_count" in data {
      McqFieldsShape();
      ValidatedValue(fs, data, 1);
    }
  }

  /** The script prompt's length instruction. */
  datatype ScriptLength = Quick | Medium | Comprehensive

  /** The script prompt's focus instruction. */
  datatype ScriptFocus = FullDocument | KeyConcepts | Summary

  /** "quick" and "comprehensive" select their instruction; anything else, the medium one. */
  function LengthInstruction(options: Object): (r: ScriptLength)
    ensures r == Quick <==> Get(options, "podcast_length", Str("medium")) == Str("quick")
    ensures r == Comprehensive <==> Get(options, "podcast_length", Str("medium")) == Str("comprehensive")
  {
    var v := Get(options, "podcast_length", Str("medium"));
    if v == Str("quick") then Quick else if v == Str("comprehensive") then Comprehensive else Medium
  }

  /** "key_concepts" and "summary" select their instruction; anything else, the full-document one. */
  function FocusInstruction(options: Object): (r: ScriptFocus)
    ensures r == KeyConcepts <==> Get(options, "content_focus", Str("full_document")) == Str("key_concepts")
    ensures r == Summary <==> Get(options, "content_focus", Str("full_document")) == Str("summary")
  {
    var v := Get(options, "content_focus", Str("full_document"));
    if v == Str("key_concepts") then KeyConcepts else if v == Str("summary") then Summary else FullDocument
  }

  // ---- generate_ppt_from_text ----

  /** One entry of the "slides" list the chat model returns; None where the key is absent. */
  datatype SlideInfo = SlideInfo(title: Option<string>, content: Option<seq<string>>, speakerNotes: Option<string>)

  /** An image stream for a slide. */
  datatype Image = Image(data: seq<int>)

  datatype Layout = TextOnly | WithImage

  /** A slide as written into the deck. */
  datatype RenderedSlide = RenderedSlide(layout: Layout, title: string, bullets: seq<string>, notes: string)

  /**
   * `generate_image_for_slide`: every path through its body ends in the
   * `except` branch (the decoder and the stream type it uses are not
   * imported), so it yields no image and no cost.
   */
  function GenerateImageForSlide(title: Option<string>, content: seq<string>): (Option<Image>, real) {
    (None, 0.0)
  }

  /** The image (and its cost) the builder obtains for one slide. */
  function SlideImage(slide: SlideInfo, includeImages: bool): (Option<Image>, real) {
    if includeImages then GenerateImageForSlide(slide.title, slide.content.GetOr([])) else (None, 0.0)
  }

  /** How a slide is written: the image layout only when an image came back. */
  function Render(slide: SlideInfo, image: Option<Image>): RenderedSlide {
    RenderedSlide(
      if image.Some? then WithImage else TextOnly,
      slide.title.GetOr("Untitled Slide"),
      slide.content.GetOr([]),
      slide.speakerNotes.GetOr(""))
  }

  /** The summed image costs of the slides. */
  function ImageCosts(slides: seq<SlideInfo>, includeImages: bool): real {
    if slides == [] then 0.0
    else ImageCosts(slides[..|slides| - 1], includeImages) + SlideImage(slides[|slides| - 1], includeImages).1
  }

  /**
   * The slide loop of generate_ppt_from_text: one rendered slide per entry,
   * and the text cost plus each slide's image cost.
   */
  method BuildPresentation(slides: seq<SlideInfo>, includeImages: bool, textCost: real)
    returns (deck: seq<RenderedSlide>, totalCost: real)
    ensures |deck| == |slides|
    ensures forall i :: 0 <= i < |slides| ==> deck[i] == Render(slides[i], SlideImage(slides[i], includeImages).0)
    ensures totalCost == textCost + ImageCosts(slides, includeImages)
  {
    deck := [];
    totalCost := textCost;
    for i := 0 to |slides|
      invariant |deck| == i
      invariant forall j :: 0 <= j < i ==> deck[j] == Render(slides[j], SlideImage(slides[j], includeImages).0)
      invariant totalCost == textCost + ImageCosts(slides[..i], includeImages)
    {
      var image: Option<Image> := None;
      if includeImages {
        var generated := GenerateImageForSlide(slides[i].title, slides[i].content.GetOr([]));
        image := generated.0;
        totalCost := totalCost + generated.1;
      }
      assert slides[..i + 1][..i] == slides[..i];
      deck := deck + [Render(slides[i], image)];
    }
    assert slides[..|slides|] == slides;
  }

  /**
   * Since no image is ever produced, requesting images adds nothing to the
   * cost and every slide uses the text-only layout.
   */
  lemma {:induction false} PresentationCostIsTextCost(slides: seq<SlideInfo>, includeImages: bool)
    ensures ImageCosts(slides, includeImages) == 0.0
    ensures forall i :: 0 <= i < |slides| ==> Render(slides[i], SlideImage(slides[i], includeImages).0).layout == TextOnly
  {
    if slides != [] {
      PresentationCostIsTextCost(slides[..|slides| - 1], includeImages);
    }
  }

  // ---- the generators as the jobs see them ----

  /** What a generator call leaves behind: the file it wrote and what it cost. */
  datatype Generated = Generated(path: string, cost: real)

  const PresentationPath: string := "/tmp/presentations/presentation.pptx"
  const FlashcardsPath: string := "/tmp/flashcards/flashcards.json"
  const McqsPath: string := "/tmp/mcqs/mcqs.json"
  const PodcastPath: string := "/tmp/podcasts/podcast.mp3"

  /** generate_ppt_from_text: None where the chat call or the decoding raises. */
  function PresentationFile(options: Object, reply: ChatReply<seq<SlideInfo>>, pricing: Pricing): (r: Option<Generated>)
    ensures r.Some? <==> reply.Reply?
    ensures r.Some? ==> r.value.path == PresentationPath
    ensures r.Some? ==> r.value.cost == CalculateCost(pricing, ChatModel, reply.usage) + ImageCosts(reply.payload, IncludeImages(options))
  {
    match reply
    case CallFailed => None
    case Reply(slides, usage) =>
      Some(Generated(PresentationPath, CalculateCost(pricing, ChatModel, usage) + ImageCosts(slides, IncludeImages(options))))
  }

  /** generate_flashcards_from_text / generate_mcqs_from_text: the JSON file and the text cost. */
  function DocumentFile<T>(path: string, reply: ChatReply<T>, pricing: Pricing): (r: Option<Generated>)
    ensures r.Some? <==> reply.Reply?
    ensures r.Some? ==> r.value == Generated(path, CalculateCost(pricing, ChatModel, reply.usage))
  {
    match reply
    case CallFailed => None
    case Reply(_, usage) => Some(Generated(path, CalculateCost(pricing, ChatModel, usage)))
  }
}
