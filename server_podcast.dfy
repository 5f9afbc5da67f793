/**
 * The podcast side of the FastAPI service: assembling the script from the
 * chat model's reply, the fallback script, the voice chosen for a request,
 * and the "MM:SS" duration label of the synthesised audio.
 */
module Podcast {
  import opened Wrappers
  import opened Text
  import Utils

  /** The "script" object of the model's JSON reply; absent keys are None. */
  datatype DraftScript = DraftScript(
    title: Option<string>,
    description: Option<string>,
    intro: Option<string>,
    mainContent: Option<string>,
    conclusion: Option<string>,
    estimatedDuration: Option<string>)

  /**
   * The script text: the three parts the model wrote, joined, or the fixed
   * fallback paragraph, which names the document.
   */
  datatype ScriptText = Composed(text: string) | FallbackText(documentTitle: string)

  datatype PodcastScript = PodcastScript(
    title: string,
    description: string,
    scriptText: ScriptText,
    estimatedDuration: string)

  const DefaultIntro: string := "Welcome to this learning session."
  const DefaultMain: string := "Here is the main content of our discussion."
  const DefaultConclusion: string := "Thank you for listening. Keep learning!"
  const DefaultDuration: string := "05:00"

  /** The f-string of `generate_podcast_script`: the parts on their own lines, a blank line between, then stripped. */
  function ComposeScript(intro: string, main: string, conclusion: string): string {
    Strip("\n" + intro + "\n\n" + main + "\n\n" + conclusion + "\n")
  }

  /** A script from the model's reply, with the defaults for whatever it left out. */
  function ScriptFromReply(draft: DraftScript, documentTitle: string): PodcastScript {
    PodcastScript(
      draft.title.GetOr(documentTitle + " - Podcast"),
      draft.description.GetOr("Educational podcast based on " + documentTitle),
      Composed(ComposeScript(draft.intro.GetOr(DefaultIntro), draft.mainContent.GetOr(DefaultMain), draft.conclusion.GetOr(DefaultConclusion))),
      draft.estimatedDuration.GetOr(DefaultDuration))
  }

  /** `duration_map.get(podcast_length, "05:00")`. */
  function FallbackDuration(length: string): (r: string)
    ensures length !in {"quick", "medium", "comprehensive"} ==> r == DefaultDuration
  {
    if length == "quick" then "03:00"
    else if length == "medium" then "05:00"
    else if length == "comprehensive" then "08:00"
    else DefaultDuration
  }

  /** `create_fallback_podcast_script`. */
  function FallbackScript(documentTitle: string, length: string): PodcastScript {
    PodcastScript(
      documentTitle + " - Learning Podcast",
      "Educational podcast generated from " + documentTitle,
      FallbackText(documentTitle),
      FallbackDuration(length))
  }

  /**
   * `generate_podcast_script` once the reply is in: `draft` is the reply's
   * "script" object, or None when the call raised, no JSON object could be
   * cut out of the reply, or it had no "script" key.
   */
  function GeneratePodcastScript(draft: Option<DraftScript>, documentTitle: string, length: string): (r: PodcastScript)
    ensures draft.None? ==> r.scriptText == FallbackText(documentTitle) && r.title == documentTitle + " - Learning Podcast"
    ensures draft.Some? ==> r.scriptText.Composed?
  {
    match draft
    case Some(d) => ScriptFromReply(d, documentTitle)
    case None => FallbackScript(documentTitle, length)
  }

  lemma LStripOfSpaceThen(c: char, s: string)
    requires IsSpace(c)
    ensures LStrip([c] + s) == LStrip(s)
  {
    assert ([c] + s)[1..] == s;
  }

  lemma RStripOfThenSpace(s: string, c: char)
    requires IsSpace(c)
    ensures RStrip(s + [c]) == RStrip(s)
  {
    assert (s + [c])[..|s|] == s;
  }

  /**
   * When the parts carry no surrounding whitespace of their own, stripping
   * removes exactly the newline put before the intro and the one after the
   * conclusion: the script is the parts separated by one blank line.
   */
  lemma ComposeScriptJoinsParts(intro: string, main: string, conclusion: string)
    requires intro != [] && !IsSpace(intro[0])
    requires conclusion != [] && !IsSpace(conclusion[|conclusion| - 1])
    ensures ComposeScript(intro, main, conclusion) == intro + "\n\n" + main + "\n\n" + conclusion
  {
    var body := intro + "\n\n" + main + "\n\n" + conclusion;
    assert body[0] == intro[0];
    assert body[|body| - 1] == conclusion[|conclusion| - 1];
    assert "\n" + intro + "\n\n" + main + "\n\n" + conclusion + "\n" == ['\n'] + (body + ['\n']);
    LStripOfSpaceThen('\n', body + ['\n']);
    assert (body + ['\n'])[0] == body[0];
    assert LStrip(body + ['\n']) == body + ['\n'];
    RStripOfThenSpace(body, '\n');
    assert RStrip(body) == body;
  }

  /** The full default script, when the model's "script" object held none of the three parts. */
  lemma DefaultScriptText(draft: DraftScript, documentTitle: string)
    requires draft.intro.None? && draft.mainContent.None? && draft.conclusion.None?
    ensures ScriptFromReply(draft, documentTitle).scriptText
      == Composed(DefaultIntro + "\n\n" + DefaultMain + "\n\n" + DefaultConclusion)
  {
    ComposeScriptJoinsParts(DefaultIntro, DefaultMain, DefaultConclusion);
  }

  // ---- voice and duration ----

  /**
   * The voice lookup of `generate_audio_from_script`: the same table as the
   * Django side, but keyed by the lower-cased accent, gender and style.
   */
  function ServerVoice(style: string, gender: string, accent: string): string {
    Utils.VoiceFor(Lower(accent), Lower(gender), Lower(style))
  }

  /**
   * The lookup ignores letter case, and on lower-case names it agrees with
   * the Django worker's exact-case lookup, including its default.
   */
  lemma ServerVoiceIgnoresCase(style: string, gender: string, accent: string)
    ensures ServerVoice(style, gender, accent) == ServerVoice(Lower(style), Lower(gender), Lower(accent))
    ensures style == Lower(style) && gender == Lower(gender) && accent == Lower(accent) ==>
      ServerVoice(style, gender, accent) == Utils.VoiceFor(accent, gender, style)
  {
    LowerIdempotent(style);
    LowerIdempotent(gender);
    LowerIdempotent(accent);
  }

  /** `f"{n:02d}"`. */
  function TwoDigits(n: nat): (r: string)
    ensures |r| >= 2
  {
    if n < 10 then "0" + NatToString(n) else NatToString(n)
  }

  /**
   * The minutes and seconds of an audio `millis` milliseconds long:
   * `duration_seconds // 60` and `duration_seconds % 60`, truncated.
   */
  function DurationParts(millis: nat): (nat, nat) {
    (millis / 60000, (millis % 60000) / 1000)
  }

  /** `f"{minutes:02d}:{seconds:02d}"`. */
  function DurationLabel(millis: nat): string {
    var (minutes, seconds) := DurationParts(millis);
    TwoDigits(minutes) + ":" + TwoDigits(seconds)
  }

  /** The label's parts are the whole seconds of the audio split into minutes and seconds below 60. */
  lemma DurationPartsSplitSeconds(millis: nat)
    ensures var (minutes, seconds) := DurationParts(millis);
      seconds < 60 && minutes * 60 + seconds == millis / 1000
  {
    var q := millis / 60000;
    var r := millis % 60000;
    assert millis == q * 60000 + r;
    assert r / 1000 < 60;
    assert millis / 1000 == q * 60 + r / 1000 by {
      assert millis == (q * 60 + r / 1000) * 1000 + r % 1000;
    }
  }
}
