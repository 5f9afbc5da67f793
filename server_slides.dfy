/**
 * The slide side of the FastAPI service: normalising the slides the chat
 * model returned, the fallback deck used when it returned nothing usable,
 * the in-place slide edit, and the theme colour parser used when the deck
 * is rendered.
 */
module Slides {
  import opened Wrappers
  import opened Text
  import opened Json

  /** The formatting dictionary every generated slide starts with for its title. */
  const DefaultTitleFormatting: Object :=
    map["font_size" := Int(24), "font_family" := Str("Calibri"), "text_color" := Str("#1f2937"),
        "is_bold" := Bool(true), "is_italic" := Bool(false)]

  /** The formatting dictionary every generated slide starts with for its bullets. */
  const DefaultBodyFormatting: Object :=
    map["font_size" := Int(18), "font_family" := Str("Calibri"), "text_color" := Str("#333333"),
        "bullet_style" := Str("bullet"), "is_bold" := Bool(false), "is_italic" := Bool(false)]

  /** The bullet appended until a slide has four. */
  const Filler: string := "Additional point to be added"

  /**
   * Speaker notes: the text the model or the editor wrote, or one of the
   * three fixed paragraphs of the fallback deck (the topic paragraph names
   * its topic number).
   */
  datatype Notes = Written(text: string) | IntroNotes | SummaryNotes | TopicNotes(topic: nat)

  /** One entry of the "slides" list in the model's JSON reply; absent keys are None. */
  datatype DraftSlide = DraftSlide(
    title: Option<string>,
    content: Option<seq<string>>,
    speakerNotes: Option<string>,
    titleFormatting: Option<Object>,
    bodyFormatting: Option<Object>)

  datatype Slide = Slide(
    slideId: string,
    slideNumber: int,
    title: string,
    content: seq<string>,
    speakerNotes: Notes,
    titleFormatting: Object,
    bodyFormatting: Object,
    imageId: Option<string>)

  /** `f"slide_{i+1}_{hex}"` where `hex` stands for the first eight digits of a fresh uuid. */
  function SlideId(i: nat, hex: string): string {
    "slide_" + NatToString(i + 1) + "_" + hex
  }

  /** `f"img_{slide_id}_{hex}"`. */
  function ImageId(slideId: string, hex: string): string {
    "img_" + slideId + "_" + hex
  }

  // ---- bullets ----

  /**
   * The `while len(content) < 4: content.append(...)` loop: the bullets are
   * kept and the filler is appended until there are four.
   */
  method PadBullets(content: seq<string>) returns (padded: seq<string>)
    ensures |padded| == if |content| < 4 then 4 else |content|
    ensures padded[..|content|] == content
    ensures forall k :: |content| <= k < |padded| ==> padded[k] == Filler
  {
    padded := content;
    while |padded| < 4
      invariant |content| <= |padded| <= (if |content| < 4 then 4 else |content|)
      invariant padded[..|content|] == content
      invariant forall k :: |content| <= k < |padded| ==> padded[k] == Filler
      decreases 4 - |padded|
    {
      padded := padded + [Filler];
    }
  }

  /** What `PadBullets` returns, as a value the specifications below can use. */
  function Padded(content: seq<string>): (r: seq<string>)
    ensures |r| == if |content| < 4 then 4 else |content|
    ensures r[..|content|] == content
    ensures forall k :: |content| <= k < |r| ==> r[k] == Filler
  {
    if |content| < 4 then content + seq(4 - |content|, _ => Filler) else content
  }

  /** The bullets of a normalised slide: the first five of the reply's, padded to four. */
  function Bullets(draft: DraftSlide): (r: seq<string>)
    ensures 4 <= |r| <= 5
  {
    Padded(Take(draft.content.GetOr([]), 5))
  }

  /** The bullets the model wrote come first and in order; the rest is filler. */
  lemma BulletsKeepReply(draft: DraftSlide)
    ensures var given := Take(draft.content.GetOr([]), 5);
      && Bullets(draft)[..|given|] == given
      && (forall k :: |given| <= k < |Bullets(draft)| ==> Bullets(draft)[k] == Filler)
      && (|draft.content.GetOr([])| >= 4 ==> Bullets(draft) == given)
  {
  }

  // ---- one slide, then the deck ----

  /**
   * The slide built from entry `i` of the reply: numbered `i + 1`, titled
   * "Slide {i+1}" when the reply gave no title, default formatting where
   * it gave none, and an image id only when images were asked for and one
   * was produced (`imageHex(i)` is None when generating it failed).
   */
  function NormalizeSlide(i: nat, draft: DraftSlide, hex: nat -> string, includeImages: bool, imageHex: nat -> Option<string>): Slide {
    var id := SlideId(i, hex(i));
    Slide(
      id,
      i + 1,
      draft.title.GetOr("Slide " + NatToString(i + 1)),
      Bullets(draft),
      Written(draft.speakerNotes.GetOr("")),
      draft.titleFormatting.GetOr(DefaultTitleFormatting),
      draft.bodyFormatting.GetOr(DefaultBodyFormatting),
      if includeImages && imageHex(i).Some? then Some(ImageId(id, imageHex(i).value)) else None)
  }

  /**
   * The post-processing loop of `generate_slide_content`: every entry of the
   * reply is normalised in order and the list is cut with
   * `processed_slides[:slide_count]`. The loop never adds slides, so a reply
   * with fewer entries gives a shorter deck.
   */
  method ProcessSlides(drafts: seq<DraftSlide>, slideCount: int, hex: nat -> string, includeImages: bool, imageHex: nat -> Option<string>)
    returns (slides: seq<Slide>)
    ensures |slides| == |Take(drafts, slideCount)|
    ensures forall k :: 0 <= k < |slides| ==> slides[k] == NormalizeSlide(k, drafts[k], hex, includeImages, imageHex)
    ensures |slides| <= |drafts| && (0 <= slideCount ==> |slides| <= slideCount)
    ensures forall k :: 0 <= k < |slides| ==> slides[k].slideNumber == k + 1 && 4 <= |slides[k].content| <= 5
  {
    var processed: seq<Slide> := [];
    for i := 0 to |drafts|
      invariant |processed| == i
      invariant forall k :: 0 <= k < i ==> processed[k] == NormalizeSlide(k, drafts[k], hex, includeImages, imageHex)
    {
      var draft := drafts[i];
      var id := SlideId(i, hex(i));
      var content := PadBullets(Take(draft.content.GetOr([]), 5));
      var slide := Slide(
        id, i + 1, draft.title.GetOr("Slide " + NatToString(i + 1)), content,
        Written(draft.speakerNotes.GetOr("")),
        draft.titleFormatting.GetOr(DefaultTitleFormatting),
        draft.bodyFormatting.GetOr(DefaultBodyFormatting),
        None);
      if includeImages {
        var image := imageHex(i);
        if image.Some? {
          slide := slide.(imageId := Some(ImageId(id, image.value)));
        }
      }
      processed := processed + [slide];
    }
    slides := Take(processed, slideCount);
  }

  // ---- the fallback deck ----

  /** The five bullets of the introduction slide. */
  const IntroBullets: seq<string> := [
    "Document overview and main topic",
    "Key themes to be explored",
    "Learning objectives for this presentation",
    "Structure and organization of content",
    "Expected outcomes from this analysis"]

  /** The five bullets of the closing slide. */
  const SummaryBullets: seq<string> := [
    "Main findings and conclusions from the document",
    "Key insights and important points",
    "Practical applications and implications",
    "Areas for further exploration",
    "Final thoughts and recommendations"]

  /** The five bullets of middle slide `i`. */
  function TopicBullets(i: nat): (r: seq<string>)
    ensures |r| == 5
  {
    var n := NatToString(i);
    ["Primary concept " + n + " identified in the document",
     "Important definition and terminology for topic " + n,
     "Core principle related to concept " + n,
     "Relationship between topic " + n + " and other ideas",
     "Context and background for topic " + n]
  }

  /**
   * Slide `i` of a fallback deck of `count` slides: the introduction first,
   * then (checked second, so a one-slide deck is only the introduction) the
   * summary last, and "Key Topic {i}" in between.
   */
  function FallbackSlide(title: string, count: int, i: nat, hex: string): (s: Slide)
    ensures |s.content| == 5 && s.slideNumber == i + 1
  {
    var id := "fallback_" + NatToString(i + 1) + "_" + hex;
    if i == 0 then
      Slide(id, 1, "Introduction to " + title, IntroBullets, IntroNotes, DefaultTitleFormatting, DefaultBodyFormatting, None)
    else if i == count - 1 then
      Slide(id, i + 1, "Summary and Takeaways", SummaryBullets, SummaryNotes, DefaultTitleFormatting, DefaultBodyFormatting, None)
    else
      Slide(id, i + 1, "Key Topic " + NatToString(i), TopicBullets(i), TopicNotes(i), DefaultTitleFormatting, DefaultBodyFormatting, None)
  }

  /**
   * `create_fallback_slides`: one slide per index of `range(slide_count)`,
   * so exactly `count` slides (none for a count below one), numbered from 1,
   * each with five bullets, opening with the introduction and, from two
   * slides on, closing with the summary.
   */
  method CreateFallbackSlides(title: string, count: int, hex: nat -> string) returns (slides: seq<Slide>)
    ensures |slides| == if count < 0 then 0 else count
    ensures forall k :: 0 <= k < |slides| ==> slides[k] == FallbackSlide(title, count, k, hex(k))
    ensures forall k :: 0 <= k < |slides| ==> slides[k].slideNumber == k + 1 && |slides[k].content| == 5
    ensures 1 <= count ==> slides[0].title == "Introduction to " + title
    ensures 2 <= count ==> slides[count - 1].title == "Summary and Takeaways"
    ensures forall k :: 0 < k < count - 1 ==> slides[k].title == "Key Topic " + NatToString(k)
  {
    slides := [];
    var n := if count < 0 then 0 else count;
    for i := 0 to n
      invariant slides == FallbackDeck(title, count, hex, i)
    {
      var slide := BuildFallbackSlide(title, count, i, hex(i));
      slides := slides + [slide];
    }
    FallbackDeckSlides(title, count, hex, n);
  }

  /** The first `n` slides of the fallback deck, in order. */
  function FallbackDeck(title: string, count: int, hex: nat -> string, n: nat): seq<Slide> {
    if n == 0 then [] else FallbackDeck(title, count, hex, n - 1) + [FallbackSlide(title, count, n - 1, hex(n - 1))]
  }

  /** Slide `k` of the first `n` is `FallbackSlide(k)`. */
  lemma {:induction false} FallbackDeckSlides(title: string, count: int, hex: nat -> string, n: nat)
    ensures |FallbackDeck(title, count, hex, n)| == n
    ensures forall k :: 0 <= k < n ==> FallbackDeck(title, count, hex, n)[k] == FallbackSlide(title, count, k, hex(k))
  {
    if n > 0 {
      var front := FallbackDeck(title, count, hex, n - 1);
      var deck := FallbackDeck(title, count, hex, n);
      FallbackDeckSlides(title, count, hex, n - 1);
      assert deck == front + [FallbackSlide(title, count, n - 1, hex(n - 1))];
      forall k | 0 <= k < n - 1 ensures deck[k] == FallbackSlide(title, count, k, hex(k)) {
        assert deck[k] == front[k];
      }
    }
  }

  /** One pass of the fallback loop: slide `i`, by its position in the deck. */
  method BuildFallbackSlide(title: string, count: int, i: nat, hex: string) returns (slide: Slide)
    ensures slide == FallbackSlide(title, count, i, hex)
  {
    var id := "fallback_" + NatToString(i + 1) + "_" + hex;
    if i == 0 {
      slide := Slide(id, i + 1, "Introduction to " + title, IntroBullets, IntroNotes, DefaultTitleFormatting, DefaultBodyFormatting, None);
    } else if i == count - 1 {
      slide := Slide(id, i + 1, "Summary and Takeaways", SummaryBullets, SummaryNotes, DefaultTitleFormatting, DefaultBodyFormatting, None);
    } else {
      slide := Slide(id, i + 1, "Key Topic " + NatToString(i), TopicBullets(i), TopicNotes(i), DefaultTitleFormatting, DefaultBodyFormatting, None);
    }
  }

  /**
   * `generate_slide_content` once the reply is in: `drafts` is the reply's
   * "slides" list, or None when the call raised, no JSON object could be cut
   * out of the reply, or it had no "slides" list, in which case the fallback
   * deck is returned.
   */
  method GenerateSlideContent(drafts: Option<seq<DraftSlide>>, title: string, slideCount: int, includeImages: bool,
                              hex: nat -> string, imageHex: nat -> Option<string>, fallbackHex: nat -> string)
    returns (slides: seq<Slide>)
    ensures 0 <= slideCount ==> |slides| <= slideCount
    ensures drafts.None? ==> |slides| == if slideCount < 0 then 0 else slideCount
    ensures forall k :: 0 <= k < |slides| ==> slides[k].slideNumber == k + 1 && 4 <= |slides[k].content| <= 5
  {
    if drafts.Some? {
      slides := ProcessSlides(drafts.value, slideCount, hex, includeImages, imageHex);
    } else {
      slides := CreateFallbackSlides(title, slideCount, fallbackHex);
    }
  }

  // ---- editing one slide ----

  /** A slide edit request; the two formattings are optional. */
  datatype SlideEdit = SlideEdit(
    slideId: string,
    title: string,
    content: seq<string>,
    speakerNotes: string,
    titleFormatting: Option<Object>,
    bodyFormatting: Option<Object>)

  /** The slide after the edit: text replaced, each formatting replaced only when supplied. */
  function Edited(s: Slide, e: SlideEdit): (r: Slide)
    ensures r.slideId == s.slideId && r.slideNumber == s.slideNumber && r.imageId == s.imageId
    ensures r.title == e.title && r.content == e.content && r.speakerNotes == Written(e.speakerNotes)
    ensures r.titleFormatting == if e.titleFormatting.Some? then e.titleFormatting.value else s.titleFormatting
    ensures r.bodyFormatting == if e.bodyFormatting.Some? then e.bodyFormatting.value else s.bodyFormatting
  {
    s.(title := e.title, content := e.content, speakerNotes := Written(e.speakerNotes),
       titleFormatting := e.titleFormatting.GetOr(s.titleFormatting),
       bodyFormatting := e.bodyFormatting.GetOr(s.bodyFormatting))
  }

  /** The index of the first slide with id `id`, if any. */
  function FirstWithId(deck: seq<Slide>, id: string): (r: Option<nat>)
    ensures r.Some? ==> r.value < |deck| && deck[r.value].slideId == id
    ensures r.Some? ==> forall k :: 0 <= k < r.value ==> deck[k].slideId != id
    ensures r.None? ==> forall k :: 0 <= k < |deck| ==> deck[k].slideId != id
  {
    if deck == [] then None
    else if deck[0].slideId == id then Some(0)
    else match FirstWithId(deck[1..], id)
      case None => None
      case Some(k) => Some(k + 1)
  }

  /** The deck after the edit: only the first slide carrying the id changes. */
  function EditDeck(deck: seq<Slide>, e: SlideEdit): seq<Slide> {
    match FirstWithId(deck, e.slideId)
    case None => deck
    case Some(k) => deck[k := Edited(deck[k], e)]
  }

  /**
   * The loop of `edit_slide` over the stored list: the first slide whose
   * id matches is rewritten in place and the loop stops; every other slide,
   * a later one with the same id included, is left alone.
   */
  method EditSlide(deck: array<Slide>, e: SlideEdit)
    modifies deck
    ensures deck[..] == EditDeck(old(deck[..]), e)
  {
    var i := 0;
    while i < deck.Length
      invariant 0 <= i <= deck.Length
      invariant deck[..] == old(deck[..])
      invariant forall k :: 0 <= k < i ==> deck[k].slideId != e.slideId
    {
      if deck[i].slideId == e.slideId {
        assert FirstWithId(deck[..], e.slideId) == Some(i) by {
          FirstWithIdIsFirst(deck[..], e.slideId, i);
        }
        deck[i] := Edited(deck[i], e);
        return;
      }
      i := i + 1;
    }
    assert FirstWithId(deck[..], e.slideId).None?;
  }

  /** An index holding the id with no earlier one holding it is the one `FirstWithId` finds. */
  lemma FirstWithIdIsFirst(deck: seq<Slide>, id: string, i: nat)
    requires i < |deck| && deck[i].slideId == id
    requires forall k :: 0 <= k < i ==> deck[k].slideId != id
    ensures FirstWithId(deck, id) == Some(i)
  {
  }

  /**
   * What the edit promises: the deck keeps its length, its ids and its
   * numbering; the first slide with the id is the edited one and every other
   * slide is unchanged; and a deck without that id is untouched.
   */
  lemma {:induction false} EditDeckChangesOneSlide(deck: seq<Slide>, e: SlideEdit)
    ensures var deck' := EditDeck(deck, e);
      && |deck'| == |deck|
      && (forall k :: 0 <= k < |deck| ==> deck'[k].slideId == deck[k].slideId && deck'[k].slideNumber == deck[k].slideNumber)
      && (forall k :: 0 <= k < |deck| && Some(k) != FirstWithId(deck, e.slideId) ==> deck'[k] == deck[k])
      && (forall k :: 0 <= k < |deck| && Some(k) == FirstWithId(deck, e.slideId) ==> deck'[k] == Edited(deck[k], e))
      && ((forall k :: 0 <= k < |deck| ==> deck[k].slideId != e.slideId) ==> deck' == deck)
  {
    match FirstWithId(deck, e.slideId)
    case None =>
    case Some(j) =>
  }

  /** Sending the same edit twice leaves the deck as one edit did. */
  lemma EditDeckIdempotent(deck: seq<Slide>, e: SlideEdit)
    ensures EditDeck(EditDeck(deck, e), e) == EditDeck(deck, e)
  {
    match FirstWithId(deck, e.slideId)
    case None =>
    case Some(j) =>
      var deck' := EditDeck(deck, e);
      FirstWithIdIsFirst(deck', e.slideId, j);
  }

  // ---- theme colours ----

  /**
   * Python's `int(s, 16)` on a two-character string, on the ASCII range:
   * two hex digits; one hex digit with a blank before or after it; or a sign
   * followed by a hex digit. Anything else raises ValueError (None here).
   */
  function ParseHexPair(a: char, b: char): (r: Option<int>)
    ensures IsHexDigit(a) && IsHexDigit(b) ==> r == Some(16 * HexValue(a) + HexValue(b))
    ensures r.Some? ==> -15 <= r.value <= 255
  {
    if IsHexDigit(a) && IsHexDigit(b) then Some(16 * HexValue(a) + HexValue(b))
    else if IsSpace(a) && IsHexDigit(b) then Some(HexValue(b))
    else if IsHexDigit(a) && IsSpace(b) then Some(HexValue(a))
    else if a == '+' && IsHexDigit(b) then Some(HexValue(b))
    else if a == '-' && IsHexDigit(b) then Some(-(HexValue(b) as int))
    else None
  }

  /** The colour parsing fails over to white. */
  const White: (int, int, int) := (255, 255, 255)

  /**
   * `hex_to_rgb`: every leading '#' is stripped; anything but six characters
   * left gives white, and so does a pair `int(_, 16)` rejects; otherwise the
   * three pairs are the red, green and blue components.
   */
  function HexToRgb(color: string): (r: (int, int, int))
    ensures |LStripChar(color, '#')| != 6 ==> r == White
  {
    var h := LStripChar(color, '#');
    if |h| != 6 then White
    else match (ParseHexPair(h[0], h[1]), ParseHexPair(h[2], h[3]), ParseHexPair(h[4], h[5]))
      case (Some(red), Some(green), Some(blue)) => (red, green, blue)
      case _ => White
  }

  /** A component in [0, 255] as two lower-case hex digits. */
  function HexDigitChar(d: nat): (c: char)
    requires d < 16
    ensures IsHexDigit(c) && HexValue(c) == d
  {
    if d < 10 then ('0' as int + d) as char else ('a' as int + d - 10) as char
  }

  function HexByte(v: nat): (r: string)
    requires v < 256
    ensures |r| == 2 && IsHexDigit(r[0]) && IsHexDigit(r[1]) && 16 * HexValue(r[0]) + HexValue(r[1]) == v
  {
    [HexDigitChar(v / 16), HexDigitChar(v % 16)]
  }

  /** Writing a colour as "#rrggbb" and parsing it gives the colour back. */
  lemma HexToRgbRoundTrip(red: nat, green: nat, blue: nat)
    requires red < 256 && green < 256 && blue < 256
    ensures HexToRgb("#" + HexByte(red) + HexByte(green) + HexByte(blue)) == (red, green, blue)
  {
    var (x, y, z) := (HexByte(red), HexByte(green), HexByte(blue));
    var color := "#" + x + y + z;
    assert |color| == 7 && color[0] == '#';
    assert color[1] == x[0] && color[2] == x[1];
    assert color[3] == y[0] && color[4] == y[1];
    assert color[5] == z[0] && color[6] == z[1];
    HexToRgbOfDigits(color);
  }

  /** Stripping the leading '#' of "#" + h when h does not start with one. */
  lemma StripOneHash(h: string)
    requires h != [] && h[0] != '#'
    ensures LStripChar("#" + h, '#') == h
  {
    var s := "#" + h;
    assert s[1..] == h;
    calc {
      LStripChar(s, '#');
      LStripChar(s[1..], '#');
      LStripChar(h, '#');
      h;
    }
  }

  /** Six hex digits after the '#' always parse, to components in [0, 255]. */
  lemma HexToRgbOfDigits(color: string)
    requires |color| == 7 && color[0] == '#' && forall k :: 1 <= k < 7 ==> IsHexDigit(color[k])
    ensures var (red, green, blue) := HexToRgb(color);
      && red == 16 * HexValue(color[1]) + HexValue(color[2])
      && green == 16 * HexValue(color[3]) + HexValue(color[4])
      && blue == 16 * HexValue(color[5]) + HexValue(color[6])
      && 0 <= red <= 255 && 0 <= green <= 255 && 0 <= blue <= 255
  {
    assert color == "#" + color[1..];
    assert IsHexDigit(color[1]);
    StripOneHash(color[1..]);
  }
}
