/**
 * The request checks at the head of the FastAPI routes. Each route runs its
 * body inside `try: ... except Exception as e: raise HTTPException(500, ...)`,
 * and FastAPI's HTTPException is itself an Exception, so the 400 and 404
 * the checks raise reach the client as 500.
 */
module Routes {
  import opened Wrappers
  import opened Text
  import opened Quiz

  /** How a route's checks end: passed on to the route's work, or an HTTP error raised. */
  datatype Reply = Passed | Raised(code: int)

  /** The route's `except Exception` handler applied to what its body raised. */
  function Surface(r: Reply): (s: Reply)
    ensures s.Passed? <==> r.Passed?
    ensures s.Raised? ==> s.code == 500
  {
    match r
    case Passed => Passed
    case Raised(_) => Raised(500)
  }

  /** A count outside [lo, hi] is refused with 400. */
  function CountCheck(count: int, lo: int, hi: int): Reply {
    if count < lo || count > hi then Raised(400) else Passed
  }

  /** `generate_slides`: 3 to 20 slides, then the uploaded document must exist. */
  function GenerateSlidesReply(slideCount: int, documentFound: bool): (r: Reply)
    ensures r.Passed? <==> 3 <= slideCount <= 20 && documentFound
    ensures r.Raised? ==> r.code == 500
  {
    Surface(if CountCheck(slideCount, 3, 20).Raised? then Raised(400) else if !documentFound then Raised(404) else Passed)
  }

  /** `generate_flashcards`: 5 to 50 cards, then the uploaded document must exist. */
  function GenerateFlashcardsReply(cardCount: int, documentFound: bool): (r: Reply)
    ensures r.Passed? <==> 5 <= cardCount <= 50 && documentFound
    ensures r.Raised? ==> r.code == 500
  {
    Surface(if CountCheck(cardCount, 5, 50).Raised? then Raised(400) else if !documentFound then Raised(404) else Passed)
  }

  /** `generate_mcqs`: 5 to 30 questions, then the uploaded document must exist. */
  function GenerateMcqsReply(questionCount: int, documentFound: bool): (r: Reply)
    ensures r.Passed? <==> 5 <= questionCount <= 30 && documentFound
    ensures r.Raised? ==> r.code == 500
  {
    Surface(if CountCheck(questionCount, 5, 30).Raised? then Raised(400) else if !documentFound then Raised(404) else Passed)
  }

  /**
   * `edit_mcq`: the edited options must have exactly one marked, and the
   * update must have modified a stored question.
   */
  function EditMcqReply(options: seq<McqOption>, modifiedCount: nat): (r: Reply)
    ensures r.Passed? <==> CorrectCount(options) == 1 && modifiedCount > 0
    ensures r.Raised? ==> r.code == 500
  {
    Surface(if CorrectCount(options) != 1 then Raised(400) else if modifiedCount == 0 then Raised(404) else Passed)
  }

  /** `edit_slide`: some stored deck must hold a slide with the id. */
  function EditSlideReply(deckFound: bool): (r: Reply)
    ensures r.Passed? <==> deckFound
    ensures r.Raised? ==> r.code == 500
  {
    Surface(if !deckFound then Raised(404) else Passed)
  }

  /** The content types `upload_document` accepts. */
  const UploadTypes: set<string> := {
    "application/pdf",
    "application/vnd.openxmlformats-officedocument.wordprocessingml.document",
    "text/plain"}

  /** `upload_document`: a PDF, DOCX or plain-text upload. */
  function UploadReply(contentType: string): (r: Reply)
    ensures r.Passed? <==> contentType in UploadTypes
    ensures r.Raised? ==> r.code == 500
  {
    Surface(if contentType !in UploadTypes then Raised(400) else Passed)
  }

  /** The export formats, compared after lower-casing the request's. */
  datatype CardFormat = CardCsv | Anki | CardJson
  datatype McqFormat = McqCsv | McqText | McqJson

  /** `export_flashcards`: the set must exist and the format be csv, anki or json in any case. */
  function FlashcardExportReply(setFound: bool, format: string): (r: (Reply, Option<CardFormat>))
    ensures r.0.Passed? <==> setFound && Lower(format) in {"csv", "anki", "json"}
    ensures r.0.Raised? ==> r.0.code == 500
    ensures r.1.Some? <==> r.0.Passed?
  {
    if !setFound then (Surface(Raised(404)), None)
    else
      var f := Lower(format);
      if f == "csv" then (Passed, Some(CardCsv))
      else if f == "anki" then (Passed, Some(Anki))
      else if f == "json" then (Passed, Some(CardJson))
      else (Surface(Raised(400)), None)
  }

  /** `export_mcqs`: the set must exist and the format be csv, pdf or json in any case. */
  function McqExportReply(setFound: bool, format: string): (r: (Reply, Option<McqFormat>))
    ensures r.0.Passed? <==> setFound && Lower(format) in {"csv", "pdf", "json"}
    ensures r.0.Raised? ==> r.0.code == 500
    ensures r.1.Some? <==> r.0.Passed?
  {
    if !setFound then (Surface(Raised(404)), None)
    else
      var f := Lower(format);
      if f == "csv" then (Passed, Some(McqCsv))
      else if f == "pdf" then (Passed, Some(McqText))
      else if f == "json" then (Passed, Some(McqJson))
      else (Surface(Raised(400)), None)
  }
}
