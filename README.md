# Edugen backend core, modelled in Dafny

Edugen turns an uploaded document (PDF, DOCX or plain text) into study
material: slide decks, flashcards, multiple-choice question sets and
podcasts. The backend has two halves, both modelled here.

**The Django `projects` app.** Each user's projects, and the
`GeneratedContent` row of each project and content kind. The app checks
generation requests with DRF serializers and charges the owner's
`UserProfile.token_balance`. It then queues two Celery jobs:

- `generate_content_task` downloads the project's file from S3, extracts its
  text, calls the chat model and uploads the artifact back to S3;
- `generate_audio_task` synthesises the podcast's MP3.

**The FastAPI service (`server.py`).** It post-processes the chat model's
JSON reply into slides, flashcards and MCQs, builds the fallback sets,
repairs MCQ option marks, edits slides in place, parses theme colours,
picks the podcast voice, and writes the CSV, Anki and text exports. Each
route checks its request first.

## How the model is laid out

- `common.dfy`: `Wrappers` (Option, Result), `Text` (the Python string
  operations the code relies on), `Json` (a decoded request body).
- `models.dfy`: `Models`, the Django rows and a `Backend` class holding
  everything the views and jobs change: projects, content rows, balances,
  the bucket's keys, the worker's local files, the job queue. `World` is a
  value snapshot of the same state.
- `serializers.dfy`: `Serializers`, DRF validation of the declared fields.
- `utils.dfy`: `Utils`, the helpers in `projects/utils.py`.
- `tasks.dfy`: `Tasks`, the two Celery jobs.
- `views.dfy`: `Views`, the `ProjectViewSet` handlers.
- `server_slides.dfy`, `server_quiz.dfy`, `server_podcast.dfy`,
  `server_export.dfy`, `server_routes.dfy`: `Slides`, `Quiz`, `Podcast`,
  `Export`, `Routes`, the FastAPI service.

**Handlers and jobs.** Each handler and job is a method on `Backend` that
follows the source step by step. Each method is proved equal to a function
on `World` (for example `ContentJob`, `GenerateContentSpec`). The lemmas
state what the code promises in terms of those functions.

**Loops.** Post-processing loops, the fallback builders, the in-place mark
repair (on an `array`), the in-place slide edit (on an `array`), the CSV,
Anki and text exports and the histogram are methods with loop invariants.
Each is proved against a function or property of its input.

**External calls.** S3, the document libraries, the chat and image models
and the TTS engine are not modelled. What they return, or whether they
raise, is a parameter (an environment record or an `Option`). The same
goes for uuids, timestamps and the Celery task id.

**Behaviour kept as written:**

- The presentation generator reads `options["slide_count"]`, but the
  serializer writes `slides_count`, so the prompt always asks for 8 slides.
- `generate_image_for_slide` always ends in its `except` branch: it calls
  `base64` and `BytesIO`, which `projects/utils.py` does not import. So no
  image and no image cost are ever produced.
- `destroy` hands S3 the stored `s3_file_key`, which is the upload URL, as
  the object key. The uploaded object therefore stays in the bucket.
- `update_file` reads the key from `urlparse(url).path`. For https URLs this
  cuts the last path segment at its first ';'. A file uploaded as `a;b.pdf`
  is stored under `uploads/{user}/a;b.pdf`, but updating it writes
  `uploads/{user}/a`.
- `upload_file` puts the file name into its URL without encoding it, and
  `FileUpdateSerializer.s3_url` is a URLField, whose validator admits no
  whitespace. A file whose name holds a blank (an ASCII character
  `str.isspace` accepts), such as `Lecture 1.pdf`, can
  be uploaded but never updated: `update_file` answers 400 on its URL.
- Each FastAPI route wraps its body in `except Exception` and re-raises it
  as a 500. Its own 400 and 404 errors therefore also reach the client as
  500.

## Model

| member | source | states |
|---|---|---|
| Models.ContentTypeOf | backend/projects/models.py:21-25 | a stored code maps back to the kind carrying it, and a code no kind carries maps to nothing |
| Models.CodeRoundTrip | backend/projects/models.py:21-25 | reading back a kind's code gives the kind |
| Models.CascadeDelete | backend/projects/models.py:32 | deleting a project removes exactly its rows and leaves every other row as it was |
| Models.EnsureBalance | backend/users/models.py:10 | get_or_create gives a missing profile the 5.00 default balance and leaves existing balances alone |
| Models.UpsertKeepsOneRowPerKind | backend/projects/views.py:103-110 | update_or_create keeps one row per (project, kind); the row is PENDING with no URL; an existing row keeps its id and task id; other rows are unchanged; a new row is made exactly when none existed |
| Models.RewriteRowKeepsValid | backend/projects/tasks.py:87-89 | saving a row with the same id, project and kind keeps the tables well formed |
| Models.Debit | backend/projects/views.py:147 | the F-expression update lowers exactly the user's balance by the cost |
| Models.Backend.EnsureProfile | backend/projects/views.py:86 | the new state is the get_or_create of the profile; the balance returned is the stored one |
| Models.Backend.UpsertPending | backend/projects/views.py:103-110 | the tables are updated by the upsert, keep their invariant, and nothing else changes |
| Models.Backend.RecordTaskId | backend/projects/views.py:116-117 | only the row's task id changes, and the tables stay well formed |
| Serializers.Validate | backend/projects/views.py:97-98 | a body is valid iff every declared field cleans; validated data has exactly the declared names; errors name only fields that failed |
| Serializers.ValidatedValue | backend/projects/views.py:100 | each validated option is its field's cleaned value |
| Serializers.SerializerKind | backend/projects/views.py:93-95 | a content_type selects a serializer iff it is a string among the four codes, and the selected kind carries that code |
| Serializers.PresentationOptions | backend/projects/serializers.py:50-54 | a body is valid iff content_type is "PPT", slides_count is in [3, 20] and include_images is boolean-like; defaults 10 and false |
| Serializers.FlashcardOptions | backend/projects/serializers.py:56-61 | validated flashcard options: "FLASH", cards_count in [5, 50] (default 20), a card type and a difficulty from their choices with their defaults |
| Serializers.McqOptions | backend/projects/serializers.py:63-68 | validated MCQ options: "MCQ", questions_count in [5, 30] (default 15), a question type and a difficulty from their choices with their defaults |
| Serializers.AudioScriptOption | backend/projects/serializers.py:83-84 | a validated audio request has a non-empty trimmed script_text that was given as a string or integer, and any of the four codes |
| Serializers.AudioVoiceOptions | backend/projects/serializers.py:85-87 | validated voice style, gender and accent come from their choices, defaulting to neutral, female and american |
| Serializers.KindMismatchRejected | backend/projects/serializers.py:50-71 | each kind serializer rejects a body naming another kind |
| Serializers.NoSlideCountKey | backend/projects/serializers.py:53 | no validated option set has the key "slide_count" |
| Utils.UnpricedModelIsFree | backend/projects/utils.py:508-510 | a model with no pricing entry, or an empty one, costs 0 |
| Utils.CostMonotone | backend/projects/utils.py:513-517 | with non-negative prices the cost is non-negative and grows with each token count |
| Utils.CostSplits | backend/projects/utils.py:516 | the cost is the prompt cost plus the completion cost |
| Utils.VoiceTableTotal | backend/projects/utils.py:439-489 | every accepted (accent, gender, style) has a voice entry |
| Utils.VoiceTableDomain | backend/projects/utils.py:439-492 | any other key has no entry and falls back to en-US-AriaNeural |
| Utils.VoiceIgnoresStyle | backend/projects/utils.py:460-488 | for the Indian, Australian and Canadian accents the style never changes the voice |
| Utils.ValidatedVoice | backend/projects/utils.py:435-492 | for validated audio options the voice is the table's own entry, never the default |
| Utils.DownloadKey | backend/projects/utils.py:17-18 | a key not starting with "http" is downloaded as is |
| Utils.DownloadPath | backend/projects/utils.py:25-28 | the local path lies directly under /tmp/downloads/ |
| Utils.DownloadKeyOfUploadUrl | backend/projects/utils.py:17-18 | downloading from the URL upload_file returns fetches the uploaded key |
| Utils.StoredKeyOfArtifactUrl | backend/projects/tasks.py:86 | the key cut from an artifact URL is the key it was built from |
| Utils.DocxTextIsJoin | backend/projects/utils.py:43-44 | DOCX text is the paragraphs joined by newlines, plus a final newline |
| Utils.UnsupportedSuffixIsEmpty | backend/projects/utils.py:34-52 | a path with no known suffix gives "" and does not raise |
| Utils.JoinPdfPages | backend/projects/utils.py:39-40 | the page loop concatenates each page's text or "" |
| Utils.JoinParagraphs | backend/projects/utils.py:43-44 | the paragraph loop appends each paragraph and a newline |
| Utils.ExtractText | backend/projects/utils.py:32-52 | the text by suffix, or a raise; the file is removed either way |
| Utils.FetchText | backend/projects/utils.py:14-30 | download and extraction change only the worker's local files and never add one |
| Utils.RunFetchText | backend/projects/tasks.py:46-49 | the download then the extraction, equal to FetchText |
| Utils.Excerpt | backend/projects/utils.py:94 | the prompt excerpt is the first 8000 characters, or the whole text when shorter |
| Utils.ValidatedSlideCountIgnored | backend/projects/utils.py:86 | for any validated presentation request the prompt asks for 8 slides |
| Utils.ValidatedIncludeImages | backend/projects/utils.py:87 | include_images is read as the validated boolean |
| Utils.ValidatedFlashcardRequest | backend/projects/utils.py:171-173 | the flashcard prompt gets the validated count (the given one when present), type and difficulty |
| Utils.ValidatedMcqRequest | backend/projects/utils.py:209-211 | the MCQ prompt gets the validated count (the given one when present), type and difficulty |
| Utils.LengthInstruction | backend/projects/utils.py:367-376 | "quick" and "comprehensive" select their instruction and nothing else does |
| Utils.FocusInstruction | backend/projects/utils.py:378-384 | "key_concepts" and "summary" select their instruction and nothing else does |
| Utils.BuildPresentation | backend/projects/utils.py:114-153 | one rendered slide per entry, in order; total cost is the text cost plus every image cost |
| Utils.PresentationCostIsTextCost | backend/projects/utils.py:55-80 | no image is ever produced, so image costs are 0 and every slide is text-only |
| Utils.PresentationFile | backend/projects/utils.py:82-161 | a file exactly when the chat call answers, at the fixed path, costing the text plus the images |
| Utils.DocumentFile | backend/projects/utils.py:167-201 | a JSON file exactly when the chat call answers, costing the text cost |
| Tasks.RemovePrevious | backend/projects/tasks.py:20-36 | the cleanup removes at most the key cut from the row's URL and adds nothing |
| Tasks.Settle | backend/projects/tasks.py:72-74 | the owner is charged exactly a positive cost, and nothing otherwise; no other balance changes |
| Tasks.RunRemovePrevious | backend/projects/tasks.py:20-36 | the cleanup step, changing only the bucket |
| Tasks.RunDeliver | backend/projects/tasks.py:72-93 | charge, upload and record step by step, equal to Deliver |
| Tasks.RunContentPipeline | backend/projects/tasks.py:43-95 | the try block step by step, equal to ContentPipeline |
| Tasks.GenerateContentTask | backend/projects/tasks.py:17-101 | generate_content_task is equal to ContentJob and keeps the tables well formed |
| Tasks.RunAudioPipeline | backend/projects/tasks.py:126-143 | the audio try block step by step, equal to AudioPipeline |
| Tasks.GenerateAudioTask | backend/projects/tasks.py:104-148 | generate_audio_task is equal to AudioJob and keeps the tables well formed |
| Tasks.DeliverKeepsValid | backend/projects/tasks.py:80-89 | delivery rewrites only the job's row, keeping its project and kind |
| Tasks.ContentPipelineKeepsValid | backend/projects/tasks.py:43-95 | the try block rewrites only the job's row, keeping its project and kind |
| Tasks.AudioPipelineKeepsValid | backend/projects/tasks.py:126-143 | the audio try block rewrites only the job's row |
| Tasks.DeliverRows | backend/projects/tasks.py:72-93 | delivery changes rows and bucket only on success, adding the artifact and its URL |
| Tasks.DeliverCharges | backend/projects/tasks.py:72-83 | the owner is charged once a file is produced, even if the upload then fails, which leaves the file on disk |
| Tasks.ContentPipelineRows | backend/projects/tasks.py:43-95 | on success the row holds the artifact's URL and the artifact is in the bucket; on failure neither rows nor bucket changed |
| Tasks.ContentPipelineCharges | backend/projects/tasks.py:54-78 | the owner pays exactly when a file was produced, and nobody else pays |
| Tasks.ContentJobStatus | backend/projects/tasks.py:17-101 | completed means SUCCESS; raised after loading means FAILURE; a missing row changes nothing; other rows, projects and queue untouched |
| Tasks.ContentJobEmptyText | backend/projects/tasks.py:49-51 | blank extracted text makes the job raise: the row becomes FAILURE, nobody is charged, nothing is uploaded, and the bucket is as the cleanup left it |
| Tasks.ContentJobArtifact | backend/projects/tasks.py:82-88 | a completed job uploaded generated/{project}/{content}_{name} and the row's URL leads back to that key |
| Tasks.ContentJobCharges | backend/projects/tasks.py:39-74 | the owner's profile exists afterwards and is charged exactly when a file was produced; others' balances never change |
| Tasks.PodcastContentJobFails | backend/projects/tasks.py:58-78 | a PODCAST row has no branch: the job always fails and charges nothing |
| Tasks.ContentJobIgnoresDelete | backend/projects/tasks.py:20-36 | whether the old-artifact delete succeeds changes neither outcome, rows nor balances |
| Tasks.ContentPipelineIgnoresObjects | backend/projects/tasks.py:43-95 | the try block reads neither the bucket nor the delete flag |
| Tasks.AudioPipelineRows | backend/projects/tasks.py:126-143 | the audio try block changes rows and bucket only on success, recording the MP3's URL |
| Tasks.AudioJobStatus | backend/projects/tasks.py:104-148 | SUCCESS or FAILURE as for the content job; "Script text cannot be empty." exactly when script_text is missing or falsy; no balance changes |
| Tasks.AudioJobArtifact | backend/projects/tasks.py:134-140 | a completed audio job uploaded generated/{project}/{content}_podcast.mp3 and recorded its URL |
| Tasks.GeneratedKeyShape | backend/projects/tasks.py:82 | generated keys start with "generated/" and end with "_" and the file name |
| Views.GetObjectOwnership | backend/projects/views.py:184-188 | a user reaches a project iff it exists and is theirs |
| Views.GenerateContent | backend/projects/views.py:81-122 | the handler is equal to GenerateContentSpec and keeps the tables well formed |
| Views.GenerateContentRefusals | backend/projects/views.py:85-98 | 404 exactly for a project the user does not own; then 400 exactly when the balance is below 0.09, when the type is unknown, or when the options fail validation (with the failing fields); none touches a row or the queue |
| Views.GenerateContentAcceptance | backend/projects/views.py:85-122 | a request is accepted iff the project is the user's, the owner holds at least 0.09 tokens, the type is known and its options validate |
| Views.GenerateContentAccepted | backend/projects/views.py:100-122 | an accepted request leaves one PENDING row with no URL and the task id, queues one job with the validated options, changes no other row |
| Views.ContentRequestSkipsCleanup | backend/projects/views.py:103-113 | the upsert clears the URL, so the queued job, run next, deletes nothing |
| Views.GeneratePodcastScript | backend/projects/views.py:127-151 | the handler is equal to PodcastScriptSpec |
| Views.ScriptCallEffect | backend/projects/views.py:141-151 | the script call touches only local files and the owner's balance, charging exactly when it returns the script |
| Views.RunScriptCall | backend/projects/views.py:141-151 | download, extraction and chat call step by step, equal to ScriptCall |
| Views.PodcastScriptFrame | backend/projects/views.py:127-151 | the script request never touches a row, the bucket or the queue; a refused one changes nothing |
| Views.PodcastScriptCharges | backend/projects/views.py:137-148 | the owner is charged the call's cost exactly when the script is returned, with no check against the balance |
| Views.GeneratePodcastAudio | backend/projects/views.py:156-181 | the handler is equal to PodcastAudioSpec and keeps the tables well formed |
| Views.PodcastAudioAccepted | backend/projects/views.py:156-181 | an accepted audio request leaves the PODCAST row PENDING with the task id, queues one audio job, changes no balance |
| Views.AudioRequestSkipsCleanup | backend/projects/views.py:162-172 | the queued audio job, run next, deletes nothing from the bucket |
| Views.UploadKey | backend/projects/views.py:204 | uploads are stored under "uploads/" |
| Views.UploadFile | backend/projects/views.py:198-215 | the handler is equal to UploadFileSpec |
| Views.UploadedFileIsDownloadable | backend/projects/views.py:204-215 | a stored upload lands under uploads/{user}/ and the returned URL leads the download helper back to that key |
| Views.UpdateErrors | backend/projects/serializers.py:40-42 | the update body is valid iff it has an accepted file and a URL that URLField accepts once trimmed (non-empty, no blank left); "s3_url" is named exactly when the URL is refused |
| Views.UrlFieldKeepsPlainUrl | backend/projects/serializers.py:42 | a non-empty URL without blanks passes URLField unchanged |
| Views.UrlFieldRefusesInnerBlank | backend/projects/serializers.py:42 | a URL holding a blank between non-blank ends is refused |
| Views.UpdateFile | backend/projects/views.py:223-256 | the handler is equal to UpdateFileSpec, which reads the trimmed URL URLField validated and whose key is urlparse's path with its leading '/' stripped |
| Views.UploadUrlParts | backend/projects/views.py:232-239 | urlparse splits an upload URL into the expected host and "/" + key, with the last segment cut at its first ';'; a key without ';' is kept whole |
| Views.UpdateFileRoundTrip | backend/projects/views.py:223-239 | update_file on a URL from upload_file gets it through URLField unchanged, passes the host check and targets exactly the uploaded key, when the name holds none of '?', '#', ';' or a blank |
| Views.UpdateRefusesBlankName | backend/projects/views.py:225-226 | a file whose name holds a blank before its last character cannot be updated: URLField refuses its upload URL, "s3_url" is named and the state is unchanged |
| Views.UpdateFileCutsParams | backend/projects/views.py:232-239 | for a file name holding ';' and no '/', update_file on the URL upload_file returned writes the key of the name cut at its first ';', not the uploaded key; without blanks in the name the URL passes URLField unchanged |
| Views.UpdateFileStores | backend/projects/views.py:239-256 | for a URL URLField passes unchanged, update_file is an upload of the key urlparse gives, or a 400 when the host check fails |
| Views.Destroy | backend/projects/views.py:43-71 | the handler is equal to DestroySpec and keeps the tables well formed |
| Views.DestroyKeepsValid | backend/projects/views.py:67-69 | deleting a project removes it and its rows and leaves no row pointing at a missing project |
| Views.DestroyKeepsUploadedObject | backend/projects/views.py:50-60 | destroy deletes the stored URL as a key, so the uploaded object stays in the bucket |
| Slides.PadBullets | backend/server.py:621-622 | the bullets are kept in order and "Additional point to be added" is appended up to four |
| Slides.Bullets | backend/server.py:614-622 | a normalised slide has four or five bullets |
| Slides.BulletsKeepReply | backend/server.py:614-622 | the reply's first five bullets come first and in order; the rest is filler |
| Slides.ProcessSlides | backend/server.py:588-649 | one normalised slide per reply entry, in order, cut to slide_count; numbered from 1 with four or five bullets; never more than the reply |
| Slides.CreateFallbackSlides | backend/server.py:658-737 | exactly count slides (none below one), numbered from 1, five bullets each; introduction first, summary last from two on, "Key Topic i" between |
| Slides.FallbackDeckSlides | backend/server.py:680-733 | slide k of the fallback deck is the slide for index k |
| Slides.BuildFallbackSlide | backend/server.py:682-733 | one pass of the fallback loop builds the slide for its index |
| Slides.GenerateSlideContent | backend/server.py:588-656 | at most slide_count slides, numbered from 1 with four or five bullets; the fallback deck when the reply is unusable |
| Slides.Edited | backend/server.py:1861-1868 | an edit replaces title, bullets and notes, and each formatting only when supplied; id, number and image stay |
| Slides.FirstWithId | backend/server.py:1859-1869 | finds the first slide carrying the id, or reports there is none |
| Slides.EditSlide | backend/server.py:1859-1869 | the in-place loop leaves the array equal to EditDeck of the old deck |
| Slides.EditDeckChangesOneSlide | backend/server.py:1859-1869 | the deck keeps its length, ids and numbering; only the first slide with the id changes; a deck without it is untouched |
| Slides.EditDeckIdempotent | backend/server.py:1859-1869 | sending the same edit twice equals sending it once |
| Slides.ParseHexPair | backend/server.py:1369 | two hex digits parse to their value; any accepted pair is in [-15, 255] |
| Slides.HexToRgb | backend/server.py:1364-1371 | anything but six characters after the leading '#'s gives white |
| Slides.HexToRgbRoundTrip | backend/server.py:1364-1371 | parsing "#rrggbb" written from a colour gives the colour back |
| Slides.HexToRgbOfDigits | backend/server.py:1364-1371 | '#' and six hex digits always parse, to components in [0, 255] |
| Quiz.ProcessCards | backend/server.py:816-837 | one normalised card per reply entry, in order, cut to card_count |
| Quiz.FallbackSize | backend/server.py:850 | the fallback set never exceeds 10 entries, and a count from 0 to 10 is kept as is |
| Quiz.CreateFallbackCards | backend/server.py:846-869 | FallbackSize(count) cards, card k being the fallback card for index k, all easy and tagged fallback and review |
| Quiz.MarkFirstOnly | backend/server.py:1001-1005 | the repair keeps every text and marks only the first option |
| Quiz.FixedOptionsOneCorrect | backend/server.py:989-1005 | every question keeps four options with exactly one marked; four options with one mark are kept; otherwise the texts stay and only the first is marked |
| Quiz.MarkFirstInPlace | backend/server.py:1003-1005 | the in-place loop leaves the array equal to MarkFirstOnly of the old one |
| Quiz.NormalizeOptions | backend/server.py:989-1005 | the option checks give four options with exactly one marked |
| Quiz.ProcessMcqs | backend/server.py:982-1024 | one normalised question per entry, in order, cut to question_count; every one well formed |
| Quiz.BuildMcq | backend/server.py:985-1022 | one pass of the loop builds a well-formed question |
| Quiz.CreateFallbackMcqs | backend/server.py:1033-1062 | FallbackSize(count) questions, question k being the fallback for index k, all well formed with the first option marked |
| Quiz.CorrectCount | backend/server.py:1000 | the number of marked options never exceeds the number of options |
| Quiz.Difficulties | backend/server.py:2371-2372 | the difficulties read by the histogram loop, one per question, in order |
| Quiz.GenerateMcqContent | backend/server.py:982-1031 | at most question_count questions, all well formed; the fallback set when the reply is unusable |
| Quiz.HistogramCounts | backend/server.py:2370-2373 | the histogram has exactly the occurring difficulties, each with its count, and the counts sum to the number of questions |
| Quiz.DifficultyDistribution | backend/server.py:2370-2373 | the counting loop builds the histogram of the difficulties, totalling the question count |
| Podcast.FallbackDuration | backend/server.py:1182-1207 | an unknown length gives "05:00" |
| Podcast.GeneratePodcastScript | backend/server.py:1157-1180 | an unusable reply gives the fallback script; a usable one gives the composed text |
| Podcast.ComposeScriptJoinsParts | backend/server.py:1161-1172 | with parts free of surrounding blanks, the script is the parts separated by one blank line |
| Podcast.DefaultScriptText | backend/server.py:1161-1172 | a script object with none of the three parts gives the three default sentences |
| Podcast.ServerVoiceIgnoresCase | backend/server.py:1270-1271 | the lookup ignores case, and on lower-case names it agrees with the Django worker's table and default |
| Podcast.DurationPartsSplitSeconds | backend/server.py:1288-1294 | the label's seconds are below 60, and minutes·60 + seconds is the whole seconds of the audio |
| Export.KeepSafe | backend/server.py:1647 | the filter keeps only letters, digits, '-' and '_' |
| Export.DeckFileNameIsSafe | backend/server.py:1646-1648 | the name ends in ".pptx", has no blank, and holds only letters, digits, '-' and '_' before that |
| Export.DeckFileNameOfPlainTitle | backend/server.py:1646-1648 | for a plain title and timestamp only the dot is dropped, so the name ends in "pptx.pptx" |
| Export.FieldRoundTrip | backend/server.py:2250-2263 | every CSV field the exports write reads back as the text it was given |
| Export.FlashcardsCsv | backend/server.py:2244-2263 | the header row, then one row per card in order |
| Export.FirstMarked | backend/server.py:2581-2584 | finds the first marked option, or reports that none is marked |
| Export.FindCorrectLetter | backend/server.py:2581-2584 | the loop gives the letter of the first marked option, or "" |
| Export.FillOptionCells | backend/server.py:2587-2589 | the loop builds OptionCells: four cells, the first four option texts, "" for a missing one |
| Export.McqCsvCells | backend/server.py:2591-2602 | the row is the question's CSV cells |
| Export.McqRowNamesTheAnswer | backend/server.py:2581-2602 | for four options with one marked, the answer cell is A-D and names the marked option, whose text is in the matching cell |
| Export.AnkiExport | backend/server.py:2276-2290 | one tab-separated line per card in order |
| Export.AnkiLineColumns | backend/server.py:2284-2290 | without tabs in the fields, splitting a line on tabs gives back question, answer and tags |
| Export.StarsMatchMarks | backend/server.py:2673-2677 | exactly the marked options get a " * " line, so a well-formed question shows one star |
| Export.QuestionText | backend/server.py:2670-2681 | the loop body builds question n's block |
| Export.QuestionTexts | backend/server.py:2670-2681 | the question loop builds one block per question, numbered from 1 |
| Export.McqTextExport | backend/server.py:2659-2681 | the header, then one block per question, numbered from 1 |
| Routes.Surface | backend/server.py:1767-1768 | the except wrapper passes success through and turns every raised error into 500 |
| Routes.GenerateSlidesReply | backend/server.py:1714-1720 | passes iff 3 ≤ count ≤ 20 and the document exists; otherwise 500 |
| Routes.GenerateFlashcardsReply | backend/server.py:2053-2059 | passes iff 5 ≤ count ≤ 50 and the document exists; otherwise 500 |
| Routes.GenerateMcqsReply | backend/server.py:2340-2346 | passes iff 5 ≤ count ≤ 30 and the document exists; otherwise 500 |
| Routes.EditMcqReply | backend/server.py:2471-2489 | passes iff exactly one option is marked and a question was modified; otherwise 500 |
| Routes.EditSlideReply | backend/server.py:1855-1856 | passes iff a deck holds the slide; otherwise 500 |
| Routes.UploadReply | backend/server.py:1676-1678 | passes iff the content type is PDF, DOCX or plain text; otherwise 500 |
| Routes.FlashcardExportReply | backend/server.py:2219-2242 | passes iff the set exists and the lower-cased format is csv, anki or json; a format is chosen exactly then |
| Routes.McqExportReply | backend/server.py:2545-2561 | passes iff the set exists and the lower-cased format is csv, pdf or json; a format is chosen exactly then |

## Left out

- Text.Lower: `str.lower`, `str.isspace` and `str.isalnum` are modelled on ASCII only. Python consults the Unicode database.
- `token_balance` is a `DecimalField` with 4 decimal places; balances and costs are reals here, with no rounding.
- The `chat` app, the list, create and retrieve views, and the read-only GeneratedContentViewSet are not modelled. They read rows and change nothing the modelled code relies on.
- DRF coercion details are simplified: integers given as strings, floats, and `allow_blank` are not modelled.
- The PDF and DOCX parsers, the chat, image and TTS models, boto3 and pydub are not modelled. What they return, or whether they raise, is a parameter.
- Prompt wording is not modelled. Only the options the prompts read are.
- JSON decoding is not modelled, including the service's cutting of the reply between the first '{' and the last '}'. A usable reply is an `Option` parameter.
- Reply entries that are not lists or dictionaries are not modelled.
- A reply key present with JSON null is treated like an absent key: each optional field of DraftSlide, DraftCard and DraftMcq is an `Option`. Python's `.get(key, default)` gives None for a null, not the default. Entries are datatypes with optional keys.
- The fallback speaker notes and the fallback podcast paragraph are symbolic tags (`IntroNotes`, `FallbackText`), not their long literal text.
- Error messages are tags, not their literal text.
- uuids, timestamps and the Celery task id are parameters.
- MongoDB storage is not modelled: stored slides, the image insert and the modified counts of updates. Whether a document, deck or set was found is a parameter.
- Celery's queueing is a sequence of jobs. Concurrency between jobs, and between jobs and requests, is not modelled.
- Views.UrlParts: urlparse keeps only the network location and the path. The ValueError for unbalanced '[' or ']' in the network location is not modelled, and neither is the NFKC check on non-ASCII hosts.
- Views.UpdateErrors: DRF's URLField is reduced to trimming, then refusing an empty value or one that still holds a blank. The rest of URLValidator's grammar (scheme, host, port, control characters) is not modelled.
- Views.UpdateRefusesBlankName: a name whose blanks are all trailing is not covered. URLField trims them off the URL, so update_file then writes the key without them.
- The pptx rendering is not modelled: slide layouts, placeholders and the saved file. Only the rendered slide's layout, title, bullets and notes are.
- Podcast.DurationParts: the audio length is whole milliseconds; pydub's float seconds are not modelled.
- Export.Letter: `chr(65 + i)` gives "" once 65 + i reaches the surrogate range (0xD800), where Python would still give a character. Option lists that long do not arise in practice.
- Export.EncodeRow: csv's quoting of a row holding one empty field is not modelled.
- The JSON exports (`export_flashcards_json`, `export_mcqs_json`) are not modelled.
- The route work after the checks (storage, slide images, chat) is not modelled, apart from the parts above.
- Serializers.FlashcardOptions: states what validated options hold, not which bodies are accepted. The full if-and-only-if is stated only for the presentation serializer.
- Serializers.McqOptions: same as FlashcardOptions.
- Serializers.AudioScriptOption: same as FlashcardOptions.
- Serializers.AudioVoiceOptions: same as FlashcardOptions.
- Slides.GenerateSlideContent: states the shape of the deck. Its slides are those of ProcessSlides or CreateFallbackSlides, whose contracts state them in full.
- Quiz.GenerateMcqContent: states the shape of the set. Its questions are those of ProcessMcqs or CreateFallbackMcqs, whose contracts state them in full.
