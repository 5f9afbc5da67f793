/**
 * The request handlers of ProjectViewSet that admit work, move files and
 * delete projects. Each handler is a method on the `Backend` proved equal to
 * a function on `World` snapshots; the lemmas state what the handlers
 * promise in terms of those functions. The request's user is a parameter,
 * and so are the id Celery gives a queued job and what S3, the document
 * libraries and the chat model do on this request.
 */
module Views {
  import opened Wrappers
  import opened Json
  import opened Text
  import opened Models
  import opened Serializers
  import opened Utils
  import opened Tasks

  /** Why a handler answered 400 with an "error" message. */
  datatype Reason = InsufficientTokens | InvalidContentType | InvalidS3Url

  datatype Response =
    | NotFound                                 // get_object_or_404
    | BadRequest(reason: Reason)
    | Invalid(errors: seq<string>)             // is_valid(raise_exception=True): the failing fields
    | Accepted(taskId: string, contentId: nat) // a job was queued
    | ScriptReturned(script: Object)
    | FileStored(s3FileKey: string, originalFileName: string)
    | ServerError                              // an exception escaped the handler
    | NoContent

  function StatusCode(r: Response): int {
    match r
    case NotFound => 404
    case BadRequest(_) => 400
    case Invalid(_) => 400
    case Accepted(_, _) => 202
    case ScriptReturned(_) => 200
    case FileStored(_, _) => 200
    case ServerError => 500
    case NoContent => 204
  }

  /** The balance below which generation requests are refused. */
  const MinimumBalance: real := 0.09

  // ---- get_object ----

  /** `get_object_or_404(Project.objects.filter(user=user), pk=pk)`. */
  function GetObject(projects: map<nat, Project>, user: nat, pk: nat): Option<Project> {
    if pk in projects && projects[pk].owner == user then Some(projects[pk]) else None
  }

  /**
   * A user reaches a project only when it exists and is theirs; every other
   * user gets 404 for the same pk.
   */
  lemma GetObjectOwnership(w: World, user: nat, pk: nat)
    requires ValidWorld(w)
    ensures var r := GetObject(w.projects, user, pk);
      && (r.Some? <==> pk in w.projects && w.projects[pk].owner == user)
      && (r.Some? ==> r.value.id == pk && r.value.owner == user && r.value == w.projects[pk])
      && (r.Some? ==> forall other :: other != user ==> GetObject(w.projects, other, pk).None?)
  {
  }

  // ---- generate_content ----

  /** generate_content(request, pk) by `user`, with `taskId` the id Celery returns. */
  ghost function GenerateContentSpec(w: World, user: nat, pk: nat, data: Object, taskId: string): (World, Response)
    requires ValidWorld(w)
  {
    match GetObject(w.projects, user, pk)
    case None => (w, NotFound)
    case Some(project) =>
      var w1 := w.(balances := EnsureBalance(w.balances, project.owner));
      if w1.balances[project.owner] < MinimumBalance then (w1, BadRequest(InsufficientTokens))
      else
        match SerializerKind(Given(data, "content_type"))
        case None => (w1, BadRequest(InvalidContentType))
        case Some(kind) =>
          match Validate(KindFields(kind), data)
          case Err(errors) => (w1, Invalid(errors))
          case Ok(options) =>
            var (id, contents, next) := Upsert(w1.contents, w1.nextContentId, pk, kind);
            var w2 := w1.(contents := contents[id := contents[id].(taskId := Some(taskId))], nextContentId := next,
                          queue := w1.queue + [ContentTask(id, options)]);
            (w2, Accepted(taskId, id))
  }

  method GenerateContent(b: Backend, user: nat, pk: nat, data: Object, taskId: string) returns (response: Response)
    requires b.Valid()
    modifies b
    ensures b.Valid()
    ensures (b.State(), response) == GenerateContentSpec(old(b.State()), user, pk, data, taskId)
  {
    var project := GetObject(b.projects, user, pk);
    if project.None? {
      return NotFound;
    }
    var balance := b.EnsureProfile(project.value.owner);
    if balance < MinimumBalance {
      return BadRequest(InsufficientTokens);
    }
    var kind := SerializerKind(Given(data, "content_type"));
    if kind.None? {
      return BadRequest(InvalidContentType);
    }
    var validated := Validate(KindFields(kind.value), data);
    if validated.Err? {
      return Invalid(validated.error);
    }
    var id := b.UpsertPending(pk, kind.value);
    b.queue := b.queue + [ContentTask(id, validated.value)];
    b.RecordTaskId(id, taskId);
    return Accepted(taskId, id);
  }

  /**
   * The refusals of generate_content, in the order the handler checks them:
   * 404 for a project the user does not own; 400 "Insufficient tokens" when
   * the owner's balance (after get_or_create) is below 0.09, whatever the
   * content type; 400 for a content type outside the serializer map; 400 for
   * invalid options. None of them touches a row or queues a job; only the
   * profile may have been created.
   */
  lemma GenerateContentRefusals(w: World, user: nat, pk: nat, data: Object, taskId: string)
    requires ValidWorld(w)
    ensures var (w', r) := GenerateContentSpec(w, user, pk, data, taskId);
      && (r == NotFound <==> GetObject(w.projects, user, pk).None?)
      && (GetObject(w.projects, user, pk).Some? ==>
            var owner := w.projects[pk].owner;
            && (r == BadRequest(InsufficientTokens) <==> EnsureBalance(w.balances, owner)[owner] < MinimumBalance)
            && (r == BadRequest(InvalidContentType) <==>
                  EnsureBalance(w.balances, owner)[owner] >= MinimumBalance && SerializerKind(Given(data, "content_type")).None?)
            && (r.Invalid? <==>
                  && EnsureBalance(w.balances, owner)[owner] >= MinimumBalance
                  && SerializerKind(Given(data, "content_type")).Some?
                  && Validate(KindFields(SerializerKind(Given(data, "content_type")).value), data).Err?)
            && (r.Invalid? ==> r.errors == Validate(KindFields(SerializerKind(Given(data, "content_type")).value), data).error)
            && w'.balances == EnsureBalance(w.balances, owner))
      && (!r.Accepted? ==>
            w'.contents == w.contents && w'.queue == w.queue && w'.nextContentId == w.nextContentId
            && w'.projects == w.projects && w'.objects == w.objects)
  {
  }

  /**
   * An accepted generate_content leaves exactly one row for (project, kind),
   * PENDING, without a URL and carrying the job's task id; queues one
   * content job for that row with the validated options; and changes no
   * other row.
   */
  lemma GenerateContentAccepted(w: World, user: nat, pk: nat, data: Object, taskId: string)
    requires ValidWorld(w)
    ensures var (w', r) := GenerateContentSpec(w, user, pk, data, taskId);
      r.Accepted? ==>
        && GetObject(w.projects, user, pk).Some?
        && SerializerKind(Given(data, "content_type")).Some?
        && var kind := SerializerKind(Given(data, "content_type")).value;
        && Validate(KindFields(kind), data).Ok?
        && ValidWorld(w')
        && r.taskId == taskId
        && RowFor(w'.contents, pk, kind, r.contentId)
        && (forall c :: RowFor(w'.contents, pk, kind, c) ==> c == r.contentId)
        && w'.contents[r.contentId].status == Pending && w'.contents[r.contentId].s3Url == None
        && w'.contents[r.contentId].taskId == Some(taskId)
        && w'.queue == w.queue + [ContentTask(r.contentId, Validate(KindFields(kind), data).value)]
        && (forall c :: c in w.contents && c != r.contentId ==> c in w'.contents && w'.contents[c] == w.contents[c])
  {
    var (w', r) := GenerateContentSpec(w, user, pk, data, taskId);
    if r.Accepted? {
      var project := GetObject(w.projects, user, pk).value;
      var kind := SerializerKind(Given(data, "content_type")).value;
      var w1 := w.(balances := EnsureBalance(w.balances, project.owner));
      UpsertKeepsOneRowPerKind(w1.projects, w1.contents, w1.nextContentId, pk, kind);
      var (id, contents, next) := Upsert(w1.contents, w1.nextContentId, pk, kind);
      RewriteRowKeepsValid(w1.(contents := contents, nextContentId := next), id, contents[id].(taskId := Some(taskId)));
    }
  }

  /**
   * A generate_content request is accepted exactly when none of the
   * refusals applies: the project is the user's, the owner holds at least
   * 0.09 tokens, the content type is known and its options validate.
   */
  lemma GenerateContentAcceptance(w: World, user: nat, pk: nat, data: Object, taskId: string)
    requires ValidWorld(w)
    ensures var r := GenerateContentSpec(w, user, pk, data, taskId).1;
      r.Accepted? <==>
        && GetObject(w.projects, user, pk).Some?
        && EnsureBalance(w.balances, w.projects[pk].owner)[w.projects[pk].owner] >= MinimumBalance
        && SerializerKind(Given(data, "content_type")).Some?
        && Validate(KindFields(SerializerKind(Given(data, "content_type")).value), data).Ok?
  {
  }

  /**
   * The upsert clears the URL, so the content job queued by an accepted
   * request, run next, deletes nothing from the bucket.
   */
  lemma ContentRequestSkipsCleanup(w: World, user: nat, pk: nat, data: Object, taskId: string, env: ContentJobEnv)
    requires ValidWorld(w)
    requires GenerateContentSpec(w, user, pk, data, taskId).1.Accepted?
    ensures var (w', r) := GenerateContentSpec(w, user, pk, data, taskId);
      ValidWorld(w') && w'.objects <= ContentJob(w', r.contentId, Validate(KindFields(SerializerKind(Given(data, "content_type")).value), data).value, env).0.objects
  {
    GenerateContentAccepted(w, user, pk, data, taskId);
    var (w', r) := GenerateContentSpec(w, user, pk, data, taskId);
    var options := Validate(KindFields(SerializerKind(Given(data, "content_type")).value), data).value;
    var rec := w'.contents[r.contentId];
    var project := w'.projects[rec.project];
    assert RemovePrevious(w'.objects, rec.s3Url, env.deleteSucceeds) == w'.objects;
    var w2 := w'.(balances := EnsureBalance(w'.balances, project.owner));
    var (w3, failure) := ContentPipeline(w2, rec, project, options, env);
    ContentPipelineRows(w2, rec, project, options, env);
    assert w'.objects <= w3.objects;
    if failure.Some? {
      assert ContentJob(w', r.contentId, options, env).0 == w3.(contents := w3.contents[r.contentId := rec.(status := Failure)]);
    } else {
      assert ContentJob(w', r.contentId, options, env).0 == w3;
    }
  }

  // ---- generate_podcast_script ----

  /** What the download, the extraction and the chat call do on this request. */
  datatype ScriptEnv = ScriptEnv(pricing: Pricing, downloadSucceeds: bool, document: Document, reply: ChatReply<Object>)

  /**
   * generate_podcast_script(request, pk): synchronous; an exception from the
   * download, the extraction or the chat call escapes as a 500.
   */
  function PodcastScriptSpec(w: World, user: nat, pk: nat, data: Object, env: ScriptEnv): (World, Response) {
    match GetObject(w.projects, user, pk)
    case None => (w, NotFound)
    case Some(project) =>
      match Validate(ScriptFields, data)
      case Err(errors) => (w, Invalid(errors))
      case Ok(_) =>
        var w1 := w.(balances := EnsureBalance(w.balances, project.owner));
        if w1.balances[project.owner] < MinimumBalance then (w1, BadRequest(InsufficientTokens))
        else ScriptCall(w1, project, env)
  }

  /** The download, the extraction and the chat call, once the balance check has passed. */
  function ScriptCall(w: World, project: Project, env: ScriptEnv): (World, Response)
    requires project.owner in w.balances
  {
    var (w1, text) := FetchText(w, project.s3FileKey, env.downloadSucceeds, env.document);
    if text.Err? then (w1, ServerError)
    else
      match env.reply
      case CallFailed => (w1, ServerError)
      case Reply(script, usage) =>
        var cost := CalculateCost(env.pricing, ChatModel, usage);
        (w1.(balances := Debit(w1.balances, project.owner, cost)), ScriptReturned(script))
  }

  method GeneratePodcastScript(b: Backend, user: nat, pk: nat, data: Object, env: ScriptEnv) returns (response: Response)
    modifies b
    ensures (b.State(), response) == PodcastScriptSpec(old(b.State()), user, pk, data, env)
  {
    ghost var w0 := b.State();
    var project := GetObject(b.projects, user, pk);
    if project.None? {
      return NotFound;
    }
    var validated := Validate(ScriptFields, data);
    if validated.Err? {
      return Invalid(validated.error);
    }
    var owner := project.value.owner;
    var balance := b.EnsureProfile(owner);
    if balance < MinimumBalance {
      return BadRequest(InsufficientTokens);
    }
    assert PodcastScriptSpec(w0, user, pk, data, env) == ScriptCall(b.State(), project.value, env);
    response := RunScriptCall(b, project.value, env);
  }

  /**
   * The script call touches only the worker's disk and the owner's balance:
   * it returns the reply's script and charges its cost when the text was
   * extracted and the call answered, and answers 500 charging nothing otherwise.
   */
  lemma ScriptCallEffect(w: World, project: Project, env: ScriptEnv)
    requires project.owner in w.balances
    ensures var (w', r) := ScriptCall(w, project, env);
      && w' == w.(localFiles := w'.localFiles, balances := w'.balances) && w'.localFiles <= w.localFiles
      && (r.ScriptReturned? || r == ServerError)
      && (r.ScriptReturned? <==> FetchText(w, project.s3FileKey, env.downloadSucceeds, env.document).1.Ok? && env.reply.Reply?)
      && (r.ScriptReturned? ==>
            r.script == env.reply.payload
            && w'.balances == Debit(w.balances, project.owner, CalculateCost(env.pricing, ChatModel, env.reply.usage)))
      && (r == ServerError ==> w'.balances == w.balances)
  {
    var (w1, text) := FetchText(w, project.s3FileKey, env.downloadSucceeds, env.document);
    assert w1.balances == w.balances;
  }

  method RunScriptCall(b: Backend, project: Project, env: ScriptEnv) returns (response: Response)
    requires project.owner in b.balances
    modifies b
    ensures (b.State(), response) == ScriptCall(old(b.State()), project, env)
  {
    ghost var w0 := b.State();
    var text := RunFetchText(b, project.s3FileKey, env.downloadSucceeds, env.document);
    if text.Err? || env.reply.CallFailed? {
      return ServerError;
    }
    assert b.balances == w0.balances;
    var cost := CalculateCost(env.pricing, ChatModel, env.reply.usage);
    b.balances := Debit(b.balances, project.owner, cost);
    return ScriptReturned(env.reply.payload);
  }

  /**
   * The script request never touches a row, the bucket or the queue, and a
   * request refused for a missing project or invalid data changes nothing.
   */
  lemma PodcastScriptFrame(w: World, user: nat, pk: nat, data: Object, env: ScriptEnv)
    ensures var (w', r) := PodcastScriptSpec(w, user, pk, data, env);
      && w' == w.(balances := w'.balances, localFiles := w'.localFiles) && w'.localFiles <= w.localFiles
      && (r == NotFound <==> GetObject(w.projects, user, pk).None?)
      && (r.Invalid? || r == NotFound ==> w' == w)
  {
    var project := GetObject(w.projects, user, pk);
    if project.Some? && Validate(ScriptFields, data).Ok? {
      var w1 := w.(balances := EnsureBalance(w.balances, project.value.owner));
      if w1.balances[project.value.owner] >= MinimumBalance {
        assert PodcastScriptSpec(w, user, pk, data, env) == ScriptCall(w1, project.value, env);
        ScriptCallEffect(w1, project.value, env);
      }
    }
  }

  /**
   * The script request charges the owner the chat call's cost exactly when
   * it returns the script, with no check that the text was non-empty or that
   * the cost fits the balance; every other outcome past the validation
   * leaves balances as get_or_create left them.
   */
  lemma PodcastScriptCharges(w: World, user: nat, pk: nat, data: Object, env: ScriptEnv)
    ensures var (w', r) := PodcastScriptSpec(w, user, pk, data, env);
      && (r.ScriptReturned? ==>
            && GetObject(w.projects, user, pk).Some? && env.reply.Reply? && r.script == env.reply.payload
            && var owner := w.projects[pk].owner;
            && var ensured := EnsureBalance(w.balances, owner);
            && ensured[owner] >= MinimumBalance
            && w'.balances == Debit(ensured, owner, CalculateCost(env.pricing, ChatModel, env.reply.usage)))
      && (GetObject(w.projects, user, pk).Some? && !r.ScriptReturned? && !r.Invalid? ==>
            w'.balances == EnsureBalance(w.balances, w.projects[pk].owner))
  {
    if GetObject(w.projects, user, pk).Some? && Validate(ScriptFields, data).Ok? {
      var project := w.projects[pk];
      var ensured := EnsureBalance(w.balances, project.owner);
      var w1 := w.(balances := ensured);
      if ensured[project.owner] >= MinimumBalance {
        assert PodcastScriptSpec(w, user, pk, data, env) == ScriptCall(w1, project, env);
        ScriptCallEffect(w1, project, env);
      } else {
        assert PodcastScriptSpec(w, user, pk, data, env) == (w1, BadRequest(InsufficientTokens));
      }
    }
  }

  // ---- generate_podcast_audio ----

  /** generate_podcast_audio(request, pk): no balance check, no profile creation. */
  ghost function PodcastAudioSpec(w: World, user: nat, pk: nat, data: Object, taskId: string): (World, Response)
    requires ValidWorld(w)
  {
    match GetObject(w.projects, user, pk)
    case None => (w, NotFound)
    case Some(project) =>
      match Validate(AudioFields, data)
      case Err(errors) => (w, Invalid(errors))
      case Ok(options) =>
        var (id, contents, next) := Upsert(w.contents, w.nextContentId, pk, Podcast);
        var w1 := w.(contents := contents[id := contents[id].(taskId := Some(taskId))], nextContentId := next,
                     queue := w.queue + [AudioTask(id, options)]);
        (w1, Accepted(taskId, id))
  }

  method GeneratePodcastAudio(b: Backend, user: nat, pk: nat, data: Object, taskId: string) returns (response: Response)
    requires b.Valid()
    modifies b
    ensures b.Valid()
    ensures (b.State(), response) == PodcastAudioSpec(old(b.State()), user, pk, data, taskId)
  {
    var project := GetObject(b.projects, user, pk);
    if project.None? {
      return NotFound;
    }
    var validated := Validate(AudioFields, data);
    if validated.Err? {
      return Invalid(validated.error);
    }
    var id := b.UpsertPending(pk, Podcast);
    b.queue := b.queue + [AudioTask(id, validated.value)];
    b.RecordTaskId(id, taskId);
    return Accepted(taskId, id);
  }

  /**
   * An accepted audio request leaves the project's PODCAST row PENDING with
   * no URL and the job's task id, queues one audio job for it, and changes
   * no balance at all; a refused one changes nothing.
   */
  lemma PodcastAudioAccepted(w: World, user: nat, pk: nat, data: Object, taskId: string)
    requires ValidWorld(w)
    ensures var (w', r) := PodcastAudioSpec(w, user, pk, data, taskId);
      && ValidWorld(w') && w'.balances == w.balances && w'.objects == w.objects
      && (r.Accepted? <==> GetObject(w.projects, user, pk).Some? && Validate(AudioFields, data).Ok?)
      && (!r.Accepted? ==> w' == w)
      && (r.Accepted? ==>
            && RowFor(w'.contents, pk, Podcast, r.contentId)
            && w'.contents[r.contentId].status == Pending && w'.contents[r.contentId].s3Url == None
            && w'.contents[r.contentId].taskId == Some(taskId)
            && w'.queue == w.queue + [AudioTask(r.contentId, Validate(AudioFields, data).value)]
            && (forall c :: c in w.contents && c != r.contentId ==> c in w'.contents && w'.contents[c] == w.contents[c]))
  {
    var (w', r) := PodcastAudioSpec(w, user, pk, data, taskId);
    if r.Accepted? {
      UpsertKeepsOneRowPerKind(w.projects, w.contents, w.nextContentId, pk, Podcast);
      var (id, contents, next) := Upsert(w.contents, w.nextContentId, pk, Podcast);
      RewriteRowKeepsValid(w.(contents := contents, nextContentId := next), id, contents[id].(taskId := Some(taskId)));
    }
  }

  /**
   * The upsert clears the URL, so the audio job queued by an accepted
   * request, run next, never deletes anything from the bucket.
   */
  lemma AudioRequestSkipsCleanup(w: World, user: nat, pk: nat, data: Object, taskId: string, env: AudioJobEnv)
    requires ValidWorld(w)
    requires PodcastAudioSpec(w, user, pk, data, taskId).1.Accepted?
    ensures var (w', r) := PodcastAudioSpec(w, user, pk, data, taskId);
      ValidWorld(w') && w'.objects <= AudioJob(w', r.contentId, Validate(AudioFields, data).value, env).0.objects
  {
    PodcastAudioAccepted(w, user, pk, data, taskId);
    var (w', r) := PodcastAudioSpec(w, user, pk, data, taskId);
    var options := Validate(AudioFields, data).value;
    var rec := w'.contents[r.contentId];
    var script := if "script_text" in options then Some(options["script_text"]) else None;
    assert RemovePrevious(w'.objects, rec.s3Url, env.deleteSucceeds) == w'.objects;
    AudioPipelineRows(w', rec, script, env);
  }

  // ---- upload_file and update_file ----

  /** An uploaded file as DRF's FileField sees it. */
  datatype UploadedFile = UploadedFile(name: string, size: nat)

  /** What S3 does on this request, and the bucket's settings. */
  datatype StorageEnv = StorageEnv(bucket: string, region: string, uploadSucceeds: bool)

  /** FileField: required, with a file name, and not empty. */
  predicate FileAccepted(file: Option<UploadedFile>) {
    file.Some? && file.value.name != [] && file.value.size > 0
  }

  /** `f"uploads/{request.user.id}/{file_obj.name}"`. */
  function UploadKey(user: nat, name: string): (key: string)
    ensures StartsWith(key, "uploads/")
  {
    var key := "uploads/" + NatToString(user) + "/" + name;
    assert key[..8] == "uploads/";
    key
  }

  /** upload_file(request) by `user`. */
  function UploadFileSpec(w: World, user: nat, file: Option<UploadedFile>, env: StorageEnv): (World, Response) {
    if !FileAccepted(file) then (w, Invalid(["file"]))
    else
      var key := UploadKey(user, file.value.name);
      if !env.uploadSucceeds then (w, ServerError)
      else (w.(objects := w.objects + {key}), FileStored(UploadUrl(env.bucket, env.region, key), file.value.name))
  }

  method UploadFile(b: Backend, user: nat, file: Option<UploadedFile>, env: StorageEnv) returns (response: Response)
    modifies b
    ensures (b.State(), response) == UploadFileSpec(old(b.State()), user, file, env)
  {
    if !FileAccepted(file) {
      return Invalid(["file"]);
    }
    var key := UploadKey(user, file.value.name);
    if !env.uploadSucceeds {
      return ServerError;
    }
    b.objects := b.objects + {key};
    return FileStored(UploadUrl(env.bucket, env.region, key), file.value.name);
  }

  /**
   * A stored upload lands under "uploads/{user}/" and the URL handed back
   * leads the download helper to exactly that key, provided bucket and
   * region contain no '/'; only the bucket changes.
   */
  lemma UploadedFileIsDownloadable(w: World, user: nat, file: Option<UploadedFile>, env: StorageEnv)
    requires '/' !in env.bucket && '/' !in env.region
    ensures var (w', r) := UploadFileSpec(w, user, file, env);
      && w' == w.(objects := w'.objects)
      && (r.FileStored? <==> FileAccepted(file) && env.uploadSucceeds)
      && (r.FileStored? ==>
            var key := UploadKey(user, file.value.name);
            && r.originalFileName == file.value.name
            && w'.objects == w.objects + {key}
            && DownloadKey(r.s3FileKey) == Some(key))
      && (!r.FileStored? ==> w' == w)
  {
    if FileAccepted(file) && env.uploadSucceeds {
      DownloadKeyOfUploadUrl(env.bucket, env.region, UploadKey(user, file.value.name));
    }
  }

  /** The index of the first character of `s` in `stops`, or |s|. */
  function FirstOf(s: string, stops: set<char>): (i: nat)
    ensures i <= |s|
    ensures forall j :: 0 <= j < i ==> s[j] !in stops
    ensures i < |s| ==> s[i] in stops
  {
    if s == [] || s[0] in stops then 0 else 1 + FirstOf(s[1..], stops)
  }

  /** No character of `s` is in `stops`. */
  predicate Avoids(s: string, stops: set<char>) {
    forall j :: 0 <= j < |s| ==> s[j] !in stops
  }

  /** A prefix free of `stops` is skipped whole. */
  lemma {:induction false} FirstOfSkips(a: string, b: string, stops: set<char>)
    requires Avoids(a, stops)
    ensures FirstOf(a + b, stops) == |a| + FirstOf(b, stops)
  {
    if a != [] {
      assert (a + b)[0] == a[0] && a[0] !in stops;
      assert (a + b)[1..] == a[1..] + b;
      assert Avoids(a[1..], stops) by {
        forall j | 0 <= j < |a[1..]| ensures a[1..][j] !in stops {
          assert a[1..][j] == a[j + 1];
        }
      }
      FirstOfSkips(a[1..], b, stops);
      assert FirstOf(a + b, stops) == 1 + FirstOf((a + b)[1..], stops);
    } else {
      assert a + b == b;
    }
  }

  /** The characters urlsplit allows in a scheme. */
  predicate SchemeChar(c: char) {
    IsAlnum(c) || c == '+' || c == '-' || c == '.'
  }

  /** The characters urlsplit deletes wherever they occur: tab, CR and LF. */
  const UnsafeUrlChars: set<char> := {'\t', '\r', '\n'}

  /** The schemes whose last path segment urlparse splits at ';' into path and params. */
  const UsesParams: set<string> :=
    {"", "ftp", "hdl", "prospero", "http", "imap", "https", "shttp", "rtsp", "rtsps", "rtspu", "sip", "sips", "mms", "sftp", "tel"}

  /** `url.lstrip(_WHATWG_C0_CONTROL_OR_SPACE)`: leading characters up to and including the space go. */
  function LStripC0(s: string): (r: string)
    ensures |r| <= |s| && r == s[|s| - |r|..]
  {
    if s != [] && s[0] <= ' ' then LStripC0(s[1..]) else s
  }

  /** `s` with every character of `cs` deleted. */
  function RemoveChars(s: string, cs: set<char>): (r: string)
    ensures Avoids(r, cs)
  {
    if s == [] then [] else (if s[0] in cs then [] else [s[0]]) + RemoveChars(s[1..], cs)
  }

  lemma {:induction false} RemoveAbsentChars(s: string, cs: set<char>)
    requires Avoids(s, cs)
    ensures RemoveChars(s, cs) == s
  {
    if s != [] {
      assert Avoids(s[1..], cs) by {
        forall j | 0 <= j < |s[1..]| ensures s[1..][j] !in cs {
          assert s[1..][j] == s[j + 1];
        }
      }
      RemoveAbsentChars(s[1..], cs);
      assert [s[0]] + s[1..] == s;
    }
  }

  /** The index of the last `c` in `s`: `s.rfind(c)` where `c` occurs. */
  function LastOf(s: string, c: char): (i: nat)
    requires c in s
    ensures i < |s| && s[i] == c
    ensures forall j :: i < j < |s| ==> s[j] != c
  {
    if s[|s| - 1] == c then |s| - 1
    else
      var k :| 0 <= k < |s| && s[k] == c;
      assert s[..|s| - 1][k] == c;
      LastOf(s[..|s| - 1], c)
  }

  /**
   * The path `_splitparams` leaves: cut at the first ';' of the last
   * segment, or at the first ';' when there is no '/'.
   */
  function StripParams(path: string): (r: string)
    ensures |r| <= |path| && r == path[..|r|]
  {
    var start := if '/' in path then LastOf(path, '/') else 0;
    path[..start + FirstOf(path[start..], {';'})]
  }

  /**
   * The URL urlsplit works on: leading controls and spaces dropped, then tab,
   * CR and LF deleted. Behind URLField neither step changes a URL the source
   * accepts (its grammar refuses both); they are kept so that UrlParts is
   * urlparse itself.
   */
  function CleanUrl(raw: string): string {
    RemoveChars(LStripC0(raw), UnsafeUrlChars)
  }

  /**
   * urlsplit's scheme: a letter followed by scheme characters up to the
   * first ':', lower-cased; the rest of the URL follows the ':'. Without
   * one the scheme is "" and the whole URL is the rest.
   */
  function SplitScheme(url: string): (parts: (string, string)) {
    var colon := FirstOf(url, {':'});
    if 0 < colon < |url| && ('a' <= url[0] <= 'z' || 'A' <= url[0] <= 'Z')
       && forall j :: 0 <= j < colon ==> SchemeChar(url[j])
    then (Lower(url[..colon]), url[colon + 1..])
    else ("", url)
  }

  /** After "//", the network location runs up to the first '/', '?' or '#'; the rest is the tail. */
  function SplitNetloc(rest: string): (parts: (string, string)) {
    if StartsWith(rest, "//") then
      var after := rest[2..];
      var netlocEnd := FirstOf(after, {'/', '?', '#'});
      (after[..netlocEnd], after[netlocEnd..])
    else ("", rest)
  }

  /**
   * The path: the tail up to the first '?' or '#', and for the schemes that
   * take params cut at the first ';' of its last segment.
   */
  function PathOf(scheme: string, tail: string): string {
    var path := tail[..FirstOf(tail, {'?', '#'})];
    if scheme in UsesParams then StripParams(path) else path
  }

  /**
   * `urlparse(url)`, reduced to the two parts update_file reads: the
   * network location and the path.
   */
  function UrlParts(raw: string): (string, string) {
    var (scheme, rest) := SplitScheme(CleanUrl(raw));
    var (netloc, tail) := SplitNetloc(rest);
    (netloc, PathOf(scheme, tail))
  }

  /** `f"{bucket}.s3.{region}.amazonaws.com"`. */
  function ExpectedHost(env: StorageEnv): string {
    env.bucket + ".s3." + env.region + ".amazonaws.com"
  }

  /**
   * The value DRF's URLField hands on: the string trimmed, refused when
   * nothing is left or when a blank remains, since URLValidator's grammar
   * admits no whitespace anywhere in a URL.
   */
  function UrlFieldValue(s3Url: Option<string>): (r: Option<string>)
    ensures r.Some? ==> r.value != [] && Avoids(r.value, Blanks)
  {
    if s3Url.None? then None
    else
      var v := Strip(s3Url.value);
      if v != [] && Avoids(v, Blanks) then Some(v) else None
  }

  /** A non-empty URL free of blanks passes URLField unchanged. */
  lemma UrlFieldKeepsPlainUrl(url: string)
    requires url != [] && Avoids(url, Blanks)
    ensures UrlFieldValue(Some(url)) == Some(url)
  {
    BlanksAreSpaces(url[0]);
    BlanksAreSpaces(url[|url| - 1]);
    StripKeepsTrimmed(url);
  }

  /** A URL holding a blank between non-blank ends is refused by URLField. */
  lemma UrlFieldRefusesInnerBlank(url: string)
    requires url != [] && url[0] !in Blanks && url[|url| - 1] !in Blanks
    requires !Avoids(url, Blanks)
    ensures UrlFieldValue(Some(url)) == None
  {
    BlanksAreSpaces(url[0]);
    BlanksAreSpaces(url[|url| - 1]);
    StripKeepsTrimmed(url);
  }

  /** The fields FileUpdateSerializer rejects: the file, and a URL URLField refuses. */
  function UpdateErrors(file: Option<UploadedFile>, s3Url: Option<string>): (errors: seq<string>)
    ensures errors == [] <==> FileAccepted(file) && UrlFieldValue(s3Url).Some?
    ensures "s3_url" in errors <==> UrlFieldValue(s3Url).None?
  {
    (if FileAccepted(file) then [] else ["file"]) + (if UrlFieldValue(s3Url).Some? then [] else ["s3_url"])
  }

  /** The host check and the key of update_file: None where it answers 400. */
  function UpdateKey(url: string, env: StorageEnv): Option<string> {
    var (netloc, path) := UrlParts(url);
    if Contains(netloc, ExpectedHost(env)) then Some(LStripChar(path, '/')) else None
  }

  /** update_file(request): overwrites the object the URL names. */
  function UpdateFileSpec(w: World, file: Option<UploadedFile>, s3Url: Option<string>, env: StorageEnv): (World, Response) {
    var errors := UpdateErrors(file, s3Url);
    if errors != [] then (w, Invalid(errors))
    else
      var url := UrlFieldValue(s3Url).value;
      match UpdateKey(url, env)
      case None => (w, BadRequest(InvalidS3Url))
      case Some(key) =>
        if !env.uploadSucceeds then (w, ServerError)
        else (w.(objects := w.objects + {key}), FileStored(url, file.value.name))
  }

  method UpdateFile(b: Backend, file: Option<UploadedFile>, s3Url: Option<string>, env: StorageEnv) returns (response: Response)
    modifies b
    ensures (b.State(), response) == UpdateFileSpec(old(b.State()), file, s3Url, env)
  {
    var errors := UpdateErrors(file, s3Url);
    if errors != [] {
      return Invalid(errors);
    }
    var url := UrlFieldValue(s3Url).value;
    var key := UpdateKey(url, env);
    if key.None? {
      return BadRequest(InvalidS3Url);
    }
    if !env.uploadSucceeds {
      return ServerError;
    }
    b.objects := b.objects + {key.value};
    return FileStored(url, file.value.name);
  }

  /** The characters that must not occur in the bucket or region for the host to be parsed whole. */
  const HostStops: set<char> := {'/', '?', '#'} + Blanks

  /**
   * The characters in a file name that keep update_file from writing the
   * uploaded key: those urlparse reads differently, and the blanks URLField
   * refuses.
   */
  const NameStops: set<char> := {'?', '#', ';'} + Blanks

  /**
   * The parts urlparse finds in a URL built by upload_file: the expected
   * host, and "/" + key with any ';' params of the last segment cut off.
   */
  lemma UploadUrlParts(env: StorageEnv, key: string)
    requires Avoids(env.bucket, HostStops) && Avoids(env.region, HostStops)
    requires Avoids(key, {'?', '#', '\t', '\r', '\n'})
    ensures UrlParts(UploadUrl(env.bucket, env.region, key)).0 == ExpectedHost(env)
    ensures UrlParts(UploadUrl(env.bucket, env.region, key)).1 == StripParams("/" + key)
    ensures Avoids(key, {';'}) ==> UrlParts(UploadUrl(env.bucket, env.region, key)).1 == "/" + key
  {
    var host := ExpectedHost(env);
    UploadUrlIsHostThenKey(env, key);
    HostAvoids(env);
    HostKeyAvoidsUnsafe(host, key);
    HttpsUrlParts(host + "/" + key);
    NetlocThenPath(host, key);
    if Avoids(key, {';'}) {
      SlashKeyStripsNothing(key);
    }
  }

  lemma UploadUrlIsHostThenKey(env: StorageEnv, key: string)
    ensures UploadUrl(env.bucket, env.region, key) == "https://" + (ExpectedHost(env) + "/" + key)
  {
  }

  lemma HostKeyAvoidsUnsafe(host: string, key: string)
    requires Avoids(host, HostStops) && Avoids(key, UnsafeUrlChars)
    ensures Avoids(host + "/" + key, UnsafeUrlChars)
  {
    forall j | 0 <= j < |host + "/" + key| ensures (host + "/" + key)[j] !in UnsafeUrlChars {
      if j < |host| {
        assert (host + "/" + key)[j] == host[j];
      } else if j > |host| {
        assert (host + "/" + key)[j] == key[j - |host| - 1];
      }
    }
  }

  lemma SlashKeyStripsNothing(key: string)
    requires Avoids(key, {';'})
    ensures StripParams("/" + key) == "/" + key
  {
    assert Avoids("/" + key, {';'}) by {
      forall j | 0 < j < |"/" + key| ensures ("/" + key)[j] !in {';'} {
        assert ("/" + key)[j] == key[j - 1];
      }
    }
    StripParamsKeeps("/" + key);
  }

  /** A path without ';' keeps its params-free form. */
  lemma StripParamsKeeps(path: string)
    requires Avoids(path, {';'})
    ensures StripParams(path) == path
  {
    var start := if '/' in path then LastOf(path, '/') else 0;
    var tail := path[start..];
    assert Avoids(tail, {';'}) by {
      forall j | 0 <= j < |tail| ensures tail[j] !in {';'} {
        assert tail[j] == path[start + j];
      }
    }
    FirstOfSkips(tail, [], {';'});
    assert tail + [] == tail;
  }

  /** With no '/' in the last segment, the params cut is the first ';' of that segment. */
  lemma StripParamsLastSegment(prefix: string, segment: string)
    requires '/' !in segment
    ensures StripParams(prefix + "/" + segment) == prefix + "/" + segment[..FirstOf(segment, {';'})]
  {
    var path := prefix + "/" + segment;
    assert path[|prefix|] == '/';
    var start := LastOf(path, '/');
    forall j | |prefix| < j < |path| ensures path[j] != '/' {
      assert path[j] == segment[j - |prefix| - 1];
    }
    assert start == |prefix|;
    var k := FirstOf(segment, {';'});
    assert path[start..] == "/" + segment;
    FirstOfAfterSlash(segment);
    assert path[..start + 1 + k] == prefix + "/" + segment[..k] by {
      assert path == (prefix + "/") + segment;
      assert |prefix + "/"| == start + 1;
    }
  }

  /** A leading '/' is skipped when looking for ';'. */
  lemma FirstOfAfterSlash(segment: string)
    ensures FirstOf("/" + segment, {';'}) == 1 + FirstOf(segment, {';'})
  {
    assert ("/" + segment)[1..] == segment;
  }

  /** urlparse reads "https://" + after as scheme "https", a network location up to the first '/', '?' or '#', then the path. */
  lemma HttpsUrlParts(after: string)
    requires Avoids(after, UnsafeUrlChars)
    ensures var netlocEnd := FirstOf(after, {'/', '?', '#'});
      var tail := after[netlocEnd..];
      UrlParts("https://" + after) == (after[..netlocEnd], StripParams(tail[..FirstOf(tail, {'?', '#'})]))
  {
    HttpsUrlIsClean(after);
    HttpsScheme(after);
    assert StartsWith("//" + after, "//") && ("//" + after)[2..] == after;
  }

  /** Neither the leading strip nor the deletion of tab, CR and LF changes "https://" + after when `after` has none of them. */
  lemma HttpsUrlIsClean(after: string)
    requires Avoids(after, UnsafeUrlChars)
    ensures CleanUrl("https://" + after) == "https://" + after
  {
    var url := "https://" + after;
    assert LStripC0(url) == url;
    assert Avoids(url, UnsafeUrlChars) by {
      forall j | 0 <= j < |url| ensures url[j] !in UnsafeUrlChars {
        if j >= 8 {
          assert url[j] == after[j - 8];
        }
      }
    }
    RemoveAbsentChars(url, UnsafeUrlChars);
  }

  /** urlsplit takes "https" as the scheme of "https://" + rest and leaves "//" + rest. */
  lemma HttpsScheme(rest: string)
    ensures SplitScheme("https://" + rest) == ("https", "//" + rest)
  {
    var url := "https://" + rest;
    assert url == "https" + (":" + "//" + rest);
    assert Avoids("https", {':'});
    FirstOfSkips("https", ":" + "//" + rest, {':'});
    forall j | 0 <= j < 5 ensures SchemeChar(url[j]) {
      assert url[j] == "https"[j];
    }
    assert url[..5] == "https";
    LowerHttps();
    assert url[6..] == "//" + rest;
    assert FirstOf(url, {':'}) == 5 && url[0] == 'h';
  }

  lemma LowerHttps()
    ensures Lower("https") == "https"
  {
    assert "https"[1..] == "ttps" && "ttps"[1..] == "tps" && "tps"[1..] == "ps" && "ps"[1..] == "s" && "s"[1..] == "";
  }

  /** In host + "/" + key the network location is the host and the path, before params, is "/" + key. */
  lemma NetlocThenPath(host: string, key: string)
    requires Avoids(host, {'/', '?', '#'}) && Avoids(key, {'?', '#'})
    ensures var after := host + "/" + key;
      var netlocEnd := FirstOf(after, {'/', '?', '#'});
      var tail := after[netlocEnd..];
      && netlocEnd == |host| && after[..netlocEnd] == host
      && tail[..FirstOf(tail, {'?', '#'})] == "/" + key
  {
    var after := host + "/" + key;
    assert after == host + ("/" + key);
    FirstOfSkips(host, "/" + key, {'/', '?', '#'});
    assert FirstOf("/" + key, {'/', '?', '#'}) == 0;
    var tail := after[|host|..];
    assert tail == "/" + key;
    assert Avoids(tail, {'?', '#'}) by {
      forall j | 0 <= j < |tail| ensures tail[j] !in {'?', '#'} {
        if j > 0 {
          assert tail[j] == key[j - 1];
        }
      }
    }
    FirstOfSkips(tail, [], {'?', '#'});
    assert tail + [] == tail;
  }

  lemma HostAvoids(env: StorageEnv)
    requires Avoids(env.bucket, HostStops) && Avoids(env.region, HostStops)
    ensures Avoids(ExpectedHost(env), HostStops)
  {
    var host := ExpectedHost(env);
    forall j | 0 <= j < |host| ensures host[j] !in HostStops {
      if j < |env.bucket| {
        assert host[j] == env.bucket[j];
      } else if j < |env.bucket| + 4 {
        assert host[j] == (env.bucket + ".s3.")[j];
      } else if j < |env.bucket| + 4 + |env.region| {
        assert host[j] == env.region[j - |env.bucket| - 4];
      } else {
        assert host[j] == ".amazonaws.com"[j - |env.bucket| - 4 - |env.region|];
      }
    }
  }

  /** An upload key starts with 'u' and holds a character of `stops` only where the file name does. */
  lemma UploadKeyAvoids(user: nat, name: string, stops: set<char>)
    requires stops <= NameStops && Avoids(name, stops)
    ensures Avoids(UploadKey(user, name), stops) && UploadKey(user, name)[0] == 'u'
  {
    var key := UploadKey(user, name);
    var digits := NatToString(user);
    assert key == "uploads/" + digits + "/" + name;
    forall j | 0 <= j < |key| ensures key[j] !in stops {
      if j < 8 {
        assert key[j] == "uploads/"[j];
      } else if j < 8 + |digits| {
        assert key[j] == digits[j - 8];
      } else if j == 8 + |digits| {
        assert key[j] == '/';
      } else {
        assert key[j] == name[j - 9 - |digits|];
      }
    }
  }

  /** lstrip('/') of "/" + a key that does not start with '/' gives the key. */
  lemma LStripSlashOfKey(key: string)
    requires key != [] && key[0] != '/'
    ensures LStripChar("/" + key, '/') == key
  {
    assert ("/" + key)[1..] == key;
  }

  /** An upload URL holds a blank only where its key does. */
  lemma UploadUrlAvoidsBlanks(env: StorageEnv, key: string)
    requires Avoids(env.bucket, HostStops) && Avoids(env.region, HostStops)
    requires Avoids(key, Blanks)
    ensures Avoids(UploadUrl(env.bucket, env.region, key), Blanks)
  {
    var host := ExpectedHost(env);
    var url := "https://" + (host + "/" + key);
    UploadUrlIsHostThenKey(env, key);
    HostAvoids(env);
    forall j | 0 <= j < |url| ensures url[j] !in Blanks {
      if j < 8 {
        assert url[j] == "https://"[j];
      } else if j < 8 + |host| {
        assert url[j] == host[j - 8];
      } else if j > 8 + |host| {
        assert url[j] == key[j - 9 - |host|];
      }
    }
  }

  /** The URL of an uploaded file whose name holds no blank passes URLField unchanged. */
  lemma UploadUrlPassesField(user: nat, name: string, env: StorageEnv)
    requires Avoids(env.bucket, HostStops) && Avoids(env.region, HostStops)
    requires Avoids(name, Blanks)
    ensures var url := UploadUrl(env.bucket, env.region, UploadKey(user, name));
      UrlFieldValue(Some(url)) == Some(url)
  {
    UploadKeyAvoids(user, name, Blanks);
    UploadUrlAvoidsBlanks(env, UploadKey(user, name));
    UrlFieldKeepsPlainUrl(UploadUrl(env.bucket, env.region, UploadKey(user, name)));
  }

  /**
   * update_file on a URL that upload_file returned gets it through URLField
   * unchanged, passes the host check and overwrites exactly the uploaded
   * key, when bucket and region hold no '/', '?', '#' or blank, and the file
   * name none of '?', '#', ';' or a blank.
   */
  lemma UpdateFileRoundTrip(user: nat, name: string, env: StorageEnv)
    requires Avoids(env.bucket, HostStops) && Avoids(env.region, HostStops)
    requires Avoids(name, NameStops)
    ensures var url := UploadUrl(env.bucket, env.region, UploadKey(user, name));
      UrlFieldValue(Some(url)) == Some(url)
    ensures UpdateKey(UploadUrl(env.bucket, env.region, UploadKey(user, name)), env) == Some(UploadKey(user, name))
  {
    var key := UploadKey(user, name);
    UploadKeyAvoids(user, name, NameStops);
    AvoidsFewer(key, {'?', '#', '\t', '\r', '\n'}, NameStops);
    AvoidsFewer(key, {';'}, NameStops);
    UploadUrlPassesField(user, name, env);
    UploadUrlParts(env, key);
    var host := ExpectedHost(env);
    assert UrlParts(UploadUrl(env.bucket, env.region, key)) == (host, "/" + key);
    assert OccursAt(host, host, 0) by { assert host[0..|host|] == host; }
    LStripSlashOfKey(key);
  }

  /** Avoiding a set of characters means avoiding any part of it. */
  lemma AvoidsFewer(s: string, fewer: set<char>, stops: set<char>)
    requires fewer <= stops && Avoids(s, stops)
    ensures Avoids(s, fewer)
  {
  }

  /** "/" + an upload key, split before the file name. */
  lemma SlashUploadKey(user: nat, name: string)
    ensures "/" + UploadKey(user, name) == ("/" + "uploads/" + NatToString(user)) + "/" + name
  {
    var digits := NatToString(user);
    assert UploadKey(user, name) == "uploads/" + digits + "/" + name;
  }

  /**
   * A file name holding ';' (and no '/') is not read back whole: update_file
   * on the URL upload_file returned overwrites the key of the name cut at
   * its first ';', not the uploaded object.
   */
  lemma UpdateFileCutsParams(user: nat, name: string, env: StorageEnv)
    requires Avoids(env.bucket, HostStops) && Avoids(env.region, HostStops)
    requires Avoids(name, {'/', '?', '#', '\t', '\r', '\n'}) && ';' in name
    ensures var cut := name[..FirstOf(name, {';'})];
      && UpdateKey(UploadUrl(env.bucket, env.region, UploadKey(user, name)), env) == Some(UploadKey(user, cut))
      && UploadKey(user, cut) != UploadKey(user, name)
    ensures var url := UploadUrl(env.bucket, env.region, UploadKey(user, name));
      Avoids(name, Blanks) ==> UrlFieldValue(Some(url)) == Some(url)
  {
    if Avoids(name, Blanks) {
      UploadUrlPassesField(user, name, env);
    }
    var key := UploadKey(user, name);
    var digits := NatToString(user);
    var cut := name[..FirstOf(name, {';'})];
    UploadKeyAvoids(user, name, {'?', '#', '\t', '\r', '\n'});
    UploadUrlParts(env, key);
    SlashUploadKey(user, name);
    StripParamsLastSegment("/" + "uploads/" + digits, name);
    SlashUploadKey(user, cut);
    assert StripParams("/" + key) == "/" + UploadKey(user, cut);
    var host := ExpectedHost(env);
    assert OccursAt(host, host, 0) by { assert host[0..|host|] == host; }
    UploadKeyAvoids(user, cut, {});
    LStripSlashOfKey(UploadKey(user, cut));
    assert |UploadKey(user, cut)| < |key|;
  }

  /**
   * A file whose name holds a blank before its last character can be
   * uploaded but not updated: URLField refuses the URL upload_file returned,
   * and update_file answers 400 without touching the bucket.
   */
  lemma UpdateRefusesBlankName(w: World, user: nat, name: string, file: Option<UploadedFile>, env: StorageEnv)
    requires !Avoids(name, Blanks) && name[|name| - 1] !in Blanks
    ensures var url := UploadUrl(env.bucket, env.region, UploadKey(user, name));
      && UrlFieldValue(Some(url)) == None
      && "s3_url" in UpdateErrors(file, Some(url))
      && UpdateFileSpec(w, file, Some(url), env) == (w, Invalid(UpdateErrors(file, Some(url))))
  {
    var url := UploadUrl(env.bucket, env.region, UploadKey(user, name));
    var prefix := UploadUrl(env.bucket, env.region, "uploads/" + NatToString(user) + "/");
    assert url == prefix + name;
    var i :| 0 <= i < |name| && name[i] in Blanks;
    assert url[|prefix| + i] == name[i];
    assert url[0] == 'h';
    assert url[|url| - 1] == name[|name| - 1];
    UrlFieldRefusesInnerBlank(url);
  }

  /** With the key in hand, the rest of update_file is an upload of that key. */
  lemma UpdateFileStores(w: World, file: Option<UploadedFile>, url: string, env: StorageEnv)
    requires FileAccepted(file) && UrlFieldValue(Some(url)) == Some(url)
    ensures var (w', r) := UpdateFileSpec(w, file, Some(url), env);
      && (UpdateKey(url, env).None? <==> r == BadRequest(InvalidS3Url))
      && (r.FileStored? <==> UpdateKey(url, env).Some? && env.uploadSucceeds)
      && (r.FileStored? ==> r.s3FileKey == url && w'.objects == w.objects + {UpdateKey(url, env).value})
      && w' == w.(objects := w'.objects)
  {
  }

  // ---- destroy ----

  /** destroy(request, pk): the S3 delete is tried with the stored s3_file_key, then the project goes. */
  function DestroySpec(w: World, user: nat, pk: nat, deleteSucceeds: bool): (World, Response) {
    match GetObject(w.projects, user, pk)
    case None => (w, NotFound)
    case Some(project) =>
      var objects := if project.s3FileKey != [] && deleteSucceeds then w.objects - {project.s3FileKey} else w.objects;
      (w.(objects := objects, projects := w.projects - {pk}, contents := CascadeDelete(w.contents, pk)), NoContent)
  }

  method Destroy(b: Backend, user: nat, pk: nat, deleteSucceeds: bool) returns (response: Response)
    requires b.Valid()
    modifies b
    ensures b.Valid()
    ensures (b.State(), response) == DestroySpec(old(b.State()), user, pk, deleteSucceeds)
  {
    var project := GetObject(b.projects, user, pk);
    if project.None? {
      return NotFound;
    }
    if project.value.s3FileKey != [] && deleteSucceeds {
      b.objects := b.objects - {project.value.s3FileKey};
    }
    DestroyKeepsValid(b.State(), user, pk, deleteSucceeds);
    b.projects := b.projects - {pk};
    b.contents := CascadeDelete(b.contents, pk);
    return NoContent;
  }

  /**
   * Deleting a project removes it and every row under it, and leaves the
   * tables well formed: no row is left pointing at a missing project.
   */
  lemma DestroyKeepsValid(w: World, user: nat, pk: nat, deleteSucceeds: bool)
    requires ValidWorld(w)
    ensures var (w', r) := DestroySpec(w, user, pk, deleteSucceeds);
      && ValidWorld(w')
      && (r == NoContent <==> GetObject(w.projects, user, pk).Some?)
      && (r == NoContent ==> pk !in w'.projects && forall c :: c in w'.contents ==> w'.contents[c].project != pk)
      && w'.balances == w.balances && w'.queue == w.queue
  {
    var (w', r) := DestroySpec(w, user, pk, deleteSucceeds);
    if r == NoContent {
      forall c | c in w'.contents
        ensures w'.contents[c].id == c && c < w'.nextContentId && w'.contents[c].project in w'.projects
      {
        assert w'.contents[c] == w.contents[c];
      }
    }
  }

  /**
   * destroy hands S3 the stored s3_file_key as the object key; for a
   * project whose key is the URL upload_file returned, that is not the
   * uploaded object's key, so the upload (like every generated artifact)
   * stays in the bucket.
   */
  lemma DestroyKeepsUploadedObject(w: World, user: nat, pk: nat, deleteSucceeds: bool, owner: nat, name: string, env: StorageEnv)
    requires pk in w.projects && w.projects[pk].s3FileKey == UploadUrl(env.bucket, env.region, UploadKey(owner, name))
    ensures var w' := DestroySpec(w, user, pk, deleteSucceeds).0;
      forall k :: k in w.objects && k != w.projects[pk].s3FileKey ==> k in w'.objects
    ensures UploadKey(owner, name) in w.objects ==> UploadKey(owner, name) in DestroySpec(w, user, pk, deleteSucceeds).0.objects
  {
    var key := UploadKey(owner, name);
    assert UploadUrl(env.bucket, env.region, key)[0] == 'h';
    assert key[0] == 'u';
  }
}
