/**
 * The two Celery jobs of the projects app. Each job is a method on the
 * `Backend` that follows the source step by step, and each is proved equal
 * to a function on `World` snapshots; the lemmas state what the jobs promise
 * in terms of those functions. External steps (S3, the document libraries,
 * the chat model, the TTS engine) are fields of an environment record that
 * say what each step returns or whether it raises.
 */
module Tasks {
  import opened Wrappers
  import opened Json
  import opened Text
  import opened Models
  import opened Utils

  /** The exception a job ends with. */
  datatype Failure =
    | RecordMissing     // GeneratedContent.DoesNotExist, before the try
    | Fetch(reason: FetchFailure)   // raised by the download or the extraction
    | EmptyText
    | GenerationFailed
    | NoFile            // "Content generation failed.": no branch produced a file
    | UploadFailed
    | EmptyScript
    | SynthesisFailed

  datatype Outcome = Completed | Raised(failure: Failure)

  /** What the external steps of generate_content_task do on this run. */
  datatype ContentJobEnv = ContentJobEnv(
    bucket: string,
    pricing: Pricing,
    deleteSucceeds: bool,
    downloadSucceeds: bool,
    document: Document,
    slidesReply: ChatReply<seq<SlideInfo>>,
    documentReply: ChatReply<string>,
    uploadSucceeds: bool)

  /** What the external steps of generate_audio_task do on this run. */
  datatype AudioJobEnv = AudioJobEnv(
    bucket: string,
    deleteSucceeds: bool,
    synthesisSucceeds: bool,
    uploadSucceeds: bool)

  /**
   * The cleanup before the try: when the row has a URL, the key after its
   * first ".com/" is deleted; a URL without one, or a failing delete, is
   * swallowed and leaves the bucket as it was.
   */
  function RemovePrevious(objects: set<string>, url: Option<string>, deleteSucceeds: bool): (r: set<string>)
    ensures r <= objects
    ensures forall k :: k in objects && k !in r ==> url.Some? && StoredKey(url.value) == Some(k)
  {
    if url.Some? && url.value != "" && StoredKey(url.value).Some? && deleteSucceeds
    then objects - {StoredKey(url.value).value}
    else objects
  }

  /** `generated/{project}/{content}_{name}`. */
  function GeneratedKey(projectId: nat, contentId: nat, name: string): string {
    "generated/" + NatToString(projectId) + "/" + NatToString(contentId) + "_" + name
  }

  /** `F('token_balance') - total_cost`, applied only when the cost is positive. */
  function Settle(balances: map<nat, real>, user: nat, cost: real): (r: map<nat, real>)
    requires user in balances
    ensures r.Keys == balances.Keys && r[user] <= balances[user]
    ensures forall u :: u in balances && u != user ==> r[u] == balances[u]
    ensures cost > 0.0 ==> balances[user] - r[user] == cost
    ensures cost <= 0.0 ==> r == balances
  {
    if cost > 0.0 then balances[user := balances[user] - cost] else balances
  }

  /** The result of the kind dispatch in the try. */
  datatype GenStep = GenRaised | NoBranch | Produced(file: Generated)

  /** The generator for a row's kind; PODCAST has no branch. */
  function GenerateFor(kind: ContentType, options: Object, env: ContentJobEnv): GenStep {
    var file := match kind
      case Presentation => PresentationFile(options, env.slidesReply, env.pricing)
      case Flashcards => DocumentFile(FlashcardsPath, env.documentReply, env.pricing)
      case McqSet => DocumentFile(McqsPath, env.documentReply, env.pricing)
      case Podcast => None;
    if kind == Podcast then NoBranch
    else if file.None? then GenRaised
    else Produced(file.value)
  }

  /**
   * After generation: the file is written, the owner is charged the cost
   * when it is positive, and the file is uploaded and recorded on the row.
   */
  function Deliver(w: World, rec: Content, project: Project, step: GenStep, env: ContentJobEnv): (World, Option<Failure>)
    requires project.owner in w.balances
  {
    match step
    case GenRaised => (w, Some(GenerationFailed))
    case NoBranch => (w, Some(NoFile))
    case Produced(g) =>
      var w1 := w.(localFiles := w.localFiles + {g.path}, balances := Settle(w.balances, project.owner, g.cost));
      if !env.uploadSucceeds then (w1, Some(UploadFailed))
      else
        var gkey := GeneratedKey(project.id, rec.id, Basename(g.path));
        var done := rec.(s3Url := Some(ArtifactUrl(env.bucket, gkey)), status := Success);
        (w1.(objects := w1.objects + {gkey}, contents := w1.contents[rec.id := done], localFiles := w1.localFiles - {g.path}), None)
  }

  /**
   * The try block of generate_content_task: the state it leaves and the
   * failure it raises, if any.
   */
  function ContentPipeline(w: World, rec: Content, project: Project, options: Object, env: ContentJobEnv): (World, Option<Failure>)
    requires project.owner in w.balances
  {
    var (w1, text) := FetchText(w, project.s3FileKey, env.downloadSucceeds, env.document);
    if text.Err? then (w1, Some(Fetch(text.error)))
    else if Strip(text.value) == [] then (w1, Some(EmptyText))
    else Deliver(w1, rec, project, GenerateFor(rec.kind, options, env), env)
  }

  /** generate_content_task(id, options) from state `w`. */
  function ContentJob(w: World, id: nat, options: Object, env: ContentJobEnv): (World, Outcome)
    requires ValidWorld(w)
  {
    if id !in w.contents then (w, Raised(RecordMissing))
    else
      var rec := w.contents[id];
      var project := w.projects[rec.project];
      var w1 := w.(objects := RemovePrevious(w.objects, rec.s3Url, env.deleteSucceeds));
      var w2 := w1.(balances := EnsureBalance(w1.balances, project.owner));
      var (w3, failure) := ContentPipeline(w2, rec, project, options, env);
      if failure.Some? then (w3.(contents := w3.contents[id := rec.(status := Failure)]), Raised(failure.value))
      else (w3, Completed)
  }

  /** The try block of generate_audio_task. */
  function AudioPipeline(w: World, rec: Content, script: Option<Value>, env: AudioJobEnv): (World, Option<Failure>) {
    if script.None? || !Truthy(script.value) then (w, Some(EmptyScript))
    else if !env.synthesisSucceeds then (w, Some(SynthesisFailed))
    else
      var w1 := w.(localFiles := w.localFiles + {PodcastPath});
      var gkey := GeneratedKey(rec.project, rec.id, "podcast.mp3");
      if !env.uploadSucceeds then (w1, Some(UploadFailed))
      else
        var done := rec.(s3Url := Some(ArtifactUrl(env.bucket, gkey)), status := Success);
        (w1.(objects := w1.objects + {gkey}, contents := w1.contents[rec.id := done], localFiles := w1.localFiles - {PodcastPath}), None)
  }

  /** generate_audio_task(id, options) from state `w`. */
  function AudioJob(w: World, id: nat, options: Object, env: AudioJobEnv): (World, Outcome) {
    if id !in w.contents then (w, Raised(RecordMissing))
    else
      var rec := w.contents[id];
      var script := if "script_text" in options then Some(options["script_text"]) else None;
      var w1 := w.(objects := RemovePrevious(w.objects, rec.s3Url, env.deleteSucceeds));
      var (w2, failure) := AudioPipeline(w1, rec, script, env);
      if failure.Some? then (w2.(contents := w2.contents[id := rec.(status := Failure)]), Raised(failure.value))
      else (w2, Completed)
  }

  // ---- the jobs, step by step ----

  method RunDeliver(b: Backend, rec: Content, project: Project, step: GenStep, env: ContentJobEnv) returns (failure: Option<Failure>)
    requires project.owner in b.balances
    modifies b
    ensures (b.State(), failure) == Deliver(old(b.State()), rec, project, step, env)
  {
    if step.GenRaised? {
      return Some(GenerationFailed);
    }
    var totalCost := if step.Produced? then step.file.cost else 0.0;
    if step.Produced? {
      b.localFiles := b.localFiles + {step.file.path};
    }
    if totalCost > 0.0 {
      b.balances := b.balances[project.owner := b.balances[project.owner] - totalCost];
    }
    if step.NoBranch? {
      return Some(NoFile);
    }
    var path := step.file.path;
    var gkey := GeneratedKey(project.id, rec.id, Basename(path));
    if !env.uploadSucceeds {
      return Some(UploadFailed);
    }
    b.objects := b.objects + {gkey};
    // the URL and the status are saved, then the local file is removed
    b.contents := b.contents[rec.id := rec.(s3Url := Some(ArtifactUrl(env.bucket, gkey)), status := Success)];
    b.localFiles := b.localFiles - {path};
    return None;
  }

  method RunContentPipeline(b: Backend, rec: Content, project: Project, options: Object, env: ContentJobEnv)
    returns (failure: Option<Failure>)
    requires project.owner in b.balances
    modifies b
    ensures (b.State(), failure) == ContentPipeline(old(b.State()), rec, project, options, env)
  {
    var text := RunFetchText(b, project.s3FileKey, env.downloadSucceeds, env.document);
    if text.Err? {
      return Some(Fetch(text.error));
    }
    if Strip(text.value) == [] {
      return Some(EmptyText);
    }
    var step := GenerateFor(rec.kind, options, env);
    failure := RunDeliver(b, rec, project, step, env);
  }

  /** The cleanup before the try. */
  method RunRemovePrevious(b: Backend, url: Option<string>, deleteSucceeds: bool)
    modifies b
    ensures b.State() == old(b.State()).(objects := RemovePrevious(old(b.objects), url, deleteSucceeds))
  {
    if url.Some? && url.value != "" {
      var oldKey := StoredKey(url.value);
      if oldKey.Some? && deleteSucceeds {
        b.objects := b.objects - {oldKey.value};
      }
    }
  }

  /** generate_content_task. */
  method GenerateContentTask(b: Backend, id: nat, options: Object, env: ContentJobEnv) returns (outcome: Outcome)
    requires b.Valid()
    modifies b
    ensures b.Valid()
    ensures (b.State(), outcome) == ContentJob(old(b.State()), id, options, env)
  {
    if id !in b.contents {
      return Raised(RecordMissing);
    }
    ghost var w0 := b.State();
    var rec := b.contents[id];
    RunRemovePrevious(b, rec.s3Url, env.deleteSucceeds);
    var project := b.projects[rec.project];
    var _ := b.EnsureProfile(project.owner);
    ghost var before := b.State();
    assert before == w0.(objects := RemovePrevious(w0.objects, rec.s3Url, env.deleteSucceeds))
      .(balances := EnsureBalance(w0.balances, project.owner));
    assert ValidWorld(before) by { assert b.Valid(); }
    ContentPipelineKeepsValid(before, rec, project, options, env);
    var failure := RunContentPipeline(b, rec, project, options, env);
    ghost var after := b.State();
    assert (after, failure) == ContentPipeline(before, rec, project, options, env);
    assert ValidWorld(after) && id in after.contents && rec.id == id;
    if failure.Some? {
      RewriteRowKeepsValid(b.State(), id, rec.(status := Failure));
      b.contents := b.contents[id := rec.(status := Failure)];
      return Raised(failure.value);
    }
    return Completed;
  }

  method RunAudioPipeline(b: Backend, rec: Content, script: Option<Value>, env: AudioJobEnv) returns (failure: Option<Failure>)
    modifies b
    ensures (b.State(), failure) == AudioPipeline(old(b.State()), rec, script, env)
  {
    if script.None? || !Truthy(script.value) {
      return Some(EmptyScript);
    }
    if !env.synthesisSucceeds {
      return Some(SynthesisFailed);
    }
    b.localFiles := b.localFiles + {PodcastPath};
    var gkey := GeneratedKey(rec.project, rec.id, "podcast.mp3");
    if !env.uploadSucceeds {
      return Some(UploadFailed);
    }
    b.objects := b.objects + {gkey};
    b.contents := b.contents[rec.id := rec.(s3Url := Some(ArtifactUrl(env.bucket, gkey)), status := Success)];
    b.localFiles := b.localFiles - {PodcastPath};
    return None;
  }

  /** generate_audio_task. */
  method GenerateAudioTask(b: Backend, id: nat, options: Object, env: AudioJobEnv) returns (outcome: Outcome)
    requires b.Valid()
    modifies b
    ensures b.Valid()
    ensures (b.State(), outcome) == AudioJob(old(b.State()), id, options, env)
  {
    if id !in b.contents {
      return Raised(RecordMissing);
    }
    var rec := b.contents[id];
    var script := if "script_text" in options then Some(options["script_text"]) else None;
    RunRemovePrevious(b, rec.s3Url, env.deleteSucceeds);
    ghost var before := b.State();
    assert ValidWorld(before) by { assert b.Valid(); }
    AudioPipelineKeepsValid(before, rec, script, env);
    var failure := RunAudioPipeline(b, rec, script, env);
    if failure.Some? {
      RewriteRowKeepsValid(b.State(), id, rec.(status := Failure));
      b.contents := b.contents[id := rec.(status := Failure)];
      return Raised(failure.value);
    }
    return Completed;
  }

  // ---- what the jobs promise ----

  /**
   * `w'` is `w` with at most the row `id` rewritten, keeping its project and
   * kind: the projects, the row keys and every other row are as they were,
   * and the tables stay well formed.
   */
  ghost predicate KeepsRows(w: World, w': World, id: nat)
    requires id in w.contents
  {
    && ValidWorld(w') && w'.projects == w.projects && w'.contents.Keys == w.contents.Keys
    && w'.contents[id].project == w.contents[id].project && w'.contents[id].kind == w.contents[id].kind
    && forall c :: c in w.contents && c != id ==> w'.contents[c] == w.contents[c]
  }

  lemma KeepsRowsTrans(w: World, w1: World, w2: World, id: nat)
    requires id in w.contents && KeepsRows(w, w1, id) && KeepsRows(w1, w2, id)
    ensures KeepsRows(w, w2, id)
  {
  }

  /** Delivery only ever rewrites the job's own row, keeping its project and kind. */
  lemma DeliverKeepsValid(w: World, rec: Content, project: Project, step: GenStep, env: ContentJobEnv)
    requires ValidWorld(w) && rec.id in w.contents && w.contents[rec.id] == rec && project.owner in w.balances
    ensures KeepsRows(w, Deliver(w, rec, project, step, env).0, rec.id)
  {
    match step
    case GenRaised =>
    case NoBranch =>
    case Produced(g) =>
      var w1 := w.(localFiles := w.localFiles + {g.path}, balances := Settle(w.balances, project.owner, g.cost));
      assert ValidWorld(w1) by { assert w1.projects == w.projects && w1.contents == w.contents && w1.nextContentId == w.nextContentId; }
      if env.uploadSucceeds {
        var gkey := GeneratedKey(project.id, rec.id, Basename(g.path));
        var done := rec.(s3Url := Some(ArtifactUrl(env.bucket, gkey)), status := Success);
        RewriteRowKeepsValid(w1, rec.id, done);
        var w2 := w1.(contents := w1.contents[rec.id := done]);
        var w' := w2.(objects := w1.objects + {gkey}, localFiles := w1.localFiles - {g.path});
        assert Deliver(w, rec, project, step, env).0 == w';
        assert ValidWorld(w') by { assert w'.projects == w2.projects && w'.contents == w2.contents && w'.nextContentId == w2.nextContentId; }
      }
  }

  /** The try block only ever rewrites the job's own row, keeping its project and kind. */
  lemma ContentPipelineKeepsValid(w: World, rec: Content, project: Project, options: Object, env: ContentJobEnv)
    requires ValidWorld(w) && rec.id in w.contents && w.contents[rec.id] == rec && project.owner in w.balances
    ensures KeepsRows(w, ContentPipeline(w, rec, project, options, env).0, rec.id)
  {
    var (w1, text) := FetchText(w, project.s3FileKey, env.downloadSucceeds, env.document);
    assert ValidWorld(w1) by { assert w1.projects == w.projects && w1.contents == w.contents && w1.nextContentId == w.nextContentId; }
    if text.Ok? && Strip(text.value) != [] {
      DeliverKeepsValid(w1, rec, project, GenerateFor(rec.kind, options, env), env);
    }
  }

  lemma AudioPipelineKeepsValid(w: World, rec: Content, script: Option<Value>, env: AudioJobEnv)
    requires ValidWorld(w) && rec.id in w.contents && w.contents[rec.id] == rec
    ensures KeepsRows(w, AudioPipeline(w, rec, script, env).0, rec.id)
  {
    var (w', failure) := AudioPipeline(w, rec, script, env);
    if failure.None? {
      var gkey := GeneratedKey(rec.project, rec.id, "podcast.mp3");
      RewriteRowKeepsValid(w, rec.id, rec.(s3Url := Some(ArtifactUrl(env.bucket, gkey)), status := Success));
    }
  }

  /** The failures the try block of generate_content_task can raise. */
  predicate PipelineFailure(f: Failure) {
    f.Fetch? || f in {EmptyText, GenerationFailed, NoFile, UploadFailed}
  }

  /** Delivery changes the rows and the bucket only when it succeeds. */
  lemma DeliverRows(w: World, rec: Content, project: Project, step: GenStep, env: ContentJobEnv)
    requires project.owner in w.balances
    ensures var (w', f) := Deliver(w, rec, project, step, env);
      && (f.Some? ==> f.value in {GenerationFailed, NoFile, UploadFailed} && w'.contents == w.contents && w'.objects == w.objects)
      && (f.None? ==> (step.Produced?
          && var gkey := GeneratedKey(project.id, rec.id, Basename(step.file.path));
          && w'.objects == w.objects + {gkey}
          && w'.contents == w.contents[rec.id := rec.(s3Url := Some(ArtifactUrl(env.bucket, gkey)), status := Success)]))
      && w'.projects == w.projects && w'.queue == w.queue && w'.nextContentId == w.nextContentId
  {
    if step.Produced? && env.uploadSucceeds {
      var gkey := GeneratedKey(project.id, rec.id, Basename(step.file.path));
      assert Deliver(w, rec, project, step, env).0.objects == w.objects + {gkey};
    }
  }

  /** Delivery charges the owner as soon as a file is produced. */
  lemma DeliverCharges(w: World, rec: Content, project: Project, step: GenStep, env: ContentJobEnv)
    requires project.owner in w.balances
    ensures var (w', f) := Deliver(w, rec, project, step, env);
      && (f.None? || f == Some(UploadFailed) ==> step.Produced? && w'.balances == Settle(w.balances, project.owner, step.file.cost))
      && (f.Some? && f != Some(UploadFailed) ==> w'.balances == w.balances)
      && (f == Some(UploadFailed) ==> step.file.path in w'.localFiles)
  {
    if step.Produced? {
      var w1 := w.(localFiles := w.localFiles + {step.file.path}, balances := Settle(w.balances, project.owner, step.file.cost));
      if !env.uploadSucceeds {
        assert Deliver(w, rec, project, step, env) == (w1, Some(UploadFailed));
      }
    }
  }

  /**
   * What the try block does to the rows and the bucket: on success the row
   * holds the artifact's URL and the artifact is in the bucket; on failure
   * neither the rows nor the bucket changed.
   */
  lemma ContentPipelineRows(w: World, rec: Content, project: Project, options: Object, env: ContentJobEnv)
    requires project.owner in w.balances
    ensures var (w', f) := ContentPipeline(w, rec, project, options, env);
      var step := GenerateFor(rec.kind, options, env);
      && (f.Some? ==> PipelineFailure(f.value) && w'.contents == w.contents && w'.objects == w.objects)
      && (f.None? ==> (step.Produced?
          && var gkey := GeneratedKey(project.id, rec.id, Basename(step.file.path));
          && w'.objects == w.objects + {gkey}
          && w'.contents == w.contents[rec.id := rec.(s3Url := Some(ArtifactUrl(env.bucket, gkey)), status := Success)]))
      && w'.projects == w.projects && w'.queue == w.queue && w'.nextContentId == w.nextContentId
  {
    var (w1, text) := FetchText(w, project.s3FileKey, env.downloadSucceeds, env.document);
    if text.Ok? && Strip(text.value) != [] {
      DeliverRows(w1, rec, project, GenerateFor(rec.kind, options, env), env);
    }
  }

  /**
   * What the try block charges: the owner pays the generation cost exactly
   * when a file was produced (even if its upload then fails), and only when
   * the cost is positive; nobody else is charged.
   */
  lemma ContentPipelineCharges(w: World, rec: Content, project: Project, options: Object, env: ContentJobEnv)
    requires project.owner in w.balances
    ensures var (w', f) := ContentPipeline(w, rec, project, options, env);
      var step := GenerateFor(rec.kind, options, env);
      && (f.None? || f == Some(UploadFailed) ==> step.Produced? && w'.balances == Settle(w.balances, project.owner, step.file.cost))
      && (f.Some? && f != Some(UploadFailed) ==> w'.balances == w.balances)
      && (f == Some(UploadFailed) ==> step.file.path in w'.localFiles)
  {
    var (w1, text) := FetchText(w, project.s3FileKey, env.downloadSucceeds, env.document);
    if text.Ok? && Strip(text.value) != [] {
      DeliverCharges(w1, rec, project, GenerateFor(rec.kind, options, env), env);
    }
  }

  /**
   * generate_content_task leaves its row SUCCESS when it completes and
   * FAILURE (with its URL as loaded) when it raises after loading it; a
   * missing row raises DoesNotExist and changes nothing. Every other row,
   * the projects and the queue are untouched and the tables stay well formed.
   */
  lemma ContentJobStatus(w: World, id: nat, options: Object, env: ContentJobEnv)
    requires ValidWorld(w)
    ensures var (w', outcome) := ContentJob(w, id, options, env);
      && (outcome == Raised(RecordMissing) <==> id !in w.contents)
      && (id !in w.contents ==> w' == w)
      && (id in w.contents ==> KeepsRows(w, w', id))
      && w'.queue == w.queue
      && (id in w.contents && outcome == Completed ==> w'.contents[id].status == Success)
      && (id in w.contents && outcome.Raised? ==> w'.contents[id] == w.contents[id].(status := Failure))
  {
    if id in w.contents {
      ContentJobKeepsRows(w, id, options, env);
      var rec := w.contents[id];
      var project := w.projects[rec.project];
      var w1 := w.(objects := RemovePrevious(w.objects, rec.s3Url, env.deleteSucceeds));
      var w2 := w1.(balances := EnsureBalance(w1.balances, project.owner));
      var (w3, failure) := ContentPipeline(w2, rec, project, options, env);
      if failure.Some? {
        assert ContentJob(w, id, options, env) == (w3.(contents := w3.contents[id := rec.(status := Failure)]), Raised(failure.value));
      } else {
        ContentPipelineRows(w2, rec, project, options, env);
        assert ContentJob(w, id, options, env) == (w3, Completed);
      }
    }
  }

  /** A loaded job rewrites only its own row, keeping its project and kind, and leaves the queue alone. */
  lemma ContentJobKeepsRows(w: World, id: nat, options: Object, env: ContentJobEnv)
    requires ValidWorld(w) && id in w.contents
    ensures var w' := ContentJob(w, id, options, env).0;
      KeepsRows(w, w', id) && w'.queue == w.queue
  {
    var rec := w.contents[id];
    var project := w.projects[rec.project];
    var w1 := w.(objects := RemovePrevious(w.objects, rec.s3Url, env.deleteSucceeds));
    var w2 := w1.(balances := EnsureBalance(w1.balances, project.owner));
    assert KeepsRows(w, w2, id);
    var (w3, failure) := ContentPipeline(w2, rec, project, options, env);
    ContentPipelineKeepsValid(w2, rec, project, options, env);
    ContentPipelineRows(w2, rec, project, options, env);
    KeepsRowsTrans(w, w2, w3, id);
    if failure.Some? {
      var w4 := w3.(contents := w3.contents[id := rec.(status := Failure)]);
      assert ContentJob(w, id, options, env).0 == w4;
      RewriteRowKeepsValid(w3, id, rec.(status := Failure));
      assert KeepsRows(w3, w4, id);
      KeepsRowsTrans(w, w3, w4, id);
    } else {
      assert ContentJob(w, id, options, env).0 == w3;
    }
  }

  /**
   * A completed generate_content_task has uploaded the artifact under
   * `generated/{project}/{content}_{file name}`, and the row's URL points at
   * it, so that the next run's cleanup deletes exactly that key.
   */
  lemma ContentJobArtifact(w: World, id: nat, options: Object, env: ContentJobEnv)
    requires ValidWorld(w) && id in w.contents && '/' !in env.bucket
    requires ContentJob(w, id, options, env).1 == Completed
    ensures var w' := ContentJob(w, id, options, env).0;
      var rec := w.contents[id];
      var step := GenerateFor(rec.kind, options, env);
      && step.Produced?
      && var gkey := GeneratedKey(w.projects[rec.project].id, id, Basename(step.file.path));
      && gkey in w'.objects && id in w'.contents
      && w'.contents[id].s3Url == Some(ArtifactUrl(env.bucket, gkey))
      && StoredKey(w'.contents[id].s3Url.value) == Some(gkey)
  {
    var rec := w.contents[id];
    var project := w.projects[rec.project];
    var w1 := w.(objects := RemovePrevious(w.objects, rec.s3Url, env.deleteSucceeds));
    var w2 := w1.(balances := EnsureBalance(w1.balances, project.owner));
    var (w3, failure) := ContentPipeline(w2, rec, project, options, env);
    assert failure.None? && ContentJob(w, id, options, env).0 == w3;
    ContentPipelineRows(w2, rec, project, options, env);
    var step := GenerateFor(rec.kind, options, env);
    var gkey := GeneratedKey(project.id, id, Basename(step.file.path));
    assert w3.contents[id].s3Url == Some(ArtifactUrl(env.bucket, gkey));
    StoredKeyOfArtifactUrl(env.bucket, gkey);
  }

  /**
   * The owner's profile exists after the job (created at the default balance
   * if missing) and is charged the generation cost exactly when a file was
   * produced; other users' balances never change.
   */
  lemma ContentJobCharges(w: World, id: nat, options: Object, env: ContentJobEnv)
    requires ValidWorld(w) && id in w.contents
    ensures var (w', outcome) := ContentJob(w, id, options, env);
      var rec := w.contents[id];
      var owner := w.projects[rec.project].owner;
      var step := GenerateFor(rec.kind, options, env);
      var ensured := EnsureBalance(w.balances, owner);
      && (outcome == Completed || outcome == Raised(UploadFailed) ==>
            step.Produced? && w'.balances == Settle(ensured, owner, step.file.cost))
      && (outcome != Completed && outcome != Raised(UploadFailed) ==> w'.balances == ensured)
  {
    var rec := w.contents[id];
    var project := w.projects[rec.project];
    var w1 := w.(objects := RemovePrevious(w.objects, rec.s3Url, env.deleteSucceeds));
    var w2 := w1.(balances := EnsureBalance(w1.balances, project.owner));
    ContentPipelineCharges(w2, rec, project, options, env);
  }

  /**
   * Extracted text that is empty or only whitespace makes the job raise
   * before the kind dispatch: the row is marked FAILURE, nobody is charged
   * (though the owner's profile is created), nothing is uploaded and the
   * bucket is as the cleanup left it.
   */
  lemma ContentJobEmptyText(w: World, id: nat, options: Object, env: ContentJobEnv)
    requires ValidWorld(w) && id in w.contents
    requires var text := FetchText(w, w.projects[w.contents[id].project].s3FileKey, env.downloadSucceeds, env.document).1;
      text.Ok? && Strip(text.value) == []
    ensures var (w', outcome) := ContentJob(w, id, options, env);
      var rec := w.contents[id];
      && outcome == Raised(EmptyText)
      && w'.contents == w.contents[id := rec.(status := Failure)]
      && w'.balances == EnsureBalance(w.balances, w.projects[rec.project].owner)
      && w'.objects == RemovePrevious(w.objects, rec.s3Url, env.deleteSucceeds)
      && w'.localFiles <= w.localFiles && w'.queue == w.queue && w'.projects == w.projects
  {
    var rec := w.contents[id];
    var project := w.projects[rec.project];
    var w1 := w.(objects := RemovePrevious(w.objects, rec.s3Url, env.deleteSucceeds));
    var w2 := w1.(balances := EnsureBalance(w1.balances, project.owner));
    FetchTextIgnoresWorld(w, w2, project.s3FileKey, env.downloadSucceeds, env.document);
    ContentPipelineEmptyText(w2, rec, project, options, env);
    var w3 := FetchText(w2, project.s3FileKey, env.downloadSucceeds, env.document).0;
    assert ContentJob(w, id, options, env) == (w3.(contents := w3.contents[id := rec.(status := Failure)]), Raised(EmptyText));
  }

  /** The text the download and extraction give does not depend on the state they start from. */
  lemma FetchTextIgnoresWorld(wa: World, wb: World, s3FileKey: string, downloadSucceeds: bool, document: Document)
    ensures FetchText(wa, s3FileKey, downloadSucceeds, document).1 == FetchText(wb, s3FileKey, downloadSucceeds, document).1
  {
  }

  /** Blank extracted text ends the try block with EmptyText, before any generation. */
  lemma ContentPipelineEmptyText(w: World, rec: Content, project: Project, options: Object, env: ContentJobEnv)
    requires project.owner in w.balances
    requires var text := FetchText(w, project.s3FileKey, env.downloadSucceeds, env.document).1;
      text.Ok? && Strip(text.value) == []
    ensures ContentPipeline(w, rec, project, options, env) == (FetchText(w, project.s3FileKey, env.downloadSucceeds, env.document).0, Some(EmptyText))
  {
  }

  /** A PODCAST row has no branch in generate_content_task: it always fails and charges nothing. */
  lemma PodcastContentJobFails(w: World, id: nat, options: Object, env: ContentJobEnv)
    requires ValidWorld(w) && id in w.contents && w.contents[id].kind == Podcast
    ensures var (w', outcome) := ContentJob(w, id, options, env);
      && outcome.Raised? && w'.contents[id].status == Failure
      && w'.balances == EnsureBalance(w.balances, w.projects[w.contents[id].project].owner)
  {
    ContentJobStatus(w, id, options, env);
    ContentJobCharges(w, id, options, env);
  }

  /**
   * A failing delete of the previous artifact is swallowed: whether it
   * succeeds changes neither the outcome, nor the rows, nor the balances.
   */
  lemma ContentJobIgnoresDelete(w: World, id: nat, options: Object, env: ContentJobEnv)
    requires ValidWorld(w)
    ensures var (w1, o1) := ContentJob(w, id, options, env);
      var (w2, o2) := ContentJob(w, id, options, env.(deleteSucceeds := !env.deleteSucceeds));
      o1 == o2 && w1.contents == w2.contents && w1.balances == w2.balances
  {
    if id in w.contents {
      var rec := w.contents[id];
      var project := w.projects[rec.project];
      var env' := env.(deleteSucceeds := !env.deleteSucceeds);
      var wa := w.(objects := RemovePrevious(w.objects, rec.s3Url, env.deleteSucceeds));
      var wb := w.(objects := RemovePrevious(w.objects, rec.s3Url, env'.deleteSucceeds));
      var wa2 := wa.(balances := EnsureBalance(wa.balances, project.owner));
      var wb2 := wb.(balances := EnsureBalance(wb.balances, project.owner));
      ContentPipelineIgnoresObjects(wa2, wb2, rec, project, options, env, env');
      var (wa3, fa) := ContentPipeline(wa2, rec, project, options, env);
      var (wb3, fb) := ContentPipeline(wb2, rec, project, options, env');
      if fa.Some? {
        assert ContentJob(w, id, options, env) == (wa3.(contents := wa3.contents[id := rec.(status := Failure)]), Raised(fa.value));
        assert ContentJob(w, id, options, env') == (wb3.(contents := wb3.contents[id := rec.(status := Failure)]), Raised(fb.value));
      } else {
        assert ContentJob(w, id, options, env) == (wa3, Completed);
        assert ContentJob(w, id, options, env') == (wb3, Completed);
      }
    }
  }

  /** The try block reads neither the bucket nor the delete flag. */
  lemma ContentPipelineIgnoresObjects(wa: World, wb: World, rec: Content, project: Project, options: Object, env: ContentJobEnv, env': ContentJobEnv)
    requires project.owner in wa.balances
    requires wb == wa.(objects := wb.objects) && env' == env.(deleteSucceeds := env'.deleteSucceeds)
    ensures var (w1, o1) := ContentPipeline(wa, rec, project, options, env);
      var (w2, o2) := ContentPipeline(wb, rec, project, options, env');
      o1 == o2 && w1.contents == w2.contents && w1.balances == w2.balances
  {
    var (wa1, ta) := FetchText(wa, project.s3FileKey, env.downloadSucceeds, env.document);
    var (wb1, tb) := FetchText(wb, project.s3FileKey, env'.downloadSucceeds, env'.document);
    FetchTextIgnoresObjects(wa, wb, project.s3FileKey, env.downloadSucceeds, env.document);
    var step := GenerateFor(rec.kind, options, env);
    assert step == GenerateFor(rec.kind, options, env');
    if ta.Ok? && Strip(ta.value) != [] {
      DeliverIgnoresObjects(wa1, wb1, rec, project, step, env, env');
    }
  }

  lemma FetchTextIgnoresObjects(wa: World, wb: World, s3FileKey: string, downloadSucceeds: bool, document: Document)
    requires wb == wa.(objects := wb.objects)
    ensures FetchText(wa, s3FileKey, downloadSucceeds, document).1 == FetchText(wb, s3FileKey, downloadSucceeds, document).1
    ensures FetchText(wa, s3FileKey, downloadSucceeds, document).0.localFiles == FetchText(wb, s3FileKey, downloadSucceeds, document).0.localFiles
  {
  }

  lemma DeliverIgnoresObjects(wa: World, wb: World, rec: Content, project: Project, step: GenStep, env: ContentJobEnv, env': ContentJobEnv)
    requires project.owner in wa.balances
    requires wb == wa.(objects := wb.objects) && env' == env.(deleteSucceeds := env'.deleteSucceeds)
    ensures var (w1, o1) := Deliver(wa, rec, project, step, env);
      var (w2, o2) := Deliver(wb, rec, project, step, env');
      o1 == o2 && w1.contents == w2.contents && w1.balances == w2.balances
  {
  }

  /** What the try block of generate_audio_task does to the rows and the bucket. */
  lemma AudioPipelineRows(w: World, rec: Content, script: Option<Value>, env: AudioJobEnv)
    ensures var (w', f) := AudioPipeline(w, rec, script, env);
      && (f == Some(EmptyScript) <==> script.None? || !Truthy(script.value))
      && (f.Some? ==> f.value in {EmptyScript, SynthesisFailed, UploadFailed} && w'.contents == w.contents && w'.objects == w.objects)
      && (f.None? ==> var gkey := GeneratedKey(rec.project, rec.id, "podcast.mp3");
          && w'.objects == w.objects + {gkey}
          && w'.contents == w.contents[rec.id := rec.(s3Url := Some(ArtifactUrl(env.bucket, gkey)), status := Success)])
      && w'.projects == w.projects && w'.balances == w.balances && w'.queue == w.queue
  {
  }

  /**
   * generate_audio_task leaves its row SUCCESS or FAILURE like the content
   * job, raises "Script text cannot be empty." exactly when the options have
   * no truthy script_text, and never touches a balance.
   */
  lemma AudioJobStatus(w: World, id: nat, options: Object, env: AudioJobEnv)
    requires ValidWorld(w)
    ensures var (w', outcome) := AudioJob(w, id, options, env);
      && (outcome == Raised(RecordMissing) <==> id !in w.contents)
      && (id !in w.contents ==> w' == w)
      && (id in w.contents ==> (outcome == Raised(EmptyScript) <==> "script_text" !in options || !Truthy(options["script_text"])))
      && (id in w.contents ==> KeepsRows(w, w', id))
      && w'.queue == w.queue && w'.balances == w.balances
      && (id in w.contents && outcome == Completed ==> w'.contents[id].status == Success)
      && (id in w.contents && outcome.Raised? ==> w'.contents[id] == w.contents[id].(status := Failure))
  {
    if id in w.contents {
      var rec := w.contents[id];
      var script := if "script_text" in options then Some(options["script_text"]) else None;
      var w1 := w.(objects := RemovePrevious(w.objects, rec.s3Url, env.deleteSucceeds));
      assert KeepsRows(w, w1, id);
      var (w2, failure) := AudioPipeline(w1, rec, script, env);
      AudioPipelineKeepsValid(w1, rec, script, env);
      AudioPipelineRows(w1, rec, script, env);
      KeepsRowsTrans(w, w1, w2, id);
      if failure.Some? {
        var w3 := w2.(contents := w2.contents[id := rec.(status := Failure)]);
        assert AudioJob(w, id, options, env) == (w3, Raised(failure.value));
        RewriteRowKeepsValid(w2, id, rec.(status := Failure));
        assert KeepsRows(w2, w3, id);
        KeepsRowsTrans(w, w2, w3, id);
      } else {
        assert AudioJob(w, id, options, env) == (w2, Completed);
      }
    }
  }

  /**
   * A completed generate_audio_task has uploaded the MP3 under
   * `generated/{project}/{content}_podcast.mp3` and recorded its URL.
   */
  lemma AudioJobArtifact(w: World, id: nat, options: Object, env: AudioJobEnv)
    requires ValidWorld(w) && id in w.contents && '/' !in env.bucket
    requires AudioJob(w, id, options, env).1 == Completed
    ensures var w' := AudioJob(w, id, options, env).0;
      var gkey := GeneratedKey(w.contents[id].project, id, "podcast.mp3");
      && EndsWith(gkey, "_" + "podcast.mp3") && StartsWith(gkey, "generated/")
      && gkey in w'.objects
      && w'.contents[id].s3Url == Some(ArtifactUrl(env.bucket, gkey))
      && StoredKey(w'.contents[id].s3Url.value) == Some(gkey)
  {
    var rec := w.contents[id];
    var script := if "script_text" in options then Some(options["script_text"]) else None;
    var w1 := w.(objects := RemovePrevious(w.objects, rec.s3Url, env.deleteSucceeds));
    AudioPipelineRows(w1, rec, script, env);
    var gkey := GeneratedKey(rec.project, id, "podcast.mp3");
    StoredKeyOfArtifactUrl(env.bucket, gkey);
    GeneratedKeyShape(rec.project, id, "podcast.mp3");
  }

  /** A generated key lives under "generated/" and ends with "_" and the file's name. */
  lemma GeneratedKeyShape(projectId: nat, contentId: nat, name: string)
    ensures StartsWith(GeneratedKey(projectId, contentId, name), "generated/")
    ensures EndsWith(GeneratedKey(projectId, contentId, name), "_" + name)
  {
    var head := "generated/" + NatToString(projectId) + "/" + NatToString(contentId);
    var gkey := GeneratedKey(projectId, contentId, name);
    assert gkey == head + ("_" + name);
    assert gkey[|gkey| - |"_" + name|..] == "_" + name;
    assert gkey[..10] == "generated/";
  }
}
