/**
 * The Django data model of the projects app: the two enumerations of
 * GeneratedContent, the Project and GeneratedContent rows, the per-user token
 * balance of UserProfile, and a `Backend` object holding everything the
 * views and the Celery jobs read and write: the two tables, the balances,
 * the bucket's object keys, the worker's local files and the job queue.
 */
module Models {
  import opened Wrappers
  import opened Json

  /** GeneratedContent.ContentType. */
  datatype ContentType = Presentation | Flashcards | McqSet | Podcast

  /** The stored code of each content kind. */
  function Code(k: ContentType): string {
    match k
    case Presentation => "PPT"
    case Flashcards => "FLASH"
    case McqSet => "MCQ"
    case Podcast => "POD"
  }

  /** The content kind whose stored code is `code`, if any. */
  function ContentTypeOf(code: string): (r: Option<ContentType>)
    ensures r.Some? ==> Code(r.value) == code
    ensures r.None? ==> forall k: ContentType :: Code(k) != code
  {
    if code == "PPT" then Some(Presentation)
    else if code == "FLASH" then Some(Flashcards)
    else if code == "MCQ" then Some(McqSet)
    else if code == "POD" then Some(Podcast)
    else None
  }

  /** The codes are pairwise distinct, so a code names one kind. */
  lemma CodeInjective(k1: ContentType, k2: ContentType)
    ensures Code(k1) == Code(k2) <==> k1 == k2
  {
    CodeRoundTrip(k1);
    CodeRoundTrip(k2);
  }

  lemma CodeRoundTrip(k: ContentType)
    ensures ContentTypeOf(Code(k)) == Some(k)
  {
  }

  /** GeneratedContent.TaskStatus. */
  datatype TaskStatus = Pending | Success | Failure

  /** The column default of `task_status`. */
  const DefaultStatus: TaskStatus := Pending

  /** UserProfile.token_balance default. */
  const DefaultBalance: real := 5.0

  datatype Project = Project(
    id: nat,
    owner: nat,
    title: string,
    originalFileName: Option<string>,
    s3FileKey: string)

  datatype Content = Content(
    id: nat,
    project: nat,
    kind: ContentType,
    s3Url: Option<string>,
    taskId: Option<string>,
    status: TaskStatus)

  /** A Celery job waiting in the queue, with the options it was sent. */
  datatype Job =
    | ContentTask(contentId: nat, options: Object)
    | AudioTask(contentId: nat, options: Object)

  /** `unique_together = ('project', 'content_type')`. */
  ghost predicate OneRowPerKind(contents: map<nat, Content>) {
    forall a, b :: a in contents && b in contents
      && contents[a].project == contents[b].project && contents[a].kind == contents[b].kind
      ==> a == b
  }

  /** Every row sits under its own id and under an existing project (the foreign key). */
  ghost predicate WellFormed(projects: map<nat, Project>, contents: map<nat, Content>, nextContentId: nat) {
    (forall p :: p in projects ==> projects[p].id == p)
    && (forall c :: c in contents ==> contents[c].id == c && c < nextContentId && contents[c].project in projects)
    && OneRowPerKind(contents)
  }

  /** The row for (`project`, `kind`), if there is one. */
  predicate RowFor(contents: map<nat, Content>, project: nat, kind: ContentType, id: nat) {
    id in contents && contents[id].project == project && contents[id].kind == kind
  }

  /** Deleting a project and, by `on_delete=CASCADE`, every row under it. */
  function CascadeDelete(contents: map<nat, Content>, project: nat): (r: map<nat, Content>)
    ensures forall c :: c in r <==> c in contents && contents[c].project != project
    ensures forall c :: c in r ==> r[c] == contents[c]
  {
    map c | c in contents && contents[c].project != project :: contents[c]
  }

  /** `get_or_create` on UserProfile: a user without a profile gets one at the default balance. */
  function EnsureBalance(balances: map<nat, real>, user: nat): (r: map<nat, real>)
    ensures user in r && r.Keys == balances.Keys + {user}
    ensures forall u :: u in balances ==> r[u] == balances[u]
    ensures user !in balances ==> r[user] == DefaultBalance
  {
    if user in balances then balances else balances[user := DefaultBalance]
  }

  /**
   * `update_or_create` keyed by (project, kind) with defaults PENDING and no
   * URL: the new table, the row's id and the next free id.
   */
  ghost function Upsert(contents: map<nat, Content>, nextId: nat, project: nat, kind: ContentType): (nat, map<nat, Content>, nat) {
    if exists c :: RowFor(contents, project, kind, c) then
      var c :| RowFor(contents, project, kind, c);
      (c, contents[c := contents[c].(status := Pending, s3Url := None)], nextId)
    else
      (nextId, contents[nextId := Content(nextId, project, kind, None, None, Pending)], nextId + 1)
  }

  /**
   * The upsert keeps the table well formed (in particular one row per
   * (project, kind)); its row is PENDING with no URL; an existing row keeps
   * its id and task id; every other row is unchanged.
   */
  lemma UpsertKeepsOneRowPerKind(projects: map<nat, Project>, contents: map<nat, Content>, nextId: nat, project: nat, kind: ContentType)
    requires WellFormed(projects, contents, nextId) && project in projects
    ensures var (id, contents', nextId') := Upsert(contents, nextId, project, kind);
      && WellFormed(projects, contents', nextId')
      && RowFor(contents', project, kind, id)
      && contents'[id].status == Pending && contents'[id].s3Url == None
      && contents'.Keys == contents.Keys + {id}
      && (forall c :: c in contents && c != id ==> contents'[c] == contents[c])
      && (id in contents ==> contents'[id].taskId == contents[id].taskId)
      && (id !in contents <==> forall c :: !RowFor(contents, project, kind, c))
  {
    var (id, contents', nextId') := Upsert(contents, nextId, project, kind);
    if exists c :: RowFor(contents, project, kind, c) {
      assert RowFor(contents, project, kind, id);
    } else {
      forall a, b | a in contents' && b in contents' && contents'[a].project == contents'[b].project && contents'[a].kind == contents'[b].kind
        ensures a == b
      {
        if a == id && b != id {
          assert RowFor(contents, project, kind, b);
        } else if b == id && a != id {
          assert RowFor(contents, project, kind, a);
        }
      }
    }
  }

  /** A snapshot of everything the backend code reads and writes. */
  datatype World = World(
    projects: map<nat, Project>,
    contents: map<nat, Content>,
    balances: map<nat, real>,
    objects: set<string>,
    localFiles: set<string>,
    queue: seq<Job>,
    nextContentId: nat)

  ghost predicate ValidWorld(w: World) {
    WellFormed(w.projects, w.contents, w.nextContentId)
  }

  /** Rewriting a row in place, keeping its id, project and kind, keeps the world well formed. */
  lemma RewriteRowKeepsValid(w: World, id: nat, row: Content)
    requires ValidWorld(w) && id in w.contents
    requires row.id == id && row.project == w.contents[id].project && row.kind == w.contents[id].kind
    ensures ValidWorld(w.(contents := w.contents[id := row]))
  {
    var c' := w.contents[id := row];
    forall a, b | a in c' && b in c' && c'[a].project == c'[b].project && c'[a].kind == c'[b].kind
      ensures a == b
    {
      assert w.contents[a].project == w.contents[b].project && w.contents[a].kind == w.contents[b].kind;
    }
  }

  /** `token_balance = F('token_balance') - cost`: the user's balance goes down by the cost, whatever its sign. */
  function Debit(balances: map<nat, real>, user: nat, cost: real): (r: map<nat, real>)
    requires user in balances
    ensures r.Keys == balances.Keys && r[user] == balances[user] - cost
    ensures forall u :: u in balances && u != user ==> r[u] == balances[u]
  {
    balances[user := balances[user] - cost]
  }

  /**
   * Everything the backend code reads and writes. Rows are keyed by their
   * primary key; the bucket is the set of object keys it holds; `localFiles`
   * is the set of paths present on the worker's disk.
   */
  class Backend {
    var projects: map<nat, Project>
    var contents: map<nat, Content>
    var balances: map<nat, real>
    var objects: set<string>
    var localFiles: set<string>
    var queue: seq<Job>
    var nextContentId: nat

    ghost predicate Valid()
      reads this
    {
      WellFormed(projects, contents, nextContentId)
    }

    function State(): World
      reads this
    {
      World(projects, contents, balances, objects, localFiles, queue, nextContentId)
    }

    constructor ()
      ensures Valid()
      ensures projects == map[] && contents == map[] && balances == map[]
      ensures objects == {} && localFiles == {} && queue == [] && nextContentId == 0
    {
      projects := map[];
      contents := map[];
      balances := map[];
      objects := {};
      localFiles := {};
      queue := [];
      nextContentId := 0;
    }

    /** `UserProfile.objects.get_or_create(user=user)`. */
    method EnsureProfile(user: nat) returns (balance: real)
      modifies this
      ensures State() == old(State()).(balances := EnsureBalance(old(balances), user))
      ensures balance == balances[user]
    {
      if user !in balances {
        balances := balances[user := DefaultBalance];
      }
      balance := balances[user];
    }

    /**
     * `GeneratedContent.objects.update_or_create(project=..., content_type=...,
     * defaults={'task_status': PENDING, 's3_url': None})`: the existing row for
     * the pair is reset to PENDING with no URL, or a fresh one is created.
     */
    method UpsertPending(project: nat, kind: ContentType) returns (id: nat)
      requires Valid() && project in projects
      modifies this
      ensures Valid()
      ensures (id, contents, nextContentId) == Upsert(old(contents), old(nextContentId), project, kind)
      ensures State() == old(State()).(contents := contents, nextContentId := nextContentId)
    {
      UpsertKeepsOneRowPerKind(projects, contents, nextContentId, project, kind);
      if c :| c in contents && contents[c].project == project && contents[c].kind == kind {
        assert RowFor(contents, project, kind, c);
        id := c;
        contents := contents[id := contents[id].(status := Pending, s3Url := None)];
      } else {
        id := nextContentId;
        contents := contents[id := Content(id, project, kind, None, None, Pending)];
        nextContentId := nextContentId + 1;
      }
    }

    /** `content_record.task_id = task.id; content_record.save()`. */
    method RecordTaskId(id: nat, taskId: string)
      requires Valid() && id in contents
      modifies this
      ensures Valid()
      ensures State() == old(State()).(contents := old(contents)[id := old(contents)[id].(taskId := Some(taskId))])
    {
      contents := contents[id := contents[id].(taskId := Some(taskId))];
    }
  }
}
