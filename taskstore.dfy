/**
 * The task store: one file per task under `.crew/tasks/`, named after the
 * task's id, and a counter file from which new ids are drawn. The directory
 * is modelled in memory, as a map from file paths (lists of path segments)
 * to what the file holds; the counter file holds the number last written.
 */
module TaskStore {
  import opened Kernel
  import opened Text
  import opened Transitions

  datatype Priority = Critical | High | Medium | Low

  /** The YAML front matter of a task file. */
  datatype TaskFrontmatter = TaskFrontmatter(
    id: string,
    title: string,
    status: TaskStatus,
    assignee: string,
    priority: Priority,
    dependsOn: seq<string>,
    createdAt: string,
    updatedAt: string,
    stage: string,
    labels: seq<string>)

  /** A task as read back: front matter, Markdown body and the file it came from. */
  datatype Task = Task(frontmatter: TaskFrontmatter, body: string, filePath: seq<string>)

  /**
   * What a task file holds: a document whose front matter passes the schema,
   * text the front-matter parser cannot read, or front matter the schema
   * refuses.
   */
  datatype TaskFile = TaskFile(frontmatter: TaskFrontmatter, body: string) | Unparsable | Mistyped

  /** The fields `create` takes; an absent field gets its default. */
  datatype CreateTaskInput = CreateTaskInput(
    title: string,
    priority: Option<Priority>,
    dependsOn: Option<seq<string>>,
    stage: Option<string>,
    labels: Option<seq<string>>,
    body: Option<string>)

  /** The fields `update` may replace; an absent field is kept. */
  datatype UpdateTaskInput = UpdateTaskInput(
    title: Option<string>,
    status: Option<TaskStatus>,
    assignee: Option<string>,
    priority: Option<Priority>,
    dependsOn: Option<seq<string>>,
    stage: Option<string>,
    labels: Option<seq<string>>,
    body: Option<string>)

  /** A filter's status criterion: one status or a list of them. */
  datatype StatusCriterion = OneStatus(status: TaskStatus) | AnyStatus(statuses: seq<TaskStatus>)

  datatype TaskFilter = TaskFilter(
    status: Option<StatusCriterion>,
    assignee: Option<string>,
    stage: Option<string>,
    labels: Option<seq<string>>)

  function OrElse<T>(o: Option<T>, default: T): (r: T)
    ensures o.Some? ==> r == o.value
    ensures o.None? ==> r == default
  {
    if o.Some? then o.value else default
  }

  // ----- ids -----

  const IdPrefix: string := "TASK-"

  /** `^TASK-\d{3,}$`: the prefix and then three or more ASCII digits, and nothing else. */
  predicate ValidTaskId(id: string) {
    |id| >= 8 && id[..5] == IdPrefix && forall k :: 5 <= k < |id| ==> IsDigit(id[k])
  }

  /** `validateTaskId`. */
  function ValidateTaskId(id: string): (r: Result<Unit, CrewError>)
    ensures r.Ok? <==> ValidTaskId(id)
    ensures r.Err? ==> r.error == InvalidId
  {
    if ValidTaskId(id) then Ok(Unit) else Err(InvalidId)
  }

  /** The id `nextId` makes of counter value `n`: its decimal padded with zeros to three digits. */
  function TaskId(n: nat): string {
    IdPrefix + PadStart(NatToString(n), 3, '0')
  }

  /** The number a valid id carries. */
  function IdNumber(id: string): nat
    requires ValidTaskId(id)
  {
    DecimalValue(id[5..])
  }

  /** Every generated id passes validation and carries its counter value. */
  lemma TaskIdIsValid(n: nat)
    ensures ValidTaskId(TaskId(n))
    ensures IdNumber(TaskId(n)) == n
  {
    var d := NatToString(n);
    var p := PadStart(d, 3, '0');
    var id := TaskId(n);
    assert id[..5] == IdPrefix && id[5..] == p;
    var z := p[..|p| - |d|];
    assert p == z + d;
    assert forall k :: 5 <= k < |id| ==> id[k] == p[k - 5];
    DecimalValueLeadingZeros(z, d);
    DecimalValueOfNatToString(n);
  }

  /** Distinct counter values give distinct ids. */
  lemma TaskIdsDistinct(a: nat, b: nat)
    ensures TaskId(a) == TaskId(b) <==> a == b
  {
    TaskIdIsValid(a);
    TaskIdIsValid(b);
  }

  // ----- paths -----

  /** A path segment as a normalised path holds it. */
  predicate NormalSegment(seg: string) {
    seg != "" && seg != "." && seg != ".." && '/' !in seg
  }

  predicate NormalPath(p: seq<string>) {
    forall i :: 0 <= i < |p| ==> NormalSegment(p[i])
  }

  /**
   * `path.resolve(base, ...rel)` for an absolute, normalised base: empty and
   * `.` segments vanish and `..` removes the last segment (the root has no
   * parent).
   */
  function Resolve(base: seq<string>, rel: seq<string>): seq<string>
    decreases |rel|
  {
    if rel == [] then base
    else
      var seg := rel[0];
      var next :=
        if seg == "" || seg == "." then base
        else if seg == ".." then (if base == [] then [] else base[..|base| - 1])
        else base + [seg];
      Resolve(next, rel[1..])
  }

  /** Resolving pieces without a separator keeps a path normalised. */
  lemma {:induction false} ResolveKeepsNormal(base: seq<string>, rel: seq<string>)
    requires NormalPath(base)
    requires forall i :: 0 <= i < |rel| ==> '/' !in rel[i]
    ensures NormalPath(Resolve(base, rel))
    decreases |rel|
  {
    if rel != [] {
      var seg := rel[0];
      var next :=
        if seg == "" || seg == "." then base
        else if seg == ".." then (if base == [] then [] else base[..|base| - 1])
        else base + [seg];
      assert NormalPath(next);
      ResolveKeepsNormal(next, rel[1..]);
    }
  }

  /** True when `p` lies strictly inside `dir`. */
  predicate Inside(p: seq<string>, dir: seq<string>) {
    |p| > |dir| && p[..|dir|] == dir
  }

  /**
   * `getTaskFilePath`: the file `<id>.md` in the tasks directory, refused with
   * `INVALID_ID` when the id's separators and `..` would resolve it to a
   * place outside the directory.
   */
  function GetTaskFilePath(tasksDir: seq<string>, id: string): (r: Result<seq<string>, CrewError>)
    ensures r.Err? ==> r.error == InvalidId
  {
    var resolved := Resolve(tasksDir, Split(id + ".md", '/'));
    if Inside(resolved, tasksDir) then Ok(resolved) else Err(InvalidId)
  }

  /** A path the store hands out never leaves the tasks directory, nor holds `.` or `..`. */
  lemma TaskFilePathContained(tasksDir: seq<string>, id: string)
    requires NormalPath(tasksDir)
    ensures var r := GetTaskFilePath(tasksDir, id);
      r.Ok? ==> Inside(r.value, tasksDir) && NormalPath(r.value)
  {
    ResolveKeepsNormal(tasksDir, Split(id + ".md", '/'));
  }

  /** A valid id names the file `<id>.md` directly in the tasks directory. */
  lemma ValidIdPath(tasksDir: seq<string>, id: string)
    requires ValidTaskId(id)
    ensures GetTaskFilePath(tasksDir, id) == Ok(tasksDir + [id + ".md"])
  {
    var name := id + ".md";
    assert forall k :: 0 <= k < |id| ==> id[k] != '/' by {
      forall k | 0 <= k < |id| ensures id[k] != '/' {
        if k >= 5 {
          assert IsDigit(id[k]);
        } else {
          assert id[k] == IdPrefix[k];
        }
      }
    }
    assert forall k :: 0 <= k < |name| ==> name[k] != '/' by {
      forall k | 0 <= k < |name| ensures name[k] != '/' {
        if k < |id| {
          assert name[k] == id[k];
        }
      }
    }
    SplitNoSeparator(name, '/');
    assert Resolve(tasksDir + [name], []) == tasksDir + [name];
    assert (tasksDir + [name])[..|tasksDir|] == tasksDir;
  }

  /** An id that climbs out of the directory with `../` is refused. */
  lemma ParentTraversalRefused(tasksDir: seq<string>, name: string)
    requires |tasksDir| >= 1
    requires '/' !in name
    ensures GetTaskFilePath(tasksDir, "../" + name) == Err(InvalidId)
  {
    var file := name + ".md";
    assert "../" + name + ".md" == ".." + ['/'] + file;
    assert '/' !in file by {
      forall k | 0 <= k < |file| ensures file[k] != '/' {
        if k < |name| {
          assert file[k] == name[k];
        }
      }
    }
    SplitNoSeparator(file, '/');
    SplitConcat("..", file, '/');
    var up := tasksDir[..|tasksDir| - 1];
    assert Resolve(tasksDir, ["..", file]) == Resolve(up, [file]);
    assert [file][1..] == [];
  }

  // ----- reading -----

  /** `parseTaskFile`: the task a file holds, or why it cannot be read. */
  function ParseTaskFile(f: TaskFile, filePath: seq<string>): (r: Result<Task, CrewError>)
    ensures r.Ok? <==> f.TaskFile?
    ensures r.Ok? ==> r.value == Task(f.frontmatter, f.body, filePath)
    ensures f.Unparsable? ==> r == Err(ParseError)
    ensures f.Mistyped? ==> r == Err(ValidationError)
  {
    match f
    case TaskFile(fm, body) => Ok(Task(fm, body, filePath))
    case Unparsable => Err(ParseError)
    case Mistyped => Err(ValidationError)
  }

  /** `get(id)` against the files `files` of the directory `tasksDir`. */
  function ReadTask(tasksDir: seq<string>, files: map<seq<string>, TaskFile>, id: string): (r: Result<Task, CrewError>)
    ensures !ValidTaskId(id) ==> r == Err(InvalidId)
    ensures ValidTaskId(id) && tasksDir + [id + ".md"] !in files ==> r == Err(TaskNotFound)
    ensures r.Ok? ==> (ValidTaskId(id) && r.value.filePath == tasksDir + [id + ".md"]
      && files[r.value.filePath] == TaskFile(r.value.frontmatter, r.value.body))
  {
    if ValidateTaskId(id).Err? then Err(InvalidId)
    else
      ValidIdPath(tasksDir, id);
      match GetTaskFilePath(tasksDir, id)
      case Err(e) => Err(e)
      case Ok(p) => if p in files then ParseTaskFile(files[p], p) else Err(TaskNotFound)
  }

  // ----- creating -----

  /** The empty sections of a new task's body. */
  const BodySections: string :=
    "\n\n## Description\n\n## Acceptance Criteria\n\n## Implementation Notes\n\n"
    + "## Files Changed\n| File | Action | Description |\n|------|--------|-------------|\n\n## Review Feedback\n"

  /** The body of a new task when none is given: a heading naming the task, and the empty sections. */
  function DefaultBody(id: string, title: string): string {
    "# " + id + ": " + title + BodySections
  }

  /** The task `create` writes once it has drawn `id`. */
  function NewTask(id: string, data: CreateTaskInput, now: string, filePath: seq<string>): Task {
    Task(
      TaskFrontmatter(id, data.title, Todo, "", OrElse(data.priority, Medium), OrElse(data.dependsOn, []),
                      now, now, OrElse(data.stage, ""), OrElse(data.labels, [])),
      OrElse(data.body, DefaultBody(id, data.title)),
      filePath)
  }

  /**
   * A new task starts as `todo`, unassigned, at medium priority with no
   * dependencies, stage or labels (each unless given), created and updated now.
   */
  lemma NewTaskDefaults(id: string, data: CreateTaskInput, now: string, filePath: seq<string>)
    ensures var t := NewTask(id, data, now, filePath).frontmatter;
      t.id == id && t.title == data.title && t.status == Todo && t.assignee == ""
      && (data.priority.None? ==> t.priority == Medium) && (data.priority.Some? ==> t.priority == data.priority.value)
      && (data.dependsOn.None? ==> t.dependsOn == []) && (data.stage.None? ==> t.stage == "")
      && (data.labels.None? ==> t.labels == []) && t.createdAt == now && t.updatedAt == now
    ensures data.body.Some? ==> NewTask(id, data, now, filePath).body == data.body.value
  {
  }

  // ----- updating -----

  /**
   * The transition gate of `update`: a status change is checked only when the
   * patch names a status other than the current one.
   */
  predicate TransitionAllowed(current: TaskStatus, requested: Option<TaskStatus>) {
    requested.None? || requested.value == current || IsValidTransition(current, requested.value)
  }

  /** The patch merge: the front matter with the patch's fields laid over it, updated now. */
  function MergePatch(fm: TaskFrontmatter, patch: UpdateTaskInput, now: string): TaskFrontmatter {
    fm.(title := OrElse(patch.title, fm.title),
        status := OrElse(patch.status, fm.status),
        assignee := OrElse(patch.assignee, fm.assignee),
        priority := OrElse(patch.priority, fm.priority),
        dependsOn := OrElse(patch.dependsOn, fm.dependsOn),
        stage := OrElse(patch.stage, fm.stage),
        labels := OrElse(patch.labels, fm.labels),
        updatedAt := now)
  }

  /** `update(id, patch)`: the task it returns (and writes), or the error. */
  function UpdateTask(tasksDir: seq<string>, files: map<seq<string>, TaskFile>, id: string,
                      patch: UpdateTaskInput, now: string): Result<Task, CrewError> {
    if ValidateTaskId(id).Err? then Err(InvalidId)
    else
      match ReadTask(tasksDir, files, id)
      case Err(e) => Err(e)
      case Ok(task) =>
        if !TransitionAllowed(task.frontmatter.status, patch.status) then Err(InvalidTransition)
        else Ok(Task(MergePatch(task.frontmatter, patch, now), OrElse(patch.body, task.body), task.filePath))
  }

  /**
   * An update of a readable task fails exactly when the patch asks for a
   * status change the table does not allow, and then with `INVALID_TRANSITION`;
   * otherwise it is refused for the same reason the read was.
   */
  lemma UpdateGate(tasksDir: seq<string>, files: map<seq<string>, TaskFile>, id: string, patch: UpdateTaskInput, now: string)
    ensures var read := ReadTask(tasksDir, files, id);
      var r := UpdateTask(tasksDir, files, id, patch, now);
      (read.Err? ==> r == Err(read.error))
      && (read.Ok? ==> (r.Err? <==> (patch.status.Some? && patch.status.value != read.value.frontmatter.status
                                      && !IsValidTransition(read.value.frontmatter.status, patch.status.value))))
      && (read.Ok? && r.Err? ==> r.error == InvalidTransition)
  {
  }

  /**
   * A successful update replaces exactly the fields the patch names, stamps
   * `updated_at`, keeps the id, the creation time and the file, and keeps
   * the body unless a new one is given.
   */
  lemma UpdateMerge(tasksDir: seq<string>, files: map<seq<string>, TaskFile>, id: string, patch: UpdateTaskInput, now: string)
    requires UpdateTask(tasksDir, files, id, patch, now).Ok?
    ensures var before := ReadTask(tasksDir, files, id).value;
      var after := UpdateTask(tasksDir, files, id, patch, now).value;
      var a := after.frontmatter;
      var b := before.frontmatter;
      a.id == b.id && a.createdAt == b.createdAt && a.updatedAt == now && after.filePath == before.filePath
      && (patch.title.None? ==> a.title == b.title) && (patch.title.Some? ==> a.title == patch.title.value)
      && (patch.status.None? ==> a.status == b.status) && (patch.status.Some? ==> a.status == patch.status.value)
      && (patch.assignee.None? ==> a.assignee == b.assignee) && (patch.assignee.Some? ==> a.assignee == patch.assignee.value)
      && (patch.priority.None? ==> a.priority == b.priority) && (patch.priority.Some? ==> a.priority == patch.priority.value)
      && (patch.dependsOn.None? ==> a.dependsOn == b.dependsOn) && (patch.dependsOn.Some? ==> a.dependsOn == patch.dependsOn.value)
      && (patch.stage.None? ==> a.stage == b.stage) && (patch.stage.Some? ==> a.stage == patch.stage.value)
      && (patch.labels.None? ==> a.labels == b.labels) && (patch.labels.Some? ==> a.labels == patch.labels.value)
      && (patch.body.None? ==> after.body == before.body) && (patch.body.Some? ==> after.body == patch.body.value)
  {
  }

  /** A `todo` task cannot be moved straight to `in_progress`. */
  lemma TodoCannotStart(tasksDir: seq<string>, files: map<seq<string>, TaskFile>, id: string, patch: UpdateTaskInput, now: string)
    requires ReadTask(tasksDir, files, id).Ok? && ReadTask(tasksDir, files, id).value.frontmatter.status == Todo
    requires patch.status == Some(InProgress)
    ensures UpdateTask(tasksDir, files, id, patch, now) == Err(InvalidTransition)
  {
    TodoOnlyBecomesReady(InProgress);
  }

  // ----- filtering -----

  function CriterionStatuses(c: StatusCriterion): seq<TaskStatus> {
    match c
    case OneStatus(s) => [s]
    case AnyStatus(ss) => ss
  }

  /** `matchesFilter`: the checks in the order the source makes them, each a reason to reject. */
  function MatchesFilter(task: Task, filter: Option<TaskFilter>): bool {
    if filter.None? then true
    else
      var f := filter.value;
      var fm := task.frontmatter;
      if f.status.Some? && fm.status !in CriterionStatuses(f.status.value) then false
      else if f.assignee.Some? && fm.assignee != f.assignee.value then false
      else if f.stage.Some? && fm.stage != f.stage.value then false
      else if f.labels.Some? && |f.labels.value| > 0 && !(exists l :: l in f.labels.value && l in fm.labels) then false
      else true
  }

  /**
   * A task matches a filter exactly when it meets every criterion the filter
   * gives: its status is among the statuses, its assignee and stage are the
   * ones asked for, and it carries at least one of a non-empty list of labels.
   */
  lemma MatchesFilterIsConjunction(task: Task, f: TaskFilter)
    ensures var fm := task.frontmatter;
      MatchesFilter(task, Some(f)) <==>
        (forall c :: f.status == Some(c) ==> exists i :: 0 <= i < |CriterionStatuses(c)| && CriterionStatuses(c)[i] == fm.status)
        && (forall a :: f.assignee == Some(a) ==> fm.assignee == a)
        && (forall s :: f.stage == Some(s) ==> fm.stage == s)
        && (forall ls :: f.labels == Some(ls) && ls != [] ==> exists l :: l in ls && l in fm.labels)
  {
  }

  /** No filter, and a filter without criteria, let every task through. */
  lemma EmptyFilterMatchesAll(task: Task)
    ensures MatchesFilter(task, None)
    ensures MatchesFilter(task, Some(TaskFilter(None, None, None, None)))
    ensures MatchesFilter(task, Some(TaskFilter(None, None, None, Some([]))))
  {
  }

  /** An empty status list is still a criterion, and no task meets it. */
  lemma EmptyStatusListMatchesNothing(task: Task, f: TaskFilter)
    requires f.status == Some(AnyStatus([]))
    ensures !MatchesFilter(task, Some(f))
  {
  }

  // ----- the store -----

  /** How a task file sits in a well-kept store: under its own id, with an id the counter has issued. */
  predicate WellStored(tasksDir: seq<string>, p: seq<string>, f: TaskFile, count: nat) {
    f.TaskFile? && ValidTaskId(f.frontmatter.id) && p == tasksDir + [f.frontmatter.id + ".md"]
    && 1 <= IdNumber(f.frontmatter.id) <= count
  }

  lemma SuffixCancels(a: string, b: string, suffix: string)
    ensures a + suffix == b + suffix ==> a == b
  {
    if a + suffix == b + suffix {
      assert a == (a + suffix)[..|a|];
      assert b == (b + suffix)[..|b|];
    }
  }

  /** The file of the next id is not yet in a well-kept store. */
  lemma NewFileIsFresh(tasksDir: seq<string>, files: map<seq<string>, TaskFile>, count: nat)
    requires forall p :: p in files ==> WellStored(tasksDir, p, files[p], count)
    ensures tasksDir + [TaskId(count + 1) + ".md"] !in files
  {
    var id := TaskId(count + 1);
    TaskIdIsValid(count + 1);
    var filePath := tasksDir + [id + ".md"];
    forall p | p in files
      ensures p != filePath
    {
      var other := files[p].frontmatter.id;
      assert other != id;
      SuffixCancels(other, id, ".md");
      assert p[|tasksDir|] == other + ".md";
      assert filePath[|tasksDir|] == id + ".md";
    }
  }

  /** Writing the next id's task keeps every file well stored under the advanced counter. */
  lemma AddingNewTaskKeepsStore(tasksDir: seq<string>, files: map<seq<string>, TaskFile>, count: nat,
                                data: CreateTaskInput, now: string)
    requires forall p :: p in files ==> WellStored(tasksDir, p, files[p], count)
    ensures var id := TaskId(count + 1);
      var t := NewTask(id, data, now, tasksDir + [id + ".md"]);
      var after := files[t.filePath := TaskFile(t.frontmatter, t.body)];
      forall p :: p in after ==> WellStored(tasksDir, p, after[p], count + 1)
  {
    TaskIdIsValid(count + 1);
  }

  class TaskStore {
    /** `<crewDir>/tasks`. */
    const tasksDir: seq<string>
    /** `_counter.txt`: the last number issued, if the file exists. */
    var counter: Option<nat>
    /** The task files. */
    var files: map<seq<string>, TaskFile>

    /** The counter value `nextId` starts from. */
    function Count(): nat
      reads this
    {
      if counter.Some? then counter.value else 0
    }

    /** Every file is a task kept under its own id, and no id is beyond the counter. */
    predicate Valid()
      reads this
    {
      NormalPath(tasksDir) && forall p :: p in files ==> WellStored(tasksDir, p, files[p], Count())
    }

    /** A store over the directory `crewDir` whose disk holds `counter` and `files`. */
    constructor(crewDir: seq<string>, counter: Option<nat>, files: map<seq<string>, TaskFile>)
      ensures tasksDir == crewDir + ["tasks"]
      ensures this.counter == counter && this.files == files
    {
      tasksDir := crewDir + ["tasks"];
      this.counter := counter;
      this.files := files;
    }

    /** `get(id)`. */
    function Get(id: string): (r: Result<Task, CrewError>)
      reads this
      ensures r == ReadTask(tasksDir, files, id)
    {
      ReadTask(tasksDir, files, id)
    }

    /** `nextId()`: advances the counter and returns the id of its new value. */
    method NextId() returns (r: Result<string, CrewError>)
      modifies this
      ensures counter == Some(old(Count()) + 1) && files == old(files)
      ensures r == Ok(TaskId(old(Count()) + 1))
    {
      var c := Count();
      c := c + 1;
      var id := IdPrefix + PadStart(NatToString(c), 3, '0');
      counter := Some(c);
      r := Ok(id);
    }

    /**
     * `create(data)`: draws the next id and writes the new task's file. In a
     * well-kept store the file is new, so no task is overwritten, and the
     * store stays well kept.
     */
    method Create(data: CreateTaskInput, now: string) returns (r: Result<Task, CrewError>)
      modifies this
      ensures var id := TaskId(old(Count()) + 1);
        r == Ok(NewTask(id, data, now, tasksDir + [id + ".md"]))
      ensures counter == Some(old(Count()) + 1)
      ensures files == old(files)[r.value.filePath := TaskFile(r.value.frontmatter, r.value.body)]
      ensures old(Valid()) ==> Valid() && r.value.filePath !in old(files)
    {
      ghost var wasValid := Valid();
      ghost var count := Count();
      var idResult := NextId();
      var id := idResult.value;
      ValidIdPath(tasksDir, id);
      var filePath := GetTaskFilePath(tasksDir, id).value;
      var task := NewTask(id, data, now, filePath);
      if wasValid {
        NewFileIsFresh(tasksDir, files, count);
        AddingNewTaskKeepsStore(tasksDir, files, count, data, now);
      }
      files := files[filePath := TaskFile(task.frontmatter, task.body)];
      r := Ok(task);
    }

    /**
     * `update(id, patch)`: writes the merged task back to its file when the
     * update succeeds and writes nothing when it fails.
     */
    method Update(id: string, patch: UpdateTaskInput, now: string) returns (r: Result<Task, CrewError>)
      modifies this
      ensures r == UpdateTask(tasksDir, old(files), id, patch, now)
      ensures r.Ok? ==> files == old(files)[r.value.filePath := TaskFile(r.value.frontmatter, r.value.body)]
      ensures r.Err? ==> files == old(files)
      ensures counter == old(counter)
      ensures old(Valid()) ==> Valid()
    {
      var idCheck := ValidateTaskId(id);
      if idCheck.Err? {
        return Err(InvalidId);
      }
      var existing := Get(id);
      if existing.Err? {
        return Err(existing.error);
      }
      var task := existing.value;
      if patch.status.Some? && patch.status.value != task.frontmatter.status {
        if !IsValidTransition(task.frontmatter.status, patch.status.value) {
          return Err(InvalidTransition);
        }
      }
      var updated := MergePatch(task.frontmatter, patch, now);
      var body := OrElse(patch.body, task.body);
      files := files[task.filePath := TaskFile(updated, body)];
      r := Ok(Task(updated, body, task.filePath));
    }
  }

  /** Two ids drawn one after the other are the next two numbers, and differ. */
  lemma ConsecutiveIdsDiffer(c: nat)
    ensures TaskId(c + 1) != TaskId(c + 2)
    ensures IdNumber(TaskId(c + 1)) + 1 == IdNumber(TaskId(c + 2))
  {
    TaskIdsDistinct(c + 1, c + 2);
    TaskIdIsValid(c + 1);
    TaskIdIsValid(c + 2);
  }
}
