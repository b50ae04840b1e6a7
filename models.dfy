/** The entities of taskflow/models.py, the completion rule that Task.save
    enforces, and the relational store with its (owner, name) uniqueness
    constraints and its on_delete cascades. */
module Models {
  import opened Wrappers

  type Id = nat      // primary key of a row
  type UserId = nat  // primary key of an auth user
  type Time = int    // a reading of timezone.now(), supplied by the caller
  type Date = int    // a calendar day (due_date)

  /** The requesting principal. Django's AnonymousUser has no id, is not
      staff and is not authenticated; an account carries both flags that
      the views and the serializers consult. */
  datatype User = Anonymous | Account(id: UserId, isStaff: bool, isSuperuser: bool) {
    predicate IsAuthenticated() { Account? }
    predicate IsStaff() { Account? && isStaff }
    predicate IsSuperuser() { Account? && isSuperuser }
    function Id(): Option<UserId> { if Account? then Some(id) else None }
  }

  // ---------------------------------------------------------------------
  // Choices of Task.status and Task.priority and their defaults

  datatype Status = Todo | Doing | Done
  datatype Priority = Low | Medium | High

  const DefaultStatus: Status := Todo
  const DefaultPriority: Priority := Medium

  /** The stored value of a status choice. */
  function StatusValue(s: Status): string {
    match s
    case Todo => "todo"
    case Doing => "doing"
    case Done => "done"
  }

  /** The stored value of a priority choice. */
  function PriorityValue(p: Priority): string {
    match p
    case Low => "low"
    case Medium => "medium"
    case High => "high"
  }

  /** Reads a status value; any string outside the three choices is refused. */
  function ParseStatus(v: string): (r: Option<Status>)
    ensures r.Some? ==> StatusValue(r.value) == v
    ensures forall s :: StatusValue(s) == v ==> r == Some(s)
  {
    if v == "todo" then Some(Todo)
    else if v == "doing" then Some(Doing)
    else if v == "done" then Some(Done)
    else None
  }

  /** Reads a priority value; any string outside the three choices is refused. */
  function ParsePriority(v: string): (r: Option<Priority>)
    ensures r.Some? ==> PriorityValue(r.value) == v
    ensures forall p :: PriorityValue(p) == v ==> r == Some(p)
  {
    if v == "low" then Some(Low)
    else if v == "medium" then Some(Medium)
    else if v == "high" then Some(High)
    else None
  }

  // ---------------------------------------------------------------------
  // Rows as the store keeps them (descriptions are not modelled)

  datatype Project = Project(id: Id, owner: UserId, name: string, createdAt: Time)
  datatype Label = Label(id: Id, owner: UserId, name: string, createdAt: Time)
  datatype TaskRow = TaskRow(
    id: Id, owner: UserId, project: Id, title: string,
    status: Status, priority: Priority, dueDate: Option<Date>,
    labels: set<Id>, createdAt: Time, completedAt: Option<Time>)
  datatype Comment = Comment(id: Id, task: Id, author: UserId, content: string, createdAt: Time)

  /** A failed write: the database refused a row (here only the
      unique_together constraint on (owner, name)). */
  datatype DbError = IntegrityError

  // ---------------------------------------------------------------------
  // The completion rule of Task.save

  /** The completed_at a task carries after save, given its status, the
      completed_at it had before and the clock. */
  function CompletedAfterSave(status: Status, before: Option<Time>, now: Time): (r: Option<Time>)
    // completed_at is set exactly when the task is done
    ensures r.Some? <==> status == Done
    // a done task keeps a timestamp it already has
    ensures status == Done && before.Some? ==> r == before
    // a task that becomes done is stamped with the clock
    ensures status == Done && before.None? ==> r == Some(now)
  {
    if status == Done then
      if before.None? then Some(now) else before
    else None
  }

  /** Saving twice, at any two instants, leaves what saving once left. */
  lemma SaveIdempotent(status: Status, before: Option<Time>, now1: Time, now2: Time)
    ensures CompletedAfterSave(status, CompletedAfterSave(status, before, now1), now2)
         == CompletedAfterSave(status, before, now1)
  {
  }

  /** done -> todo -> done: the intermediate save clears the timestamp, so
      the final save stamps the clock reading of that final save. */
  lemma ReopenThenCompleteRestamps(before: Option<Time>, t1: Time, t2: Time, t3: Time)
    ensures var done1 := CompletedAfterSave(Done, before, t1);
            var reopened := CompletedAfterSave(Todo, done1, t2);
            reopened == None && CompletedAfterSave(Done, reopened, t3) == Some(t3)
  {
  }

  /** The invariant every stored task satisfies. */
  predicate CompletionConsistent(t: TaskRow) {
    t.completedAt.Some? <==> t.status == Done
  }

  // ---------------------------------------------------------------------
  // Uniqueness of (owner, name)

  predicate ProjectNameTaken(ps: map<Id, Project>, owner: UserId, name: string) {
    exists k :: k in ps && ps[k].owner == owner && ps[k].name == name
  }

  predicate LabelNameTaken(ls: map<Id, Label>, owner: UserId, name: string) {
    exists k :: k in ls && ls[k].owner == owner && ls[k].name == name
  }

  predicate UniqueProjectNames(ps: map<Id, Project>) {
    forall a, b :: a in ps && b in ps && a != b ==>
      ps[a].owner != ps[b].owner || ps[a].name != ps[b].name
  }

  predicate UniqueLabelNames(ls: map<Id, Label>) {
    forall a, b :: a in ls && b in ls && a != b ==>
      ls[a].owner != ls[b].owner || ls[a].name != ls[b].name
  }

  // ---------------------------------------------------------------------
  // The store's invariant and the cascade on deleting a user

  /** Keys agree with row ids and precede the next id; (owner, name) is
      unique for projects and labels; every foreign key resolves; every
      stored task satisfies the completion invariant. */
  ghost predicate StoreInvariant(ps: map<Id, Project>, ls: map<Id, Label>, ts: map<Id, TaskRow>,
                                 cs: map<Id, Comment>, nextId: Id)
  {
    && (forall k :: k in ps ==> ps[k].id == k && k < nextId)
    && (forall k :: k in ls ==> ls[k].id == k && k < nextId)
    && (forall k :: k in ts ==> ts[k].id == k && k < nextId)
    && (forall k :: k in cs ==> cs[k].id == k && k < nextId)
    && UniqueProjectNames(ps)
    && UniqueLabelNames(ls)
    && (forall k :: k in ts ==> ts[k].project in ps && ts[k].labels <= ls.Keys)
    && (forall k :: k in ts ==> CompletionConsistent(ts[k]))
    && (forall k :: k in cs ==> cs[k].task in ts)
  }

  /** The projects that survive deleting user u. */
  function ProjectsKept(ps: map<Id, Project>, u: UserId): map<Id, Project> {
    map k | k in ps && ps[k].owner != u :: ps[k]
  }

  /** The labels that survive deleting user u. */
  function LabelsKept(ls: map<Id, Label>, u: UserId): map<Id, Label> {
    map k | k in ls && ls[k].owner != u :: ls[k]
  }

  /** The tasks that survive deleting user u: not theirs and in a surviving
      project, with the deleted labels detached. */
  function TasksKept(ts: map<Id, TaskRow>, u: UserId, ps: map<Id, Project>, ls: map<Id, Label>): map<Id, TaskRow> {
    map k | k in ts && ts[k].owner != u && ts[k].project in ps :: ts[k].(labels := ts[k].labels * ls.Keys)
  }

  /** The comments that survive deleting user u: not theirs and on a
      surviving task. */
  function CommentsKept(cs: map<Id, Comment>, u: UserId, ts: map<Id, TaskRow>): map<Id, Comment> {
    map k | k in cs && cs[k].author != u && cs[k].task in ts :: cs[k]
  }

  lemma UserDeletionKeepsInvariant(ps: map<Id, Project>, ls: map<Id, Label>, ts: map<Id, TaskRow>,
                                   cs: map<Id, Comment>, nextId: Id, u: UserId)
    requires StoreInvariant(ps, ls, ts, cs, nextId)
    ensures var ps', ls' := ProjectsKept(ps, u), LabelsKept(ls, u);
            var ts' := TasksKept(ts, u, ps', ls');
            StoreInvariant(ps', ls', ts', CommentsKept(cs, u, ts'), nextId)
  {
    var ps', ls' := ProjectsKept(ps, u), LabelsKept(ls, u);
    var ts' := TasksKept(ts, u, ps', ls');
    var cs' := CommentsKept(cs, u, ts');
    assert UniqueProjectNames(ps') by {
      forall a, b | a in ps' && b in ps' && a != b
        ensures ps'[a].owner != ps'[b].owner || ps'[a].name != ps'[b].name
      {
        assert ps'[a] == ps[a] && ps'[b] == ps[b];
      }
    }
    assert UniqueLabelNames(ls') by {
      forall a, b | a in ls' && b in ls' && a != b
        ensures ls'[a].owner != ls'[b].owner || ls'[a].name != ls'[b].name
      {
        assert ls'[a] == ls[a] && ls'[b] == ls[b];
      }
    }
    forall k | k in ts'
      ensures ts'[k].id == k && k < nextId
      ensures ts'[k].project in ps' && ts'[k].labels <= ls'.Keys
      ensures CompletionConsistent(ts'[k])
    {
      assert ts'[k] == ts[k].(labels := ts[k].labels * ls'.Keys);
    }
    forall k | k in cs'
      ensures cs'[k].id == k && k < nextId && cs'[k].task in ts'
    {
      assert cs'[k] == cs[k];
    }
  }

  // ---------------------------------------------------------------------
  // A model instance of Task, as Django loads, changes and saves it

  class Task {
    const id: Id
    var owner: UserId
    var project: Id
    var title: string
    var status: Status
    var priority: Priority
    var dueDate: Option<Date>
    var labels: set<Id>
    const createdAt: Time
    var completedAt: Option<Time>

    /** A new instance carries the field defaults: status todo, priority
        medium, no due date, no labels and no completion time. */
    constructor (id: Id, owner: UserId, project: Id, title: string, createdAt: Time)
      ensures this.id == id && this.owner == owner && this.project == project
      ensures this.title == title && this.createdAt == createdAt
      ensures status == DefaultStatus && priority == DefaultPriority
      ensures dueDate == None && labels == {} && completedAt == None
    {
      this.id := id;
      this.owner := owner;
      this.project := project;
      this.title := title;
      this.createdAt := createdAt;
      status := DefaultStatus;
      priority := DefaultPriority;
      dueDate := None;
      labels := {};
      completedAt := None;
    }

    /** The row this instance writes. */
    function Row(): TaskRow
      reads this
    {
      TaskRow(id, owner, project, title, status, priority, dueDate, labels, createdAt, completedAt)
    }

    /** Task.save: bring completed_at in line with the status, then write the
        row at this instance's id (an insert or an update). Nothing but
        completed_at changes on the instance. */
    method Save(now: Time, db: Store)
      requires db.Valid()
      requires id < db.nextId && project in db.projects && labels <= db.labels.Keys
      modifies this`completedAt, db`tasks
      ensures completedAt == CompletedAfterSave(status, old(completedAt), now)
      ensures CompletionConsistent(Row())
      ensures Row() == old(Row()).(completedAt := completedAt)
      ensures db.tasks == old(db.tasks)[id := Row()]
      ensures db.Valid()
    {
      if status == Done {
        if completedAt.None? {
          completedAt := Some(now);
        }
      } else {
        completedAt := None;
      }
      db.tasks := db.tasks[id := Row()];
    }
  }

  // ---------------------------------------------------------------------
  // The relational store: four tables keyed by id

  class Store {
    var projects: map<Id, Project>
    var labels: map<Id, Label>
    var tasks: map<Id, TaskRow>
    var comments: map<Id, Comment>
    var nextId: Id  // the next id the database sequence hands out

    /** Keys agree with row ids and precede nextId; (owner, name) is unique
        for projects and labels; every foreign key resolves; every stored
        task satisfies the completion invariant. */
    ghost predicate Valid()
      reads this
    {
      StoreInvariant(projects, labels, tasks, comments, nextId)
    }

    constructor ()
      ensures Valid()
      ensures projects == map[] && labels == map[] && tasks == map[] && comments == map[]
    {
      projects, labels, tasks, comments := map[], map[], map[], map[];
      nextId := 1;
    }

    /** Hands out a primary key no row of any table uses. */
    method IssueId() returns (id: Id)
      requires Valid()
      modifies this`nextId
      ensures Valid()
      ensures id == old(nextId) && nextId == id + 1
      ensures id !in projects && id !in labels && id !in tasks && id !in comments
    {
      id := nextId;
      nextId := nextId + 1;
    }

    /** Inserts a project; the unique (owner, name) constraint refuses a
        second project of the same owner with the same name. */
    method InsertProject(owner: UserId, name: string, now: Time) returns (r: Result<Project, DbError>)
      requires Valid()
      modifies this`projects, this`nextId
      ensures Valid()
      ensures r.Err? <==> ProjectNameTaken(old(projects), owner, name)
      ensures r.Err? ==> projects == old(projects) && nextId == old(nextId)
      ensures r.Ok? ==> r.value.id !in old(projects)
      ensures r.Ok? ==> r.value == Project(r.value.id, owner, name, now)
      ensures r.Ok? ==> projects == old(projects)[r.value.id := r.value]
    {
      if ProjectNameTaken(projects, owner, name) {
        return Err(IntegrityError);
      }
      var p := Project(nextId, owner, name, now);
      projects := projects[nextId := p];
      nextId := nextId + 1;
      return Ok(p);
    }

    /** Inserts a label; the unique (owner, name) constraint refuses a
        second label of the same owner with the same name. */
    method InsertLabel(owner: UserId, name: string, now: Time) returns (r: Result<Label, DbError>)
      requires Valid()
      modifies this`labels, this`nextId
      ensures Valid()
      ensures r.Err? <==> LabelNameTaken(old(labels), owner, name)
      ensures r.Err? ==> labels == old(labels) && nextId == old(nextId)
      ensures r.Ok? ==> r.value.id !in old(labels)
      ensures r.Ok? ==> r.value == Label(r.value.id, owner, name, now)
      ensures r.Ok? ==> labels == old(labels)[r.value.id := r.value]
    {
      if LabelNameTaken(labels, owner, name) {
        return Err(IntegrityError);
      }
      var l := Label(nextId, owner, name, now);
      labels := labels[nextId := l];
      nextId := nextId + 1;
      return Ok(l);
    }

    /** Inserts a comment on an existing task. */
    method InsertComment(task: Id, author: UserId, content: string, now: Time) returns (c: Comment)
      requires Valid() && task in tasks
      modifies this`comments, this`nextId
      ensures Valid()
      ensures c.id !in old(comments) && c == Comment(c.id, task, author, content, now)
      ensures comments == old(comments)[c.id := c]
    {
      c := Comment(nextId, task, author, content, now);
      comments := comments[nextId := c];
      nextId := nextId + 1;
    }

    /** Deleting a project deletes its tasks (Task.project cascades) and the
        comments on those tasks (Comment.task cascades). */
    method DeleteProject(pid: Id)
      requires Valid()
      modifies this`projects, this`tasks, this`comments
      ensures Valid()
      ensures projects == old(projects) - {pid}
      ensures labels == old(labels)
      ensures forall k :: k in tasks <==> k in old(tasks) && old(tasks)[k].project != pid
      ensures forall k :: k in tasks ==> tasks[k] == old(tasks)[k]
      ensures forall k :: k in comments <==> k in old(comments) && old(comments)[k].task in tasks
      ensures forall k :: k in comments ==> comments[k] == old(comments)[k]
    {
      tasks := map k | k in tasks && tasks[k].project != pid :: tasks[k];
      comments := map k | k in comments && comments[k].task in tasks :: comments[k];
      projects := projects - {pid};
    }

    /** Deleting a task deletes its comments; its label links go with it. */
    method DeleteTask(tid: Id)
      requires Valid()
      modifies this`tasks, this`comments
      ensures Valid()
      ensures tasks == old(tasks) - {tid}
      ensures comments == map k | k in old(comments) && old(comments)[k].task != tid :: old(comments)[k]
    {
      tasks := tasks - {tid};
      comments := map k | k in comments && comments[k].task != tid :: comments[k];
    }

    /** Deleting a label only detaches it: every task stays, with the label
        taken out of its label set and every other field as it was. */
    method DeleteLabel(lid: Id)
      requires Valid()
      modifies this`labels, this`tasks
      ensures Valid()
      ensures labels == old(labels) - {lid}
      ensures tasks.Keys == old(tasks).Keys
      ensures forall k :: k in tasks ==> tasks[k] == old(tasks)[k].(labels := old(tasks)[k].labels - {lid})
    {
      tasks := map k | k in tasks :: tasks[k].(labels := tasks[k].labels - {lid});
      labels := labels - {lid};
    }

    /** Deleting a comment removes that row alone. */
    method DeleteComment(cid: Id)
      requires Valid()
      modifies this`comments
      ensures Valid()
      ensures comments == old(comments) - {cid}
    {
      comments := comments - {cid};
    }

    /** Deleting a user (every owner/author key cascades): their projects,
        labels, tasks and comments go; so do tasks in their projects and
        comments on deleted tasks; their labels are detached from the
        surviving tasks of other users. */
    method DeleteUser(u: UserId)
      requires Valid()
      modifies this`projects, this`labels, this`tasks, this`comments
      ensures Valid()
      ensures forall k :: k in projects <==> k in old(projects) && old(projects)[k].owner != u
      ensures forall k :: k in projects ==> projects[k] == old(projects)[k]
      ensures forall k :: k in labels <==> k in old(labels) && old(labels)[k].owner != u
      ensures forall k :: k in labels ==> labels[k] == old(labels)[k]
      ensures forall k :: k in tasks <==>
                k in old(tasks) && old(tasks)[k].owner != u && old(tasks)[k].project in projects
      ensures forall k :: k in tasks ==>
                tasks[k] == old(tasks)[k].(labels := old(tasks)[k].labels * labels.Keys)
      ensures forall k :: k in comments <==>
                k in old(comments) && old(comments)[k].author != u && old(comments)[k].task in tasks
      ensures forall k :: k in comments ==> comments[k] == old(comments)[k]
    {
      UserDeletionKeepsInvariant(projects, labels, tasks, comments, nextId, u);
      projects := ProjectsKept(projects, u);
      labels := LabelsKept(labels, u);
      tasks := TasksKept(tasks, u, projects, labels);
      comments := CommentsKept(comments, u, tasks);
    }
  }
}
