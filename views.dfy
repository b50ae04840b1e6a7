/** The authorization layer of taskflow/views.py: the object-level
    permission IsAdminOrOwnerOnly, the list scoping of each viewset's
    get_queryset, and the owner/author assignment of perform_create. */
module Views {
  import opened Wrappers
  import opened Models
  import Serializers

  /** Any object the viewsets hand to the permission check. */
  datatype Entity =
    | ProjectObj(project: Project)
    | LabelObj(labelRow: Label)
    | TaskObj(task: TaskRow)
    | CommentObj(comment: Comment)

  /** The object's owner_id attribute, None where the object has none. */
  function OwnerAttr(e: Entity): Option<UserId> {
    match e
    case ProjectObj(p) => Some(p.owner)
    case LabelObj(l) => Some(l.owner)
    case TaskObj(t) => Some(t.owner)
    case CommentObj(_) => None
  }

  /** The object's author_id attribute, None where the object has none. */
  function AuthorAttr(e: Entity): Option<UserId> {
    match e
    case CommentObj(c) => Some(c.author)
    case _ => None
  }

  /** The field each viewset's get_queryset filters on: owner for projects,
      labels and tasks, author for comments. */
  function ScopeOwner(e: Entity): UserId {
    match e
    case ProjectObj(p) => p.owner
    case LabelObj(l) => l.owner
    case TaskObj(t) => t.owner
    case CommentObj(c) => c.author
  }

  /** IsAdminOrOwnerOnly.has_object_permission over the two probed
      attributes: staff pass; otherwise owner_id decides when present,
      then author_id; an object with neither is refused. */
  function PermissionFromAttrs(user: User, ownerId: Option<UserId>, authorId: Option<UserId>): (r: bool)
    ensures user.IsStaff() ==> r
    ensures !user.IsStaff() && ownerId.Some? ==> (r <==> user.Id() == ownerId)
    ensures !user.IsStaff() && ownerId.None? && authorId.Some? ==> (r <==> user.Id() == authorId)
    ensures ownerId.None? && authorId.None? ==> (r <==> user.IsStaff())
    // an anonymous principal is refused whatever the object
    ensures !user.IsAuthenticated() ==> !r
  {
    if user.IsStaff() then true
    else if ownerId.Some? then ownerId == user.Id()
    else if authorId.Some? then authorId == user.Id()
    else false
  }

  /** The permission on a model object. Every object has exactly one of the
      two attributes, and the one it has is the field its viewset scopes on,
      so the probing comes down to comparing that field with the user. */
  function HasObjectPermission(user: User, e: Entity): (r: bool)
    ensures r <==> user.IsStaff() || user.Id() == Some(ScopeOwner(e))
  {
    PermissionFromAttrs(user, OwnerAttr(e), AuthorAttr(e))
  }

  /** get_queryset: staff see the whole table; everyone else sees exactly
      the rows whose owner (author, for comments) is the user, unchanged. */
  function Queryset(user: User, table: map<Id, Entity>): (r: map<Id, Entity>)
    ensures user.IsStaff() ==> r == table
    ensures forall k :: k in r <==> k in table && (user.IsStaff() || user.Id() == Some(ScopeOwner(table[k])))
    ensures forall k :: k in r ==> r[k] == table[k]
  {
    if user.IsStaff() then table
    else map k | k in table && user.Id() == Some(ScopeOwner(table[k])) :: table[k]
  }

  /** Listing and single-object access agree: a row is in the user's
      queryset exactly when the permission holds for it. */
  lemma ListedIffPermitted(user: User, table: map<Id, Entity>, k: Id)
    requires k in table
    ensures k in Queryset(user, table) <==> HasObjectPermission(user, table[k])
  {
  }

  /** A non-staff user never sees, nor may act on, a row controlled by
      someone else. */
  lemma OthersRowsHidden(user: User, table: map<Id, Entity>, k: Id)
    requires k in table && !user.IsStaff() && user.Id() != Some(ScopeOwner(table[k]))
    ensures k !in Queryset(user, table) && !HasObjectPermission(user, table[k])
  {
  }

  /** A row controlled by the user is always visible and permitted to them. */
  lemma OwnRowVisible(user: User, table: map<Id, Entity>, k: Id)
    requires k in table && user.Id() == Some(ScopeOwner(table[k]))
    ensures k in Queryset(user, table) && HasObjectPermission(user, table[k])
  {
  }

  // ---------------------------------------------------------------------
  // The four tables as the viewsets query them

  function ProjectTable(db: Store): map<Id, Entity>
    reads db
  {
    map k | k in db.projects :: ProjectObj(db.projects[k])
  }

  function LabelTable(db: Store): map<Id, Entity>
    reads db
  {
    map k | k in db.labels :: LabelObj(db.labels[k])
  }

  function TaskTable(db: Store): map<Id, Entity>
    reads db
  {
    map k | k in db.tasks :: TaskObj(db.tasks[k])
  }

  function CommentTable(db: Store): map<Id, Entity>
    reads db
  {
    map k | k in db.comments :: CommentObj(db.comments[k])
  }

  // ---------------------------------------------------------------------
  // perform_create: the requesting user becomes owner (author)

  /** ProjectViewSet.perform_create: the new project is owned by the user,
      who can then list it and act on it. */
  method PerformCreateProject(db: Store, user: User, name: string, now: Time) returns (r: Result<Project, DbError>)
    requires db.Valid() && user.IsAuthenticated()
    modifies db`projects, db`nextId
    ensures db.Valid()
    ensures r.Err? <==> ProjectNameTaken(old(db.projects), user.id, name)
    ensures r.Ok? ==> r.value.owner == user.id && r.value.name == name && r.value.createdAt == now
    ensures r.Ok? ==> db.projects == old(db.projects)[r.value.id := r.value]
    ensures r.Ok? ==> r.value.id in Queryset(user, ProjectTable(db))
                      && HasObjectPermission(user, ProjectObj(r.value))
  {
    r := db.InsertProject(user.id, name, now);
    if r.Ok? {
      OwnRowVisible(user, ProjectTable(db), r.value.id);
    }
  }

  /** LabelViewSet.perform_create: the new label is owned by the user, who
      can then list it and act on it. */
  method PerformCreateLabel(db: Store, user: User, name: string, now: Time) returns (r: Result<Label, DbError>)
    requires db.Valid() && user.IsAuthenticated()
    modifies db`labels, db`nextId
    ensures db.Valid()
    ensures r.Err? <==> LabelNameTaken(old(db.labels), user.id, name)
    ensures r.Ok? ==> r.value.owner == user.id && r.value.name == name && r.value.createdAt == now
    ensures r.Ok? ==> db.labels == old(db.labels)[r.value.id := r.value]
    ensures r.Ok? ==> r.value.id in Queryset(user, LabelTable(db))
                      && HasObjectPermission(user, LabelObj(r.value))
  {
    r := db.InsertLabel(user.id, name, now);
    if r.Ok? {
      OwnRowVisible(user, LabelTable(db), r.value.id);
    }
  }

  /** The fields a validated task write carries (labels already resolved to
      rows; status and priority absent when the client left them out). */
  datatype TaskData = TaskData(
    project: Project, title: string, status: Option<Status>, priority: Option<Priority>,
    dueDate: Option<Date>, labels: seq<Label>)

  function LabelIds(ls: seq<Label>): set<Id> {
    set i | 0 <= i < |ls| :: ls[i].id
  }

  /** TaskViewSet.perform_create: a task owned by the user is built from the
      validated data (defaults where the client gave nothing) and saved,
      which applies the completion rule. */
  method PerformCreateTask(db: Store, user: User, data: TaskData, now: Time) returns (t: Task)
    requires db.Valid() && user.IsAuthenticated()
    requires data.project.id in db.projects && LabelIds(data.labels) <= db.labels.Keys
    modifies db`tasks, db`nextId
    ensures db.Valid() && fresh(t)
    ensures t.id !in old(db.tasks) && db.tasks == old(db.tasks)[t.id := t.Row()]
    ensures t.owner == user.id && t.project == data.project.id && t.labels == LabelIds(data.labels)
    ensures t.title == data.title && t.dueDate == data.dueDate && t.createdAt == now
    ensures t.status == (if data.status.Some? then data.status.value else DefaultStatus)
    ensures t.priority == (if data.priority.Some? then data.priority.value else DefaultPriority)
    ensures t.completedAt == (if t.status == Done then Some(now) else None)
    ensures t.id in Queryset(user, TaskTable(db)) && HasObjectPermission(user, TaskObj(t.Row()))
  {
    var id := db.IssueId();
    t := new Task(id, user.id, data.project.id, data.title, now);
    if data.status.Some? {
      t.status := data.status.value;
    }
    if data.priority.Some? {
      t.priority := data.priority.value;
    }
    t.dueDate := data.dueDate;
    t.labels := LabelIds(data.labels);
    t.Save(now, db);
    assert TaskTable(db)[t.id] == TaskObj(t.Row());
    OwnRowVisible(user, TaskTable(db), t.id);
  }

  /** CommentViewSet.perform_create: the new comment's author is the user,
      who can then list it and act on it. */
  method PerformCreateComment(db: Store, user: User, task: TaskRow, content: string, now: Time) returns (c: Comment)
    requires db.Valid() && user.IsAuthenticated() && task.id in db.tasks
    modifies db`comments, db`nextId
    ensures db.Valid()
    ensures c.author == user.id && c.task == task.id && c.content == content && c.createdAt == now
    ensures c.id !in old(db.comments) && db.comments == old(db.comments)[c.id := c]
    ensures c.id in Queryset(user, CommentTable(db)) && HasObjectPermission(user, CommentObj(c))
  {
    c := db.InsertComment(task.id, user.id, content, now);
    OwnRowVisible(user, CommentTable(db), c.id);
  }

  // ---------------------------------------------------------------------
  // Where the views' and the serializers' admin tests part ways

  /** Staff may open and edit any task, but resubmitting that task's own
      project (owned by someone else) is refused by validate_project, which
      has no staff exemption. */
  lemma StaffMayEditButNotRelink(user: User, s: Serializers.TaskSerializer, task: TaskRow,
                                 projects: map<Id, Project>)
    requires user.IsStaff() && s.Valid() && s.request == Some(user)
    requires task.project in projects && projects[task.project].owner == task.owner
    requires user.Id() != Some(task.owner)
    ensures HasObjectPermission(user, TaskObj(task))
    ensures s.ProjectInput(task.project, projects).Err?
  {
  }

  /** Staff may also move another user's task into a project of their
      own: validate_project compares with the requester, not with the
      task's owner, so the task ends up in a project its owner does not own. */
  lemma StaffMayRelinkToOwnProject(user: User, s: Serializers.TaskSerializer, task: TaskRow,
                                   projects: map<Id, Project>, mine: Id)
    requires user.IsStaff() && s.Valid() && s.request == Some(user)
    requires task.project in projects && projects[task.project].owner == task.owner
    requires user.Id() != Some(task.owner)
    requires mine in projects && user.Id() == Some(projects[mine].owner)
    ensures HasObjectPermission(user, TaskObj(task))
    ensures s.ProjectInput(mine, projects).Ok?
    ensures s.ProjectInput(mine, projects).value.owner != task.owner
  {
  }

  /** A superuser without the staff flag is scoped to their own rows by the
      views, while the serializer treats them as an admin and leaves their
      project and label choices unrestricted. */
  lemma SuperuserScopedButUnnarrowed(user: User, table: map<Id, Entity>, k: Id)
    requires user.Account? && user.isSuperuser && !user.isStaff
    requires k in table && user.Id() != Some(ScopeOwner(table[k]))
    ensures k !in Queryset(user, table) && !HasObjectPermission(user, table[k])
    ensures Serializers.NarrowedChoices(Some(user)) == Serializers.AllRows
  {
  }
}
