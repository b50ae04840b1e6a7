/** The write-side checks of taskflow/serializers.py: the narrowing of the
    project and label choices in TaskSerializer.__init__, the reference
    validators validate_project, validate_labels and validate_task, and the
    declared and read-only field lists. */
module Serializers {
  import opened Wrappers
  import opened Models

  /** Why a submitted field is refused: a primary key the field's queryset
      does not yield, or a validator's message. */
  datatype FieldError = InvalidPk(pk: Id) | ValidationError(message: string)

  const OwnProjectsOnly: string := "You can only use your own projects."
  const OwnLabelsOnly: string := "You can only use your own labels."
  const OwnTasksOnly: string := "You can only comment on your own tasks."

  /** A related field's queryset. Querysets are evaluated lazily, when a key
      is resolved, so the field holds the filter, not a snapshot of rows. */
  datatype ChoiceSet = AllRows | OwnedBy(owner: UserId)

  predicate Admits(c: ChoiceSet, owner: UserId) {
    c.AllRows? || c.owner == owner
  }

  /** "request and request.user.is_authenticated" */
  predicate Authenticated(request: Option<User>) {
    request.Some? && request.value.IsAuthenticated()
  }

  /** The admin test of the serializers: staff or superuser (the views test
      staff alone). */
  predicate SerializerAdmin(u: User) {
    u.IsStaff() || u.IsSuperuser()
  }

  /** The choices TaskSerializer.__init__ leaves on the project and labels
      fields: all rows unless an authenticated non-admin user is asking,
      whose choices are narrowed to their own rows. */
  function NarrowedChoices(request: Option<User>): (c: ChoiceSet)
    ensures c.OwnedBy? <==> Authenticated(request) && !SerializerAdmin(request.value)
    ensures c.OwnedBy? ==> request.value.Id() == Some(c.owner)
  {
    if Authenticated(request) && !SerializerAdmin(request.value) then OwnedBy(request.value.id)
    else AllRows
  }

  /** Resolves label keys, in order, through a queryset; the first key the
      queryset does not yield is reported. */
  function ResolveKeys(pks: seq<Id>, labels: map<Id, Label>, choices: ChoiceSet): (r: Result<seq<Label>, FieldError>)
    ensures r.Ok? <==> forall i :: 0 <= i < |pks| ==> pks[i] in labels && Admits(choices, labels[pks[i]].owner)
    ensures r.Ok? ==> |r.value| == |pks| && forall i :: 0 <= i < |pks| ==> r.value[i] == labels[pks[i]]
    ensures r.Err? ==> exists i :: 0 <= i < |pks| && r.error == InvalidPk(pks[i])
    decreases |pks|
  {
    if pks == [] then Ok([])
    else if pks[0] !in labels || !Admits(choices, labels[pks[0]].owner) then Err(InvalidPk(pks[0]))
    else
      match ResolveKeys(pks[1..], labels, choices)
      case Err(e) => Err(e)
      case Ok(rest) => Ok([labels[pks[0]]] + rest)
  }

  class TaskSerializer {
    const request: Option<User>
    var projectChoices: ChoiceSet
    var labelChoices: ChoiceSet

    /** Both related fields carry the choices __init__ gives them. */
    ghost predicate Valid()
      reads this
    {
      projectChoices == NarrowedChoices(request) && labelChoices == NarrowedChoices(request)
    }

    /** __init__: both fields start from every row; for an authenticated
        user the choices are overwritten, with all rows for an admin and
        the user's own rows otherwise. */
    constructor (request: Option<User>)
      ensures this.request == request
      ensures Valid()
    {
      this.request := request;
      projectChoices := AllRows;
      labelChoices := AllRows;
      new;
      if request.None? || !request.value.IsAuthenticated() {
        return;
      }
      var user := request.value;
      var isAdmin := user.IsStaff() || user.IsSuperuser();
      if isAdmin {
        projectChoices := AllRows;
      } else {
        projectChoices := OwnedBy(user.id);
      }
      if isAdmin {
        labelChoices := AllRows;
      } else {
        labelChoices := OwnedBy(user.id);
      }
    }

    /** The project field turns a submitted key into a row of its queryset. */
    function ResolveProject(pk: Id, projects: map<Id, Project>): (r: Result<Project, FieldError>)
      reads this
      ensures r.Ok? <==> pk in projects && Admits(projectChoices, projects[pk].owner)
      ensures r.Ok? ==> r.value == projects[pk]
      ensures r.Err? ==> r.error == InvalidPk(pk)
    {
      if pk in projects && Admits(projectChoices, projects[pk].owner) then Ok(projects[pk])
      else Err(InvalidPk(pk))
    }

    /** validate_project: an authenticated user may only reference a project
        they own, whatever their staff or superuser flags; without an
        authenticated request the project passes as it is. */
    function ValidateProject(project: Project): (r: Result<Project, FieldError>)
      ensures Authenticated(request) ==> (r.Ok? <==> request.value.Id() == Some(project.owner))
      ensures !Authenticated(request) ==> r.Ok?
      ensures r.Ok? ==> r.value == project
      ensures r.Err? ==> r.error == ValidationError(OwnProjectsOnly)
    {
      if request.Some? && request.value.IsAuthenticated() && Some(project.owner) != request.value.Id() then
        Err(ValidationError(OwnProjectsOnly))
      else Ok(project)
    }

    /** The project a task write ends up with: resolution through the
        narrowed choices, then validate_project. For an authenticated user
        exactly their own existing projects are accepted, admin or not. */
    function ProjectInput(pk: Id, projects: map<Id, Project>): (r: Result<Project, FieldError>)
      requires Valid()
      reads this
      ensures Authenticated(request) ==>
                (r.Ok? <==> pk in projects && request.value.Id() == Some(projects[pk].owner))
      ensures !Authenticated(request) ==> (r.Ok? <==> pk in projects)
      ensures r.Ok? ==> r.value == projects[pk]
    {
      match ResolveProject(pk, projects)
      case Err(e) => Err(e)
      case Ok(p) => ValidateProject(p)
    }

    /** The labels field as written: a many=True field resolves each key
        through its child field, whose queryset is every label, so the
        narrowing __init__ stores in labelChoices is never consulted. Each
        key, in order, must name an existing label; the first that does not
        is reported. */
    function ResolveLabels(pks: seq<Id>, labels: map<Id, Label>): (r: Result<seq<Label>, FieldError>)
      ensures r.Ok? <==> forall i :: 0 <= i < |pks| ==> pks[i] in labels
      ensures r.Ok? ==> |r.value| == |pks| && forall i :: 0 <= i < |pks| ==> r.value[i] == labels[pks[i]]
      ensures r.Err? ==> exists i :: 0 <= i < |pks| && r.error == InvalidPk(pks[i])
    {
      ResolveKeys(pks, labels, AllRows)
    }

    /** The labels field as its narrowing intends: keys resolve only through
        labelChoices, like the project field. */
    function ResolveLabelsNarrowed(pks: seq<Id>, labels: map<Id, Label>): (r: Result<seq<Label>, FieldError>)
      reads this
      ensures r.Ok? <==> forall i :: 0 <= i < |pks| ==> pks[i] in labels && Admits(labelChoices, labels[pks[i]].owner)
      ensures r.Ok? ==> |r.value| == |pks| && forall i :: 0 <= i < |pks| ==> r.value[i] == labels[pks[i]]
    {
      ResolveKeys(pks, labels, labelChoices)
    }

    /** validate_labels: for an authenticated user every label must be their
        own, admin or not; the labels come back unchanged. */
    method ValidateLabels(labels: seq<Label>) returns (r: Result<seq<Label>, FieldError>)
      ensures Authenticated(request) ==>
                (r.Ok? <==> forall i :: 0 <= i < |labels| ==> request.value.Id() == Some(labels[i].owner))
      ensures !Authenticated(request) ==> r.Ok?
      ensures r.Ok? ==> r.value == labels
      ensures r.Err? ==> r.error == ValidationError(OwnLabelsOnly)
    {
      if request.Some? && request.value.IsAuthenticated() {
        for i := 0 to |labels|
          invariant forall j :: 0 <= j < i ==> request.value.Id() == Some(labels[j].owner)
        {
          if Some(labels[i].owner) != request.value.Id() {
            return Err(ValidationError(OwnLabelsOnly));
          }
        }
      }
      return Ok(labels);
    }

    /** The labels a task write ends up with: resolution against every
        label, then validate_labels. For an authenticated user exactly lists
        of their own existing labels are accepted, admin or not; a foreign
        label is refused by validate_labels, not by resolution. */
    method LabelsInput(pks: seq<Id>, labels: map<Id, Label>) returns (r: Result<seq<Label>, FieldError>)
      ensures Authenticated(request) ==>
                (r.Ok? <==> forall i :: 0 <= i < |pks| ==> pks[i] in labels && request.value.Id() == Some(labels[pks[i]].owner))
      ensures Authenticated(request) && (forall i :: 0 <= i < |pks| ==> pks[i] in labels) && r.Err? ==>
                r.error == ValidationError(OwnLabelsOnly)
      ensures !Authenticated(request) ==> (r.Ok? <==> forall i :: 0 <= i < |pks| ==> pks[i] in labels)
      ensures r.Ok? ==> |r.value| == |pks| && forall i :: 0 <= i < |pks| ==> r.value[i] == labels[pks[i]]
    {
      var resolved := ResolveLabels(pks, labels);
      if resolved.Err? {
        return Err(resolved.error);
      }
      r := ValidateLabels(resolved.value);
    }
  }

  /** An admin's project choices are unrestricted, yet validate_project
      still refuses every project they do not own. */
  lemma AdminChoicesUnrestrictedButValidated(s: TaskSerializer, pk: Id, projects: map<Id, Project>)
    requires s.Valid() && Authenticated(s.request) && SerializerAdmin(s.request.value)
    requires pk in projects && s.request.value.Id() != Some(projects[pk].owner)
    ensures s.ResolveProject(pk, projects).Ok?
    ensures s.ProjectInput(pk, projects).Err?
  {
  }

  /** A non-admin's choices already hold only their own rows. */
  lemma NonAdminChoicesOwnOnly(s: TaskSerializer, pk: Id, projects: map<Id, Project>)
    requires s.Valid() && Authenticated(s.request) && !SerializerAdmin(s.request.value)
    requires s.ResolveProject(pk, projects).Ok?
    ensures s.request.value.Id() == Some(projects[pk].owner)
  {
  }

  /** As written: a non-admin's label choices are narrowed to their own
      rows, yet another user's label still resolves. */
  lemma ForeignLabelResolves(s: TaskSerializer, labels: map<Id, Label>)
    requires s.Valid() && s.request == Some(Account(1, false, false))
    requires labels == map[7 := Label(7, 2, "urgent", 0)]
    ensures s.labelChoices == OwnedBy(1) && !Admits(s.labelChoices, labels[7].owner)
    ensures s.ResolveLabels([7], labels) == Ok([labels[7]])
  {
    var r := s.ResolveLabels([7], labels);
    assert r.Ok? && |r.value| == 1 && r.value[0] == labels[7];
    assert r.value == [labels[7]];
  }

  /** As intended: resolving through the narrowed choices, a non-admin can
      only resolve their own labels, like the project field. */
  lemma NarrowedLabelsOwnOnly(s: TaskSerializer, pks: seq<Id>, labels: map<Id, Label>, i: nat)
    requires s.Valid() && Authenticated(s.request) && !SerializerAdmin(s.request.value)
    requires s.ResolveLabelsNarrowed(pks, labels).Ok? && i < |pks|
    ensures s.request.value.Id() == Some(labels[pks[i]].owner)
  {
  }

  class CommentSerializer {
    const request: Option<User>

    constructor (request: Option<User>)
      ensures this.request == request
    {
      this.request := request;
    }

    /** validate_task: an authenticated user may only comment on a task they
        own; without an authenticated request the task passes as it is. */
    function ValidateTask(task: TaskRow): (r: Result<TaskRow, FieldError>)
      ensures Authenticated(request) ==> (r.Ok? <==> request.value.Id() == Some(task.owner))
      ensures !Authenticated(request) ==> r.Ok?
      ensures r.Ok? ==> r.value == task
      ensures r.Err? ==> r.error == ValidationError(OwnTasksOnly)
    {
      if request.Some? && request.value.IsAuthenticated() && Some(task.owner) != request.value.Id() then
        Err(ValidationError(OwnTasksOnly))
      else Ok(task)
    }

    /** The task a comment write ends up with: the task field resolves any
        existing task, then validate_task narrows it to the user's own. */
    function TaskInput(pk: Id, tasks: map<Id, TaskRow>): (r: Result<TaskRow, FieldError>)
      ensures Authenticated(request) ==>
                (r.Ok? <==> pk in tasks && request.value.Id() == Some(tasks[pk].owner))
      ensures !Authenticated(request) ==> (r.Ok? <==> pk in tasks)
      ensures r.Ok? ==> r.value == tasks[pk]
    {
      if pk in tasks then ValidateTask(tasks[pk]) else Err(InvalidPk(pk))
    }
  }

  // ---------------------------------------------------------------------
  // Declared and read-only fields

  const ProjectFields: seq<string> := ["id", "name", "description", "created_at"]
  const ProjectReadOnly: set<string> := {"id", "created_at"}
  const LabelFields: seq<string> := ["id", "name", "created_at"]
  const LabelReadOnly: set<string> := {"id", "created_at"}
  const TaskFields: seq<string> :=
    ["id", "project", "title", "description", "status", "priority", "due_date", "labels", "created_at", "completed_at"]
  const TaskReadOnly: set<string> := {"id", "created_at", "completed_at"}
  const CommentFields: seq<string> := ["id", "task", "content", "created_at"]
  const CommentReadOnly: set<string> := {"id", "created_at"}

  /** The part of a client payload a serializer accepts: declared fields
      that are not read-only, with the values the client sent. */
  function WritableInput<V>(raw: map<string, V>, fields: seq<string>, readOnly: set<string>): (w: map<string, V>)
    ensures forall f :: f in w <==> f in raw && f in fields && f !in readOnly
    ensures forall f :: f in w ==> w[f] == raw[f]
  {
    map f | f in raw && f in fields && f !in readOnly :: raw[f]
  }

  /** No payload sets completed_at, id or created_at of a task, nor the
      owner of a project, label or task, nor the author of a comment: those
      come from Task.save, the database and perform_create. */
  lemma ServerFieldsNotWritable<V>(raw: map<string, V>)
    ensures var w := WritableInput(raw, TaskFields, TaskReadOnly);
            "completed_at" !in w && "id" !in w && "created_at" !in w && "owner" !in w
    ensures "owner" !in WritableInput(raw, ProjectFields, ProjectReadOnly)
    ensures "owner" !in WritableInput(raw, LabelFields, LabelReadOnly)
    ensures "author" !in WritableInput(raw, CommentFields, CommentReadOnly)
  {
  }
}
