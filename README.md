# taskflow: authorization and invariant layer, in Dafny

This project models the access-control and invariant layer of the taskflow
task-tracking API. Users own projects, labels and tasks. Tasks belong to
projects and carry a status and a priority. Comments are written on tasks.
The model covers five things:

- **Completion rule** (`Models.CompletedAfterSave`, `Models.Task.Save`). On
  every save, a `done` task gets `completed_at` set to the current time if it
  was unset. A task with any other status has `completed_at` cleared. The
  clock is a parameter.
- **Store** (`Models.Store`). This is the relational database as four maps
  from id to row. Its invariant covers (owner, name) uniqueness for projects
  and labels, resolvable foreign keys, and the completion rule for every
  stored task. Its delete methods carry out the `on_delete=CASCADE` rules and
  the many-to-many detachment.
- **Object permission** (`Views.HasObjectPermission`). This models
  `IsAdminOrOwnerOnly` over a tagged union of the four row kinds, keeping the
  source's probing of `owner_id` and then `author_id`.
- **List scoping and creation** (`Views.Queryset`, the `PerformCreate*`
  methods). `Queryset` models each viewset's `get_queryset`, and the methods
  model each `perform_create`. A lemma proves that the scoped list and the
  object permission agree.
- **Serializer checks** (`Serializers`). `TaskSerializer.__init__` narrows
  the project choices. It also stores a narrowed queryset on the labels
  field, but a `many=True` field resolves each key through its child field,
  whose queryset is every label, so that narrowing is never consulted (see
  Findings). The validators `validate_project`,
  `validate_labels` and `validate_task` check references, and the read-only
  field lists decide what a client may write.

The two admin tests are kept apart on purpose. The views use `is_staff`
alone. The serializers use `is_staff or is_superuser`. The reference
validators have no admin exemption at all. So, for every authenticated user,
admin or not, the accepted references are exactly their own rows
(`TaskSerializer.ProjectInput`, `TaskSerializer.LabelsInput`,
`CommentSerializer.TaskInput`). Two lemmas show the consequences:

- `Views.StaffMayEditButNotRelink`: staff may open another user's task, but
  resubmitting that task's own project is refused.
- `Views.SuperuserScopedButUnnarrowed`: a superuser who is not staff is
  scoped like an ordinary user by the views, but gets unrestricted choices
  from the serializer.

Two things the code does not do, which the model therefore leaves out:

- The "project and labels belong to the task's owner" rule is not a database
  constraint. It holds for authenticated creates and for updates by the
  task's owner. It does not hold when staff update another user's task:
  the validators compare with the requester, so staff may move the task into
  a project of their own (`Views.StaffMayRelinkToOwnProject`).
- Labels are submitted as a list, not a set.

## Model

| member | source | states |
|---|---|---|
| Models.ParseStatus | taskflow/models.py:42-45 | a status string is accepted exactly when it is one of the three choice values, and parsing inverts `StatusValue` |
| Models.ParsePriority | taskflow/models.py:47-50 | a priority string is accepted exactly when it is one of the three choice values, and parsing inverts `PriorityValue` |
| Models.CompletedAfterSave | taskflow/models.py:91-96 | after save, `completed_at` is set iff the status is done; a done task keeps an existing timestamp; a task that just became done gets the clock reading |
| Models.SaveIdempotent | taskflow/models.py:92-94 | saving a second time, at any instant, leaves `completed_at` as the first save left it |
| Models.ReopenThenCompleteRestamps | taskflow/models.py:91-96 | done, then todo, then done: the todo save clears the timestamp and the last save stamps its own clock reading |
| Models.Task.constructor | taskflow/models.py:66-75 | a new task has status todo, priority medium, no due date, no labels and no completion time |
| Models.Task.Save | taskflow/models.py:91-98 | `completed_at` becomes `CompletedAfterSave` of the old value; no other field of the instance changes; the row is written at the task's id; the store invariant is kept |
| Models.Store.constructor | taskflow/models.py:6-122 | a new database has no rows and satisfies the store invariant |
| Models.Store.IssueId | taskflow/models.py:6-14 | the issued primary key is in no table, and the invariant is kept |
| Models.Store.InsertProject | taskflow/models.py:16-17 | the insert fails iff that owner already has a project of that name; on success exactly one fresh row is added |
| Models.Store.InsertLabel | taskflow/models.py:33-34 | the insert fails iff that owner already has a label of that name; on success exactly one fresh row is added |
| Models.Store.InsertComment | taskflow/models.py:104-116 | a comment on an existing task is added under a fresh id; the invariant is kept |
| Models.Store.DeleteProject | taskflow/models.py:57-61 | the project's tasks are deleted, and so are the comments on them; labels and all other rows are unchanged; the invariant is kept |
| Models.Store.DeleteTask | taskflow/models.py:105-109 | the task and exactly its comments are deleted; the invariant is kept |
| Models.Store.DeleteLabel | taskflow/models.py:79-83 | the label is deleted; every task survives, with that label removed from its set and nothing else changed |
| Models.Store.DeleteComment | taskflow/models.py:104-119 | exactly that comment row is removed |
| Models.Store.DeleteUser | taskflow/models.py:7-11 | the user's projects, labels, tasks and comments are deleted; so are tasks in deleted projects and comments on deleted tasks; deleted labels are detached from surviving tasks |
| Models.UserDeletionKeepsInvariant | taskflow/models.py:52-61 | the state left by the user cascade satisfies the store invariant again |
| Views.PermissionFromAttrs | taskflow/views.py:18-30 | staff always pass; else `owner_id` decides when present, then `author_id`; an object with neither is refused; an anonymous principal is refused |
| Views.HasObjectPermission | taskflow/views.py:18-30 | on the four model kinds, permission holds iff the user is staff or is the owner (author, for comments) |
| Views.Queryset | taskflow/views.py:37-41 | staff get the whole table; others get exactly the rows they own (comments: author), with every row unaltered |
| Views.ListedIffPermitted | taskflow/views.py:18-83 | a row is in the user's scoped list iff the object permission holds for it |
| Views.OthersRowsHidden | taskflow/views.py:22-41 | for non-staff, a row controlled by someone else is neither listed nor permitted |
| Views.OwnRowVisible | taskflow/views.py:22-44 | a row controlled by the user is always listed and permitted |
| Views.PerformCreateProject | taskflow/views.py:43-44 | the new project is owned by the requester, has the given name and the creation time, and its creator can list it and act on it; a duplicate name fails |
| Views.PerformCreateLabel | taskflow/views.py:57-58 | the new label is owned by the requester, has the given name and the creation time, and its creator can list it and act on it; a duplicate name fails |
| Views.PerformCreateTask | taskflow/views.py:71-72 | the new task is owned by the requester and carries the submitted project, title, due date and labels and the creation time; it takes defaults for omitted status and priority, carries the completion rule, and is listed and permitted for its creator |
| Views.PerformCreateComment | taskflow/views.py:85-86 | the new comment's author is the requester; it carries the task, the content and the creation time, and its author can list it and act on it |
| Views.StaffMayEditButNotRelink | taskflow/serializers.py:67-74 | staff have permission on another user's task, yet that task's own project is refused by the serializer |
| Views.StaffMayRelinkToOwnProject | taskflow/serializers.py:67-74 | staff with permission on another user's task may submit a project of their own, which is accepted, so the task's project is no longer owned by the task's owner |
| Views.SuperuserScopedButUnnarrowed | taskflow/serializers.py:36-48 | a superuser without staff is scoped to their own rows by the views but gets unrestricted choices from the serializer |
| Serializers.NarrowedChoices | taskflow/serializers.py:28-48 | choices are narrowed to the user's own rows iff the request is authenticated and the user is neither staff nor superuser |
| Serializers.TaskSerializer.constructor | taskflow/serializers.py:28-48 | both related fields end up with `NarrowedChoices` of the request |
| Serializers.TaskSerializer.ResolveProject | taskflow/serializers.py:38-42 | a key resolves iff the project exists and the field's choices admit its owner; the row comes back unchanged |
| Serializers.TaskSerializer.ValidateProject | taskflow/serializers.py:67-74 | for an authenticated request, fails iff the project's owner is not the user, whatever the user's flags; otherwise passes the project through unchanged |
| Serializers.TaskSerializer.ProjectInput | taskflow/serializers.py:36-74 | for an authenticated user (admin or not), exactly their own existing projects are accepted; without authentication, any existing project |
| Serializers.ResolveKeys | taskflow/serializers.py:24-26 | a key list resolves through a queryset iff every key names a row the queryset admits; the result is those rows, in order; a failure names a submitted key |
| Serializers.TaskSerializer.ResolveLabels | taskflow/serializers.py:24-26 | as written: the list resolves iff every key names an existing label, whoever owns it; the result is those rows, in order |
| Serializers.TaskSerializer.ResolveLabelsNarrowed | taskflow/serializers.py:44-48 | as intended: the list resolves iff every key names a label the narrowed choices admit |
| Serializers.TaskSerializer.ValidateLabels | taskflow/serializers.py:76-85 | for an authenticated request, succeeds iff every label is the user's (so an empty list succeeds); the labels come back unchanged; without authentication it always succeeds |
| Serializers.TaskSerializer.LabelsInput | taskflow/serializers.py:24-85 | for an authenticated user (admin or not), exactly lists of their own existing labels are accepted, resolved in order; a list of existing labels is refused only with the `validate_labels` message |
| Serializers.AdminChoicesUnrestrictedButValidated | taskflow/serializers.py:39-40 | an admin can resolve any project, yet a project they do not own is still refused |
| Serializers.NonAdminChoicesOwnOnly | taskflow/serializers.py:41-42 | a non-admin can only resolve their own projects |
| Serializers.ForeignLabelResolves | taskflow/serializers.py:24-26 | a non-admin whose label choices are narrowed to their own rows still resolves another user's label |
| Serializers.NarrowedLabelsOwnOnly | taskflow/serializers.py:44-48 | resolving through the narrowed label choices, a non-admin can only resolve their own labels |
| Serializers.CommentSerializer.constructor | taskflow/serializers.py:88-92 | the serializer keeps the request it was given |
| Serializers.CommentSerializer.ValidateTask | taskflow/serializers.py:94-101 | for an authenticated request, fails iff the task's owner is not the user; otherwise passes the task through unchanged |
| Serializers.CommentSerializer.TaskInput | taskflow/serializers.py:88-101 | for an authenticated user, exactly their own existing tasks can be commented on; without authentication, any existing task |
| Serializers.WritableInput | taskflow/serializers.py:51-65 | a payload keeps exactly the declared, non-read-only fields, with the values sent |
| Serializers.ServerFieldsNotWritable | taskflow/serializers.py:65 | no payload sets a task's `completed_at`, `id`, `created_at` or owner, a project's or label's owner, or a comment's author |

## Findings

| source | as written | input that shows it | evidently intended | confidence | as-written member | corrected member |
|---|---|---|---|---|---|---|
| taskflow/serializers.py:24-48 | `__init__` narrows `fields["labels"].queryset`, but the labels field is `many=True`, so each key resolves through the child field's queryset, which is every label | a non-admin user 1 submits `labels=[7]`, where label 7 belongs to user 2: the key resolves, and only `validate_labels` refuses it | the label choices are narrowed like the project choices, so a foreign key fails to resolve | medium, not executed | Serializers.ForeignLabelResolves | Serializers.NarrowedLabelsOwnOnly |

The accepted set is the same either way, because `validate_labels` refuses
the foreign label. Only the error differs: a validation message instead of an
invalid-key error. `Serializers.TaskSerializer.LabelsInput` follows the code
as written.

## Left out

- HTTP routing, admin-site registration, request dispatch and authentication are not modelled. Neither is the `IsAuthenticated` gate: the creation methods simply require an authenticated user, as that gate guarantees.
- How a refused object becomes a 404 or a 403 response is not modelled. Only the permission predicate and the scoped list are.
- The clock (`timezone.now()`) is a parameter. Nothing is claimed about clock monotonicity.
- Concurrency, last-write-wins between requests, and transaction atomicity are not modelled. Each store method is one atomic step, and a task row and its label links are written together.
- `select_related`, `prefetch_related`, `Meta.ordering` and the index on `completed_at` are not modelled. Tables are maps, so listing order is not modelled either.
- Descriptions, field length limits and `__str__` are not modelled.
- Django's create/update machinery (`ModelSerializer.create`/`update`) is not modelled. `Views.PerformCreateTask` builds the instance and saves it directly. An update path is covered only by `Models.Task.Save` and the read-only field lists.
- The users table is not modelled. `Models.Store.DeleteUser` applies the cascade of the owner and author keys to the four tables.
- Primary keys come from one sequence shared by all tables (`Models.Store.IssueId`). The database keeps one per table, but ids are opaque here.
- Models.Task.Save: requires that the task's project and labels exist and that its id was issued by the store. A dangling foreign key would be a database error, and the model does not include that error path.
- Serializers.TaskSerializer.ResolveLabels: reports only the failing key, not the field framework's exact message text.
