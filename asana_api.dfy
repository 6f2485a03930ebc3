/**
 * The mock task-management store: a Project table and a Task table, each
 * keyed by its Id. Ids and names compare under SQLite's NOCASE collation; a
 * task's ProjectId compares exactly. Fresh ids and today's date are inputs.
 */
module MockAsana {
  import opened Wrappers

  /** SQLite's NOCASE collation folds only the ASCII letters A-Z. */
  function FoldChar(c: char): char {
    if 'A' <= c <= 'Z' then (c as int + 32) as char else c
  }

  function Fold(s: string): string {
    seq(|s|, i requires 0 <= i < |s| => FoldChar(s[i]))
  }

  /** Equality under COLLATE NOCASE. */
  predicate NoCaseEq(a: string, b: string) {
    Fold(a) == Fold(b)
  }

  /** Folding twice is folding once, so NOCASE keys are stable. */
  lemma FoldIdempotent(s: string)
    ensures Fold(Fold(s)) == Fold(s)
    ensures forall i :: 0 <= i < |s| ==> !('A' <= Fold(s)[i] <= 'Z')
  {
    assert forall i :: 0 <= i < |s| ==> Fold(Fold(s))[i] == Fold(s)[i];
  }

  datatype ProjectRow = ProjectRow(id: string, name: string)
  datatype TaskRow = TaskRow(id: string, projectId: string, name: string, dueDate: string, status: string)

  datatype AsanaProject = AsanaProject(id: string, name: string, link: string)
  datatype AsanaTask = AsanaTask(id: string, projectId: string, name: string, dueDate: string, status: string, link: string)
  datatype AsanaProjectUpdate = AsanaProjectUpdate(name: string)
  datatype AsanaTaskUpdate = AsanaTaskUpdate(name: string, dueDate: string, status: string)

  /** The primary-key violation an insert with a taken Id raises. */
  datatype DbError = IntegrityError

  const ProjectLinkPrefix := "https://example.com/projects/"
  const TaskLinkPrefix := "https://example.com/tasks/"

  /** The id a link was built from, if it has the given prefix. */
  function IdFromLink(prefix: string, link: string): (r: Option<string>)
    ensures r.Some? ==> link == prefix + r.value
  {
    if |prefix| <= |link| && link[..|prefix|] == prefix then Some(link[|prefix|..]) else None
  }

  /** A Project row as an entity: its Id, its name and a link that gives the Id back. */
  function MapProject(row: ProjectRow): (p: AsanaProject)
    ensures p.id == row.id && p.name == row.name
    ensures IdFromLink(ProjectLinkPrefix, p.link) == Some(row.id)
  {
    AsanaProject(row.id, row.name, ProjectLinkPrefix + row.id)
  }

  /** A Task row as an entity: its columns and a link that gives the Id back. */
  function MapTask(row: TaskRow): (t: AsanaTask)
    ensures t.id == row.id && t.projectId == row.projectId && t.name == row.name
    ensures t.dueDate == row.dueDate && t.status == row.status
    ensures IdFromLink(TaskLinkPrefix, t.link) == Some(row.id)
  {
    AsanaTask(row.id, row.projectId, row.name, row.dueDate, row.status, TaskLinkPrefix + row.id)
  }

  /** A project's link gives back its id, so distinct projects have distinct links. */
  lemma ProjectLinkRoundTrip(row: ProjectRow)
    ensures IdFromLink(ProjectLinkPrefix, MapProject(row).link) == Some(row.id)
    ensures IdFromLink(TaskLinkPrefix, MapProject(row).link) == None
  {
    var link := MapProject(row).link;
    assert link[..|ProjectLinkPrefix|] == ProjectLinkPrefix;
    assert link[|ProjectLinkPrefix|..] == row.id;
    assert |TaskLinkPrefix| <= |link| ==> link[..|TaskLinkPrefix|][20] != TaskLinkPrefix[20];
  }

  /** A task's link gives back its id. */
  lemma TaskLinkRoundTrip(row: TaskRow)
    ensures IdFromLink(TaskLinkPrefix, MapTask(row).link) == Some(row.id)
    ensures IdFromLink(ProjectLinkPrefix, MapTask(row).link) == None
  {
    var link := MapTask(row).link;
    assert link[..|TaskLinkPrefix|] == TaskLinkPrefix;
    assert link[|TaskLinkPrefix|..] == row.id;
    assert |ProjectLinkPrefix| <= |link| ==> link[..|ProjectLinkPrefix|][20] != ProjectLinkPrefix[20];
  }

  /** The due date create_task stores: today's when none, an empty one or "today" is given. */
  function EffectiveDueDate(dueDate: Option<string>, today: string): (d: string)
    ensures dueDate.None? || dueDate.value == "" || dueDate.value == "today" ==> d == today
    ensures dueDate.Some? && dueDate.value != "" && dueDate.value != "today" ==> d == dueDate.value
  {
    if dueDate.None? || dueDate.value == "" || dueDate.value == "today" then today else dueDate.value
  }

  /** The Task table without the rows of one project (ProjectId compared exactly). */
  function TasksNotIn(tasks: map<string, TaskRow>, projectId: string): (r: map<string, TaskRow>)
    ensures forall k :: k in r <==> k in tasks && tasks[k].projectId != projectId
    ensures forall k :: k in r ==> r[k] == tasks[k]
  {
    map k | k in tasks && tasks[k].projectId != projectId :: tasks[k]
  }

  /** The Task table without the rows of one project whose name matches under NOCASE. */
  function TasksNotNamed(tasks: map<string, TaskRow>, projectId: string, name: string): (r: map<string, TaskRow>)
    ensures forall k :: k in r <==> k in tasks && !(tasks[k].projectId == projectId && NoCaseEq(tasks[k].name, name))
    ensures forall k :: k in r ==> r[k] == tasks[k]
  {
    map k | k in tasks && !(tasks[k].projectId == projectId && NoCaseEq(tasks[k].name, name)) :: tasks[k]
  }

  /** The entity update_task returns: its status is set from the update's due date. */
  function UpdatedTaskAsWritten(row: TaskRow, model: AsanaTaskUpdate): (t: AsanaTask)
    ensures t.id == row.id && t.projectId == row.projectId && t.name == model.name
    ensures t.dueDate == model.dueDate && t.status == model.dueDate
  {
    MapTask(row).(name := model.name, dueDate := model.dueDate, status := model.dueDate)
  }

  /** The row update_task stores: the same Id and ProjectId with the update's three columns. */
  function UpdatedTaskRow(row: TaskRow, model: AsanaTaskUpdate): (r: TaskRow)
    ensures r.id == row.id && r.projectId == row.projectId
    ensures r.name == model.name && r.dueDate == model.dueDate && r.status == model.status
  {
    row.(name := model.name, dueDate := model.dueDate, status := model.status)
  }

  /** The entity update_task evidently means to return: the stored row. */
  function UpdatedTask(row: TaskRow, model: AsanaTaskUpdate): (t: AsanaTask)
    ensures t == MapTask(UpdatedTaskRow(row, model))
    ensures t.status == model.status
  {
    MapTask(row).(name := model.name, dueDate := model.dueDate, status := model.status)
  }

  /** As written, the returned entity disagrees with the stored row whenever status and due date differ. */
  lemma UpdatedTaskAsWrittenDisagrees(row: TaskRow, model: AsanaTaskUpdate)
    requires model.status != model.dueDate
    ensures UpdatedTaskAsWritten(row, model) != MapTask(UpdatedTaskRow(row, model))
  {
    assert UpdatedTaskAsWritten(row, model).status != MapTask(UpdatedTaskRow(row, model)).status;
  }

  /** Row `k` of the Project table has that name under NOCASE. */
  predicate ProjectNamed(projects: map<string, ProjectRow>, k: string, name: string) {
    k in projects && NoCaseEq(projects[k].name, name)
  }

  /** Row `k` of the Task table belongs to that project (exact ProjectId) and has that name under NOCASE. */
  predicate TaskNamed(tasks: map<string, TaskRow>, k: string, projectId: string, name: string) {
    k in tasks && tasks[k].projectId == projectId && NoCaseEq(tasks[k].name, name)
  }

  /** Task row `k` joins (on the exact ProjectId) to some project with that name. */
  ghost predicate InNamedProject(projects: map<string, ProjectRow>, tasks: map<string, TaskRow>, k: string, projectName: string) {
    k in tasks && exists pk :: ProjectNamed(projects, pk, projectName) && projects[pk].id == tasks[k].projectId
  }

  /** Every row is stored under the NOCASE fold of its Id, which makes Ids unique under NOCASE. */
  ghost predicate TablesValid(projects: map<string, ProjectRow>, tasks: map<string, TaskRow>) {
    && (forall k :: k in projects ==> Fold(projects[k].id) == k)
    && (forall k :: k in tasks ==> Fold(tasks[k].id) == k)
  }

  class AsanaApi {
    /** The Project table, keyed by the folded Id. */
    var projects: map<string, ProjectRow>
    /** The Task table, keyed by the folded Id. */
    var tasks: map<string, TaskRow>

    ghost predicate Valid()
      reads this
    {
      TablesValid(projects, tasks)
    }

    /** Opening the store creates the tables if missing and keeps rows already there. */
    constructor(existingProjects: map<string, ProjectRow>, existingTasks: map<string, TaskRow>)
      requires TablesValid(existingProjects, existingTasks)
      ensures Valid()
      ensures projects == existingProjects && tasks == existingTasks
    {
      projects := existingProjects;
      tasks := existingTasks;
    }

    method PurgeAllData()
      modifies this
      ensures Valid()
      ensures projects == map[] && tasks == map[]
    {
      projects := map[];
      tasks := map[];
    }

    method CreateProject(projectName: string, freshId: string) returns (r: Result<AsanaProject, DbError>)
      requires Valid()
      modifies this
      ensures Valid() && tasks == old(tasks)
      ensures Fold(freshId) in old(projects) ==> r == Err(IntegrityError) && projects == old(projects)
      ensures Fold(freshId) !in old(projects) ==>
        && r == Ok(AsanaProject(freshId, projectName, ProjectLinkPrefix + freshId))
        && projects == old(projects)[Fold(freshId) := ProjectRow(freshId, projectName)]
    {
      if Fold(freshId) in projects {
        return Err(IntegrityError);
      }
      projects := projects[Fold(freshId) := ProjectRow(freshId, projectName)];
      r := Ok(AsanaProject(freshId, projectName, ProjectLinkPrefix + freshId));
    }

    method GetProjectId(projectName: string) returns (r: Option<string>)
      ensures r.None? <==> !exists k :: ProjectNamed(projects, k, projectName)
      ensures r.Some? ==> exists k :: ProjectNamed(projects, k, projectName) && projects[k].id == r.value
    {
      if exists k :: k in projects && ProjectNamed(projects, k, projectName) {
        var k :| k in projects && ProjectNamed(projects, k, projectName);
        r := Some(projects[k].id);
      } else {
        r := None;
      }
    }

    method GetProjectById(projectId: string) returns (r: Option<AsanaProject>)
      ensures r.None? <==> Fold(projectId) !in projects
      ensures r.Some? ==> r.value == MapProject(projects[Fold(projectId)])
      ensures Valid() && r.Some? ==> NoCaseEq(r.value.id, projectId)
    {
      if Fold(projectId) in projects {
        r := Some(MapProject(projects[Fold(projectId)]));
      } else {
        r := None;
      }
    }

    method GetProjectByName(projectName: string) returns (r: Option<AsanaProject>)
      ensures r.None? <==> !exists k :: ProjectNamed(projects, k, projectName)
      ensures r.Some? ==> exists k :: ProjectNamed(projects, k, projectName) && r.value == MapProject(projects[k])
    {
      if exists k :: k in projects && ProjectNamed(projects, k, projectName) {
        var k :| k in projects && ProjectNamed(projects, k, projectName);
        r := Some(MapProject(projects[k]));
      } else {
        r := None;
      }
    }

    method UpdateProject(projectId: string, model: AsanaProjectUpdate) returns (r: Option<AsanaProject>)
      requires Valid()
      modifies this
      ensures Valid() && tasks == old(tasks)
      ensures Fold(projectId) !in old(projects) ==> r == None && projects == old(projects)
      ensures Fold(projectId) in old(projects) ==>
        var row := old(projects)[Fold(projectId)];
        && projects == old(projects)[Fold(projectId) := row.(name := model.name)]
        && r == Some(MapProject(row).(name := model.name))
    {
      var entity := GetProjectById(projectId);
      if entity.None? {
        return None;
      }
      projects := projects[Fold(projectId) := projects[Fold(projectId)].(name := model.name)];
      r := Some(entity.value.(name := model.name));
    }

    /** Every project, each once, in some order. */
    method GetProjects() returns (r: seq<AsanaProject>, ghost order: seq<string>)
      ensures forall k :: k in order <==> k in projects
      ensures forall i, j :: 0 <= i < j < |order| ==> order[i] != order[j]
      ensures |r| == |order|
      ensures forall i :: 0 <= i < |r| ==> order[i] in projects && r[i] == MapProject(projects[order[i]])
      ensures forall p :: p in r <==> exists k :: k in projects && p == MapProject(projects[k])
    {
      var keys := projects.Keys;
      r, order := [], [];
      while keys != {}
        invariant keys <= projects.Keys
        invariant forall k :: k in order <==> k in projects && k !in keys
        invariant forall i, j :: 0 <= i < j < |order| ==> order[i] != order[j]
        invariant |r| == |order|
        invariant forall i :: 0 <= i < |r| ==> order[i] in projects && r[i] == MapProject(projects[order[i]])
        decreases |keys|
      {
        var k :| k in keys;
        r, order := r + [MapProject(projects[k])], order + [k];
        keys := keys - {k};
      }
      forall k | k in projects
        ensures MapProject(projects[k]) in r
      {
        var i :| 0 <= i < |order| && order[i] == k;
        assert r[i] == MapProject(projects[k]);
      }
    }

    /**
     * Deletes the project's tasks (ProjectId compared exactly) and the project
     * (Id compared under NOCASE); true for any non-empty id.
     */
    method DeleteProjectById(projectId: Option<string>) returns (ok: bool)
      requires Valid()
      modifies this
      ensures Valid()
      ensures ok <==> projectId.Some? && projectId.value != ""
      ensures !ok ==> projects == old(projects) && tasks == old(tasks)
      ensures ok ==>
        && tasks == TasksNotIn(old(tasks), projectId.value)
        && projects == old(projects) - {Fold(projectId.value)}
    {
      if projectId.Some? && projectId.value != "" {
        tasks := TasksNotIn(tasks, projectId.value);
        projects := projects - {Fold(projectId.value)};
        return true;
      }
      return false;
    }

    method DeleteProject(projectName: string) returns (ok: bool)
      requires Valid()
      modifies this
      ensures Valid()
      ensures !ok ==> projects == old(projects) && tasks == old(tasks)
      ensures (!exists k :: ProjectNamed(old(projects), k, projectName)) ==> !ok
      ensures
        (&& (exists k :: ProjectNamed(old(projects), k, projectName))
         && (forall k :: ProjectNamed(old(projects), k, projectName) ==> old(projects)[k].id != ""))
        ==> ok
      ensures ok ==>
        exists k ::
          && ProjectNamed(old(projects), k, projectName)
          && old(projects)[k].id != ""
          && projects == old(projects) - {k}
          && tasks == TasksNotIn(old(tasks), old(projects)[k].id)
    {
      var projectId := GetProjectId(projectName);
      if projectId.Some? {
        ghost var k :| ProjectNamed(projects, k, projectName) && projects[k].id == projectId.value;
      }
      ok := DeleteProjectById(projectId);
    }

    method CreateTask(freshId: string, today: string, projectId: string, taskName: string,
                      dueDate: Option<string> := None, status: string := "Not Started")
      returns (r: Result<AsanaTask, DbError>)
      requires Valid()
      modifies this
      ensures Valid() && projects == old(projects)
      ensures Fold(freshId) in old(tasks) ==> r == Err(IntegrityError) && tasks == old(tasks)
      ensures Fold(freshId) !in old(tasks) ==>
        var due := EffectiveDueDate(dueDate, today);
        && r == Ok(AsanaTask(freshId, projectId, taskName, due, status, TaskLinkPrefix + freshId))
        && tasks == old(tasks)[Fold(freshId) := TaskRow(freshId, projectId, taskName, due, status)]
    {
      var due := EffectiveDueDate(dueDate, today);
      if Fold(freshId) in tasks {
        return Err(IntegrityError);
      }
      tasks := tasks[Fold(freshId) := TaskRow(freshId, projectId, taskName, due, status)];
      r := Ok(AsanaTask(freshId, projectId, taskName, due, status, TaskLinkPrefix + freshId));
    }

    method GetTaskById(taskId: string) returns (r: Option<AsanaTask>)
      ensures r.None? <==> Fold(taskId) !in tasks
      ensures r.Some? ==> r.value == MapTask(tasks[Fold(taskId)])
      ensures Valid() && r.Some? ==> NoCaseEq(r.value.id, taskId)
    {
      if Fold(taskId) in tasks {
        r := Some(MapTask(tasks[Fold(taskId)]));
      } else {
        r := None;
      }
    }

    /** A task with that name in a project with that name, if there is one. */
    method GetTaskByName(projectName: string, name: string) returns (r: Option<AsanaTask>)
      ensures (!exists pk :: ProjectNamed(projects, pk, projectName)) ==> r == None
      ensures r.Some? ==>
        exists pk, k ::
          && ProjectNamed(projects, pk, projectName)
          && TaskNamed(tasks, k, projects[pk].id, name)
          && r.value == MapTask(tasks[k])
      ensures r.None? && (exists pk :: ProjectNamed(projects, pk, projectName)) ==>
        exists pk :: ProjectNamed(projects, pk, projectName) && forall k :: !TaskNamed(tasks, k, projects[pk].id, name)
    {
      var project := GetProjectByName(projectName);
      if project.None? {
        return None;
      }
      ghost var pk :| ProjectNamed(projects, pk, projectName) && project.value == MapProject(projects[pk]);
      var projectId := project.value.id;
      if exists k :: k in tasks && TaskNamed(tasks, k, projectId, name) {
        var k :| k in tasks && TaskNamed(tasks, k, projectId, name);
        r := Some(MapTask(tasks[k]));
      } else {
        r := None;
      }
    }

    /** The given task rows as entities, each once, in some order. */
    method MapTaskRows(keys: set<string>) returns (r: seq<AsanaTask>, ghost order: seq<string>)
      requires keys <= tasks.Keys
      ensures forall k :: k in order <==> k in keys
      ensures forall i, j :: 0 <= i < j < |order| ==> order[i] != order[j]
      ensures |r| == |order|
      ensures forall i :: 0 <= i < |r| ==> order[i] in tasks && r[i] == MapTask(tasks[order[i]])
      ensures forall t :: t in r <==> exists k :: k in keys && t == MapTask(tasks[k])
    {
      var left := keys;
      r, order := [], [];
      while left != {}
        invariant left <= keys
        invariant forall k :: k in order <==> k in keys && k !in left
        invariant forall i, j :: 0 <= i < j < |order| ==> order[i] != order[j]
        invariant |r| == |order|
        invariant forall i :: 0 <= i < |r| ==> order[i] in tasks && r[i] == MapTask(tasks[order[i]])
        decreases |left|
      {
        var k :| k in left;
        r, order := r + [MapTask(tasks[k])], order + [k];
        left := left - {k};
      }
      forall k | k in keys
        ensures MapTask(tasks[k]) in r
      {
        var i :| 0 <= i < |order| && order[i] == k;
        assert r[i] == MapTask(tasks[k]);
      }
    }

    method GetTasksByProjectId(projectId: string) returns (r: seq<AsanaTask>, ghost order: seq<string>)
      ensures forall k :: k in order <==> k in tasks && tasks[k].projectId == projectId
      ensures forall i, j :: 0 <= i < j < |order| ==> order[i] != order[j]
      ensures |r| == |order|
      ensures forall i :: 0 <= i < |r| ==> order[i] in tasks && r[i] == MapTask(tasks[order[i]])
      ensures forall t :: t in r <==> exists k :: k in tasks && tasks[k].projectId == projectId && t == MapTask(tasks[k])
    {
      r, order := MapTaskRows(set k | k in tasks && tasks[k].projectId == projectId);
    }

    /** The tasks of every project with that name. */
    method GetTasksByProjectName(projectName: string) returns (r: seq<AsanaTask>, ghost order: seq<string>)
      ensures forall k :: k in order <==> InNamedProject(projects, tasks, k, projectName)
      ensures forall i, j :: 0 <= i < j < |order| ==> order[i] != order[j]
      ensures |r| == |order|
      ensures forall i :: 0 <= i < |r| ==> order[i] in tasks && r[i] == MapTask(tasks[order[i]])
      ensures forall t :: t in r <==> exists k :: InNamedProject(projects, tasks, k, projectName) && t == MapTask(tasks[k])
    {
      r, order := MapTaskRows(
        set k | k in tasks && (exists pk :: pk in projects && ProjectNamed(projects, pk, projectName) && projects[pk].id == tasks[k].projectId));
    }

    /** Sets the status of the task with that Id, if any; true whenever both arguments are non-empty. */
    method UpdateTaskStatus(taskId: string, status: string) returns (ok: bool)
      requires Valid()
      modifies this
      ensures Valid() && projects == old(projects)
      ensures ok <==> taskId != "" && status != ""
      ensures !ok || Fold(taskId) !in old(tasks) ==> tasks == old(tasks)
      ensures ok && Fold(taskId) in old(tasks) ==>
        tasks == old(tasks)[Fold(taskId) := old(tasks)[Fold(taskId)].(status := status)]
    {
      if taskId != "" && status != "" {
        if Fold(taskId) in tasks {
          tasks := tasks[Fold(taskId) := tasks[Fold(taskId)].(status := status)];
        }
        return true;
      }
      return false;
    }

    /** Stores the update's name, due date and status; returns the entity as update_task builds it. */
    method UpdateTask(taskId: string, model: AsanaTaskUpdate) returns (r: Option<AsanaTask>)
      requires Valid()
      modifies this
      ensures Valid() && projects == old(projects)
      ensures Fold(taskId) !in old(tasks) ==> r == None && tasks == old(tasks)
      ensures Fold(taskId) in old(tasks) ==>
        var row := old(tasks)[Fold(taskId)];
        && tasks == old(tasks)[Fold(taskId) := UpdatedTaskRow(row, model)]
        && r == Some(UpdatedTaskAsWritten(row, model))
    {
      var entity := GetTaskById(taskId);
      if entity.None? {
        return None;
      }
      var row := tasks[Fold(taskId)];
      tasks := tasks[Fold(taskId) := UpdatedTaskRow(row, model)];
      r := Some(entity.value.(name := model.name, dueDate := model.dueDate, status := model.dueDate));
    }

    method DeleteTaskById(taskId: string) returns (ok: bool)
      requires Valid()
      modifies this
      ensures Valid() && projects == old(projects)
      ensures ok <==> taskId != ""
      ensures !ok ==> tasks == old(tasks)
      ensures ok ==> tasks == old(tasks) - {Fold(taskId)}
    {
      if taskId != "" {
        tasks := tasks - {Fold(taskId)};
        return true;
      }
      return false;
    }

    /** Deletes that project's tasks with that name; false if no such project or an empty name. */
    method DeleteTaskByName(projectName: string, name: string) returns (ok: bool)
      requires Valid()
      modifies this
      ensures Valid() && projects == old(projects)
      ensures ok <==> (exists pk :: ProjectNamed(projects, pk, projectName)) && name != ""
      ensures !ok ==> tasks == old(tasks)
      ensures ok ==>
        exists pk ::
          && ProjectNamed(projects, pk, projectName)
          && tasks == TasksNotNamed(old(tasks), projects[pk].id, name)
    {
      var project := GetProjectByName(projectName);
      if project.None? {
        return false;
      }
      if name != "" {
        ghost var pk :| ProjectNamed(projects, pk, projectName) && project.value == MapProject(projects[pk]);
        tasks := TasksNotNamed(tasks, project.value.id, name);
        return true;
      }
      return false;
    }
  }
}
