/** Task dependencies and workflow templates: the dependency graph and its cycle check. */
module Tasks {
  import opened Database
  import opened Graph

  datatype Task = Task(title: string, matterId: Option<Uuid>, dueDate: Option<int>, sortOrder: int)

  /** taskId waits for dependsOnId. */
  datatype Dependency = Dependency(taskId: Uuid, dependsOnId: Uuid)

  datatype TemplateStep = TemplateStep(title: string, relativeDueDays: Option<int>,
                                       sortOrder: int, dependsOnStepOrder: Option<int>)

  datatype Board = Board(tasks: map<Uuid, Task>, deps: map<Uuid, Dependency>, templates: map<Uuid, seq<TemplateStep>>)

  datatype Error =
    | TaskNotFound
    | DependencyTaskNotFound
    | CircularReference
    | AlreadyExists
    | DependencyNotFound
    | TemplateNotFound
    | IntegrityError

  datatype Request =
    | CreateTask(id: Uuid, task: Task)
    | DeleteTask(taskId: Uuid)
    | AddDependency(fromId: Uuid, toId: Uuid, newId: Uuid)
    | RemoveDependency(dependencyId: Uuid)
    | CreateTemplate(newTemplateId: Uuid, steps: seq<TemplateStep>)
    | ApplyTemplate(templateId: Uuid, matterId: Uuid, today: int, uuid4: nat -> Uuid)

  ghost function Edges(deps: map<Uuid, Dependency>): set<(Uuid, Uuid)> {
    set k | k in deps :: (deps[k].taskId, deps[k].dependsOnId)
  }

  /** Foreign keys resolve, and no two rows hold the same pair (uq_task_dependency). */
  ghost predicate Valid(b: Board) {
    (forall k :: k in b.deps ==> b.deps[k].taskId in b.tasks && b.deps[k].dependsOnId in b.tasks)
    && (forall j, k :: j in b.deps && k in b.deps && b.deps[j] == b.deps[k] ==> j == k)
  }

  // Applying a template

  ghost predicate Ascending(s: seq<TemplateStep>) {
    forall i, j :: 0 <= i < j < |s| ==> s[i].sortOrder <= s[j].sortOrder
  }

  /** Stable sort by sort_order. */
  function Sorted(steps: seq<TemplateStep>): (r: seq<TemplateStep>)
    ensures Ascending(r) && |r| == |steps|
    ensures forall s :: s in r <==> s in steps
  {
    if steps == [] then [] else Insert(Sorted(steps[..|steps| - 1]), steps[|steps| - 1])
  }

  /** x goes after every element that is not larger. */
  function Insert(s: seq<TemplateStep>, x: TemplateStep): (r: seq<TemplateStep>)
    requires Ascending(s)
    ensures Ascending(r) && |r| == |s| + 1
    ensures forall y :: y in r <==> y in s || y == x
  {
    if s == [] || x.sortOrder < s[0].sortOrder then [x] + s else
      var rest := Insert(s[1..], x);
      assert forall y :: y in s[1..] ==> s[0].sortOrder <= y.sortOrder;
      assert forall j :: 0 <= j < |rest| ==> rest[j] in rest;
      [s[0]] + rest
  }

  function NewTask(step: TemplateStep, matterId: Uuid, today: int): Task {
    var due := if step.relativeDueDays.Some? then Some(today + step.relativeDueDays.value) else None;
    Task(step.title, Some(matterId), due, step.sortOrder)
  }

  /** One task a step, in order; None when a drawn key is taken. */
  function InsertTasks(tasks: map<Uuid, Task>, steps: seq<TemplateStep>, matterId: Uuid, today: int, uuid4: nat -> Uuid)
    : Option<map<Uuid, Task>>
  {
    if steps == [] then Some(tasks) else
      var n := |steps| - 1;
      var before := InsertTasks(tasks, steps[..n], matterId, today, uuid4);
      if before.None? || uuid4(n) in before.value then None
      else Some(before.value[uuid4(n) := NewTask(steps[n], matterId, today)])
  }

  /** The task made for each sort order; among equal sort orders the last one made. */
  function StepToTask(steps: seq<TemplateStep>, uuid4: nat -> Uuid): map<int, Uuid> {
    if steps == [] then map[] else
      var n := |steps| - 1;
      StepToTask(steps[..n], uuid4)[steps[n].sortOrder := uuid4(n)]
  }

  /** One dependency row for every step whose dependsOnStepOrder names a step; None on a constraint violation. */
  function InsertLinks(deps: map<Uuid, Dependency>, stepToTask: map<int, Uuid>, steps: seq<TemplateStep>,
                       base: nat, uuid4: nat -> Uuid)
    : Option<map<Uuid, Dependency>>
    requires forall s :: s in steps ==> s.sortOrder in stepToTask
  {
    if steps == [] then Some(deps) else
      var n := |steps| - 1;
      var before := InsertLinks(deps, stepToTask, steps[..n], base, uuid4);
      if before.None? then None else InsertLink(before.value, stepToTask, steps[n], uuid4(base + n))
  }

  function InsertLink(deps: map<Uuid, Dependency>, stepToTask: map<int, Uuid>, step: TemplateStep, id: Uuid)
    : Option<map<Uuid, Dependency>>
    requires step.sortOrder in stepToTask
  {
    if step.dependsOnStepOrder.None? || step.dependsOnStepOrder.value !in stepToTask then Some(deps)
    else
      var row := Dependency(stepToTask[step.sortOrder], stepToTask[step.dependsOnStepOrder.value]);
      if id in deps || row in deps.Values then None else Some(deps[id := row])
  }

  /** No later step of the list has the same sort order. */
  ghost predicate LastOfOrder(steps: seq<TemplateStep>, i: nat)
    requires i < |steps|
  {
    forall j :: i < j < |steps| ==> steps[j].sortOrder != steps[i].sortOrder
  }

  lemma {:induction false} StepToTaskDomain(steps: seq<TemplateStep>, uuid4: nat -> Uuid)
    ensures forall i :: 0 <= i < |steps| ==> steps[i].sortOrder in StepToTask(steps, uuid4)
    ensures forall x :: x in StepToTask(steps, uuid4) ==>
              exists i :: 0 <= i < |steps| && steps[i].sortOrder == x && StepToTask(steps, uuid4)[x] == uuid4(i)
                          && LastOfOrder(steps, i)
  {
    if steps != [] {
      var n := |steps| - 1;
      StepToTaskDomain(steps[..n], uuid4);
      var m, m' := StepToTask(steps[..n], uuid4), StepToTask(steps, uuid4);
      forall i | 0 <= i < |steps| ensures steps[i].sortOrder in m' {
        if i < n { assert steps[..n][i].sortOrder in m; }
      }
      forall x | x in m'
        ensures exists i :: 0 <= i < |steps| && steps[i].sortOrder == x && m'[x] == uuid4(i) && LastOfOrder(steps, i)
      {
        if x == steps[n].sortOrder {
          assert m'[x] == uuid4(n) && LastOfOrder(steps, n);
        } else {
          var i :| 0 <= i < n && steps[..n][i].sortOrder == x && m[x] == uuid4(i) && LastOfOrder(steps[..n], i);
          assert steps[i].sortOrder == x && m'[x] == uuid4(i) && LastOfOrder(steps, i);
        }
      }
    }
  }

  lemma DomainIsOrders(steps: seq<TemplateStep>, uuid4: nat -> Uuid)
    ensures StepToTask(steps, uuid4).Keys == Orders(steps)
  {
    var m := StepToTask(steps, uuid4);
    StepToTaskDomain(steps, uuid4);
    forall x ensures x in m <==> x in Orders(steps) {
      if x in m {
        var i :| 0 <= i < |steps| && steps[i].sortOrder == x;
        assert steps[i] in steps;
      }
    }
  }

  lemma SortedOrders(steps: seq<TemplateStep>)
    ensures Orders(Sorted(steps)) == Orders(steps)
  {
  }

  /** The keys of the step-to-task map are the sort orders of the template. */
  lemma StepToTaskCovers(steps: seq<TemplateStep>, uuid4: nat -> Uuid)
    ensures StepToTask(Sorted(steps), uuid4).Keys == Orders(steps)
    ensures forall s :: s in steps ==> s.sortOrder in StepToTask(Sorted(steps), uuid4)
  {
    DomainIsOrders(Sorted(steps), uuid4);
    SortedOrders(steps);
    assert forall s :: s in steps ==> s.sortOrder in Orders(steps);
  }

  // What each request does. The result is the state the session leaves behind.

  ghost function Apply(b: Board, templateId: Uuid, matterId: Uuid, today: int, uuid4: nat -> Uuid)
    : (Board, Outcome<Error>)
  {
    if templateId !in b.templates then (b, Raised(TemplateNotFound)) else
      var steps := b.templates[templateId];
      var tasks := InsertTasks(b.tasks, Sorted(steps), matterId, today, uuid4);
      if tasks.None? then (b, Raised(IntegrityError)) else
        var deps := LinkSteps(b.deps, steps, uuid4);
        if deps.None? then (b, Raised(IntegrityError))
        else (b.(tasks := tasks.value, deps := deps.value), Committed)
  }

  /** The second loop of an application: the tasks have drawn their keys, the links draw the following ones. */
  ghost function LinkSteps(deps: map<Uuid, Dependency>, steps: seq<TemplateStep>, uuid4: nat -> Uuid)
    : Option<map<Uuid, Dependency>>
  {
    StepToTaskCovers(steps, uuid4);
    InsertLinks(deps, StepToTask(Sorted(steps), uuid4), steps, |steps|, uuid4)
  }

  ghost function Add(b: Board, fromId: Uuid, toId: Uuid, newId: Uuid): (Board, Outcome<Error>) {
    if fromId !in b.tasks then (b, Raised(TaskNotFound))
    else if toId !in b.tasks then (b, Raised(DependencyTaskNotFound))
    else if Reaches(Edges(b.deps), toId, fromId) then (b, Raised(CircularReference))
    else if Dependency(fromId, toId) in b.deps.Values then (b, Raised(AlreadyExists))
    else if newId in b.deps then (b, Raised(IntegrityError))
    else (b.(deps := b.deps[newId := Dependency(fromId, toId)]), Committed)
  }

  /** The rows that survive the deletion of a task: both foreign keys cascade. */
  function Surviving(deps: map<Uuid, Dependency>, taskId: Uuid): map<Uuid, Dependency> {
    map k | k in deps && deps[k].taskId != taskId && deps[k].dependsOnId != taskId :: deps[k]
  }

  ghost function Step(b: Board, r: Request): (Board, Outcome<Error>) {
    match r
    case CreateTask(id, task) =>
      if id in b.tasks then (b, Raised(IntegrityError)) else (b.(tasks := b.tasks[id := task]), Committed)
    case DeleteTask(id) =>
      if id !in b.tasks then (b, Raised(TaskNotFound))
      else (b.(tasks := b.tasks - {id}, deps := Surviving(b.deps, id)), Committed)
    case AddDependency(fromId, toId, newId) => Add(b, fromId, toId, newId)
    case RemoveDependency(id) =>
      if id !in b.deps then (b, Raised(DependencyNotFound)) else (b.(deps := b.deps - {id}), Committed)
    case CreateTemplate(id, steps) =>
      if id in b.templates then (b, Raised(IntegrityError)) else (b.(templates := b.templates[id := steps]), Committed)
    case ApplyTemplate(id, matterId, today, uuid4) => Apply(b, id, matterId, today, uuid4)
  }

  ghost function Run(b: Board, rs: seq<Request>): Board
    decreases |rs|
  {
    if rs == [] then b else Run(Step(b, rs[0]).0, rs[1..])
  }

  // The graph a template describes

  ghost function Orders(steps: seq<TemplateStep>): set<int> {
    set s | s in steps :: s.sortOrder
  }

  /** An edge for every step that names another step of the template by its sort order. */
  ghost function StepGraph(steps: seq<TemplateStep>): set<(int, int)> {
    StepGraphOver(steps, Orders(steps))
  }

  ghost function StepGraphOver(steps: seq<TemplateStep>, orders: set<int>): set<(int, int)> {
    set s | s in steps && s.dependsOnStepOrder.Some? && s.dependsOnStepOrder.value in orders
      :: (s.sortOrder, s.dependsOnStepOrder.value)
  }

  /** Every step depends only on a lower sort order. */
  ghost predicate LooksBack(steps: seq<TemplateStep>) {
    forall s :: s in steps && s.dependsOnStepOrder.Some? ==> s.dependsOnStepOrder.value < s.sortOrder
  }

  lemma {:induction false} DescendingPath(E: set<(int, int)>, p: seq<int>)
    requires forall e :: e in E ==> e.1 < e.0
    requires IsPath(E, p)
    ensures p[|p| - 1] <= p[0]
    decreases |p|
  {
    if |p| > 1 {
      PathTail(E, p);
      assert (p[0], p[1]).1 < (p[0], p[1]).0;
      DescendingPath(E, p[1..]);
    }
  }

  /** The usual way to write a template is enough. */
  lemma LookingBackIsAcyclic(steps: seq<TemplateStep>)
    requires LooksBack(steps)
    ensures Acyclic(StepGraph(steps))
  {
    var E := StepGraph(steps);
    forall v, w | (v, w) in E && Reaches(E, w, v) ensures false {
      assert (v, w).1 < (v, w).0;
      var p :| IsPath(E, p) && p[0] == w && p[|p| - 1] == v;
      DescendingPath(E, p);
    }
  }

  lemma {:induction false} InsertTasksFresh(tasks: map<Uuid, Task>, steps: seq<TemplateStep>, matterId: Uuid,
                                            today: int, uuid4: nat -> Uuid)
    requires InsertTasks(tasks, steps, matterId, today, uuid4).Some?
    ensures var r := InsertTasks(tasks, steps, matterId, today, uuid4).value;
            && tasks.Keys <= r.Keys
            && (forall i :: 0 <= i < |steps| ==> uuid4(i) in r && uuid4(i) !in tasks)
            && (forall i, j :: 0 <= i < j < |steps| ==> uuid4(i) != uuid4(j))
  {
    if steps != [] {
      InsertTasksFresh(tasks, steps[..|steps| - 1], matterId, today, uuid4);
    }
  }

  lemma {:induction false} InsertLinksEdges(deps: map<Uuid, Dependency>, m: map<int, Uuid>, steps: seq<TemplateStep>,
                                            base: nat, uuid4: nat -> Uuid)
    requires forall s :: s in steps ==> s.sortOrder in m
    requires InsertLinks(deps, m, steps, base, uuid4).Some?
    ensures Edges(InsertLinks(deps, m, steps, base, uuid4).value)
         == Edges(deps) + Image(StepGraphOver(steps, m.Keys), m)
  {
    if steps == [] {
      assert Image(StepGraphOver(steps, m.Keys), m) == {};
    } else {
      var n := |steps| - 1;
      var step := steps[n];
      InsertLinksEdges(deps, m, steps[..n], base, uuid4);
      assert steps == steps[..n] + [step];
      var before := InsertLinks(deps, m, steps[..n], base, uuid4).value;
      InsertLinkEdges(before, m, step, uuid4(base + n));
      ImageStep(m, steps[..n], step);
    }
  }

  /** The edge a step asks for: none when it names no step of the template. */
  ghost function LinkEdge(m: map<int, Uuid>, step: TemplateStep): set<(Uuid, Uuid)>
    requires step.sortOrder in m
  {
    if step.dependsOnStepOrder.Some? && step.dependsOnStepOrder.value in m
    then {(m[step.sortOrder], m[step.dependsOnStepOrder.value])} else {}
  }

  lemma InsertLinkEdges(deps: map<Uuid, Dependency>, m: map<int, Uuid>, step: TemplateStep, id: Uuid)
    requires step.sortOrder in m
    requires InsertLink(deps, m, step, id).Some?
    ensures Edges(InsertLink(deps, m, step, id).value) == Edges(deps) + LinkEdge(m, step)
  {
    if step.dependsOnStepOrder.Some? && step.dependsOnStepOrder.value in m {
      InsertedEdge(deps, id, Dependency(m[step.sortOrder], m[step.dependsOnStepOrder.value]));
    }
  }

  lemma ImageStep(m: map<int, Uuid>, earlier: seq<TemplateStep>, step: TemplateStep)
    requires step.sortOrder in m && forall s :: s in earlier ==> s.sortOrder in m
    ensures Image(StepGraphOver(earlier + [step], m.Keys), m)
         == Image(StepGraphOver(earlier, m.Keys), m) + LinkEdge(m, step)
  {
    var g, h := StepGraphOver(earlier, m.Keys), StepGraphOver(earlier + [step], m.Keys);
    if step.dependsOnStepOrder.Some? && step.dependsOnStepOrder.value in m {
      var e := (step.sortOrder, step.dependsOnStepOrder.value);
      assert h == g + {e};
      ImageInsert(g, e, m);
    } else {
      assert h == g;
    }
  }

  lemma InsertedEdge(deps: map<Uuid, Dependency>, id: Uuid, row: Dependency)
    requires id !in deps
    ensures Edges(deps[id := row]) == Edges(deps) + {(row.taskId, row.dependsOnId)}
  {
    var after := deps[id := row];
    forall e ensures e in Edges(after) <==> e in Edges(deps) + {(row.taskId, row.dependsOnId)} {
      if e in Edges(deps) {
        var k :| k in deps && e == (deps[k].taskId, deps[k].dependsOnId);
        assert k in after && after[k] == deps[k];
      }
      if e == (row.taskId, row.dependsOnId) { assert id in after && after[id] == row; }
    }
  }

  lemma ImageInsert(g: set<(int, int)>, e: (int, int), m: map<int, Uuid>)
    requires forall x :: x in g + {e} ==> x.0 in m && x.1 in m
    ensures Image(g + {e}, m) == Image(g, m) + {(m[e.0], m[e.1])}
  {
  }

  lemma NewTasksInjective(tasks: map<Uuid, Task>, sorted: seq<TemplateStep>, matterId: Uuid, today: int,
                          uuid4: nat -> Uuid)
    requires InsertTasks(tasks, sorted, matterId, today, uuid4).Some?
    ensures var m := StepToTask(sorted, uuid4); Injective(m) && forall x :: x in m ==> m[x] !in tasks
  {
    var m := StepToTask(sorted, uuid4);
    InsertTasksFresh(tasks, sorted, matterId, today, uuid4);
    StepToTaskDomain(sorted, uuid4);
    forall x | x in m ensures m[x] !in tasks {
      var i :| 0 <= i < |sorted| && sorted[i].sortOrder == x && m[x] == uuid4(i);
    }
    forall x, y | x in m && y in m && m[x] == m[y] ensures x == y {
      var i :| 0 <= i < |sorted| && sorted[i].sortOrder == x && m[x] == uuid4(i);
      var j :| 0 <= j < |sorted| && sorted[j].sortOrder == y && m[y] == uuid4(j);
      assert i == j;
    }
  }

  /** A committed template application leaves an acyclic board acyclic exactly when the template's own graph is. */
  lemma ApplyAcyclicIff(b: Board, templateId: Uuid, matterId: Uuid, today: int, uuid4: nat -> Uuid)
    requires Valid(b) && Acyclic(Edges(b.deps))
    requires Apply(b, templateId, matterId, today, uuid4).1.Committed?
    ensures Acyclic(Edges(Apply(b, templateId, matterId, today, uuid4).0.deps))
       <==> Acyclic(StepGraph(b.templates[templateId]))
  {
    var steps := b.templates[templateId];
    var m := StepToTask(Sorted(steps), uuid4);
    StepToTaskCovers(steps, uuid4);
    NewTasksInjective(b.tasks, Sorted(steps), matterId, today, uuid4);
    InsertLinksEdges(b.deps, m, steps, |steps|, uuid4);
    AcyclicDisjointUnion(Edges(b.deps), Image(StepGraph(steps), m), m.Values);
    AcyclicImage(StepGraph(steps), m);
  }

  lemma {:induction false} InsertLinksValid(b: Board, tasks: map<Uuid, Task>, m: map<int, Uuid>,
                                            steps: seq<TemplateStep>, base: nat, uuid4: nat -> Uuid)
    requires forall s :: s in steps ==> s.sortOrder in m
    requires Valid(b) && b.tasks.Keys <= tasks.Keys && (forall x :: x in m ==> m[x] in tasks)
    requires InsertLinks(b.deps, m, steps, base, uuid4).Some?
    ensures Valid(b.(tasks := tasks, deps := InsertLinks(b.deps, m, steps, base, uuid4).value))
  {
    if steps != [] {
      var n := |steps| - 1;
      InsertLinksValid(b, tasks, m, steps[..n], base, uuid4);
      var before := InsertLinks(b.deps, m, steps[..n], base, uuid4).value;
      var after := InsertLinks(b.deps, m, steps, base, uuid4).value;
      forall j, k | j in after && k in after && after[j] == after[k] ensures j == k {
        assert j in before ==> before[j] in before.Values;
        assert k in before ==> before[k] in before.Values;
      }
    }
  }

  lemma ApplyValid(b: Board, templateId: Uuid, matterId: Uuid, today: int, uuid4: nat -> Uuid)
    requires Valid(b)
    ensures Valid(Apply(b, templateId, matterId, today, uuid4).0)
  {
    if Apply(b, templateId, matterId, today, uuid4).1.Committed? {
      var steps := b.templates[templateId];
      var sorted := Sorted(steps);
      var m := StepToTask(sorted, uuid4);
      StepToTaskCovers(steps, uuid4);
      InsertTasksFresh(b.tasks, sorted, matterId, today, uuid4);
      StepToTaskDomain(sorted, uuid4);
      var tasks := InsertTasks(b.tasks, sorted, matterId, today, uuid4).value;
      forall x | x in m ensures m[x] in tasks {
        var i :| 0 <= i < |sorted| && sorted[i].sortOrder == x && m[x] == uuid4(i);
      }
      InsertLinksValid(b, tasks, m, steps, |steps|, uuid4);
    }
  }

  /** Every request keeps the foreign keys and the uniqueness of dependency rows. */
  lemma StepValid(b: Board, r: Request)
    requires Valid(b)
    ensures Valid(Step(b, r).0)
  {
    match r
    case ApplyTemplate(id, matterId, today, uuid4) => ApplyValid(b, id, matterId, today, uuid4);
    case AddDependency(fromId, toId, newId) =>
      forall k | k in b.deps ensures b.deps[k] in b.deps.Values {}
    case _ =>
  }

  /** Which refusal an addition meets, told on the tables alone. */
  lemma AddRefusals(b: Board, fromId: Uuid, toId: Uuid, newId: Uuid)
    ensures var r := Step(b, AddDependency(fromId, toId, newId)).1;
            var known, circular := fromId in b.tasks && toId in b.tasks, Reaches(Edges(b.deps), toId, fromId);
            && (r == Raised(TaskNotFound) <==> fromId !in b.tasks)
            && (r == Raised(DependencyTaskNotFound) <==> fromId in b.tasks && toId !in b.tasks)
            && (r == Raised(CircularReference) <==> known && circular)
            && (r == Raised(AlreadyExists) <==> known && !circular && HasPair(b, fromId, toId))
            && (r.Committed? <==> known && !circular && !HasPair(b, fromId, toId) && newId !in b.deps)
            && (r.Raised? ==> Step(b, AddDependency(fromId, toId, newId)).0 == b)
  {
    assert HasPair(b, fromId, toId) <==> Dependency(fromId, toId) in b.deps.Values;
  }

  ghost predicate HasPair(b: Board, fromId: Uuid, toId: Uuid) {
    exists k :: k in b.deps && b.deps[k].taskId == fromId && b.deps[k].dependsOnId == toId
  }

  /** A committed addition stores exactly the one row, and so the one edge. */
  lemma AddEffect(b: Board, fromId: Uuid, toId: Uuid, newId: Uuid)
    requires Step(b, AddDependency(fromId, toId, newId)).1.Committed?
    ensures var after := Step(b, AddDependency(fromId, toId, newId)).0;
            && after.tasks == b.tasks && after.templates == b.templates
            && after.deps == b.deps[newId := Dependency(fromId, toId)] && newId !in b.deps
            && Edges(after.deps) == Edges(b.deps) + {(fromId, toId)}
  {
    InsertedEdge(b.deps, newId, Dependency(fromId, toId));
  }

  /** Exactly that row goes; nothing changes when there is none. */
  lemma RemoveOutcome(b: Board, id: Uuid)
    ensures Step(b, RemoveDependency(id)).1.Committed? <==> id in b.deps
    ensures var after := Step(b, RemoveDependency(id)).0;
            && after.tasks == b.tasks && after.templates == b.templates
            && (forall k :: k in after.deps <==> k in b.deps && k != id)
            && forall k :: k in after.deps ==> after.deps[k] == b.deps[k]
  {
  }

  /** Exactly the task and the dependency rows that mention it on either side go. */
  lemma DeleteOutcome(b: Board, id: Uuid)
    requires Valid(b)
    ensures Step(b, DeleteTask(id)).1.Committed? <==> id in b.tasks
    ensures var after := Step(b, DeleteTask(id)).0;
            && after.templates == b.templates
            && (forall t :: t in after.tasks <==> t in b.tasks && t != id)
            && (forall t :: t in after.tasks ==> after.tasks[t] == b.tasks[t])
            && (forall k :: k in after.deps <==> k in b.deps && b.deps[k].taskId != id && b.deps[k].dependsOnId != id)
            && forall k :: k in after.deps ==> after.deps[k] == b.deps[k]
  {
  }

  lemma CreateOutcome(b: Board, id: Uuid, task: Task)
    ensures Step(b, CreateTask(id, task)).1.Committed? <==> id !in b.tasks
    ensures Step(b, CreateTask(id, task)).0 == if id in b.tasks then b else b.(tasks := b.tasks[id := task])
  {
  }

  lemma CreateTemplateOutcome(b: Board, id: Uuid, steps: seq<TemplateStep>)
    ensures Step(b, CreateTemplate(id, steps)).1.Committed? <==> id !in b.templates
    ensures Step(b, CreateTemplate(id, steps)).0 ==
            if id in b.templates then b else b.(templates := b.templates[id := steps])
  {
  }

  /** The task a template step becomes. */
  ghost predicate IsTaskOf(t: Task, step: TemplateStep, matterId: Uuid, today: int) {
    t.title == step.title && t.matterId == Some(matterId) && t.sortOrder == step.sortOrder
    && t.dueDate == match step.relativeDueDays
                    case Some(days) => Some(today + days)
                    case None => None
  }

  lemma {:induction false} InsertedTasks(tasks: map<Uuid, Task>, steps: seq<TemplateStep>, matterId: Uuid, today: int,
                                         uuid4: nat -> Uuid)
    requires InsertTasks(tasks, steps, matterId, today, uuid4).Some?
    ensures var r := InsertTasks(tasks, steps, matterId, today, uuid4).value;
            && (forall t :: t in tasks ==> t in r && r[t] == tasks[t])
            && forall i :: 0 <= i < |steps| ==> uuid4(i) in r && IsTaskOf(r[uuid4(i)], steps[i], matterId, today)
  {
    if steps != [] {
      InsertTasksFresh(tasks, steps, matterId, today, uuid4);
      InsertedTasks(tasks, steps[..|steps| - 1], matterId, today, uuid4);
    }
  }

  lemma {:induction false} InsertedOnly(tasks: map<Uuid, Task>, steps: seq<TemplateStep>, matterId: Uuid, today: int,
                                        uuid4: nat -> Uuid)
    requires InsertTasks(tasks, steps, matterId, today, uuid4).Some?
    ensures forall t :: t in InsertTasks(tasks, steps, matterId, today, uuid4).value && t !in tasks ==>
              exists i :: 0 <= i < |steps| && t == uuid4(i)
  {
    if steps != [] {
      InsertedOnly(tasks, steps[..|steps| - 1], matterId, today, uuid4);
    }
  }

  /** The tasks of the steps under their new keys, and nothing else, are added. */
  ghost predicate AddsTasks(tasks: map<Uuid, Task>, after: map<Uuid, Task>, steps: seq<TemplateStep>, matterId: Uuid,
                            today: int, uuid4: nat -> Uuid)
  {
    (forall t :: t in tasks ==> t in after && after[t] == tasks[t])
    && (forall t :: t in after && t !in tasks ==> exists i :: 0 <= i < |steps| && t == uuid4(i))
    && (forall i, j :: 0 <= i < j < |steps| ==> uuid4(i) != uuid4(j))
    && forall i :: 0 <= i < |steps| ==>
         uuid4(i) !in tasks && uuid4(i) in after && IsTaskOf(after[uuid4(i)], steps[i], matterId, today)
  }

  lemma InsertTasksAdds(tasks: map<Uuid, Task>, steps: seq<TemplateStep>, matterId: Uuid, today: int,
                        uuid4: nat -> Uuid)
    requires InsertTasks(tasks, steps, matterId, today, uuid4).Some?
    ensures AddsTasks(tasks, InsertTasks(tasks, steps, matterId, today, uuid4).value, steps, matterId, today, uuid4)
  {
    InsertTasksFresh(tasks, steps, matterId, today, uuid4);
    InsertedTasks(tasks, steps, matterId, today, uuid4);
    InsertedOnly(tasks, steps, matterId, today, uuid4);
  }

  /** Some step links sort order sorted[i] to sort order sorted[j], and both are the last of their orders. */
  ghost predicate LinkedPositions(steps: seq<TemplateStep>, sorted: seq<TemplateStep>, i: int, j: int) {
    0 <= i < |sorted| && 0 <= j < |sorted| && LastOfOrder(sorted, i) && LastOfOrder(sorted, j)
    && exists s :: s in steps && s.sortOrder == sorted[i].sortOrder && s.dependsOnStepOrder == Some(sorted[j].sortOrder)
  }

  ghost predicate IsStepEdge(steps: seq<TemplateStep>, uuid4: nat -> Uuid, e: (Uuid, Uuid)) {
    exists i, j :: LinkedPositions(steps, Sorted(steps), i, j) && e == (uuid4(i), uuid4(j))
  }

  lemma PositionOf(sorted: seq<TemplateStep>, uuid4: nat -> Uuid, x: int)
    requires x in StepToTask(sorted, uuid4)
    ensures exists i :: 0 <= i < |sorted| && sorted[i].sortOrder == x && LastOfOrder(sorted, i)
                        && StepToTask(sorted, uuid4)[x] == uuid4(i)
  {
    StepToTaskDomain(sorted, uuid4);
  }

  lemma LastStands(sorted: seq<TemplateStep>, uuid4: nat -> Uuid, i: int)
    requires 0 <= i < |sorted| && LastOfOrder(sorted, i)
    ensures sorted[i].sortOrder in StepToTask(sorted, uuid4)
    ensures StepToTask(sorted, uuid4)[sorted[i].sortOrder] == uuid4(i)
  {
    StepToTaskDomain(sorted, uuid4);
    var j :| 0 <= j < |sorted| && sorted[j].sortOrder == sorted[i].sortOrder && LastOfOrder(sorted, j)
             && StepToTask(sorted, uuid4)[sorted[i].sortOrder] == uuid4(j);
    assert i == j;
  }

  /** The edges among the new tasks are the links of the steps. */
  lemma StepEdges(steps: seq<TemplateStep>, m: map<int, Uuid>, uuid4: nat -> Uuid, e: (Uuid, Uuid))
    requires m == StepToTask(Sorted(steps), uuid4) && m.Keys == Orders(steps)
    ensures e in Image(StepGraph(steps), m) <==> IsStepEdge(steps, uuid4, e)
  {
    var sorted := Sorted(steps);
    if e in Image(StepGraph(steps), m) {
      var g :| g in StepGraph(steps) && g.0 in m && g.1 in m && e == (m[g.0], m[g.1]);
      PositionOf(sorted, uuid4, g.0);
      PositionOf(sorted, uuid4, g.1);
      var i :| 0 <= i < |sorted| && sorted[i].sortOrder == g.0 && LastOfOrder(sorted, i) && m[g.0] == uuid4(i);
      var j :| 0 <= j < |sorted| && sorted[j].sortOrder == g.1 && LastOfOrder(sorted, j) && m[g.1] == uuid4(j);
      assert LinkedPositions(steps, sorted, i, j);
    }
    if IsStepEdge(steps, uuid4, e) {
      var i, j :| LinkedPositions(steps, sorted, i, j) && e == (uuid4(i), uuid4(j));
      LastStands(sorted, uuid4, i);
      LastStands(sorted, uuid4, j);
      assert (sorted[i].sortOrder, sorted[j].sortOrder) in StepGraph(steps);
    }
  }

  lemma LinkedEdges(deps: map<Uuid, Dependency>, steps: seq<TemplateStep>, uuid4: nat -> Uuid, e: (Uuid, Uuid))
    requires LinkSteps(deps, steps, uuid4).Some?
    ensures e in Edges(LinkSteps(deps, steps, uuid4).value) <==> e in Edges(deps) || IsStepEdge(steps, uuid4, e)
  {
    var m := StepToTask(Sorted(steps), uuid4);
    StepToTaskCovers(steps, uuid4);
    InsertLinksEdges(deps, m, steps, |steps|, uuid4);
    StepEdges(steps, m, uuid4, e);
  }

  /** A committed application adds one task for each step, in sort order, and nothing but tasks and dependencies. */
  lemma ApplyEffect(b: Board, id: Uuid, matterId: Uuid, today: int, uuid4: nat -> Uuid)
    requires Step(b, ApplyTemplate(id, matterId, today, uuid4)).1.Committed?
    ensures id in b.templates && Step(b, ApplyTemplate(id, matterId, today, uuid4)).0.templates == b.templates
    ensures AddsTasks(b.tasks, Step(b, ApplyTemplate(id, matterId, today, uuid4)).0.tasks, Sorted(b.templates[id]),
                      matterId, today, uuid4)
  {
    InsertTasksAdds(b.tasks, Sorted(b.templates[id]), matterId, today, uuid4);
  }

  /** The new edges are those the steps ask for: from the task of a step to the task of the order it names. */
  lemma ApplyLinks(b: Board, id: Uuid, matterId: Uuid, today: int, uuid4: nat -> Uuid, e: (Uuid, Uuid))
    requires Step(b, ApplyTemplate(id, matterId, today, uuid4)).1.Committed?
    ensures id in b.templates
    ensures e in Edges(Step(b, ApplyTemplate(id, matterId, today, uuid4)).0.deps) <==>
              e in Edges(b.deps) || IsStepEdge(b.templates[id], uuid4, e)
  {
    LinkedEdges(b.deps, b.templates[id], uuid4, e);
  }

  /** The steps of one sort order, as they stand. */
  function OfOrder(steps: seq<TemplateStep>, x: int): seq<TemplateStep> {
    if steps == [] then [] else (if steps[0].sortOrder == x then [steps[0]] else []) + OfOrder(steps[1..], x)
  }

  /** Sorting is stable: the orders ascend, and the steps of each order keep their number and their sequence. */
  lemma {:induction false} SortedIsStable(steps: seq<TemplateStep>, x: int)
    ensures Ascending(Sorted(steps)) && OfOrder(Sorted(steps), x) == OfOrder(steps, x)
  {
    if steps != [] {
      var init, last := steps[..|steps| - 1], steps[|steps| - 1];
      SortedIsStable(init, x);
      InsertedLast(Sorted(init), last, x);
      OfOrderSnoc(init, last, x);
      assert init + [last] == steps;
    }
  }

  lemma {:induction false} OfOrderSnoc(s: seq<TemplateStep>, y: TemplateStep, x: int)
    ensures OfOrder(s + [y], x) == OfOrder(s, x) + OfOrder([y], x)
  {
    if s == [] {
      assert s + [y] == [y];
    } else {
      OfOrderSnoc(s[1..], y, x);
      var t := s + [y];
      assert t[0] == s[0] && t[1..] == s[1..] + [y];
      var head := if s[0].sortOrder == x then [s[0]] else [];
      assert head + (OfOrder(s[1..], x) + OfOrder([y], x)) == head + OfOrder(s[1..], x) + OfOrder([y], x);
    }
  }

  lemma {:induction false} NoneOfOrder(s: seq<TemplateStep>, x: int)
    requires forall i :: 0 <= i < |s| ==> x < s[i].sortOrder
    ensures OfOrder(s, x) == []
  {
    if s != [] { NoneOfOrder(s[1..], x); }
  }

  lemma {:induction false} InsertedLast(s: seq<TemplateStep>, y: TemplateStep, x: int)
    requires Ascending(s)
    ensures OfOrder(Insert(s, y), x) == OfOrder(s, x) + OfOrder([y], x)
  {
    if s == [] {
      assert Insert(s, y) == [y];
    } else if y.sortOrder < s[0].sortOrder {
      if x == y.sortOrder { NoneOfOrder(s, x); }
      assert ([y] + s)[1..] == s && [y][1..] == [];
    } else {
      InsertedLast(s[1..], y, x);
      assert Insert(s, y) == [s[0]] + Insert(s[1..], y);
    }
  }

  /** add_dependency refuses as circular exactly the edges that would close a cycle. */
  lemma AddRefusesExactlyCycles(b: Board, fromId: Uuid, toId: Uuid, newId: Uuid)
    requires Acyclic(Edges(b.deps)) && fromId in b.tasks && toId in b.tasks
    ensures Add(b, fromId, toId, newId).1 == Raised(CircularReference)
       <==> !Acyclic(Edges(b.deps) + {(fromId, toId)})
  {
    AcyclicAfterAdding(Edges(b.deps), fromId, toId);
  }

  /** This request commits a template whose own graph has a cycle: the one thing nothing checks. */
  ghost predicate CommitsCyclicTemplate(b: Board, r: Request) {
    r.ApplyTemplate? && Step(b, r).1.Committed? && !Acyclic(StepGraph(b.templates[r.templateId]))
  }

  lemma StepAcyclicIff(b: Board, r: Request)
    requires Valid(b) && Acyclic(Edges(b.deps))
    ensures Acyclic(Edges(Step(b, r).0.deps)) <==> !CommitsCyclicTemplate(b, r)
  {
    var after := Step(b, r).0;
    match r
    case ApplyTemplate(id, matterId, today, uuid4) =>
      if Step(b, r).1.Committed? { ApplyAcyclicIff(b, id, matterId, today, uuid4); }
    case AddDependency(fromId, toId, newId) =>
      if Step(b, r).1.Committed? {
        AcyclicAfterAdding(Edges(b.deps), fromId, toId);
        InsertedEdge(b.deps, newId, Dependency(fromId, toId));
      }
    case DeleteTask(id) => AcyclicSubset(Edges(after.deps), Edges(b.deps));
    case RemoveDependency(id) => AcyclicSubset(Edges(after.deps), Edges(b.deps));
    case _ =>
  }

  /** No request of the run commits a template with a cycle. */
  ghost predicate TemplatesClean(b: Board, rs: seq<Request>)
    decreases |rs|
  {
    rs == [] || (!CommitsCyclicTemplate(b, rs[0]) && TemplatesClean(Step(b, rs[0]).0, rs[1..]))
  }

  /** Every state the run goes through has an acyclic dependency graph. */
  ghost predicate AlwaysAcyclic(b: Board, rs: seq<Request>)
    decreases |rs|
  {
    Acyclic(Edges(b.deps)) && (rs == [] || AlwaysAcyclic(Step(b, rs[0]).0, rs[1..]))
  }

  /** Over every run from an acyclic board, the graph stays acyclic exactly when no cyclic template is applied. */
  lemma {:induction false} RunAcyclicIff(b: Board, rs: seq<Request>)
    requires Valid(b) && Acyclic(Edges(b.deps))
    ensures AlwaysAcyclic(b, rs) <==> TemplatesClean(b, rs)
    decreases |rs|
  {
    if rs != [] {
      StepValid(b, rs[0]);
      StepAcyclicIff(b, rs[0]);
      if !CommitsCyclicTemplate(b, rs[0]) {
        RunAcyclicIff(Step(b, rs[0]).0, rs[1..]);
      }
    }
  }

  lemma {:induction false} RunEnds(b: Board, rs: seq<Request>)
    requires Valid(b) && AlwaysAcyclic(b, rs)
    ensures Valid(Run(b, rs)) && Acyclic(Edges(Run(b, rs).deps))
    decreases |rs|
  {
    if rs != [] {
      StepValid(b, rs[0]);
      RunEnds(Step(b, rs[0]).0, rs[1..]);
    }
  }

  const NOTHING := Board(map[], map[], map[])

  /** There is an order of the tasks in which each comes after everything it waits for. */
  ghost predicate Schedulable(b: Board) {
    exists order :: IsTopologicalOrder(Edges(b.deps), b.tasks.Keys, order)
  }

  /** After every such run from the empty board the tasks can be scheduled. */
  lemma RunIsSchedulable(rs: seq<Request>)
    requires TemplatesClean(NOTHING, rs)
    ensures Schedulable(Run(NOTHING, rs))
  {
    assert Edges(NOTHING.deps) == {};
    RunAcyclicIff(NOTHING, rs);
    RunEnds(NOTHING, rs);
    AcyclicIsSchedulable(Run(NOTHING, rs));
  }

  // Which templates are safe, told from the template alone

  /** The step's depends_on_step_order is one of these sort orders. */
  predicate LinksInto(orders: set<int>, step: TemplateStep) {
    step.dependsOnStepOrder.Some? && step.dependsOnStepOrder.value in orders
  }

  predicate SameLink(s: TemplateStep, t: TemplateStep) {
    s.sortOrder == t.sortOrder && s.dependsOnStepOrder == t.dependsOnStepOrder
  }

  /** Two steps ask for the same dependency; the unique constraint then refuses every application. */
  ghost predicate RepeatsLink(steps: seq<TemplateStep>) {
    !NoRepeats(Orders(steps), steps)
  }

  ghost predicate Harmless(steps: seq<TemplateStep>) {
    Acyclic(StepGraph(steps)) || RepeatsLink(steps)
  }

  function LinkRow(m: map<int, Uuid>, step: TemplateStep): Dependency
    requires step.sortOrder in m && LinksInto(m.Keys, step)
  {
    Dependency(m[step.sortOrder], m[step.dependsOnStepOrder.value])
  }

  lemma {:induction false} LinkedRowIsThere(deps: map<Uuid, Dependency>, m: map<int, Uuid>, steps: seq<TemplateStep>,
                                            base: nat, uuid4: nat -> Uuid, i: nat)
    requires (forall s :: s in steps ==> s.sortOrder in m) && i < |steps| && LinksInto(m.Keys, steps[i])
    requires InsertLinks(deps, m, steps, base, uuid4).Some?
    ensures LinkRow(m, steps[i]) in InsertLinks(deps, m, steps, base, uuid4).value.Values
    decreases |steps|
  {
    var n := |steps| - 1;
    var before, after := InsertLinks(deps, m, steps[..n], base, uuid4).value,
        InsertLinks(deps, m, steps, base, uuid4).value;
    if i < n {
      LinkedRowIsThere(deps, m, steps[..n], base, uuid4, i);
      var k :| k in before && before[k] == LinkRow(m, steps[i]);
      assert k in after && after[k] == before[k];
    } else {
      assert uuid4(base + n) in after;
    }
  }

  lemma {:induction false} RepeatNeverCommits(deps: map<Uuid, Dependency>, m: map<int, Uuid>, steps: seq<TemplateStep>,
                                              base: nat, uuid4: nat -> Uuid, i: nat, j: nat)
    requires (forall s :: s in steps ==> s.sortOrder in m) && i < j < |steps|
    requires LinksInto(m.Keys, steps[i]) && SameLink(steps[i], steps[j])
    ensures InsertLinks(deps, m, steps, base, uuid4).None?
    decreases |steps|
  {
    var n := |steps| - 1;
    if j < n {
      RepeatNeverCommits(deps, m, steps[..n], base, uuid4, i, j);
    } else if InsertLinks(deps, m, steps[..n], base, uuid4).Some? {
      LinkedRowIsThere(deps, m, steps[..n], base, uuid4, i);
    }
  }

  lemma RepeatingLinksFail(deps: map<Uuid, Dependency>, steps: seq<TemplateStep>, uuid4: nat -> Uuid)
    requires RepeatsLink(steps)
    ensures LinkSteps(deps, steps, uuid4).None?
  {
    StepToTaskCovers(steps, uuid4);
    var i, j :| 0 <= i < j < |steps| && LinksInto(Orders(steps), steps[i]) && SameLink(steps[i], steps[j]);
    RepeatNeverCommits(deps, StepToTask(Sorted(steps), uuid4), steps, |steps|, uuid4, i, j);
  }

  lemma RepeatingIsRefused(b: Board, id: Uuid, matterId: Uuid, today: int, uuid4: nat -> Uuid)
    requires id in b.templates && RepeatsLink(b.templates[id])
    ensures Apply(b, id, matterId, today, uuid4).1.Raised?
  {
    RepeatingLinksFail(b.deps, b.templates[id], uuid4);
  }

  /** A condition on the requests alone: every template created, and every one already there, is harmless. */
  ghost predicate OnlyHarmless(b: Board, rs: seq<Request>) {
    (forall id :: id in b.templates ==> Harmless(b.templates[id]))
    && forall r :: r in rs && r.CreateTemplate? ==> Harmless(r.steps)
  }

  lemma {:induction false} OnlyHarmlessIsClean(b: Board, rs: seq<Request>)
    requires OnlyHarmless(b, rs)
    ensures TemplatesClean(b, rs)
    decreases |rs|
  {
    if rs != [] {
      var r, after := rs[0], Step(b, rs[0]).0;
      assert r in rs && forall x :: x in rs[1..] ==> x in rs;
      if r.ApplyTemplate? && r.templateId in b.templates && RepeatsLink(b.templates[r.templateId]) {
        RepeatingIsRefused(b, r.templateId, r.matterId, r.today, r.uuid4);
      }
      forall id | id in after.templates ensures Harmless(after.templates[id]) {
        TemplatesOnlyCreated(b, r, id);
      }
      OnlyHarmlessIsClean(after, rs[1..]);
    }
  }

  lemma TemplatesOnlyCreated(b: Board, r: Request, id: Uuid)
    requires id in Step(b, r).0.templates
    ensures (id in b.templates && Step(b, r).0.templates[id] == b.templates[id])
            || (r.CreateTemplate? && Step(b, r).0.templates[id] == r.steps)
  {
  }

  /** Every run whose templates are harmless stays acyclic and ends in a schedulable board. */
  lemma HarmlessRunIsSchedulable(rs: seq<Request>)
    requires forall r :: r in rs && r.CreateTemplate? ==> Harmless(r.steps)
    ensures AlwaysAcyclic(NOTHING, rs) && Schedulable(Run(NOTHING, rs))
  {
    OnlyHarmlessIsClean(NOTHING, rs);
    assert Edges(NOTHING.deps) == {};
    RunAcyclicIff(NOTHING, rs);
    RunIsSchedulable(rs);
  }

  /** In particular every run whose templates depend only on lower sort orders. */
  lemma LookingBackRunIsSchedulable(rs: seq<Request>)
    requires forall r :: r in rs && r.CreateTemplate? ==> LooksBack(r.steps)
    ensures AlwaysAcyclic(NOTHING, rs) && Schedulable(Run(NOTHING, rs))
  {
    forall r | r in rs && r.CreateTemplate? ensures Harmless(r.steps) {
      LookingBackIsAcyclic(r.steps);
    }
    HarmlessRunIsSchedulable(rs);
  }

  // A template that is not harmless closes a cycle as soon as it is applied

  ghost function Counting(): nat -> Uuid { n => n }

  /** Create the template, apply it once to an empty board. */
  ghost function CreateAndApply(steps: seq<TemplateStep>): seq<Request> {
    [CreateTemplate(0, steps), ApplyTemplate(0, 0, 0, Counting())]
  }

  ghost function KeyOf(uuid4: nat -> Uuid, base: nat, i: nat): Uuid { uuid4(base + i) }

  /** The request draws new keys: one for the task of each step, then one for its dependency. */
  ghost predicate FreshDraws(b: Board, n: nat, uuid4: nat -> Uuid) {
    (forall i, j :: 0 <= i < j < n ==> KeyOf(uuid4, 0, i) != KeyOf(uuid4, 0, j))
    && (forall i, j :: 0 <= i < j < n ==> KeyOf(uuid4, n, i) != KeyOf(uuid4, n, j))
    && (forall i :: 0 <= i < n ==> KeyOf(uuid4, 0, i) !in b.tasks)
    && forall i :: 0 <= i < n ==> KeyOf(uuid4, n, i) !in b.deps
  }

  lemma {:induction false} TasksCommit(tasks: map<Uuid, Task>, steps: seq<TemplateStep>, matterId: Uuid, today: int,
                                       uuid4: nat -> Uuid)
    requires forall i, j :: 0 <= i < j < |steps| ==> KeyOf(uuid4, 0, i) != KeyOf(uuid4, 0, j)
    requires forall i :: 0 <= i < |steps| ==> KeyOf(uuid4, 0, i) !in tasks
    ensures InsertTasks(tasks, steps, matterId, today, uuid4).Some?
    ensures forall k :: k in InsertTasks(tasks, steps, matterId, today, uuid4).value ==>
              k in tasks || exists i :: 0 <= i < |steps| && k == KeyOf(uuid4, 0, i)
  {
    if steps != [] {
      var n := |steps| - 1;
      TasksCommit(tasks, steps[..n], matterId, today, uuid4);
      var before := InsertTasks(tasks, steps[..n], matterId, today, uuid4).value;
      assert KeyOf(uuid4, 0, n) == uuid4(n) && KeyOf(uuid4, 0, n) !in before;
    }
  }

  /** Row k is the link of one of the first n steps, under the key drawn for it. */
  ghost predicate IsStepRow(k: Uuid, row: Dependency, m: map<int, Uuid>, all: seq<TemplateStep>, n: nat, base: nat,
                            uuid4: nat -> Uuid)
    requires n <= |all| && forall s :: s in all ==> s.sortOrder in m
  {
    exists i :: 0 <= i < n && k == KeyOf(uuid4, base, i) && LinksInto(m.Keys, all[i]) && row == LinkRow(m, all[i])
  }

  /** Beyond the earlier rows there are only links of the first n steps. */
  ghost predicate RowsOfSteps(deps: map<Uuid, Dependency>, earlier: map<Uuid, Dependency>, m: map<int, Uuid>,
                              all: seq<TemplateStep>, n: nat, base: nat, uuid4: nat -> Uuid)
    requires n <= |all| && forall s :: s in all ==> s.sortOrder in m
  {
    forall k :: k in deps ==> (k in earlier && deps[k] == earlier[k]) || IsStepRow(k, deps[k], m, all, n, base, uuid4)
  }

  /** The steps map to new tasks, no two of them ask for the same link, and the keys of the links are new. */
  ghost predicate Linkable(earlier: map<Uuid, Dependency>, m: map<int, Uuid>, all: seq<TemplateStep>, base: nat,
                           uuid4: nat -> Uuid)
  {
    (forall s :: s in all ==> s.sortOrder in m) && Injective(m) && NoRepeats(m.Keys, all)
    && (forall k, x :: k in earlier && x in m ==> earlier[k].taskId != m[x])
    && (forall i :: 0 <= i < |all| ==> KeyOf(uuid4, base, i) !in earlier)
    && forall i, j :: 0 <= i < j < |all| ==> KeyOf(uuid4, base, i) != KeyOf(uuid4, base, j)
  }

  ghost predicate NoRepeats(orders: set<int>, steps: seq<TemplateStep>) {
    forall i, j :: 0 <= i < j < |steps| && LinksInto(orders, steps[i]) ==> !SameLink(steps[i], steps[j])
  }

  lemma LinkRowInjective(m: map<int, Uuid>, s: TemplateStep, t: TemplateStep)
    requires s.sortOrder in m && LinksInto(m.Keys, s) && t.sortOrder in m && LinksInto(m.Keys, t)
    requires Injective(m)
    ensures LinkRow(m, s) == LinkRow(m, t) ==> SameLink(s, t)
  {
    if LinkRow(m, s) == LinkRow(m, t) {
      var x, y := s.dependsOnStepOrder.value, t.dependsOnStepOrder.value;
      assert x in m && y in m && m[x] == m[y];
      assert s.dependsOnStepOrder == Some(x) && t.dependsOnStepOrder == Some(y);
    }
  }

  lemma NextRowIsNew(deps: map<Uuid, Dependency>, earlier: map<Uuid, Dependency>, m: map<int, Uuid>,
                     all: seq<TemplateStep>, n: nat, base: nat, uuid4: nat -> Uuid)
    requires Linkable(earlier, m, all, base, uuid4) && n < |all| && LinksInto(m.Keys, all[n])
    requires RowsOfSteps(deps, earlier, m, all, n, base, uuid4)
    ensures KeyOf(uuid4, base, n) !in deps && LinkRow(m, all[n]) !in deps.Values
  {
    forall k | k in deps ensures k != KeyOf(uuid4, base, n) && deps[k] != LinkRow(m, all[n]) {
      if !(k in earlier && deps[k] == earlier[k]) {
        var i :| 0 <= i < n && k == KeyOf(uuid4, base, i) && LinksInto(m.Keys, all[i]) && deps[k] == LinkRow(m, all[i]);
        assert !SameLink(all[i], all[n]);
        LinkRowInjective(m, all[i], all[n]);
      }
    }
  }

  lemma NextStepRow(k: Uuid, row: Dependency, m: map<int, Uuid>, all: seq<TemplateStep>, n: nat, base: nat,
                    uuid4: nat -> Uuid)
    requires n < |all| && forall s :: s in all ==> s.sortOrder in m
    requires IsStepRow(k, row, m, all, n, base, uuid4)
             || (LinksInto(m.Keys, all[n]) && k == KeyOf(uuid4, base, n) && row == LinkRow(m, all[n]))
    ensures IsStepRow(k, row, m, all, n + 1, base, uuid4)
  {
  }

  lemma NextLinkCommits(deps: map<Uuid, Dependency>, earlier: map<Uuid, Dependency>, m: map<int, Uuid>,
                        all: seq<TemplateStep>, n: nat, base: nat, uuid4: nat -> Uuid)
    requires Linkable(earlier, m, all, base, uuid4) && n < |all|
    requires RowsOfSteps(deps, earlier, m, all, n, base, uuid4)
    ensures InsertLink(deps, m, all[n], KeyOf(uuid4, base, n)).Some?
    ensures RowsOfSteps(InsertLink(deps, m, all[n], KeyOf(uuid4, base, n)).value, earlier, m, all, n + 1, base, uuid4)
  {
    if LinksInto(m.Keys, all[n]) { NextRowIsNew(deps, earlier, m, all, n, base, uuid4); }
    var after := InsertLink(deps, m, all[n], KeyOf(uuid4, base, n)).value;
    forall k | k in after && !(k in earlier && after[k] == earlier[k])
      ensures IsStepRow(k, after[k], m, all, n + 1, base, uuid4)
    {
      if k in deps { assert after[k] == deps[k]; }
      NextStepRow(k, after[k], m, all, n, base, uuid4);
    }
  }

  /** The first n steps are linked, each row under the key drawn for its step. */
  ghost predicate LinkedSoFar(earlier: map<Uuid, Dependency>, m: map<int, Uuid>, all: seq<TemplateStep>, n: nat,
                              base: nat, uuid4: nat -> Uuid)
    requires n <= |all| && forall s :: s in all ==> s.sortOrder in m
  {
    var r := InsertLinks(earlier, m, all[..n], base, uuid4);
    r.Some? && RowsOfSteps(r.value, earlier, m, all, n, base, uuid4)
  }

  lemma LinkedOneMore(earlier: map<Uuid, Dependency>, m: map<int, Uuid>, all: seq<TemplateStep>, n: nat, base: nat,
                      uuid4: nat -> Uuid)
    requires Linkable(earlier, m, all, base, uuid4) && n < |all| && LinkedSoFar(earlier, m, all, n, base, uuid4)
    ensures LinkedSoFar(earlier, m, all, n + 1, base, uuid4)
  {
    var before := InsertLinks(earlier, m, all[..n], base, uuid4);
    NextLinkCommits(before.value, earlier, m, all, n, base, uuid4);
    assert InsertLinks(earlier, m, all[..n + 1], base, uuid4)
        == InsertLink(before.value, m, all[n], KeyOf(uuid4, base, n)) by {
      assert all[..n + 1][..n] == all[..n];
      InsertLinksNext(earlier, m, all[..n + 1], base, uuid4);
    }
  }

  lemma {:induction false} LinksCommit(earlier: map<Uuid, Dependency>, m: map<int, Uuid>, all: seq<TemplateStep>,
                                       n: nat, base: nat, uuid4: nat -> Uuid)
    requires Linkable(earlier, m, all, base, uuid4) && n <= |all|
    ensures LinkedSoFar(earlier, m, all, n, base, uuid4)
  {
    if n > 0 {
      LinksCommit(earlier, m, all, n - 1, base, uuid4);
      LinkedOneMore(earlier, m, all, n - 1, base, uuid4);
    }
  }

  lemma StepToTaskFresh(b: Board, steps: seq<TemplateStep>, uuid4: nat -> Uuid)
    requires FreshDraws(b, |steps|, uuid4)
    ensures var m := StepToTask(steps, uuid4); Injective(m) && forall x :: x in m ==> m[x] !in b.tasks
  {
    var m := StepToTask(steps, uuid4);
    StepToTaskDomain(steps, uuid4);
    forall x | x in m ensures exists i :: 0 <= i < |steps| && steps[i].sortOrder == x && m[x] == KeyOf(uuid4, 0, i) {
      var i :| 0 <= i < |steps| && steps[i].sortOrder == x && m[x] == uuid4(i);
      assert m[x] == KeyOf(uuid4, 0, i);
    }
  }

  lemma StepsLinkable(b: Board, steps: seq<TemplateStep>, uuid4: nat -> Uuid)
    requires Valid(b) && FreshDraws(b, |steps|, uuid4) && !RepeatsLink(steps)
    ensures Linkable(b.deps, StepToTask(Sorted(steps), uuid4), steps, |steps|, uuid4)
  {
    StepToTaskCovers(steps, uuid4);
    StepToTaskFresh(b, Sorted(steps), uuid4);
  }

  lemma LinkedAll(earlier: map<Uuid, Dependency>, m: map<int, Uuid>, all: seq<TemplateStep>, base: nat,
                  uuid4: nat -> Uuid)
    requires Linkable(earlier, m, all, base, uuid4)
    ensures InsertLinks(earlier, m, all, base, uuid4).Some?
  {
    LinksCommit(earlier, m, all, |all|, base, uuid4);
    assert all[..|all|] == all;
  }

  lemma AllLinksCommit(b: Board, steps: seq<TemplateStep>, uuid4: nat -> Uuid)
    requires Valid(b) && FreshDraws(b, |steps|, uuid4) && !RepeatsLink(steps)
    ensures forall s :: s in steps ==> s.sortOrder in StepToTask(Sorted(steps), uuid4)
    ensures InsertLinks(b.deps, StepToTask(Sorted(steps), uuid4), steps, |steps|, uuid4).Some?
  {
    StepsLinkable(b, steps, uuid4);
    LinkedAll(b.deps, StepToTask(Sorted(steps), uuid4), steps, |steps|, uuid4);
  }

  /** With new keys an application commits exactly when the template exists and no two of its steps ask for the same
      link. */
  lemma ApplyCommitsIff(b: Board, id: Uuid, matterId: Uuid, today: int, uuid4: nat -> Uuid)
    requires Valid(b) && (id in b.templates ==> FreshDraws(b, |b.templates[id]|, uuid4))
    ensures Step(b, ApplyTemplate(id, matterId, today, uuid4)).1.Committed? <==>
              id in b.templates && !RepeatsLink(b.templates[id])
  {
    if id in b.templates {
      var steps := b.templates[id];
      if RepeatsLink(steps) {
        RepeatingIsRefused(b, id, matterId, today, uuid4);
      } else {
        TasksCommit(b.tasks, Sorted(steps), matterId, today, uuid4);
        AllLinksCommit(b, steps, uuid4);
      }
    }
  }

  lemma CountingIsFresh(b: Board, n: nat)
    requires b.tasks == map[] && b.deps == map[]
    ensures FreshDraws(b, n, Counting())
  {
  }

  lemma HarmfulClosesCycle(steps: seq<TemplateStep>)
    requires !Harmless(steps)
    ensures !AlwaysAcyclic(NOTHING, CreateAndApply(steps))
  {
    var rs := CreateAndApply(steps);
    var created := Step(NOTHING, rs[0]).0;
    assert created == NOTHING.(templates := map[0 := steps]);
    CountingIsFresh(created, |steps|);
    ApplyCommitsIff(created, 0, 0, 0, Counting());
    assert rs[1..] == [rs[1]];
    assert CommitsCyclicTemplate(created, rs[1]);
    assert !TemplatesClean(NOTHING, rs);
    assert Edges(NOTHING.deps) == {};
    RunAcyclicIff(NOTHING, rs);
  }

  ghost predicate OnlyTemplate(rs: seq<Request>, steps: seq<TemplateStep>) {
    forall r :: r in rs && r.CreateTemplate? ==> r.steps == steps
  }

  /** A template keeps every run over it acyclic exactly when it has no cycle of its own, or can never be applied. */
  lemma TemplateSafeIff(steps: seq<TemplateStep>)
    ensures Harmless(steps) <==> forall rs :: OnlyTemplate(rs, steps) ==> AlwaysAcyclic(NOTHING, rs)
  {
    if Harmless(steps) {
      forall rs | OnlyTemplate(rs, steps) ensures AlwaysAcyclic(NOTHING, rs) {
        HarmlessRunIsSchedulable(rs);
      }
    } else {
      HarmfulClosesCycle(steps);
      assert OnlyTemplate(CreateAndApply(steps), steps);
    }
  }

  /** The smallest harmful template: one step that names itself. */
  lemma SelfStepIsHarmful()
    ensures var steps := [TemplateStep("again", None, 1, Some(1))];
            !Harmless(steps) && !AlwaysAcyclic(NOTHING, CreateAndApply(steps))
  {
    var steps := [TemplateStep("again", None, 1, Some(1))];
    assert steps[0] in steps && 1 in Orders(steps);
    assert (1, 1) in StepGraph(steps);
    ReachesSelf(StepGraph(steps), 1);
    assert ReachesByEdge(StepGraph(steps), 1, 1);
    assert !RepeatsLink(steps);
    HarmfulClosesCycle(steps);
  }

  lemma AcyclicIsSchedulable(b: Board)
    requires Valid(b)
    ensures Acyclic(Edges(b.deps)) <==> Schedulable(b)
  {
    AcyclicIffOrdered(Edges(b.deps), b.tasks.Keys);
  }

  // The breadth-first search

  /** What was queued is reachable, the target was not met, and edges out of visited tasks lead to visited or queued
      ones. */
  ghost predicate Searching(E: set<(Uuid, Uuid)>, N: set<Uuid>, start: Uuid, target: Uuid, visited: set<Uuid>,
                            queue: seq<Uuid>)
  {
    (forall x :: x in queue ==> x in N && x != target && Reaches(E, start, x))
    && visited <= N && target !in visited && (start in visited || start in queue)
    && forall e :: e in E && e.0 in visited ==> e.1 in visited || e.1 in queue
  }

  lemma InQueue(queue: seq<Uuid>, x: Uuid)
    requires queue != []
    ensures x in queue <==> x == queue[0] || x in queue[1..]
  {
  }

  lemma SearchSkips(E: set<(Uuid, Uuid)>, N: set<Uuid>, start: Uuid, target: Uuid, visited: set<Uuid>, queue: seq<Uuid>)
    requires Searching(E, N, start, target, visited, queue) && queue != [] && queue[0] in visited
    ensures Searching(E, N, start, target, visited, queue[1..])
  {
    forall x ensures x in queue <==> x == queue[0] || x in queue[1..] { InQueue(queue, x); }
  }

  lemma SearchVisits(E: set<(Uuid, Uuid)>, N: set<Uuid>, start: Uuid, target: Uuid, visited: set<Uuid>,
                     queue: seq<Uuid>, longer: seq<Uuid>)
    requires Searching(E, N, start, target, visited, queue) && (forall e :: e in E ==> e.1 in N)
    requires queue != [] && (queue[0], target) !in E
    requires forall x :: x in longer <==> x in queue[1..] || (queue[0], x) in E
    ensures Searching(E, N, start, target, visited + {queue[0]}, longer)
  {
    forall x ensures x in queue <==> x == queue[0] || x in queue[1..] { InQueue(queue, x); }
    forall x | x in longer ensures x in N && x != target && Reaches(E, start, x) {
      if x !in queue[1..] {
        assert (queue[0], x).1 in N;
        ReachesSnoc(E, start, queue[0], x);
      }
    }
    forall e | e in E && e.0 in visited + {queue[0]} ensures e.1 in visited + {queue[0]} || e.1 in longer {
      if e.0 == queue[0] { assert (queue[0], e.1) in E; }
    }
  }

  /** The service over its tables. Each public method is one request, including the session's commit or rollback. */
  class TaskService {
    var tasks: map<Uuid, Task>
    var deps: map<Uuid, Dependency>
    var templates: map<Uuid, seq<TemplateStep>>

    function Tables(): Board
      reads this
    {
      Board(tasks, deps, templates)
    }

    constructor ()
      ensures Tables() == NOTHING
    {
      tasks, deps, templates := map[], map[], map[];
    }

    /** SELECT depends_on_id WHERE task_id = current; the row order is the database's choice. */
    method DependsOnRows(current: Uuid) returns (rows: seq<Uuid>)
      ensures forall x :: x in rows <==> (current, x) in Edges(deps)
    {
      rows := [];
      var left := deps.Keys;
      while left != {}
        invariant left <= deps.Keys
        invariant forall x :: x in rows <==>
                    exists k :: k in deps.Keys - left && deps[k].taskId == current && deps[k].dependsOnId == x
        decreases left
      {
        var k :| k in left;
        left := left - {k};
        if deps[k].taskId == current { rows := rows + [deps[k].dependsOnId]; }
      }
      assert deps.Keys - left == deps.Keys;
    }

    /** The inner loop: the rows of a visited task join the queue unless one of them is the task looked for. */
    method Expand(current: Uuid, taskId: Uuid, queue: seq<Uuid>) returns (found: bool, longer: seq<Uuid>)
      ensures found <==> (current, taskId) in Edges(deps)
      ensures !found ==> forall x :: x in longer <==> x in queue || (current, x) in Edges(deps)
    {
      var rows := DependsOnRows(current);
      longer := queue;
      for i := 0 to |rows|
        invariant longer == queue + rows[..i] && taskId !in rows[..i]
      {
        assert rows[i] in rows;
        if rows[i] == taskId { return true, longer; }
        longer := longer + [rows[i]];
      }
      assert rows[..|rows|] == rows;
      return false, longer;
    }

    method HasCircularDependency(taskId: Uuid, dependsOnId: Uuid) returns (found: bool)
      ensures found <==> Reaches(Edges(deps), dependsOnId, taskId)
    {
      ghost var E := Edges(deps);
      ReachesSelf(E, dependsOnId);
      if taskId == dependsOnId { return true; }
      var visited: set<Uuid> := {};
      var queue := [dependsOnId];
      ghost var N := {dependsOnId} + set e | e in E :: e.1;
      assert forall e :: e in E ==> e.1 in N;
      while queue != []
        invariant Searching(E, N, dependsOnId, taskId, visited, queue)
        decreases N - visited, |queue|
      {
        var current, rest := queue[0], queue[1..];
        assert current in queue;
        if current in visited {
          SearchSkips(E, N, dependsOnId, taskId, visited, queue);
          queue := rest;
          continue;
        }
        var reached, longer := Expand(current, taskId, rest);
        if reached {
          ReachesSnoc(E, dependsOnId, current, taskId);
          return true;
        }
        SearchVisits(E, N, dependsOnId, taskId, visited, queue, longer);
        visited := visited + {current};
        queue := longer;
      }
      if Reaches(E, dependsOnId, taskId) {
        ClosedHolds(E, visited, dependsOnId, taskId);
      }
      return false;
    }

    method CreateTask(id: Uuid, task: Task) returns (r: Outcome<Error>)
      modifies this
      ensures (Tables(), r) == Step(old(Tables()), Request.CreateTask(id, task))
    {
      if id in tasks { return Raised(IntegrityError); }
      tasks := tasks[id := task];
      return Committed;
    }

    method DeleteTask(id: Uuid) returns (r: Outcome<Error>)
      modifies this
      ensures (Tables(), r) == Step(old(Tables()), Request.DeleteTask(id))
    {
      if id !in tasks { return Raised(TaskNotFound); }
      tasks := tasks - {id};
      deps := map k | k in deps && deps[k].taskId != id && deps[k].dependsOnId != id :: deps[k];
      return Committed;
    }

    method AddDependency(taskId: Uuid, dependsOnId: Uuid, newId: Uuid) returns (r: Outcome<Error>)
      modifies this
      ensures (Tables(), r) == Step(old(Tables()), Request.AddDependency(taskId, dependsOnId, newId))
    {
      if taskId !in tasks { return Raised(TaskNotFound); }
      if dependsOnId !in tasks { return Raised(DependencyTaskNotFound); }
      var circular := HasCircularDependency(taskId, dependsOnId);
      if circular { return Raised(CircularReference); }
      if Dependency(taskId, dependsOnId) in deps.Values { return Raised(AlreadyExists); }
      if newId in deps { return Raised(IntegrityError); }
      deps := deps[newId := Dependency(taskId, dependsOnId)];
      return Committed;
    }

    method RemoveDependency(id: Uuid) returns (r: Outcome<Error>)
      modifies this
      ensures (Tables(), r) == Step(old(Tables()), Request.RemoveDependency(id))
    {
      if id !in deps { return Raised(DependencyNotFound); }
      deps := deps - {id};
      return Committed;
    }

    method CreateTemplate(id: Uuid, steps: seq<TemplateStep>) returns (r: Outcome<Error>)
      modifies this
      ensures (Tables(), r) == Step(old(Tables()), Request.CreateTemplate(id, steps))
    {
      if id in templates { return Raised(IntegrityError); }
      templates := templates[id := steps];
      return Committed;
    }

    /** The first loop: one task a step. */
    method InsertStepTasks(sorted: seq<TemplateStep>, matterId: Uuid, today: int, uuid4: nat -> Uuid)
      returns (ok: bool, stepToTask: map<int, Uuid>)
      modifies this`tasks
      ensures ok ==> InsertTasks(old(tasks), sorted, matterId, today, uuid4) == Some(tasks)
      ensures ok ==> stepToTask == StepToTask(sorted, uuid4)
      ensures !ok ==> InsertTasks(old(tasks), sorted, matterId, today, uuid4) == None
    {
      stepToTask := map[];
      for i := 0 to |sorted|
        invariant InsertTasks(old(tasks), sorted[..i], matterId, today, uuid4) == Some(tasks)
        invariant stepToTask == StepToTask(sorted[..i], uuid4)
      {
        assert sorted[..i + 1][..i] == sorted[..i];
        InsertTasksNext(old(tasks), sorted[..i + 1], matterId, today, uuid4);
        if uuid4(i) in tasks {
          InsertTasksStops(old(tasks), sorted, i + 1, matterId, today, uuid4);
          return false, stepToTask;
        }
        tasks := tasks[uuid4(i) := NewTask(sorted[i], matterId, today)];
        stepToTask := stepToTask[sorted[i].sortOrder := uuid4(i)];
      }
      assert sorted[..|sorted|] == sorted;
      return true, stepToTask;
    }

    /** The second loop: one dependency for each step that names another. */
    method InsertStepLinks(steps: seq<TemplateStep>, stepToTask: map<int, Uuid>, uuid4: nat -> Uuid) returns (ok: bool)
      requires forall s :: s in steps ==> s.sortOrder in stepToTask
      modifies this`deps
      ensures ok ==> InsertLinks(old(deps), stepToTask, steps, |steps|, uuid4) == Some(deps)
      ensures !ok ==> InsertLinks(old(deps), stepToTask, steps, |steps|, uuid4) == None
    {
      for i := 0 to |steps|
        invariant InsertLinks(old(deps), stepToTask, steps[..i], |steps|, uuid4) == Some(deps)
      {
        assert steps[i] in steps && steps[..i + 1][..i] == steps[..i];
        InsertLinksNext(old(deps), stepToTask, steps[..i + 1], |steps|, uuid4);
        ok := InsertStepLink(steps[i], stepToTask, uuid4(|steps| + i));
        if !ok {
          InsertLinksStops(old(deps), stepToTask, steps, i + 1, |steps|, uuid4);
          return;
        }
      }
      assert steps[..|steps|] == steps;
      return true;
    }

    /** The body of the second loop; the unique pair and the key are constraints of the table. */
    method InsertStepLink(step: TemplateStep, stepToTask: map<int, Uuid>, id: Uuid) returns (ok: bool)
      requires step.sortOrder in stepToTask
      modifies this`deps
      ensures InsertLink(old(deps), stepToTask, step, id) == if ok then Some(deps) else None
    {
      if step.dependsOnStepOrder.Some? && step.dependsOnStepOrder.value in stepToTask {
        var row := Dependency(stepToTask[step.sortOrder], stepToTask[step.dependsOnStepOrder.value]);
        if id in deps || row in deps.Values { return false; }
        deps := deps[id := row];
      }
      return true;
    }

    /** Both loops; what they wrote before a constraint stopped them is left for the caller to roll back. */
    method InsertTemplate(steps: seq<TemplateStep>, matterId: Uuid, today: int, uuid4: nat -> Uuid) returns (ok: bool)
      modifies this`tasks, this`deps
      ensures forall s :: s in steps ==> s.sortOrder in StepToTask(Sorted(steps), uuid4)
      ensures var made, linked := InsertTasks(old(tasks), Sorted(steps), matterId, today, uuid4),
                                  InsertLinks(old(deps), StepToTask(Sorted(steps), uuid4), steps, |steps|, uuid4);
              if ok then made == Some(tasks) && linked == Some(deps) else made.None? || linked.None?
    {
      var stepToTask;
      StepToTaskCovers(steps, uuid4);
      ok, stepToTask := InsertStepTasks(Sorted(steps), matterId, today, uuid4);
      if ok { ok := InsertStepLinks(steps, stepToTask, uuid4); }
    }

    method ApplyWorkflowTemplate(templateId: Uuid, matterId: Uuid, today: int, uuid4: nat -> Uuid)
      returns (r: Outcome<Error>)
      modifies this
      ensures (Tables(), r) == Apply(old(Tables()), templateId, matterId, today, uuid4)
    {
      if templateId !in templates { return Raised(TemplateNotFound); }
      var savedTasks, savedDeps := tasks, deps;
      var ok := InsertTemplate(templates[templateId], matterId, today, uuid4);
      if !ok {
        tasks, deps := savedTasks, savedDeps;
        return Raised(IntegrityError);
      }
      return Committed;
    }
  }

  lemma InsertTasksNext(tasks: map<Uuid, Task>, steps: seq<TemplateStep>, matterId: Uuid, today: int,
                        uuid4: nat -> Uuid)
    requires steps != []
    ensures var n := |steps| - 1;
            var before := InsertTasks(tasks, steps[..n], matterId, today, uuid4);
            before.Some? ==> InsertTasks(tasks, steps, matterId, today, uuid4) ==
                             if uuid4(n) in before.value then None
                             else Some(before.value[uuid4(n) := NewTask(steps[n], matterId, today)])
  {
  }

  lemma {:induction false} InsertTasksStops(tasks: map<Uuid, Task>, steps: seq<TemplateStep>, n: nat, matterId: Uuid,
                                            today: int, uuid4: nat -> Uuid)
    requires n <= |steps| && InsertTasks(tasks, steps[..n], matterId, today, uuid4).None?
    ensures InsertTasks(tasks, steps, matterId, today, uuid4).None?
    decreases |steps|
  {
    if n < |steps| {
      assert steps[..|steps| - 1][..n] == steps[..n];
      InsertTasksStops(tasks, steps[..|steps| - 1], n, matterId, today, uuid4);
    } else {
      assert steps[..n] == steps;
    }
  }

  lemma InsertLinksNext(deps: map<Uuid, Dependency>, m: map<int, Uuid>, steps: seq<TemplateStep>, base: nat,
                        uuid4: nat -> Uuid)
    requires steps != [] && forall s :: s in steps ==> s.sortOrder in m
    ensures var n := |steps| - 1;
            var before := InsertLinks(deps, m, steps[..n], base, uuid4);
            before.Some? ==>
              InsertLinks(deps, m, steps, base, uuid4) == InsertLink(before.value, m, steps[n], uuid4(base + n))
  {
  }

  lemma {:induction false} InsertLinksStops(deps: map<Uuid, Dependency>, m: map<int, Uuid>, steps: seq<TemplateStep>,
                                            n: nat, base: nat, uuid4: nat -> Uuid)
    requires forall s :: s in steps ==> s.sortOrder in m
    requires n <= |steps| && InsertLinks(deps, m, steps[..n], base, uuid4).None?
    ensures InsertLinks(deps, m, steps, base, uuid4).None?
    decreases |steps|
  {
    if n < |steps| {
      assert steps[..|steps| - 1][..n] == steps[..n];
      InsertLinksStops(deps, m, steps[..|steps| - 1], n, base, uuid4);
    } else {
      assert steps[..n] == steps;
    }
  }
}
