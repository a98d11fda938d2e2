/**
 * The application shell as a state machine: the session flag, the task list and the
 * key-value store they are mirrored to. Serialisation of the task list is a parameter
 * (`encode` for writing, `parse` for reading back), since its behaviour is not modelled.
 */
module App {
  import opened Wrappers
  import opened Tasks
  import opened Storage
  import opened Session
  import TaskStore
  import Routes

  /** The storage key the task list is mirrored under. */
  const TasksKey: string := "tasks"

  /** The one fault startup can raise: the stored task list does not parse. */
  datatype StartupFault = ParseFault

  /** Everything the shell holds between events. */
  datatype AppState = AppState(authenticated: bool, tasks: seq<Task>, store: Store)

  /** One user-triggered event; `newId` stands for the clock reading a new task's identifier comes from. */
  datatype Op =
    | AddOp(fields: TaskFields, newId: string)
    | UpdateOp(id: string, patch: TaskPatch)
    | DeleteOp(id: string)
    | LoginOp
    | LogoutOp

  /** Storage mirrors memory: the task key holds the encoded list, and the flag is what the auth key decodes to. */
  ghost predicate Consistent(s: AppState, encode: seq<Task> -> string)
  {
    && GetItem(s.store, TasksKey) == Some(encode(s.tasks))
    && s.authenticated == DecodeFlag(GetItem(s.store, AuthKey))
  }

  /** Reading the task list at startup: a missing or empty stored value falls back to the seed. */
  function LoadTasks(saved: Option<string>, parse: string -> Option<seq<Task>>): (r: Result<seq<Task>, StartupFault>)
    ensures saved.None? || saved == Some("") ==> r == Success(InitialTasks)
    ensures saved.Some? && saved.value != "" ==> (r.Success? <==> parse(saved.value).Some?)
    ensures saved.Some? && saved.value != "" && r.Success? ==> Some(r.value) == parse(saved.value)
  {
    if saved.None? || saved.value == "" then Success(InitialTasks)
    else match parse(saved.value)
      case None => Failure(ParseFault)
      case Some(ts) => Success(ts)
  }

  /** Startup: decode the flag, load the tasks, then write the loaded list back to storage. */
  function Startup(store: Store, parse: string -> Option<seq<Task>>, encode: seq<Task> -> string)
    : (r: Result<AppState, StartupFault>)
    ensures r.Success? ==> Consistent(r.value, encode)
    ensures r.Success? ==> (r.value.authenticated <==> GetItem(store, AuthKey) == Some("true"))
    ensures TasksKey !in store ==> r.Success? && r.value.tasks == InitialTasks
    ensures r.Failure? <==> TasksKey in store && store[TasksKey] != "" && parse(store[TasksKey]).None?
    ensures TasksKey in store && store[TasksKey] != "" && r.Success? ==> parse(store[TasksKey]) == Some(r.value.tasks)
    ensures GetItem(store, TasksKey) == Some("") ==> r.Success? && r.value.tasks == InitialTasks
    ensures r.Success? ==> forall k :: k != TasksKey ==> GetItem(r.value.store, k) == GetItem(store, k)
  {
    match LoadTasks(GetItem(store, TasksKey), parse)
    case Failure(e) => Failure(e)
    case Success(ts) =>
      Success(AppState(DecodeFlag(GetItem(store, AuthKey)), ts, SetItem(store, TasksKey, encode(ts))))
  }

  /** Replaces the task list and writes it through to storage; the flag is untouched. */
  function WithTasks(s: AppState, tasks: seq<Task>, encode: seq<Task> -> string): (r: AppState)
    ensures r.tasks == tasks && r.authenticated == s.authenticated
    ensures GetItem(r.store, TasksKey) == Some(encode(tasks))
    ensures forall k :: k != TasksKey ==> GetItem(r.store, k) == GetItem(s.store, k)
  {
    AppState(s.authenticated, tasks, SetItem(s.store, TasksKey, encode(tasks)))
  }

  /** `handleLogin`: set the flag and store "true"; tasks and every other key stay. */
  function Login(s: AppState): (r: AppState)
    ensures r.authenticated && GetItem(r.store, AuthKey) == Some("true")
    ensures r.tasks == s.tasks
    ensures forall k :: k != AuthKey ==> GetItem(r.store, k) == GetItem(s.store, k)
  {
    AppState(true, s.tasks, SetItem(s.store, AuthKey, EncodeFlag(true)))
  }

  /** `handleLogout`: clear the flag and store "false"; tasks and every other key stay. */
  function Logout(s: AppState): (r: AppState)
    ensures !r.authenticated && GetItem(r.store, AuthKey) == Some("false")
    ensures r.tasks == s.tasks
    ensures forall k :: k != AuthKey ==> GetItem(r.store, k) == GetItem(s.store, k)
  {
    AppState(false, s.tasks, SetItem(s.store, AuthKey, EncodeFlag(false)))
  }

  /** One event applied to the state. */
  function Step(s: AppState, op: Op, encode: seq<Task> -> string): AppState
  {
    match op
    case AddOp(f, newId) => WithTasks(s, TaskStore.AddTask(s.tasks, f, newId), encode)
    case UpdateOp(id, p) => WithTasks(s, TaskStore.UpdateTask(s.tasks, id, p), encode)
    case DeleteOp(id) => WithTasks(s, TaskStore.DeleteTask(s.tasks, id), encode)
    case LoginOp => Login(s)
    case LogoutOp => Logout(s)
  }

  /** Applying a sequence of events in order. */
  function Run(s: AppState, ops: seq<Op>, encode: seq<Task> -> string): AppState
    decreases |ops|
  {
    if |ops| == 0 then s else Run(Step(s, ops[0], encode), ops[1..], encode)
  }

  /** Every event keeps storage a faithful mirror of the in-memory state. */
  lemma StepConsistent(s: AppState, op: Op, encode: seq<Task> -> string)
    requires Consistent(s, encode)
    ensures Consistent(Step(s, op, encode), encode)
  {
    match op
    case LoginOp =>
    case LogoutOp =>
    case AddOp(_, _) =>
    case UpdateOp(_, _) =>
    case DeleteOp(_) =>
  }

  /** Any run of events from any consistent state leaves storage mirroring memory. */
  lemma {:induction false} RunConsistent(s: AppState, ops: seq<Op>, encode: seq<Task> -> string)
    requires Consistent(s, encode)
    ensures Consistent(Run(s, ops, encode), encode)
    decreases |ops|
  {
    if |ops| > 0 {
      StepConsistent(s, ops[0], encode);
      RunConsistent(Step(s, ops[0], encode), ops[1..], encode);
    }
  }

  /** A reload reads back the session flag of a consistent state, whatever the task list parses to. */
  lemma ReloadRestoresFlag(s: AppState, parse: string -> Option<seq<Task>>, encode: seq<Task> -> string)
    requires Consistent(s, encode)
    requires Startup(s.store, parse, encode).Success?
    ensures Startup(s.store, parse, encode).value.authenticated == s.authenticated
  {
  }

  /** If parsing inverts encoding for the current list, a reload reproduces the whole state. */
  lemma ReloadRestoresState(s: AppState, parse: string -> Option<seq<Task>>, encode: seq<Task> -> string)
    requires Consistent(s, encode)
    requires encode(s.tasks) != "" && parse(encode(s.tasks)) == Some(s.tasks)
    ensures Startup(s.store, parse, encode) == Success(s)
  {
    assert SetItem(s.store, TasksKey, encode(s.tasks)) == s.store;
  }

  /** With nothing stored, startup is logged out, holds the three seed records and writes them back. */
  lemma FreshStartup(parse: string -> Option<seq<Task>>, encode: seq<Task> -> string)
    ensures Startup(map[], parse, encode) ==
            Success(AppState(false, InitialTasks, map[TasksKey := encode(InitialTasks)]))
  {
  }

  /** Looking up "2" in the seed finds the farewell budget task at 50 percent. */
  lemma SeedLookup()
    ensures TaskStore.GetTaskById(InitialTasks, "2").Some?
    ensures TaskStore.GetTaskById(InitialTasks, "2").value.title == "RAB Farewell SGE"
    ensures TaskStore.GetTaskById(InitialTasks, "2").value.progress == 50
  {
    assert InitialTasks[0].id != "2";
  }

  /** Adding a task to the seed under a fresh clock reading and looking it up returns its title. */
  lemma AddToSeedThenGet(encode: seq<Task> -> string)
    ensures var f := TaskFields("X", "Y", Organization, "2025-01-01T00:00:00", false, 0, None);
            var s := Step(AppState(false, InitialTasks, map[]), AddOp(f, "1735689600000"), encode);
            TaskStore.GetTaskById(s.tasks, "1735689600000").Some? &&
            TaskStore.GetTaskById(s.tasks, "1735689600000").value.title == "X"
  {
    var f := TaskFields("X", "Y", Organization, "2025-01-01T00:00:00", false, 0, None);
    assert !TaskStore.HasId(InitialTasks, "1735689600000");
    TaskStore.AddThenGet(InitialTasks, f, "1735689600000");
  }

  /** After logging in, storage holds "true" and visiting the login page redirects to the dashboard. */
  lemma LoginThenVisitLogin(s: AppState)
    ensures GetItem(Login(s).store, AuthKey) == Some("true")
    ensures Routes.Navigate("/login", Login(s).authenticated) == Routes.Redirect("/dashboard")
  {
    Routes.MatchPathOf(Routes.LoginRoute);
  }

  /** After logging out, every protected path redirects to the login page. */
  lemma LogoutLocksProtectedPaths(s: AppState, path: string)
    requires Routes.Match(path).Some? && Routes.IsProtected(Routes.Match(path).value)
    ensures Routes.Navigate(path, Logout(s).authenticated) == Routes.Redirect("/login")
  {
  }
}
