/** The task record of the tracker, the field sets used to create and patch one, and the seed data. */
module Tasks {
  import opened Wrappers

  /** The three fixed category labels a task may carry. */
  datatype Category = Matkul | Organization | Freelance

  /** One tracked task. `progress` is a percentage that nothing validates; `description` is optional. */
  datatype Task = Task(
    id: string,
    title: string,
    courseName: string,
    category: Category,
    deadline: string,
    completed: bool,
    progress: int,
    description: Option<string>)

  /** Every field of a task except its identifier: what a caller hands to task creation. */
  datatype TaskFields = TaskFields(
    title: string,
    courseName: string,
    category: Category,
    deadline: string,
    completed: bool,
    progress: int,
    description: Option<string>)

  /** A partial task: each field is either absent (None) or carries the value to write. */
  datatype TaskPatch = TaskPatch(
    id: Option<string>,
    title: Option<string>,
    courseName: Option<string>,
    category: Option<Category>,
    deadline: Option<string>,
    completed: Option<bool>,
    progress: Option<int>,
    description: Option<string>)

  /** The patch that names no field. */
  const EmptyPatch: TaskPatch := TaskPatch(None, None, None, None, None, None, None, None)

  /** The fields of `t` without its identifier. */
  function FieldsOf(t: Task): TaskFields
  {
    TaskFields(t.title, t.courseName, t.category, t.deadline, t.completed, t.progress, t.description)
  }

  /** The record built from caller-supplied fields plus an identifier (`{ ...task, id }`). */
  function WithId(f: TaskFields, id: string): (t: Task)
    ensures t.id == id
    ensures FieldsOf(t) == f
  {
    Task(id, f.title, f.courseName, f.category, f.deadline, f.completed, f.progress, f.description)
  }

  /** A task is exactly its identifier plus its fields: splitting and re-joining loses nothing. */
  lemma WithIdFieldsOf(t: Task)
    ensures WithId(FieldsOf(t), t.id) == t
  {
  }

  /** The patch that names every field of `t`, with `t`'s values. */
  function PatchOf(t: Task): (p: TaskPatch)
    ensures p.id == Some(t.id) && p.title == Some(t.title) && p.progress == Some(t.progress)
  {
    TaskPatch(Some(t.id), Some(t.title), Some(t.courseName), Some(t.category), Some(t.deadline),
              Some(t.completed), Some(t.progress), t.description)
  }

  /** Field-by-field: `r` takes `p`'s value where `p` names the field and keeps `t`'s otherwise. */
  ghost predicate Overlays(t: Task, p: TaskPatch, r: Task)
  {
    && r.id == p.id.GetOr(t.id)
    && r.title == p.title.GetOr(t.title)
    && r.courseName == p.courseName.GetOr(t.courseName)
    && r.category == p.category.GetOr(t.category)
    && r.deadline == p.deadline.GetOr(t.deadline)
    && r.completed == p.completed.GetOr(t.completed)
    && r.progress == p.progress.GetOr(t.progress)
    && r.description == (if p.description.Some? then p.description else t.description)
  }

  /** Shallow merge `{ ...t, ...p }`: present fields of the patch win, absent ones leave `t` alone. */
  function Merge(t: Task, p: TaskPatch): (r: Task)
    ensures Overlays(t, p, r)
  {
    Task(
      if p.id.Some? then p.id.value else t.id,
      if p.title.Some? then p.title.value else t.title,
      if p.courseName.Some? then p.courseName.value else t.courseName,
      if p.category.Some? then p.category.value else t.category,
      if p.deadline.Some? then p.deadline.value else t.deadline,
      if p.completed.Some? then p.completed.value else t.completed,
      if p.progress.Some? then p.progress.value else t.progress,
      if p.description.Some? then p.description else t.description)
  }

  /** Merging the empty patch changes nothing. */
  lemma MergeEmpty(t: Task)
    ensures Merge(t, EmptyPatch) == t
  {
  }

  /** Merging the same patch twice is the same as merging it once. */
  lemma MergeIdempotent(t: Task, p: TaskPatch)
    ensures Merge(Merge(t, p), p) == Merge(t, p)
  {
  }

  /** A patch naming every field of `u` turns any task into `u` when `u` has a description. */
  lemma MergeFullPatch(t: Task, u: Task)
    requires u.description.Some?
    ensures Merge(t, PatchOf(u)) == u
  {
  }

  /** The three example records used when nothing is stored yet. */
  const InitialTasks: seq<Task> := [
    Task("1", "Tugas akhir PSI", "Pemrograman Sistem Interaktif", Matkul,
         "2025-12-15T23:59:00", false, 50,
         Some("Membuat aplikasi web interaktif menggunakan React dan TypeScript")),
    Task("2", "RAB Farewell SGE", "Software Engineering", Organization,
         "2025-12-16T15:00:00", false, 50,
         Some("Menyusun Rencana Anggaran Biaya untuk acara farewell")),
    Task("3", "Laporan Praktikum", "Basis Data", Matkul,
         "2025-12-17T12:00:00", false, 30,
         Some("Membuat laporan praktikum basis data tentang normalisasi"))
  ]
}
