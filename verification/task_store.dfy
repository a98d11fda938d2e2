/** The task store: the insertion-ordered list of tasks and its four operations. */
module TaskStore {
  import opened Wrappers
  import opened Tasks

  /** Some element of `tasks` has identifier `id`. */
  predicate HasId(tasks: seq<Task>, id: string)
  {
    exists i :: 0 <= i < |tasks| && tasks[i].id == id
  }

  /** How many elements of `tasks` have identifier `id`. */
  function CountId(tasks: seq<Task>, id: string): nat
  {
    if |tasks| == 0 then 0
    else (if tasks[0].id == id then 1 else 0) + CountId(tasks[1..], id)
  }

  /** `a` is `b` with some elements dropped, the rest kept in their relative order. */
  ghost predicate IsSubsequence<T>(a: seq<T>, b: seq<T>)
    decreases |b|
  {
    if |a| == 0 then true
    else if |b| == 0 then false
    else (a[0] == b[0] && IsSubsequence(a[1..], b[1..])) || IsSubsequence(a, b[1..])
  }

  /** `addTask`: the old list with one record, built from `fields` and `newId`, appended at the end. */
  function AddTask(tasks: seq<Task>, fields: TaskFields, newId: string): (r: seq<Task>)
    ensures |r| == |tasks| + 1
    ensures r[..|tasks|] == tasks
    ensures r[|tasks|].id == newId && FieldsOf(r[|tasks|]) == fields
  {
    tasks + [WithId(fields, newId)]
  }

  /** `updateTask`: every element with identifier `id` is merged with `patch`; the others stay. */
  function UpdateTask(tasks: seq<Task>, id: string, patch: TaskPatch): (r: seq<Task>)
    ensures |r| == |tasks|
    ensures forall i :: 0 <= i < |tasks| && tasks[i].id != id ==> r[i] == tasks[i]
    ensures forall i :: 0 <= i < |tasks| && tasks[i].id == id ==> Overlays(tasks[i], patch, r[i])
  {
    if |tasks| == 0 then []
    else
      var head := if tasks[0].id == id then Merge(tasks[0], patch) else tasks[0];
      [head] + UpdateTask(tasks[1..], id, patch)
  }

  /** `deleteTask`: the elements whose identifier is not `id`, in their original order. */
  function DeleteTask(tasks: seq<Task>, id: string): (r: seq<Task>)
    ensures forall i :: 0 <= i < |r| ==> r[i].id != id
    ensures forall t :: t in r ==> t in tasks
    ensures forall t :: t in tasks && t.id != id ==> t in r
    ensures |r| == |tasks| - CountId(tasks, id)
    ensures IsSubsequence(r, tasks)
  {
    if |tasks| == 0 then []
    else if tasks[0].id == id then DeleteTask(tasks[1..], id)
    else [tasks[0]] + DeleteTask(tasks[1..], id)
  }

  /** `getTaskById`: the first element with identifier `id`, or None when there is none. */
  function GetTaskById(tasks: seq<Task>, id: string): (r: Option<Task>)
    ensures r.None? <==> !HasId(tasks, id)
    ensures r.Some? ==> r.value.id == id && r.value in tasks
    ensures r.Some? ==> exists i :: 0 <= i < |tasks| && tasks[i] == r.value &&
                                    forall j :: 0 <= j < i ==> tasks[j].id != id
  {
    if |tasks| == 0 then None
    else if tasks[0].id == id then Some(tasks[0])
    else
      var rest := GetTaskById(tasks[1..], id);
      assert rest.Some? ==> exists i :: 0 < i < |tasks| && tasks[i] == rest.value &&
                                        forall j :: 0 <= j < i ==> tasks[j].id != id by {
        if rest.Some? {
          var k :| 0 <= k < |tasks[1..]| && tasks[1..][k] == rest.value &&
                   forall j :: 0 <= j < k ==> tasks[1..][j].id != id;
          assert tasks[k + 1] == rest.value;
        }
      }
      HasIdTail(tasks, id);
      rest
  }

  /** When the head does not carry `id`, the list has `id` exactly when its tail does. */
  lemma HasIdTail(tasks: seq<Task>, id: string)
    requires |tasks| > 0 && tasks[0].id != id
    ensures HasId(tasks, id) <==> HasId(tasks[1..], id)
  {
    if HasId(tasks, id) {
      var k :| 0 <= k < |tasks| && tasks[k].id == id;
      assert tasks[1..][k - 1].id == id;
    }
    if HasId(tasks[1..], id) {
      var k :| 0 <= k < |tasks[1..]| && tasks[1..][k].id == id;
      assert tasks[k + 1].id == id;
    }
  }

  /** Looking up in a concatenation finds the first list's match before the second's. */
  lemma {:induction false} GetTaskByIdAppend(a: seq<Task>, b: seq<Task>, id: string)
    ensures GetTaskById(a + b, id) == if HasId(a, id) then GetTaskById(a, id) else GetTaskById(b, id)
  {
    if |a| == 0 {
      assert a + b == b;
    } else {
      assert (a + b)[1..] == a[1..] + b;
      GetTaskByIdAppend(a[1..], b, id);
      if a[0].id != id {
        HasIdTail(a, id);
      }
    }
  }

  /** After adding a record under an identifier not yet in use, looking that identifier up finds it. */
  lemma AddThenGet(tasks: seq<Task>, fields: TaskFields, newId: string)
    requires !HasId(tasks, newId)
    ensures GetTaskById(AddTask(tasks, fields, newId), newId) == Some(WithId(fields, newId))
    ensures GetTaskById(AddTask(tasks, fields, newId), newId).value.title == fields.title
  {
    GetTaskByIdAppend(tasks, [WithId(fields, newId)], newId);
  }

  /** If the new identifier collides with an existing one, lookups keep finding the older record. */
  lemma AddShadowed(tasks: seq<Task>, fields: TaskFields, newId: string)
    requires HasId(tasks, newId)
    ensures GetTaskById(AddTask(tasks, fields, newId), newId) == GetTaskById(tasks, newId)
  {
    GetTaskByIdAppend(tasks, [WithId(fields, newId)], newId);
  }

  /** Adding a record does not change what any other identifier looks up to. */
  lemma AddKeepsOtherLookups(tasks: seq<Task>, fields: TaskFields, newId: string, id: string)
    requires id != newId
    ensures GetTaskById(AddTask(tasks, fields, newId), id) == GetTaskById(tasks, id)
  {
    GetTaskByIdAppend(tasks, [WithId(fields, newId)], id);
  }

  /** Updating an identifier that matches nothing leaves the list as it was, without any error. */
  lemma UpdateAbsent(tasks: seq<Task>, id: string, patch: TaskPatch)
    requires !HasId(tasks, id)
    ensures UpdateTask(tasks, id, patch) == tasks
  {
    var r := UpdateTask(tasks, id, patch);
    assert forall i :: 0 <= i < |tasks| ==> r[i] == tasks[i];
  }

  /** Merging the empty patch into the matching elements changes nothing. */
  lemma UpdateEmptyPatch(tasks: seq<Task>, id: string)
    ensures UpdateTask(tasks, id, EmptyPatch) == tasks
  {
    var r := UpdateTask(tasks, id, EmptyPatch);
    forall i | 0 <= i < |tasks|
      ensures r[i] == tasks[i]
    {
      if tasks[i].id == id {
        MergeEmpty(tasks[i]);
      }
    }
  }

  /** When the patch keeps the identifier, looking it up after the update finds the merged first match. */
  lemma {:induction false} GetAfterUpdate(tasks: seq<Task>, id: string, patch: TaskPatch)
    requires patch.id.None? || patch.id == Some(id)
    ensures GetTaskById(UpdateTask(tasks, id, patch), id) ==
            match GetTaskById(tasks, id)
            case None => None
            case Some(t) => Some(Merge(t, patch))
  {
    if |tasks| > 0 {
      assert UpdateTask(tasks, id, patch)[1..] == UpdateTask(tasks[1..], id, patch);
      GetAfterUpdate(tasks[1..], id, patch);
    }
  }

  /** Deleting an identifier that matches nothing leaves the list as it was, without any error. */
  lemma {:induction false} DeleteAbsent(tasks: seq<Task>, id: string)
    requires !HasId(tasks, id)
    ensures DeleteTask(tasks, id) == tasks
  {
    if |tasks| > 0 {
      assert tasks[0].id != id;
      DeleteAbsent(tasks[1..], id);
      assert [tasks[0]] + tasks[1..] == tasks;
    }
  }

  /** Deleting the same identifier a second time changes nothing. */
  lemma DeleteIdempotent(tasks: seq<Task>, id: string)
    ensures DeleteTask(DeleteTask(tasks, id), id) == DeleteTask(tasks, id)
  {
    DeleteAbsent(DeleteTask(tasks, id), id);
  }

  /** After deleting an identifier, looking it up finds nothing. */
  lemma GetAfterDelete(tasks: seq<Task>, id: string)
    ensures GetTaskById(DeleteTask(tasks, id), id) == None
  {
  }

  /** Deleting one identifier does not change what any other identifier looks up to. */
  lemma {:induction false} DeleteKeepsOtherLookups(tasks: seq<Task>, id: string, other: string)
    requires other != id
    ensures GetTaskById(DeleteTask(tasks, id), other) == GetTaskById(tasks, other)
  {
    if |tasks| > 0 {
      DeleteKeepsOtherLookups(tasks[1..], id, other);
      if tasks[0].id != id {
        assert (DeleteTask(tasks, id))[1..] == DeleteTask(tasks[1..], id);
      }
    }
  }
}
