/**
  The three socket handlers of the home page rewrite the client's task list
  (client/src/pages/Home.jsx, lines 53-68). Each rewrite is a pure expression
  over the previous list: a spread-append, a `map` and a `filter`. They are
  modelled here as functions over `seq<Task>`, exactly as written: a created
  task is appended even when an entry with the same `_id` is already present,
  and an update of an absent `_id` inserts nothing.
 */
module TaskList {
  import opened Wrappers
  import opened Tasks

  /** Some entry of `s` carries the identifier `id`. */
  predicate ContainsId(s: seq<Task>, id: Option<string>) {
    exists i :: 0 <= i < |s| && s[i].id == id
  }

  /** How many entries of `s` carry the identifier `id`. */
  function CountId(s: seq<Task>, id: Option<string>): nat {
    if s == [] then 0 else (if s[0].id == id then 1 else 0) + CountId(s[1..], id)
  }

  /** `sub` can be obtained from `s` by dropping entries, keeping the order of the rest. */
  predicate IsSubsequence(sub: seq<Task>, s: seq<Task>)
    decreases |s|
  {
    if s == [] then sub == []
    else (sub != [] && sub[0] == s[0] && IsSubsequence(sub[1..], s[1..])) || IsSubsequence(sub, s[1..])
  }

  /** The `taskCreated` handler: `[...prevTasks, newTask]`. */
  function Created(prev: seq<Task>, newTask: Task): (r: seq<Task>)
    ensures |r| == |prev| + 1
    ensures r[..|prev|] == prev && r[|prev|] == newTask
  {
    prev + [newTask]
  }

  /**
    The `taskUpdated` handler: every entry whose `_id` equals the updated
    task's `_id` is replaced by the updated task, positions and length kept.
   */
  function Updated(prev: seq<Task>, updated: Task): (r: seq<Task>)
    ensures |r| == |prev|
    ensures forall i :: 0 <= i < |prev| && prev[i].id == updated.id ==> r[i] == updated
    ensures forall i :: 0 <= i < |prev| && prev[i].id != updated.id ==> r[i] == prev[i]
    ensures updated in r <==> ContainsId(prev, updated.id)
    ensures !ContainsId(prev, updated.id) ==> r == prev
  {
    if prev == [] then []
    else
      var rest := Updated(prev[1..], updated);
      assert forall i :: 1 <= i < |prev| ==> prev[i] == prev[1..][i - 1];
      if prev[0].id == updated.id then [updated] + rest else [prev[0]] + rest
  }

  /** The `taskDeleted` handler: keep exactly the entries whose `_id` differs from the deleted one. */
  function Deleted(prev: seq<Task>, deletedId: string): (r: seq<Task>)
    ensures forall t: Task :: t in r ==> t.id != Some(deletedId)
    ensures forall t: Task :: t.id != Some(deletedId) ==> multiset(r)[t] == multiset(prev)[t]
  {
    if prev == [] then []
    else
      assert prev == [prev[0]] + prev[1..];
      (if prev[0].id != Some(deletedId) then [prev[0]] else []) + Deleted(prev[1..], deletedId)
  }

  /** The entries that survive a delete keep their relative order. */
  lemma {:induction false} DeletedIsSubsequence(prev: seq<Task>, deletedId: string)
    ensures IsSubsequence(Deleted(prev, deletedId), prev)
  {
    if prev != [] {
      var rest := Deleted(prev[1..], deletedId);
      DeletedIsSubsequence(prev[1..], deletedId);
      if prev[0].id != Some(deletedId) {
        assert Deleted(prev, deletedId) == [prev[0]] + rest;
        assert ([prev[0]] + rest)[1..] == rest;
      } else {
        assert Deleted(prev, deletedId) == rest;
      }
    }
  }

  /** A delete removes exactly as many entries as carry the deleted `_id`. */
  lemma {:induction false} DeletedLength(prev: seq<Task>, deletedId: string)
    ensures |Deleted(prev, deletedId)| + CountId(prev, Some(deletedId)) == |prev|
  {
    if prev != [] {
      DeletedLength(prev[1..], deletedId);
    }
  }

  /** Deleting an `_id` that no entry carries leaves the list as it was. */
  lemma {:induction false} DeletedAbsentIsNoOp(prev: seq<Task>, deletedId: string)
    requires !ContainsId(prev, Some(deletedId))
    ensures Deleted(prev, deletedId) == prev
  {
    if prev != [] {
      assert prev[0].id != Some(deletedId);
      assert !ContainsId(prev[1..], Some(deletedId)) by {
        forall i | 0 <= i < |prev[1..]| ensures prev[1..][i].id != Some(deletedId) {
          assert prev[1..][i] == prev[i + 1];
        }
      }
      DeletedAbsentIsNoOp(prev[1..], deletedId);
      assert prev == [prev[0]] + prev[1..];
    }
  }

  /** Appending never merges: a created task whose `_id` is already listed leaves two entries with that `_id`. */
  lemma {:induction false} CreatedAddsOneEntryPerId(prev: seq<Task>, newTask: Task)
    ensures CountId(Created(prev, newTask), newTask.id) == CountId(prev, newTask.id) + 1
    ensures ContainsId(prev, newTask.id) ==> CountId(Created(prev, newTask), newTask.id) >= 2
  {
    CountIdAppend(prev, [newTask], newTask.id);
    if ContainsId(prev, newTask.id) {
      var i :| 0 <= i < |prev| && prev[i].id == newTask.id;
      CountIdPositive(prev, newTask.id, i);
    }
  }

  lemma {:induction false} CountIdAppend(a: seq<Task>, b: seq<Task>, id: Option<string>)
    ensures CountId(a + b, id) == CountId(a, id) + CountId(b, id)
  {
    if a == [] {
      assert a + b == b;
    } else {
      assert (a + b)[1..] == a[1..] + b;
      CountIdAppend(a[1..], b, id);
    }
  }

  lemma {:induction false} CountIdPositive(s: seq<Task>, id: Option<string>, i: nat)
    requires i < |s| && s[i].id == id
    ensures CountId(s, id) >= 1
  {
    if i > 0 {
      CountIdPositive(s[1..], id, i - 1);
    }
  }

  /** Deleting twice is deleting once. */
  lemma DeletedIdempotent(prev: seq<Task>, deletedId: string)
    ensures Deleted(Deleted(prev, deletedId), deletedId) == Deleted(prev, deletedId)
  {
    var once := Deleted(prev, deletedId);
    assert !ContainsId(once, Some(deletedId)) by {
      forall i | 0 <= i < |once| ensures once[i].id != Some(deletedId) {
        assert once[i] in once;
      }
    }
    DeletedAbsentIsNoOp(once, deletedId);
  }

  /** Replaying the same update again changes nothing. */
  lemma UpdatedIdempotent(prev: seq<Task>, updated: Task)
    ensures Updated(Updated(prev, updated), updated) == Updated(prev, updated)
  {
    var once := Updated(prev, updated);
    var twice := Updated(once, updated);
    assert |twice| == |once|;
    forall i | 0 <= i < |once| ensures twice[i] == once[i] {
      if prev[i].id == updated.id {
        assert once[i] == updated;
      }
    }
  }

  /** The filter distributes over concatenation. */
  lemma {:induction false} DeletedAppend(a: seq<Task>, b: seq<Task>, deletedId: string)
    ensures Deleted(a + b, deletedId) == Deleted(a, deletedId) + Deleted(b, deletedId)
  {
    if a == [] {
      assert a + b == b;
    } else {
      assert (a + b)[1..] == a[1..] + b;
      DeletedAppend(a[1..], b, deletedId);
    }
  }

  /** A `taskDeleted` event cancels an earlier `taskCreated` event for the same `_id`. */
  lemma DeleteAfterCreate(prev: seq<Task>, newTask: Task, deletedId: string)
    requires newTask.id == Some(deletedId)
    ensures Deleted(Created(prev, newTask), deletedId) == Deleted(prev, deletedId)
  {
    DeletedAppend(prev, [newTask], deletedId);
  }

  /** A `taskDeleted` event erases whatever an earlier `taskUpdated` event for the same `_id` wrote. */
  lemma {:induction false} DeleteAfterUpdate(prev: seq<Task>, updated: Task, deletedId: string)
    requires updated.id == Some(deletedId)
    ensures Deleted(Updated(prev, updated), deletedId) == Deleted(prev, deletedId)
  {
    if prev != [] {
      DeleteAfterUpdate(prev[1..], updated, deletedId);
    }
  }
}
