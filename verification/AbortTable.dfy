/**
 The table of aborted tasks: task id -> time of the accepted abort mark, forgotten 15
 minutes later.  Times are the clock readings in the order in which the lock is taken.
 The table is compared with the plain history of accepted marks.
 */
module AbortTable {

  type Time = int  // nanoseconds

  const TTL: Time := 15 * 60 * 1_000_000_000

  type Table = map<string, Time>

  function Prune(table: Table, now: Time): Table {
    map id | id in table && now - table[id] <= TTL :: table[id]
  }

  predicate Aborted(table: Table, id: string, now: Time) {
    id != "" && id in table && now - table[id] <= TTL
  }

  // The table after tryMarkTaskAborted, and whether it accepted the mark.
  predicate Accepts(table: Table, id: string, now: Time) {
    id != "" && !(id in table && now - table[id] <= TTL)
  }

  function TryMark(table: Table, id: string, now: Time): Table {
    if id == "" then table
    else if Accepts(table, id, now) then Prune(table, now)[id := now] else Prune(table, now)
  }

  // ---- Runs against the history of accepted marks ----

  datatype Call = Mark(id: string, at: Time) | Ask(id: string, at: Time)

  // The readings never go back.
  ghost predicate ClockInOrder(calls: seq<Call>) {
    forall i, j :: 0 <= i < j < |calls| ==> calls[i].at <= calls[j].at
  }

  function CallOn(table: Table, call: Call): Table {
    match call
    case Mark(id, at) => TryMark(table, id, at)
    case Ask(id, at) => if id == "" then table else Prune(table, at)
  }

  function TableAfter(calls: seq<Call>): Table {
    if calls == [] then map[] else CallOn(TableAfter(calls[..|calls| - 1]), calls[|calls| - 1])
  }

  // Call i is a mark the table accepted.
  ghost predicate Accepted(calls: seq<Call>, i: nat) {
    i < |calls| && calls[i].Mark? && Accepts(TableAfter(calls[..i]), calls[i].id, calls[i].at)
  }

  // Some accepted mark of the task lies within the last 15 minutes.
  ghost predicate MarkedWithin(calls: seq<Call>, id: string, now: Time) {
    exists i: nat :: Accepted(calls, i) && calls[i].id == id && now - calls[i].at <= 900_000_000_000
  }

  ghost predicate Backed(calls: seq<Call>, table: Table, id: string)
    requires id in table
  {
    id != "" && exists i: nat :: Accepted(calls, i) && calls[i].id == id && calls[i].at == table[id]
  }

  // What the table remembers: latest accepted marks, and every one still young enough.
  ghost predicate Remembers(calls: seq<Call>, table: Table, now: Time) {
    && (forall id :: id in table ==> Backed(calls, table, id))
    && (forall i: nat :: Accepted(calls, i) && now - calls[i].at <= TTL ==>
          calls[i].id in table && table[calls[i].id] >= calls[i].at)
  }

  lemma AcceptedPrefix(calls: seq<Call>, n: nat, i: nat)
    requires i < n <= |calls|
    ensures Accepted(calls[..n], i) <==> Accepted(calls, i)
  {
    assert calls[..n][..i] == calls[..i];
  }

  lemma EntriesBacked(calls: seq<Call>, n: nat, id: string)
    requires |calls| == n + 1 && id in TableAfter(calls)
    requires forall id' :: id' in TableAfter(calls[..n]) ==> Backed(calls[..n], TableAfter(calls[..n]), id')
    ensures Backed(calls, TableAfter(calls), id)
  {
    var before, last, table := calls[..n], calls[n], TableAfter(calls[..n]);
    if last.Mark? && Accepts(table, last.id, last.at) && id == last.id {
      assert Accepted(calls, n);
    } else {
      assert id in table && TableAfter(calls)[id] == table[id] && Backed(before, table, id);
      var i: nat :| Accepted(before, i) && before[i].id == id && before[i].at == table[id];
      AcceptedPrefix(calls, n, i);
    }
  }

  lemma RecentKept(calls: seq<Call>, n: nat, i: nat, now: Time)
    requires |calls| == n + 1 && Accepted(calls, i) && now - calls[i].at <= TTL && calls[n].at <= now
    requires Remembers(calls[..n], TableAfter(calls[..n]), calls[n].at)
    requires ClockInOrder(calls)
    ensures calls[i].id in TableAfter(calls) && TableAfter(calls)[calls[i].id] >= calls[i].at
  {
    var table := TableAfter(calls[..n]);
    assert TableAfter(calls) == CallOn(table, calls[n]);
    if i < n {
      AcceptedPrefix(calls, n, i);
      assert Accepted(calls[..n], i) && calls[..n][i] == calls[i];
      assert calls[i].id in table && table[calls[i].id] >= calls[i].at;
      RecentStays(table, calls[n], calls[i].id, calls[i].at);
    }
  }

  lemma RecentStays(table: Table, call: Call, id: string, at: Time)
    requires id in table && table[id] >= at && at <= call.at <= at + TTL
    ensures id in CallOn(table, call) && CallOn(table, call)[id] >= at
  {
  }

  // A call at a later time leaves a table that remembers the longer history.
  lemma {:induction false} TableRemembers(calls: seq<Call>, now: Time)
    requires ClockInOrder(calls) && (forall i :: 0 <= i < |calls| ==> calls[i].at <= now)
    ensures Remembers(calls, TableAfter(calls), now)
  {
    if calls != [] {
      var n := |calls| - 1;
      TableRemembers(calls[..n], calls[n].at);
      forall id | id in TableAfter(calls) ensures Backed(calls, TableAfter(calls), id) {
        EntriesBacked(calls, n, id);
      }
      forall i: nat | Accepted(calls, i) && now - calls[i].at <= TTL
        ensures calls[i].id in TableAfter(calls) && TableAfter(calls)[calls[i].id] >= calls[i].at
      {
        RecentKept(calls, n, i, now);
      }
    }
  }

  // isTaskAborted with pruning answers exactly "some accepted mark within the last 15 minutes".
  lemma AbortedIffMarkedWithin(calls: seq<Call>, id: string, now: Time)
    requires ClockInOrder(calls) && (forall i :: 0 <= i < |calls| ==> calls[i].at <= now) && id != ""
    ensures Aborted(TableAfter(calls), id, now) <==> MarkedWithin(calls, id, now)
  {
    TableRemembers(calls, now);
  }

  // Two accepted marks of one task are more than 15 minutes apart, so within any window of
  // that length at most one abort carries the last gasp.
  lemma AcceptedMarksFarApart(calls: seq<Call>, i: nat, j: nat)
    requires ClockInOrder(calls) && i < j && Accepted(calls, i) && Accepted(calls, j) && calls[i].id == calls[j].id
    ensures calls[j].at - calls[i].at > 900_000_000_000
  {
    AcceptedPrefix(calls, j, i);
    TableRemembers(calls[..j], calls[j].at);
  }

  // A mark is refused only while an earlier one is in force: some abort has been accepted.
  lemma RefusedOnlyWhileMarked(calls: seq<Call>, i: nat)
    requires ClockInOrder(calls) && i < |calls| && calls[i].Mark? && calls[i].id != "" && !Accepted(calls, i)
    ensures exists j: nat ::
              j < i && Accepted(calls, j) && calls[j].id == calls[i].id && calls[i].at - calls[j].at <= TTL
  {
    AbortedIffMarkedWithin(calls[..i], calls[i].id, calls[i].at);
    var j: nat :| Accepted(calls[..i], j) && calls[..i][j].id == calls[i].id && calls[i].at - calls[..i][j].at <= TTL;
    AcceptedPrefix(calls, i, j);
  }

  // ---- The table as the package variable ----

  class AbortedTasks {
    var abortedTasks: map<string, Time>

    constructor ()
      ensures abortedTasks == map[]
    {
      abortedTasks := map[];
    }

    // pruneAbortedTasksLocked
    method PruneLocked(now: Time)
      modifies this
      ensures abortedTasks == Prune(old(abortedTasks), now)
    {
      var ids := abortedTasks.Keys;
      while ids != {}
        invariant ids <= abortedTasks.Keys <= old(abortedTasks).Keys
        invariant forall id :: id in abortedTasks ==> abortedTasks[id] == old(abortedTasks)[id]
        invariant forall id :: id in old(abortedTasks) && id !in ids ==>
                    (id in abortedTasks <==> now - old(abortedTasks)[id] <= TTL)
        invariant forall id :: id in ids ==> id in abortedTasks
        decreases |ids|
      {
        var id :| id in ids;
        ids := ids - {id};
        if now - abortedTasks[id] > TTL {
          abortedTasks := abortedTasks - {id};
        }
      }
    }

    method TryMarkTaskAborted(taskID: string, now: Time) returns (accepted: bool)
      modifies this
      ensures accepted <==> Accepts(old(abortedTasks), taskID, now)
      ensures abortedTasks == TryMark(old(abortedTasks), taskID, now)
    {
      if taskID == "" { return false; }
      PruneLocked(now);
      if taskID in abortedTasks && now - abortedTasks[taskID] <= TTL { return false; }
      abortedTasks := abortedTasks[taskID := now];
      return true;
    }

    method IsTaskAborted(taskID: string, now: Time) returns (aborted: bool)
      modifies this
      ensures aborted <==> Aborted(old(abortedTasks), taskID, now)
      ensures abortedTasks == if taskID == "" then old(abortedTasks) else Prune(old(abortedTasks), now)
    {
      if taskID == "" { return false; }
      PruneLocked(now);
      return taskID in abortedTasks && now - abortedTasks[taskID] <= TTL;
    }
  }
}
