/**
 A disconnect scan comes to its end: after three sections it has read its lists, and then it
 finishes within two sections for each task it has seen and one more, if each abort call it
 waits for has returned when it looks.
 */
module LifecycleScans {
  import opened SignSlots
  import opened Lifecycle
  import opened LifecycleStructure
  import opened LifecycleStarts
  import opened LifecycleScan

  predicate ScansOwn(a: Action, c: ScanId) { a.ScanStep? && a.scan == c }

  function ScanSections(acts: seq<Action>, k: nat, n: nat, c: ScanId): nat
    requires k <= n <= |acts|
    decreases n
  {
    if k == n then 0 else ScanSections(acts, k, n - 1, c) + (if ScansOwn(acts[n - 1], c) then 1 else 0)
  }

  lemma OthersKeepScan(s: State, a: Action, c: ScanId)
    requires c in s.scans && !ScansOwn(a, c)
    ensures c in Step(s, a).scans && Step(s, a).scans[c] == s.scans[c]
  {
    match a
    case StarterStep(u, fails) => if u in s.starters && s.starters[u].pc != Register { StartEffectFrame(s, u, fails); }
    case AborterStep(d) => if d in s.aborters { AbortEffectFrame(s, s.aborters[d]); }
    case WorkerStep(g) => if g in s.workers && g in s.taskOf { WorkerFrame(s, g); }
    case _ =>
  }

  lemma OwnScan(s: State, c: ScanId, pick: Task)
    requires c in s.scans
    ensures c in DoScan(s, c, pick).scans && DoScan(s, c, pick).scans[c] == ScanNext(s, s.scans[c], pick)
  {
  }

  // How many of its sections are still to come at most, before and after its lists are read.
  function ToRead(pc: ScanPc): nat {
    match pc case ListStarting => 3 case ListKeygen => 2 case ListSign => 1 case _ => 0
  }

  function ToDo(sc: Scan): nat {
    match sc.pc
    case NextTask => 2 * |sc.todo| + 1
    case Waiting(_) => 2 * |sc.todo| + 2
    case _ => 0
  }

  // A section of the scan meets what it waits for: a task it has still to abort, or a call
  // that has returned.
  ghost predicate Served(s: State, c: ScanId, pick: Task)
    requires c in s.scans
  {
    match s.scans[c].pc
    case NextTask => s.scans[c].todo == {} || pick in s.scans[c].todo
    case Waiting(call) => call in s.aborters && s.aborters[call].pc == Returned
    case _ => true
  }

  ghost predicate ServedAt(acts: seq<Action>, m: nat, c: ScanId) {
    m < |acts| && (ScansOwn(acts[m], c) && c in After(acts[..m]).scans ==> Served(After(acts[..m]), c, acts[m].pick))
  }

  ghost predicate Reading(s: State, c: ScanId, sections: nat) {
    c in s.scans && (ListsRead(s.scans[c].pc) || ToRead(s.scans[c].pc) + sections <= 3)
  }

  lemma ReadsOn(acts: seq<Action>, k: nat, n: nat, c: ScanId)
    requires k <= n < |acts| && Reading(After(acts[..n]), c, ScanSections(acts, k, n, c))
    ensures Reading(After(acts[..n + 1]), c, ScanSections(acts, k, n + 1, c))
  {
    var s := After(acts[..n]);
    UpTo(acts, n);
    if ScansOwn(acts[n], c) { OwnScan(s, c, acts[n].pick); } else { OthersKeepScan(s, acts[n], c); }
  }

  // Three sections after it began, a scan has read its lists.
  lemma {:induction false} ScanReadsLists(acts: seq<Action>, k: nat, n: nat, c: ScanId)
    requires k <= n <= |acts| && c in After(acts[..k]).scans
    ensures Reading(After(acts[..n]), c, ScanSections(acts, k, n, c))
    ensures ScanSections(acts, k, n, c) >= 3 ==> ListsRead(After(acts[..n]).scans[c].pc)
    decreases n
  {
    if k < n {
      ScanReadsLists(acts, k, n - 1, c);
      ReadsOn(acts, k, n - 1, c);
    }
  }

  ghost predicate Aborting(s: State, c: ScanId, sections: nat, left: nat) {
    c in s.scans && ListsRead(s.scans[c].pc) && (s.scans[c].pc.Finished? || ToDo(s.scans[c]) + sections <= left)
  }

  lemma ServedAdvances(s: State, c: ScanId, pick: Task, sections: nat, left: nat)
    requires Aborting(s, c, sections, left) && Served(s, c, pick)
    ensures Aborting(DoScan(s, c, pick), c, sections + 1, left)
  {
    OwnScan(s, c, pick);
  }

  lemma AbortsOn(acts: seq<Action>, k: nat, n: nat, c: ScanId, left: nat)
    requires k <= n < |acts| && Aborting(After(acts[..n]), c, ScanSections(acts, k, n, c), left) && ServedAt(acts, n, c)
    ensures Aborting(After(acts[..n + 1]), c, ScanSections(acts, k, n + 1, c), left)
  {
    var s := After(acts[..n]);
    UpTo(acts, n);
    if ScansOwn(acts[n], c) {
      ServedAdvances(s, c, acts[n].pick, ScanSections(acts, k, n, c), left);
    } else {
      OthersKeepScan(s, acts[n], c);
    }
  }

  // And then it finishes, after two sections for each task left, one more, and one for a call
  // it is waiting for.
  lemma {:induction false} ScanFinishes(acts: seq<Action>, k: nat, n: nat, c: ScanId)
    requires k <= n <= |acts| && c in After(acts[..k]).scans && ListsRead(After(acts[..k]).scans[c].pc)
    requires forall m: nat :: k <= m < n ==> ServedAt(acts, m, c)
    ensures Aborting(After(acts[..n]), c, ScanSections(acts, k, n, c), ToDo(After(acts[..k]).scans[c]))
    ensures ScanSections(acts, k, n, c) >= 2 * |After(acts[..k]).scans[c].todo| + 2 ==>
      After(acts[..n]).scans[c].pc.Finished?
    decreases n
  {
    if k < n {
      ScanFinishes(acts, k, n - 1, c);
      AbortsOn(acts, k, n - 1, c, ToDo(After(acts[..k]).scans[c]));
    }
  }
}
