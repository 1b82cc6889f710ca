/**
 Starting and stopping the node from a mobile app.  StartNode, the goroutine that
 completes a launch, and StopNode each run one section under the lock; the launch itself
 and the call of a stop function happen outside it.  Launches are numbered in the order
 in which StartNode accepted them.
 */
module MobileNode {
  import opened Wrappers

  type LaunchId = nat

  datatype Phase =
    | InFlight          // app.LaunchMPCNode is running
    | Failed            // it returned an error (and no stop function)
    | Held              // its stop function is in stopFn
    | StopDue           // its stop function has been taken and not called yet
    | Stopped           // its stop function has been called

  // `stopsAtStart` is history: how many StopNode sections had run when the launch began.
  datatype Launch = Launch(epoch: nat, phase: Phase, stopsAtStart: nat, stopCalls: nat, adoptedAt: Option<nat>)

  datatype State = State(
    running: bool,
    stopFn: Option<LaunchId>,
    epoch: nat,
    launches: seq<Launch>,
    stops: nat)           // history: StopNode sections so far

  const INIT: State := State(false, None, 0, [], 0)

  datatype Action =
    | Start(configOk: bool)              // configOk: the configuration checks and file writes succeed
    | Complete(id: LaunchId, ok: bool)   // the completion section of launch id
    | Stop
    | CallStop(id: LaunchId)             // a taken stop function is called

  function SetPhase(s: State, id: LaunchId, launch: Launch): State
    requires id < |s.launches|
  {
    s.(launches := s.launches[id := launch])
  }

  function DoStart(s: State, configOk: bool): State {
    if s.running || !configOk then s
    else s.(running := true, launches := s.launches + [Launch(s.epoch, InFlight, s.stops, 0, None)])
  }

  function DoComplete(s: State, id: LaunchId, ok: bool): State
    requires id < |s.launches| && s.launches[id].phase == InFlight
  {
    var l := s.launches[id];
    if l.epoch != s.epoch then SetPhase(s, id, l.(phase := if ok then StopDue else Failed))
    else if !ok then SetPhase(s, id, l.(phase := Failed)).(running := false, stopFn := None)
    else SetPhase(s, id, l.(phase := Held, adoptedAt := Some(s.stops))).(running := true, stopFn := Some(id))
  }

  function DoStop(s: State): State {
    var t := s.(epoch := s.epoch + 1, running := false, stopFn := None, stops := s.stops + 1);
    match s.stopFn
    case None => t
    case Some(id) => if id < |s.launches| then SetPhase(t, id, s.launches[id].(phase := StopDue)) else t
  }

  function DoCallStop(s: State, id: LaunchId): State
    requires id < |s.launches|
  {
    SetPhase(s, id, s.launches[id].(phase := Stopped, stopCalls := s.launches[id].stopCalls + 1))
  }

  function Step(s: State, a: Action): State {
    match a
    case Start(configOk) => DoStart(s, configOk)
    case Complete(id, ok) => if id < |s.launches| && s.launches[id].phase == InFlight then DoComplete(s, id, ok) else s
    case Stop => DoStop(s)
    case CallStop(id) => if id < |s.launches| && s.launches[id].phase == StopDue then DoCallStop(s, id) else s
  }

  function After(acts: seq<Action>): State {
    if acts == [] then INIT else Step(After(acts[..|acts| - 1]), acts[|acts| - 1])
  }

  ghost predicate Current(s: State, id: LaunchId) {
    id < |s.launches| && s.launches[id].phase == InFlight && s.launches[id].epoch == s.epoch
  }

  ghost predicate LaunchOk(s: State, id: LaunchId)
    requires id < |s.launches|
  {
    var l := s.launches[id];
    && l.epoch == l.stopsAtStart <= s.epoch
    && (l.phase == Held <==> s.stopFn == Some(id))
    && l.stopCalls == (if l.phase == Stopped then 1 else 0)
    && (l.adoptedAt.Some? ==> l.adoptedAt.value == l.stopsAtStart)
  }

  ghost predicate Inv(s: State) {
    && s.epoch == s.stops
    && (forall id :: 0 <= id < |s.launches| ==> LaunchOk(s, id))
    && (s.stopFn.Some? ==> s.stopFn.value < |s.launches|)
    // While nothing runs, no launch carries the current epoch; while something does, it is
    // one launch in flight or the held node, never both.
    && (!s.running ==> s.stopFn == None)
    && (forall id :: Current(s, id) ==> s.running && s.stopFn == None)
    && (forall i, j :: Current(s, i) && Current(s, j) ==> i == j)
    && (s.running && s.stopFn == None ==> exists id :: Current(s, id))
  }

  lemma CompleteKeepsInv(s: State, id: LaunchId, ok: bool)
    requires Inv(s) && id < |s.launches| && s.launches[id].phase == InFlight
    ensures Inv(DoComplete(s, id, ok))
  {
    var s' := DoComplete(s, id, ok);
    assert forall i :: Current(s', i) <==> Current(s, i) && i != id;
    assert s.launches[id].epoch == s.epoch ==> Current(s, id);
    forall i | 0 <= i < |s'.launches| ensures LaunchOk(s', i) {
      assert LaunchOk(s, i);
    }
  }

  lemma StartKeepsInv(s: State, configOk: bool)
    requires Inv(s)
    ensures Inv(DoStart(s, configOk))
  {
    var s' := DoStart(s, configOk);
    if s' != s {
      assert Current(s', |s.launches|);
      forall i | 0 <= i < |s'.launches| ensures LaunchOk(s', i) {
        if i < |s.launches| { assert LaunchOk(s, i); }
      }
      forall i: LaunchId | Current(s', i) ensures i == |s.launches| {
        if i < |s.launches| { assert Current(s, i); }
      }
    }
  }

  lemma StopKeepsInv(s: State)
    requires Inv(s)
    ensures Inv(DoStop(s))
  {
    var s' := DoStop(s);
    forall i | 0 <= i < |s'.launches| ensures LaunchOk(s', i) && !Current(s', i) {
      assert LaunchOk(s, i);
    }
  }

  lemma StepKeepsInv(s: State, a: Action)
    requires Inv(s)
    ensures Inv(Step(s, a))
  {
    match a
    case Start(configOk) => StartKeepsInv(s, configOk);
    case Complete(id, ok) =>
      if id < |s.launches| && s.launches[id].phase == InFlight { CompleteKeepsInv(s, id, ok); }
    case Stop => StopKeepsInv(s);
    case CallStop(id) =>
      if id < |s.launches| && s.launches[id].phase == StopDue {
        var s' := DoCallStop(s, id);
        assert forall i :: Current(s', i) <==> Current(s, i);
        forall i | 0 <= i < |s'.launches| ensures LaunchOk(s', i) {
          assert LaunchOk(s, i);
        }
      }
  }

  lemma {:induction false} InvHolds(acts: seq<Action>)
    ensures Inv(After(acts))
  {
    if acts != [] {
      InvHolds(acts[..|acts| - 1]);
      StepKeepsInv(After(acts[..|acts| - 1]), acts[|acts| - 1]);
    }
  }

  // At most one in-flight launch carries the current epoch, and IsRunning reports exactly
  // that launch or the held node.
  lemma OneCurrentLaunch(acts: seq<Action>, i: LaunchId, j: LaunchId)
    requires Current(After(acts), i) && Current(After(acts), j)
    ensures i == j
  {
    InvHolds(acts);
  }

  lemma RunningMeans(acts: seq<Action>)
    ensures var s := After(acts); s.running <==> (exists id :: Current(s, id)) || s.stopFn.Some?
  {
    InvHolds(acts);
  }

  // A node that was launched successfully is the one held in stopFn, or its stop function
  // has been taken (and is about to be called), or has been called exactly once.
  lemma EveryNodeAccountedFor(acts: seq<Action>, id: LaunchId)
    requires id < |After(acts).launches|
    ensures var s := After(acts); var l := s.launches[id];
      match l.phase
      case InFlight | Failed => l.stopCalls == 0 && s.stopFn != Some(id)
      case Held => l.stopCalls == 0 && s.stopFn == Some(id)
      case StopDue => l.stopCalls == 0 && s.stopFn != Some(id)
      case Stopped => l.stopCalls == 1 && s.stopFn != Some(id)
  {
    InvHolds(acts);
    assert LaunchOk(After(acts), id);
  }

  // A launch is only ever adopted while no StopNode has run since it began.
  lemma NoAdoptionAfterStop(acts: seq<Action>, id: LaunchId)
    requires id < |After(acts).launches| && After(acts).launches[id].adoptedAt.Some?
    ensures After(acts).launches[id].adoptedAt.value == After(acts).launches[id].stopsAtStart
  {
    InvHolds(acts);
    assert LaunchOk(After(acts), id);
  }

  // A launch overtaken by a StopNode.
  ghost predicate Beaten(s: State, id: LaunchId) {
    && id < |s.launches| && s.stopFn != Some(id) && s.launches[id].epoch < s.epoch
    && s.launches[id].phase in {InFlight, Failed, StopDue, Stopped}
  }

  lemma BeatenStays(s: State, a: Action, id: LaunchId)
    requires Inv(s) && Beaten(s, id)
    ensures Beaten(Step(s, a), id)
  {
    assert LaunchOk(s, id);
  }

  // A launch that was in flight when StopNode ran never becomes the held node, and is
  // stopped if it succeeds.
  lemma {:induction false} StopBeatsLaunch(before: seq<Action>, rest: seq<Action>, id: LaunchId)
    requires id < |After(before).launches| && After(before).launches[id].phase == InFlight
    ensures Beaten(After(before + [Stop] + rest), id)
  {
    var acts := before + [Stop] + rest;
    if rest == [] {
      InvHolds(before);
      assert LaunchOk(After(before), id);
      assert acts[..|acts| - 1] == before;
    } else {
      var r := rest[..|rest| - 1];
      assert acts[..|acts| - 1] == before + [Stop] + r;
      StopBeatsLaunch(before, r, id);
      InvHolds(before + [Stop] + r);
      BeatenStays(After(before + [Stop] + r), acts[|acts| - 1], id);
    }
  }

  // ---- What a completion decides ----

  // The k-th action began the launch.
  predicate Began(acts: seq<Action>, k: nat, id: LaunchId) {
    k < |acts| && |After(acts[..k]).launches| == id && |After(acts[..k + 1]).launches| == id + 1
  }

  predicate NoStop(acts: seq<Action>, k: nat, n: nat)
    requires n <= |acts|
  {
    forall i :: k <= i < n ==> acts[i] != Stop
  }

  lemma UpTo(acts: seq<Action>, n: nat)
    requires n < |acts|
    ensures After(acts[..n + 1]) == Step(After(acts[..n]), acts[n])
  {
    assert acts[..n + 1][..n] == acts[..n];
  }

  lemma EpochStep(s: State, a: Action)
    ensures var s' := Step(s, a);
      && s'.epoch == s.epoch + (if a == Stop then 1 else 0)
      && |s.launches| <= |s'.launches| <= |s.launches| + 1
      && (forall id :: 0 <= id < |s.launches| ==> s'.launches[id].epoch == s.launches[id].epoch)
      && (|s.launches| < |s'.launches| ==> s'.launches[|s.launches|].epoch == s.epoch && a != Stop)
  {
  }

  ghost predicate EpochTold(s: State, id: LaunchId, stopped: bool) {
    id < |s.launches| && s.launches[id].epoch <= s.epoch && (s.launches[id].epoch == s.epoch <==> !stopped)
  }

  lemma EpochFirst(acts: seq<Action>, k: nat, id: LaunchId)
    requires Began(acts, k, id)
    ensures EpochTold(After(acts[..k + 1]), id, false) && acts[k] != Stop
  {
    UpTo(acts, k);
    EpochStep(After(acts[..k]), acts[k]);
  }

  lemma EpochNext(s: State, a: Action, id: LaunchId, stopped: bool)
    requires EpochTold(s, id, stopped)
    ensures EpochTold(Step(s, a), id, stopped || a == Stop)
  {
    EpochStep(s, a);
  }

  lemma NoStopNext(acts: seq<Action>, k: nat, n: nat)
    requires k <= n < |acts|
    ensures NoStop(acts, k, n + 1) <==> NoStop(acts, k, n) && acts[n] != Stop
  {
  }

  // A launch carries the current epoch exactly as long as no StopNode has come since it began.
  lemma {:induction false} EpochsCountStops(acts: seq<Action>, k: nat, n: nat, id: LaunchId)
    requires k < n <= |acts| && Began(acts, k, id)
    ensures EpochTold(After(acts[..n]), id, !NoStop(acts, k, n))
    decreases n
  {
    if n == k + 1 {
      EpochFirst(acts, k, id);
    } else {
      EpochsCountStops(acts, k, n - 1, id);
      EpochAt(acts, k, n - 1, id);
    }
  }

  lemma EpochAt(acts: seq<Action>, k: nat, n: nat, id: LaunchId)
    requires k <= n < |acts| && EpochTold(After(acts[..n]), id, !NoStop(acts, k, n))
    ensures EpochTold(After(acts[..n + 1]), id, !NoStop(acts, k, n + 1))
  {
    UpTo(acts, n);
    NoStopNext(acts, k, n);
    EpochNext(After(acts[..n]), acts[n], id, !NoStop(acts, k, n));
  }

  lemma CompletesNow(s: State, id: LaunchId, ok: bool)
    requires Inv(s) && id < |s.launches| && s.launches[id].phase == InFlight
    ensures var s' := Step(s, Complete(id, ok));
      id < |s'.launches| && s'.epoch == s.epoch &&
      if s.launches[id].epoch != s.epoch then
        && s'.running == s.running && s'.stopFn == s.stopFn
        && s'.launches[id].phase == if ok then StopDue else Failed
      else if ok then s'.running && s'.stopFn == Some(id) && s'.launches[id].phase == Held
      else !s'.running && s'.stopFn == None && s'.launches[id].phase == Failed
  {
  }

  // A launch that succeeds is held, and the node runs, exactly if no StopNode has come since it
  // began; after one, its node is due to be stopped, and a later launch is left alone.  One
  // that fails with no StopNode since leaves nothing running.
  lemma CompletionDecides(acts: seq<Action>, k: nat, m: nat, id: LaunchId, ok: bool)
    requires k < m < |acts| && Began(acts, k, id) && acts[m] == Complete(id, ok)
    requires var s := After(acts[..m]); id < |s.launches| && s.launches[id].phase == InFlight
    ensures var s, s' := After(acts[..m]), After(acts[..m + 1]);
      id < |s'.launches| &&
      if !NoStop(acts, k, m) then
        && s'.running == s.running && s'.stopFn == s.stopFn
        && s'.launches[id].phase == if ok then StopDue else Failed
      else if ok then s'.running && s'.stopFn == Some(id) && s'.launches[id].phase == Held
      else !s'.running && s'.stopFn == None && s'.launches[id].phase == Failed
  {
    EpochsCountStops(acts, k, m, id);
    InvHolds(acts[..m]);
    UpTo(acts, m);
    CompletesNow(After(acts[..m]), id, ok);
  }

  lemma HeldStep(s: State, a: Action, id: LaunchId)
    requires Inv(s) && s.stopFn == Some(id)
    ensures a != Stop ==> Step(s, a).stopFn == Some(id) && Step(s, a).running
    ensures a == Stop ==> Step(s, a).stopFn == None && !Step(s, a).running
                          && id < |Step(s, a).launches| && Step(s, a).launches[id].phase == StopDue
  {
    assert LaunchOk(s, id);
    if a.Complete? && a.id < |s.launches| {
      assert LaunchOk(s, a.id);
      if s.launches[a.id].phase == InFlight && s.launches[a.id].epoch == s.epoch { assert Current(s, a.id); }
    }
  }

  // A held node is held, and reported as running, exactly until the next StopNode.
  lemma {:induction false} HeldUntilStop(acts: seq<Action>, m: nat, n: nat, id: LaunchId)
    requires m <= n <= |acts| && After(acts[..m]).stopFn == Some(id) && NoStop(acts, m, n)
    ensures After(acts[..n]).stopFn == Some(id) && After(acts[..n]).running
    ensures n < |acts| && acts[n] == Stop ==>
      var s := After(acts[..n + 1]);
      s.stopFn == None && !s.running && id < |s.launches| && s.launches[id].phase == StopDue
    decreases n
  {
    InvHolds(acts[..n]);
    if m < n {
      HeldUntilStop(acts, m, n - 1, id);
      UpTo(acts, n - 1);
      InvHolds(acts[..n - 1]);
      HeldStep(After(acts[..n - 1]), acts[n - 1], id);
    }
    if n < |acts| {
      UpTo(acts, n);
      HeldStep(After(acts[..n]), acts[n], id);
    }
  }

  // StartNode begins a launch, and the node counts as running, exactly if nothing runs and its
  // preparations succeed; else it changes nothing.
  lemma StartsWhenIdle(acts: seq<Action>, k: nat, configOk: bool)
    requires k < |acts| && acts[k] == Start(configOk)
    ensures var s, s' := After(acts[..k]), After(acts[..k + 1]); var id := |s.launches|;
      if s.running || !configOk then s' == s
      else Began(acts, k, id) && s'.running && s'.launches[id].phase == InFlight && s'.launches[..id] == s.launches
  {
    UpTo(acts, k);
  }

  // A stop function that was taken is called when its turn comes.
  lemma TakenStopIsCalled(acts: seq<Action>, k: nat, id: LaunchId)
    requires k < |acts| && acts[k] == CallStop(id)
    requires var s := After(acts[..k]); id < |s.launches| && s.launches[id].phase == StopDue
    ensures var s := After(acts[..k + 1]);
      id < |s.launches| && s.launches[id].phase == Stopped && s.launches[id].stopCalls == 1
  {
    UpTo(acts, k);
    InvHolds(acts[..k]);
    assert LaunchOk(After(acts[..k]), id);
  }

  // ---- The package variables ----

  // The message is the first complaint of the list, "" if there is none.
  ghost predicate FirstComplaint(complaints: seq<string>, message: string) {
    || (message == "" && forall i :: 0 <= i < |complaints| ==> complaints[i] == "")
    || (message != "" && exists i :: 0 <= i < |complaints| && complaints[i] == message
                                     && forall j :: 0 <= j < i ==> complaints[j] == "")
  }

  class Node {
    var running: bool
    var stopFn: Option<LaunchId>
    var epoch: nat
    ghost var history: State  // this state plus the launches

    ghost predicate Valid()
      reads this
    {
      history.running == running && history.stopFn == stopFn && history.epoch == epoch && Inv(history)
    }

    constructor ()
      ensures Valid() && history == INIT
    {
      running, stopFn, epoch := false, None, 0;
      history := INIT;
    }

    // The four preparations that may fail, each with its error, "" for success: making the
    // data directory, reading the configuration, writing it, making the keys directory.
    // Returns the error message, and the epoch the goroutine captures when a launch begins.
    method StartNode(configJSON: string, dataDir: string,
                     dataDirErr: string, configErr: string, writeErr: string, keysDirErr: string)
        returns (message: string, myEpoch: Option<nat>)
      requires Valid()
      modifies this
      ensures Valid()
      ensures old(running) ==> message == ""
      ensures !old(running) ==> FirstComplaint(
        [if configJSON == "" then "configJSON is required" else "", if dataDir == "" then "dataDir is required" else "",
         dataDirErr, configErr, writeErr, keysDirErr], message)
      ensures myEpoch.Some? <==> !old(running) && message == ""
      ensures history == DoStart(old(history), message == "")
      ensures myEpoch.Some? ==> history.launches[|old(history).launches|].epoch == myEpoch.value
    {
      myEpoch := None;
      StartKeepsInv(history, true);
      ghost var complaints := [
        if configJSON == "" then "configJSON is required" else "", if dataDir == "" then "dataDir is required" else "",
        dataDirErr, configErr, writeErr, keysDirErr];
      assert complaints[0] == if configJSON == "" then "configJSON is required" else "";
      assert complaints[1] == if dataDir == "" then "dataDir is required" else "";
      assert complaints[2] == dataDirErr && complaints[3] == configErr;
      assert complaints[4] == writeErr && complaints[5] == keysDirErr;
      if running { return "", None; }
      if configJSON == "" { return "configJSON is required", None; }
      if dataDir == "" { return "dataDir is required", None; }
      if dataDirErr != "" { return dataDirErr, None; }
      if configErr != "" { return configErr, None; }
      if writeErr != "" { return writeErr, None; }
      if keysDirErr != "" { return keysDirErr, None; }
      history := DoStart(history, true);
      running := true;
      return "", Some(epoch);
    }

    // The section of the launch goroutine; `stop` tells it to call the stop function itself.
    method CompleteLaunch(id: LaunchId, myEpoch: nat, ok: bool) returns (stop: bool)
      requires Valid() && id < |history.launches|
      requires history.launches[id].phase == InFlight && history.launches[id].epoch == myEpoch
      modifies this
      ensures Valid() && history == DoComplete(old(history), id, ok)
      ensures stop <==> ok && myEpoch != old(epoch)
    {
      CompleteKeepsInv(history, id, ok);
      history := DoComplete(history, id, ok);
      if myEpoch != epoch { return ok; }
      if !ok {
        running := false;
        stopFn := None;
        return false;
      }
      stopFn := Some(id);
      running := true;
      return false;
    }

    // The locked section of StopNode; `stop` is the function it calls afterwards.
    method StopNode() returns (stop: Option<LaunchId>)
      requires Valid()
      modifies this
      ensures Valid() && history == DoStop(old(history))
      ensures stop == old(stopFn)
      ensures stop.Some? ==> stop.value < |history.launches| && history.launches[stop.value].phase == StopDue
    {
      StopKeepsInv(history);
      history := DoStop(history);
      epoch := epoch + 1;
      stop := stopFn;
      stopFn := None;
      running := false;
    }

    method IsRunning() returns (r: bool)
      requires Valid()
      ensures r <==> (exists id :: Current(history, id)) || stopFn.Some?
    {
      return running;
    }
  }
}
