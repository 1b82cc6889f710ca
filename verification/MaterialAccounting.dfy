/**
 The accounting of sign material, per material key: how often the committed material has
 been used, when it expires, and whether a warm refresh is outstanding.  Over any run
 the answers are told from the history of calls alone.
 */
module MaterialAccounting {
  import opened Wrappers
  import opened RefreshMaterial

  type Time = int  // nanoseconds

  const WARM_THRESHOLD := 40
  const WARN_THRESHOLD := 56
  const SYNC_WAIT_USES := 64
  const MAX_USES := 64
  const TTL: Time := 8 * 60 * 1_000_000_000

  datatype Tier = TierNormal | TierWarmInfo | TierWarmWarn | TierSyncWait

  function TierForCount(useCount: nat): Tier {
    if useCount >= SYNC_WAIT_USES then TierSyncWait
    else if useCount >= WARN_THRESHOLD then TierWarmWarn
    else if useCount >= WARM_THRESHOLD then TierWarmInfo
    else TierNormal
  }

  datatype Slot = Slot(material: Material, uses: nat, createdAt: Time)
  datatype Buffer = Buffer(active: Option<Slot>, warmPending: bool)

  const NO_MATERIAL := Buffer(None, false)

  predicate SlotValid(b: Buffer, now: Time) {
    b.active.Some? && now - b.active.value.createdAt <= TTL && b.active.value.uses < MAX_USES
  }

  predicate NeedsWarm(b: Buffer, now: Time) {
    SlotValid(b, now) && b.active.value.uses + 1 >= WARM_THRESHOLD && !b.warmPending
  }

  function Acquired(b: Buffer, now: Time): Buffer {
    if !SlotValid(b, now) then b
    else Buffer(Some(b.active.value.(uses := b.active.value.uses + 1)), b.warmPending || NeedsWarm(b, now))
  }

  // ---- Runs ----

  datatype Call =
    | Acquire(key: string, at: Time)
    | CommitWarm(key: string, material: Material, at: Time)
    | MarkWarmFailed(key: string)
    | Clear

  type Pool = map<string, Buffer>

  function Get(p: Pool, key: string): Buffer { if key in p then p[key] else NO_MATERIAL }

  function Do(p: Pool, call: Call): Pool {
    match call
    case Acquire(key, now) => p[key := Acquired(Get(p, key), now)]
    case CommitWarm(key, m, now) => p[key := Buffer(Some(Slot(m, 0, now)), false)]
    case MarkWarmFailed(key) => p[key := Get(p, key).(warmPending := false)]
    case Clear => map[]
  }

  function After(calls: seq<Call>): Pool {
    if calls == [] then map[] else Do(After(calls[..|calls| - 1]), calls[|calls| - 1])
  }

  // Call i acquires material for the key; its count is what it returns.
  predicate Succeeds(calls: seq<Call>, i: nat, key: string) {
    i < |calls| && calls[i].Acquire? && calls[i].key == key && SlotValid(Get(After(calls[..i]), key), calls[i].at)
  }

  function UseCount(calls: seq<Call>, i: nat, key: string): nat
    requires Succeeds(calls, i, key)
  {
    Get(After(calls[..i]), key).active.value.uses + 1
  }

  predicate RaisesNeedWarm(calls: seq<Call>, i: nat, key: string) {
    Succeeds(calls, i, key) && NeedsWarm(Get(After(calls[..i]), key), calls[i].at)
  }

  // Call i gives the key new material, or (Clear) takes its material away.
  predicate Replaces(calls: seq<Call>, i: nat, key: string) {
    i < |calls| && (calls[i].Clear? || (calls[i].CommitWarm? && calls[i].key == key))
  }

  // Call i ends the outstanding warm of the key.
  predicate Settles(calls: seq<Call>, i: nat, key: string) {
    Replaces(calls, i, key) || (i < |calls| && calls[i].MarkWarmFailed? && calls[i].key == key)
  }

  // How many acquisitions of the key succeeded since its material was last replaced.
  function SuccessesSince(calls: seq<Call>, n: nat, key: string): nat
    requires n <= |calls|
  {
    if n == 0 || Replaces(calls, n - 1, key) then 0
    else SuccessesSince(calls, n - 1, key) + (if Succeeds(calls, n - 1, key) then 1 else 0)
  }

  // The material the key has, by history: the last commit that no Clear followed.
  function Committed(calls: seq<Call>, n: nat, key: string): Option<(Material, Time)>
    requires n <= |calls|
  {
    if n == 0 then None
    else
      match calls[n - 1]
      case CommitWarm(k, m, at) => if k == key then Some((m, at)) else Committed(calls, n - 1, key)
      case Clear => None
      case _ => Committed(calls, n - 1, key)
  }

  // Some success at count 40 or more since the outstanding warm was last settled.
  ghost predicate WarmRaisedSince(calls: seq<Call>, n: nat, key: string)
    requires n <= |calls|
  {
    exists i: nat :: i < n && Succeeds(calls, i, key) && UseCount(calls, i, key) >= WARM_THRESHOLD
                     && forall r: nat :: i < r < n ==> !Settles(calls, r, key)
  }

  lemma WarmRaisedStep(calls: seq<Call>, n: nat, key: string)
    requires n < |calls|
    ensures Settles(calls, n, key) ==> !WarmRaisedSince(calls, n + 1, key)
    ensures !Settles(calls, n, key) ==>
      (WarmRaisedSince(calls, n + 1, key) <==>
        WarmRaisedSince(calls, n, key) || (Succeeds(calls, n, key) && UseCount(calls, n, key) >= WARM_THRESHOLD))
  {
    if WarmRaisedSince(calls, n, key) && !Settles(calls, n, key) {
      var i: nat :| i < n && Succeeds(calls, i, key) && UseCount(calls, i, key) >= WARM_THRESHOLD
                    && forall r: nat :: i < r < n ==> !Settles(calls, r, key);
      assert forall r: nat :: i < r < n + 1 ==> !Settles(calls, r, key);
    }
    if Succeeds(calls, n, key) && UseCount(calls, n, key) >= WARM_THRESHOLD {
      assert forall r: nat :: n < r < n + 1 ==> !Settles(calls, r, key);
    }
  }

  // The buffer of a key is told from the history of the calls.
  lemma {:induction false} BufferIsHistory(calls: seq<Call>, n: nat, key: string)
    requires n <= |calls|
    ensures var b := Get(After(calls[..n]), key);
      && b.active == (match Committed(calls, n, key)
                      case None => None
                      case Some((m, at)) => Some(Slot(m, SuccessesSince(calls, n, key), at)))
      && (b.warmPending <==> WarmRaisedSince(calls, n, key))
      && (b.active.Some? ==> b.active.value.uses <= MAX_USES)
  {
    if n > 0 {
      BufferIsHistory(calls, n - 1, key);
      WarmRaisedStep(calls, n - 1, key);
      assert calls[..n][..n - 1] == calls[..n - 1];
      assert After(calls[..n]) == Do(After(calls[..n - 1]), calls[n - 1]);
    }
  }

  // An acquisition succeeds exactly when material was committed at most 8 minutes ago and
  // fewer than 64 acquisitions succeeded since.
  lemma AcquireSucceedsIff(calls: seq<Call>, i: nat, key: string)
    requires i < |calls| && calls[i].Acquire? && calls[i].key == key
    ensures Succeeds(calls, i, key) <==>
      && Committed(calls, i, key).Some? && calls[i].at - Committed(calls, i, key).value.1 <= 480_000_000_000
      && SuccessesSince(calls, i, key) < 64
  {
    BufferIsHistory(calls, i, key);
  }

  // The counts returned are 1, 2, 3, ... since the last commit, and never above 64.
  lemma CountsAreConsecutive(calls: seq<Call>, i: nat, key: string)
    requires Succeeds(calls, i, key)
    ensures UseCount(calls, i, key) == SuccessesSince(calls, i, key) + 1 == SuccessesSince(calls, i + 1, key)
    ensures 1 <= UseCount(calls, i, key) <= MAX_USES
  {
    BufferIsHistory(calls, i, key);
  }

  // NeedWarm is raised by exactly the first success at count 40 or more since the last
  // commit, warm failure or clear.
  lemma NeedWarmRaisedOnce(calls: seq<Call>, i: nat, key: string)
    requires i < |calls|
    ensures RaisesNeedWarm(calls, i, key) <==>
      && Succeeds(calls, i, key) && UseCount(calls, i, key) >= WARM_THRESHOLD
      && forall j: nat :: j < i && Succeeds(calls, j, key) && UseCount(calls, j, key) >= WARM_THRESHOLD ==>
           exists r: nat :: j < r < i && Settles(calls, r, key)
  {
    BufferIsHistory(calls, i, key);
  }

  // A success is told the band its count lies in, of the four that 40, 56 and 64 bound.
  lemma TierOfSuccess(calls: seq<Call>, i: nat, key: string)
    requires Succeeds(calls, i, key)
    ensures var uses := SuccessesSince(calls, i, key) + 1;
      match TierForCount(UseCount(calls, i, key))
      case TierNormal => uses < 40
      case TierWarmInfo => 40 <= uses < 56
      case TierWarmWarn => 56 <= uses < 64
      case TierSyncWait => uses == 64
  {
    BufferIsHistory(calls, i, key);
  }

  // A failed acquisition changes nothing, and no call on one key touches another.
  lemma FailureChangesNothing(calls: seq<Call>, call: Call, key: string)
    requires (call.Acquire? && call.key == key && !SlotValid(Get(After(calls), key), call.at))
             || (!call.Clear? && call.key != key)
    ensures Get(After(calls + [call]), key) == Get(After(calls), key)
  {
    assert (calls + [call])[..|calls|] == calls;
  }
}
