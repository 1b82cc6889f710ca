/**
 What sets keygen and sign apart while messages wait: keygen keeps repeated messages for a
 quarter of an hour, sign keeps each message once for ten minutes.
 */
module EarlyFlows {
  import opened EarlyMessages
  import opened SessionRoutes

  // Call i delivers to a key that leads to no session.
  predicate ComesEarly(flow: Flow, calls: seq<Call>, i: nat, key: string) {
    i < |calls| && calls[i].Deliver? && calls[i].key == key && key !in After(flow, calls[..i]).sessions
  }

  // An early keygen message waits behind an earlier one of at most a quarter of an hour ago,
  // also if the two are the same, as long as fewer than 1024 do.
  lemma KeygenKeepsRepeats(calls: seq<Call>, i: nat, k: nat, key: string)
    requires Caches(KEYGEN, calls, i, key) && StillWaits(KEYGEN, calls, i, k, key) && ComesEarly(KEYGEN, calls, k, key)
    requires calls[k].at - Since(KEYGEN, calls, i, key) <= 900_000_000_000
    requires |Waiting(KEYGEN, calls[..k], key).items| < 1024
    ensures Caches(KEYGEN, calls, k, key) && Place(KEYGEN, calls, i, key) < Place(KEYGEN, calls, k, key)
  {
    KeepsItsPlace(KEYGEN, calls, i, k, key);
  }

  // A sign message that already waits, for at most ten minutes, is not kept again; any other
  // one is, as long as fewer than 1024 wait.
  lemma SignKeepsOnce(calls: seq<Call>, i: nat, k: nat, key: string)
    requires Caches(SIGN, calls, i, key) && StillWaits(SIGN, calls, i, k, key) && ComesEarly(SIGN, calls, k, key)
    requires calls[k].at - Since(SIGN, calls, i, key) <= 600_000_000_000
    ensures calls[k].item == calls[i].item ==> !Caches(SIGN, calls, k, key)
    ensures var waiting := Waiting(SIGN, calls[..k], key).items;
      Caches(SIGN, calls, k, key) <==> |waiting| < 1024 && calls[k].item !in waiting
  {
    KeepsItsPlace(SIGN, calls, i, k, key);
  }

  lemma PrefixRuns(calls: seq<Call>, j: nat)
    requires ClockInOrder(calls) && j < |calls| && Timed(calls[j])
    ensures ClockInOrder(calls[..j]) && NotBefore(calls[..j], At(calls[j]))
  {
    forall i | 0 <= i < j ensures calls[..j][i] == calls[i] {
    }
  }

  lemma ReplayIs(flow: Flow, calls: seq<Call>, j: nat, key: string)
    requires ClockInOrder(calls) && Registers(flow, calls, j, key)
    ensures var s := After(flow, calls[..j + 1]);
      && calls[j].sid in s.channels
      && s.channels[calls[j].sid].sent == Unexpired(flow, Waiting(flow, calls[..j], key), calls[j].at)
  {
    SessionRoutes.UpTo(flow, calls, j);
    PrefixRuns(calls, j);
    BucketsHoldBatches(flow, calls[..j], key, calls[j].at);
  }

  // A keygen session starts with what waits for its key, if that has waited for at most a
  // quarter of an hour, and else with nothing.
  lemma KeygenWaitsQuarterHour(calls: seq<Call>, j: nat, key: string)
    requires ClockInOrder(calls) && Registers(KEYGEN, calls, j, key)
    ensures var s, b := After(KEYGEN, calls[..j + 1]), Waiting(KEYGEN, calls[..j], key);
      && calls[j].sid in s.channels
      && s.channels[calls[j].sid].sent == if calls[j].at - b.since <= 900_000_000_000 then b.items else []
  {
    ReplayIs(KEYGEN, calls, j, key);
  }

  // A sign session's messages wait for at most ten minutes.
  lemma SignWaitsTenMinutes(calls: seq<Call>, j: nat, key: string)
    requires ClockInOrder(calls) && Registers(SIGN, calls, j, key)
    ensures var s, b := After(SIGN, calls[..j + 1]), Waiting(SIGN, calls[..j], key);
      && calls[j].sid in s.channels
      && s.channels[calls[j].sid].sent == if calls[j].at - b.since <= 600_000_000_000 then b.items else []
  {
    ReplayIs(SIGN, calls, j, key);
  }
}
