/**
 Which session a key leads to, and which sessions are closed, told from the calls: a key leads
 to the session last registered for it, until that session itself unregisters; and a session
 is closed by a close or by a registration that pushes it out.
 */
module SessionRoutes {
  import opened EarlyMessages

  lemma UpTo(flow: Flow, calls: seq<Call>, n: nat)
    requires n < |calls|
    ensures After(flow, calls[..n + 1]) == Do(flow, After(flow, calls[..n]), calls[n])
  {
    assert calls[..n + 1][..n] == calls[..n];
  }

  // Call k registers a fresh session for the key.
  predicate Registers(flow: Flow, calls: seq<Call>, k: nat, key: string) {
    k < |calls| && calls[k].Register? && calls[k].key == key && calls[k].sid !in After(flow, calls[..k]).channels
  }

  // It is the latest, and its session has not unregistered since.
  ghost predicate Routes(flow: Flow, calls: seq<Call>, k: nat, n: nat, key: string) {
    && k < n <= |calls| && Registers(flow, calls, k, key)
    && forall j: nat :: k < j < n ==> !Registers(flow, calls, j, key) && calls[j] != Unregister(key, calls[k].sid)
  }

  ghost predicate LeadsTo(s: State, key: string, sid: SessionId) { key in s.sessions && s.sessions[key] == sid }

  lemma RouteStep(flow: Flow, s: State, call: Call, key: string, sid: SessionId)
    ensures LeadsTo(Do(flow, s, call), key, sid) <==>
      if call.Register? && call.key == key && call.sid !in s.channels then sid == call.sid
      else LeadsTo(s, key, sid) && call != Unregister(key, sid)
  {
  }

  lemma RoutesNext(flow: Flow, calls: seq<Call>, k: nat, n: nat, key: string)
    requires n < |calls|
    ensures Routes(flow, calls, k, n + 1, key) <==>
      if Registers(flow, calls, n, key) then k == n
      else Routes(flow, calls, k, n, key) && calls[n] != Unregister(key, calls[k].sid)
  {
    if Routes(flow, calls, k, n, key) {
      forall j: nat | k < j < n ensures !Registers(flow, calls, j, key) && calls[j] != Unregister(key, calls[k].sid) {
      }
    }
  }

  ghost predicate RoutedTo(flow: Flow, calls: seq<Call>, n: nat, key: string, sid: SessionId) {
    exists k: nat :: Routes(flow, calls, k, n, key) && calls[k].sid == sid
  }

  lemma RoutedNext(flow: Flow, calls: seq<Call>, n: nat, key: string, sid: SessionId)
    requires n < |calls|
    ensures RoutedTo(flow, calls, n + 1, key, sid) <==>
      if Registers(flow, calls, n, key) then calls[n].sid == sid
      else RoutedTo(flow, calls, n, key, sid) && calls[n] != Unregister(key, sid)
  {
    forall k: nat ensures Routes(flow, calls, k, n + 1, key) <==>
      if Registers(flow, calls, n, key) then k == n
      else Routes(flow, calls, k, n, key) && calls[n] != Unregister(key, calls[k].sid)
    {
      RoutesNext(flow, calls, k, n, key);
    }
  }

  // A key leads to a session exactly if it was the last one registered for the key and has
  // not unregistered since, whatever other sessions' late unregisters do.
  lemma {:induction false} SessionIsLatest(flow: Flow, calls: seq<Call>, n: nat, key: string, sid: SessionId)
    requires n <= |calls|
    ensures LeadsTo(After(flow, calls[..n]), key, sid) <==> RoutedTo(flow, calls, n, key, sid)
    decreases n
  {
    if n > 0 {
      SessionIsLatest(flow, calls, n - 1, key, sid);
      UpTo(flow, calls, n - 1);
      RouteStep(flow, After(flow, calls[..n - 1]), calls[n - 1], key, sid);
      RoutedNext(flow, calls, n - 1, key, sid);
    }
  }

  // ---- Closing ----

  // Call j closes the session: a close of it, or a registration that pushes it out.
  ghost predicate Closes(flow: Flow, calls: seq<Call>, j: nat, sid: SessionId) {
    j < |calls| && sid in After(flow, calls[..j]).channels
    && (calls[j] == Close(sid)
        || (calls[j].Register? && Registers(flow, calls, j, calls[j].key)
            && LeadsTo(After(flow, calls[..j]), calls[j].key, sid)))
  }

  ghost predicate ClosedBy(flow: Flow, calls: seq<Call>, n: nat, sid: SessionId) {
    exists j: nat :: j < n && Closes(flow, calls, j, sid)
  }

  lemma CloseStep(flow: Flow, s: State, call: Call, sid: SessionId)
    requires SessionsHaveChannels(s)
    ensures var s' := Do(flow, s, call);
      sid in s'.channels ==>
        (s'.channels[sid].closed <==>
          sid in s.channels && (s.channels[sid].closed || call == Close(sid)
            || (call.Register? && call.sid !in s.channels && LeadsTo(s, call.key, sid))))
    ensures sid in s.channels ==> sid in Do(flow, s, call).channels
    ensures sid in Do(flow, s, call).channels ==>
      sid in s.channels || (call.Register? && call.sid == sid)
  {
  }

  // A session is closed exactly if some call has closed it.
  lemma {:induction false} ClosedIff(flow: Flow, calls: seq<Call>, n: nat, sid: SessionId)
    requires n <= |calls|
    ensures sid in After(flow, calls[..n]).channels ==>
      (After(flow, calls[..n]).channels[sid].closed <==> ClosedBy(flow, calls, n, sid))
    ensures sid !in After(flow, calls[..n]).channels ==> !ClosedBy(flow, calls, n, sid)
    decreases n
  {
    if n > 0 {
      var s := After(flow, calls[..n - 1]);
      ClosedIff(flow, calls, n - 1, sid);
      CapsHold(flow, calls[..n - 1]);
      UpTo(flow, calls, n - 1);
      CloseStep(flow, s, calls[n - 1], sid);
      ClosedNext(flow, calls, n - 1, sid);
    }
  }

  lemma ClosedNext(flow: Flow, calls: seq<Call>, n: nat, sid: SessionId)
    requires n < |calls|
    ensures ClosedBy(flow, calls, n + 1, sid) <==> ClosedBy(flow, calls, n, sid) || Closes(flow, calls, n, sid)
  {
  }
}
