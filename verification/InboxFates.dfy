/**
 Which fate a delivery to the inbox has, over any run: told from the module its wire decodes
 to, the module expected at the time, and whether a handler is set.  The expectation and the
 handler are those of the last event that set or cleared them.
 */
module InboxFates {
  import opened Wrappers
  import opened Inbox

  lemma UpTo(c: Codec, events: seq<Event>, n: nat)
    requires n < |events|
    ensures After(c, events[..n + 1]) == Do(c, After(c, events[..n]), n, events[n])
  {
    assert events[..n + 1][..n] == events[..n];
  }

  // ---- The expectation and the handler in force ----

  predicate SetsExpectation(e: Event) { e.ExpectedSet? || e.HandlerCleared? }

  predicate SetsHandler(e: Event) { e.HandlerSet? || e.HandlerCleared? }

  // Event k is the last one before n that sets or clears the expectation.
  predicate LastExpectation(events: seq<Event>, k: nat, n: nat) {
    k < n <= |events| && SetsExpectation(events[k]) && forall i :: k < i < n ==> !SetsExpectation(events[i])
  }

  predicate LastHandler(events: seq<Event>, k: nat, n: nat) {
    k < n <= |events| && SetsHandler(events[k]) && forall i :: k < i < n ==> !SetsHandler(events[i])
  }

  // The expected module is the one last set, and none after a clear or from the start; a
  // handler is present exactly if the last event that set one did, and none has been cleared.
  lemma {:induction false} InForce(c: Codec, events: seq<Event>, n: nat)
    requires n <= |events|
    ensures (forall i :: 0 <= i < n ==> !SetsExpectation(events[i])) ==> After(c, events[..n]).expected == 0
    ensures forall k: nat :: LastExpectation(events, k, n) ==>
      After(c, events[..n]).expected == if events[k].ExpectedSet? then events[k].mod else 0
    ensures (forall i :: 0 <= i < n ==> !SetsHandler(events[i])) ==> !After(c, events[..n]).handling
    ensures forall k: nat :: LastHandler(events, k, n) ==>
      (After(c, events[..n]).handling <==> events[k] == HandlerSet(true))
    decreases n
  {
    if n > 0 {
      var s := After(c, events[..n - 1]);
      InForce(c, events, n - 1);
      UpTo(c, events, n - 1);
      ForceStep(c, s, n - 1, events[n - 1]);
      forall k: nat | LastExpectation(events, k, n) && k < n - 1 ensures LastExpectation(events, k, n - 1) {
      }
      forall k: nat | LastHandler(events, k, n) && k < n - 1 ensures LastHandler(events, k, n - 1) {
      }
    }
  }

  lemma ForceStep(c: Codec, s: State, n: nat, e: Event)
    ensures Do(c, s, n, e).expected ==
      match e case ExpectedSet(mod) => mod case HandlerCleared => 0 case _ => s.expected
    ensures Do(c, s, n, e).handling ==
      match e case HandlerSet(present) => present case HandlerCleared => false case _ => s.handling
  {
    if e.Delivered? { DeliveredKeeps(c, s, n, e.sender, e.wire); }
  }

  lemma DeliveredKeeps(c: Codec, s: State, n: nat, sender: string, wire: string)
    ensures var s' := Do(c, s, n, Delivered(sender, wire)); s'.expected == s.expected && s'.handling == s.handling
  {
    match FateOf(c, s.handling, s.expected, Entries(s.pending), sender, wire)
    case Undecodable =>
    case Full =>
    case Filtered =>
    case Handled =>
    case Repeated =>
    case Buffered =>
  }

  // ---- On arrival ----

  predicate Decodes(c: Codec, e: Event, mod: Module) {
    e.Delivered? && c.decode(e.wire).Some? && c.decode(e.wire).value.0 == mod
  }

  predicate SameWirePending(c: Codec, s: State, e: Event)
    requires e.Delivered?
  {
    exists i :: 0 <= i < |s.pending| && s.pending[i].entry.key == c.key(e.sender, e.wire)
  }

  lemma SameKey(c: Codec, s: State, e: Event)
    requires e.Delivered?
    ensures Duplicate(Entries(s.pending), c.key(e.sender, e.wire)) <==> SameWirePending(c, s, e)
  {
    var key := c.key(e.sender, e.wire);
    if SameWirePending(c, s, e) {
      var i :| 0 <= i < |s.pending| && s.pending[i].entry.key == key;
      assert Entries(s.pending)[i].key == key;
    }
    if Duplicate(Entries(s.pending), key) {
      var i :| 0 <= i < |Entries(s.pending)| && Entries(s.pending)[i].key == key;
      assert s.pending[i].entry.key == key;
    }
  }

  // A delivery whose wire does not decode is refused; one of a module that is not the expected
  // one is filtered out; with a handler the others are handled at once, and without one they
  // wait, unless 256 do already or one with the same key does.
  lemma ArrivalDecides(c: Codec, events: seq<Event>, t: nat)
    requires IsDelivery(events, t)
    ensures var s, s' := After(c, events[..t]), After(c, events[..t + 1]);
      && (c.decode(events[t].wire) == None ==> t in s'.refused)
      && forall mod :: Decodes(c, events[t], mod) ==>
           if s.expected != 0 && mod != s.expected then t in s'.filtered
           else if s.handling then s'.handled == s.handled + [t]
           else if |s.pending| >= 256 then t in s'.refused
           else if SameWirePending(c, s, events[t]) then t in s'.repeated
           else s'.pending == s.pending + [Tagged(t, EntryOf(c, events[t].sender, events[t].wire))]
  {
    UpTo(c, events, t);
    SameKey(c, After(c, events[..t]), events[t]);
    EntriesLength(After(c, events[..t]).pending);
  }

  lemma EntriesLength(pending: seq<Tagged>)
    ensures |Entries(pending)| == |pending|
  {
  }

  // ---- What is decided stays decided ----

  lemma DecidedStep(c: Codec, s: State, n: nat, e: Event)
    ensures var s' := Do(c, s, n, e);
      && s.handled <= s'.handled && s.filtered <= s'.filtered && s.refused <= s'.refused
      && s.repeated <= s'.repeated && s.dropped <= s'.dropped
  {
  }

  lemma {:induction false} DecidedStays(c: Codec, events: seq<Event>, m: nat, n: nat)
    requires m <= n <= |events|
    ensures var s, s' := After(c, events[..m]), After(c, events[..n]);
      && s.handled <= s'.handled && s.filtered <= s'.filtered && s.refused <= s'.refused
      && s.repeated <= s'.repeated && s.dropped <= s'.dropped
    decreases n
  {
    if m < n {
      DecidedStays(c, events, m, n - 1);
      UpTo(c, events, n - 1);
      DecidedStep(c, After(c, events[..n - 1]), n - 1, events[n - 1]);
    }
  }

  // ---- At the replay ----

  predicate IsPending(s: State, t: nat) { exists i :: 0 <= i < |s.pending| && s.pending[i].tag == t }

  // A waiting entry is of the module its delivery decoded to.
  ghost predicate PendingTold(c: Codec, events: seq<Event>, s: State, i: nat)
    requires i < |s.pending|
  {
    s.pending[i].tag < |events| && Decodes(c, events[s.pending[i].tag], s.pending[i].entry.mod)
  }

  lemma {:induction false} PendingHasModule(c: Codec, events: seq<Event>, n: nat, i: nat)
    requires n <= |events| && i < |After(c, events[..n]).pending|
    ensures PendingTold(c, events, After(c, events[..n]), i) && After(c, events[..n]).pending[i].tag < n
    decreases n
  {
    if n > 0 {
      var s, s' := After(c, events[..n - 1]), After(c, events[..n]);
      UpTo(c, events, n - 1);
      PendingStep(c, s, n - 1, events[n - 1]);
      if i < |s.pending| { PendingHasModule(c, events, n - 1, i); }
    }
  }

  // An event empties the pending list, or adds the delivery at hand, or leaves it.
  lemma PendingStep(c: Codec, s: State, n: nat, e: Event)
    ensures var s' := Do(c, s, n, e);
      || s'.pending == [] || s'.pending == s.pending
      || (e.Delivered? && c.decode(e.wire).Some? && s'.pending == s.pending + [Tagged(n, EntryOf(c, e.sender, e.wire))])
    ensures !e.HandlerSet? && !e.HandlerCleared? ==> s.pending <= Do(c, s, n, e).pending
  {
  }

  // A waiting delivery waits until the next event that sets or clears the handler.
  lemma {:induction false} WaitsForHandler(c: Codec, events: seq<Event>, m: nat, n: nat)
    requires m <= n <= |events| && forall i :: m <= i < n ==> !SetsHandler(events[i])
    ensures After(c, events[..m]).pending <= After(c, events[..n]).pending
    decreases n
  {
    if m < n {
      WaitsForHandler(c, events, m, n - 1);
      UpTo(c, events, n - 1);
      PendingStep(c, After(c, events[..n - 1]), n - 1, events[n - 1]);
    }
  }

  lemma DistinctTags(c: Codec, events: seq<Event>, n: nat, i: nat, j: nat)
    requires n <= |events| && i < |After(c, events[..n]).pending| && j < |After(c, events[..n]).pending|
    requires After(c, events[..n]).pending[i].tag == After(c, events[..n]).pending[j].tag
    ensures i == j
  {
    InboxConservation(c, events[..n]);
  }

  // When a handler is set, a waiting delivery is handled exactly if no module is expected then
  // or its own is the expected one, and filtered out otherwise; a nil handler or a clear drops
  // it.
  lemma ReplayDecides(c: Codec, events: seq<Event>, h: nat, t: nat)
    requires h < |events| && IsPending(After(c, events[..h]), t) && SetsHandler(events[h])
    ensures t < h && IsDelivery(events, t) && c.decode(events[t].wire).Some?
    ensures var s, s' := After(c, events[..h]), After(c, events[..h + 1]);
      var mod := c.decode(events[t].wire).value.0;
      if events[h] != HandlerSet(true) then t in s'.dropped
      else if s.expected == 0 || mod == s.expected then t in s'.handled && t !in s'.filtered
      else t in s'.filtered && t !in s'.handled
  {
    var s, s' := After(c, events[..h]), After(c, events[..h + 1]);
    var i :| 0 <= i < |s.pending| && s.pending[i].tag == t;
    UpTo(c, events, h);
    PendingHasModule(c, events, h, i);
    InboxConservation(c, events[..h]);
    InboxConservation(c, events[..h + 1]);
    if events[h] == HandlerSet(true) {
      var r := Replayed(s.expected, s.pending);
      ReplayedIsOrdered(s.expected, s.pending);
      var mod := c.decode(events[t].wire).value.0;
      if s.expected == 0 || mod == s.expected {
        assert t in r && t in s'.handled;
      } else {
        assert t in s'.filtered;
      }
      forall k | 0 <= k < |s'.handled| ensures s'.handled[k] in HandledTags(s') {
      }
    } else {
      assert t in Tags(s.pending);
    }
  }

  // ---- Only then ----

  // At event h the handler comes to be called with delivery t.
  predicate HandledAt(c: Codec, events: seq<Event>, h: nat, t: nat) {
    h < |events| && t !in After(c, events[..h]).handled && t in After(c, events[..h + 1]).handled
  }

  lemma {:induction false} HandledSome(c: Codec, events: seq<Event>, n: nat, t: nat) returns (h: nat)
    requires n <= |events| && t in After(c, events[..n]).handled
    ensures h < n && HandledAt(c, events, h, t)
    decreases n
  {
    if n > 0 && t in After(c, events[..n - 1]).handled {
      h := HandledSome(c, events, n - 1, t);
    } else {
      h := n - 1;
    }
  }

  // The handler is called with a delivery only on its arrival, with a handler set, or at a
  // replay, and only if then no module is expected or its own is the expected one.
  lemma HandledOnlyIfExpected(c: Codec, events: seq<Event>, h: nat, t: nat)
    requires HandledAt(c, events, h, t)
    ensures t <= h && IsDelivery(events, t) && c.decode(events[t].wire).Some?
    ensures var s := After(c, events[..h]);
      && (s.expected == 0 || c.decode(events[t].wire).value.0 == s.expected)
      && (if t == h then s.handling else events[h] == HandlerSet(true) && IsPending(s, t))
  {
    var s := After(c, events[..h]);
    UpTo(c, events, h);
    match events[h]
    case HandlerSet(present) =>
      InboxConservation(c, events[..h]);
      ReplayedIsOrdered(s.expected, s.pending);
      assert t in Replayed(s.expected, s.pending);
      var i :| 0 <= i < |s.pending| && s.pending[i].tag == t && Matches(s.expected, s.pending[i].entry.mod);
      PendingHasModule(c, events, h, i);
    case Delivered(sender, wire) =>
    case _ =>
  }

  // Event h is the arrival of delivery t with a handler set, or a replay of it while it waits;
  // and no module is expected, or its own is the expected one.
  ghost predicate Handles(c: Codec, events: seq<Event>, h: nat, t: nat) {
    && t <= h < |events| && IsDelivery(events, t) && c.decode(events[t].wire).Some?
    && var s := After(c, events[..h]);
      && (s.expected == 0 || c.decode(events[t].wire).value.0 == s.expected)
      && (if t == h then s.handling else events[h] == HandlerSet(true) && IsPending(s, t))
  }

  // What stands in a prefix of the list stands in the list.
  lemma InPrefix(prefix: seq<nat>, whole: seq<nat>, t: nat)
    requires prefix <= whole && t in prefix
    ensures t in whole
  {
    var i :| 0 <= i < |prefix| && prefix[i] == t;
    assert whole[i] == t;
  }

  lemma HandlesNow(c: Codec, events: seq<Event>, h: nat, t: nat)
    requires Handles(c, events, h, t)
    ensures t in After(c, events[..h + 1]).handled
  {
    if t == h {
      var s, s' := After(c, events[..t]), After(c, events[..t + 1]);
      assert Decodes(c, events[t], c.decode(events[t].wire).value.0);
      ArrivalDecides(c, events, t);
      assert s'.handled == s.handled + [t];
      assert s'.handled[|s.handled|] == t;
    } else {
      ReplayDecides(c, events, h, t);
    }
  }

  lemma HandlesHandles(c: Codec, events: seq<Event>, h: nat, t: nat)
    requires Handles(c, events, h, t)
    ensures t in After(c, events).handled
  {
    HandlesNow(c, events, h, t);
    DecidedStays(c, events, h + 1, |events|);
    assert events[..|events|] == events;
    InPrefix(After(c, events[..h + 1]).handled, After(c, events).handled, t);
  }

  // The handler is called with exactly these deliveries.
  lemma HandledIff(c: Codec, events: seq<Event>, t: nat)
    ensures t in After(c, events).handled <==> exists h: nat :: Handles(c, events, h, t)
  {
    if t in After(c, events).handled {
      assert events[..|events|] == events;
      var h := HandledSome(c, events, |events|, t);
      HandledOnlyIfExpected(c, events, h, t);
      assert Handles(c, events, h, t);
    }
    if h: nat :| Handles(c, events, h, t) { HandlesHandles(c, events, h, t); }
  }

  // ---- The error of a replay ----

  predicate ErrsAt(h: Handler, expected: Module, pending: seq<Entry>, i: nat) {
    i < |pending| && (expected == 0 || pending[i].mod == expected) && h(pending[i].sender, pending[i].msg).Some?
  }

  // No error comes of handing over messages the handler accepts.
  lemma {:induction false} NoErrorIfNone(h: Handler, expected: Module, pending: seq<Entry>)
    requires forall i: nat :: i < |pending| ==> !ErrsAt(h, expected, pending, i)
    ensures FirstError(h, expected, pending) == None
  {
    if pending != [] {
      var n := |pending| - 1;
      forall i: nat | i < n ensures !ErrsAt(h, expected, pending[..n], i) {
        assert !ErrsAt(h, expected, pending, i);
      }
      NoErrorIfNone(h, expected, pending[..n]);
      assert !ErrsAt(h, expected, pending, n);
    }
  }

  // Otherwise it is that of the first matching message the handler complains about, under its
  // id.
  lemma {:induction false} FirstErrorIsFirst(h: Handler, expected: Module, pending: seq<Entry>, i: nat)
    requires ErrsAt(h, expected, pending, i) && forall j: nat :: j < i ==> !ErrsAt(h, expected, pending, j)
    ensures FirstError(h, expected, pending)
         == Some("replay from " + pending[i].msg.id + ": " + h(pending[i].sender, pending[i].msg).value)
  {
    var n := |pending| - 1;
    forall j: nat | j < i ensures !ErrsAt(h, expected, pending[..n], j) {
      assert !ErrsAt(h, expected, pending, j);
    }
    if i < n {
      FirstErrorIsFirst(h, expected, pending[..n], i);
    } else {
      NoErrorIfNone(h, expected, pending[..n]);
    }
  }
}
