/**
 The inbox in front of a protocol backend.  Messages that arrive while no handler is set
 wait in `pending` and are replayed by SetHandler.  Calls are taken one at a time.
 Decoding a wire string and the hash that keys it are parameters (`Codec`); nothing is
 assumed of the hash.
 */
module Inbox {
  import opened Sequences
  import opened Wrappers

  const PENDING_CAP := 256

  type Module = nat  // the wire's first byte; 0 stands for "any" as an expectation

  datatype Message = Message(id: string, body: string)

  datatype Codec = Codec(decode: string -> Option<(Module, Message)>, key: (string, string) -> string)

  datatype Entry = Entry(sender: string, key: string, mod: Module, msg: Message)

  predicate Matches(expected: Module, mod: Module) { expected == 0 || mod == expected }

  predicate Duplicate(pending: seq<Entry>, key: string) {
    exists i :: 0 <= i < |pending| && pending[i].key == key
  }

  // What becomes of a delivered message.
  datatype Fate = Undecodable | Filtered | Handled | Full | Repeated | Buffered

  function FateOf(c: Codec, handling: bool, expected: Module, pending: seq<Entry>, sender: string, wire: string): Fate {
    match c.decode(wire)
    case None => Undecodable
    case Some((mod, _)) =>
      if !Matches(expected, mod) then Filtered
      else if handling then Handled
      else if |pending| >= PENDING_CAP then Full
      else if Duplicate(pending, c.key(sender, wire)) then Repeated
      else Buffered
  }

  function EntryOf(c: Codec, sender: string, wire: string): Entry
    requires c.decode(wire).Some?
  {
    Entry(sender, c.key(sender, wire), c.decode(wire).value.0, c.decode(wire).value.1)
  }

  // ---- Runs.  Every delivery is known by its position in the run ----

  datatype Event =
    | ExpectedSet(mod: Module)
    | HandlerSet(present: bool)
    | HandlerCleared
    | Delivered(sender: string, wire: string)

  datatype Tagged = Tagged(tag: nat, entry: Entry)

  datatype State = State(
    handling: bool,
    expected: Module,
    pending: seq<Tagged>,
    handled: seq<nat>,      // in the order of the handler calls
    filtered: set<nat>,     // by the module, on arrival or at replay
    repeated: set<nat>,
    dropped: set<nat>,      // by ClearHandler or a nil handler
    refused: set<nat>)      // answered with an error

  const EMPTY := State(false, 0, [], [], {}, {}, {}, {})

  function Entries(pending: seq<Tagged>): seq<Entry> {
    seq(|pending|, i requires 0 <= i < |pending| => pending[i].entry)
  }

  function Tags(pending: seq<Tagged>): set<nat> { set i | 0 <= i < |pending| :: pending[i].tag }

  // The tags a handler is called with when the pending messages are replayed, in order.
  function Replayed(expected: Module, pending: seq<Tagged>): seq<nat> {
    if pending == [] then []
    else
      var n := |pending| - 1;
      Replayed(expected, pending[..n]) + (if Matches(expected, pending[n].entry.mod) then [pending[n].tag] else [])
  }

  function Mismatched(expected: Module, pending: seq<Tagged>): set<nat> {
    set i | 0 <= i < |pending| && !Matches(expected, pending[i].entry.mod) :: pending[i].tag
  }

  function Do(c: Codec, s: State, n: nat, e: Event): State {
    match e
    case ExpectedSet(mod) => s.(expected := mod)
    case HandlerSet(present) =>
      if present
      then s.(handling := true, pending := [], handled := s.handled + Replayed(s.expected, s.pending),
              filtered := s.filtered + Mismatched(s.expected, s.pending))
      else s.(handling := false, pending := [], dropped := s.dropped + Tags(s.pending))
    case HandlerCleared => s.(handling := false, expected := 0, pending := [], dropped := s.dropped + Tags(s.pending))
    case Delivered(sender, wire) =>
      match FateOf(c, s.handling, s.expected, Entries(s.pending), sender, wire)
      case Undecodable | Full => s.(refused := s.refused + {n})
      case Filtered => s.(filtered := s.filtered + {n})
      case Handled => s.(handled := s.handled + [n])
      case Repeated => s.(repeated := s.repeated + {n})
      case Buffered => s.(pending := s.pending + [Tagged(n, EntryOf(c, sender, wire))])
  }

  function After(c: Codec, events: seq<Event>): State {
    if events == [] then EMPTY else Do(c, After(c, events[..|events| - 1]), |events| - 1, events[|events| - 1])
  }

  function HandledTags(s: State): set<nat> { set i | 0 <= i < |s.handled| :: s.handled[i] }

  function Accounted(s: State): set<nat> {
    HandledTags(s) + Tags(s.pending) + s.filtered + s.repeated + s.dropped + s.refused
  }

  ghost predicate PendingOk(s: State, n: nat) {
    && |s.pending| <= PENDING_CAP && (s.handling ==> s.pending == [])
    && (forall i, j :: 0 <= i < j < |s.pending| ==>
          s.pending[i].entry.key != s.pending[j].entry.key && s.pending[i].tag < s.pending[j].tag)
    && (forall i :: 0 <= i < |s.pending| ==> s.pending[i].tag < n)
  }

  // Handler calls come in arrival order, all before anything still pending.
  ghost predicate HandledOk(s: State, n: nat) {
    && Increasing(s.handled)
    && (forall i :: 0 <= i < |s.handled| ==> s.handled[i] < n)
    && (forall i, j :: 0 <= i < |s.handled| && 0 <= j < |s.pending| ==> s.handled[i] < s.pending[j].tag)
  }

  // No delivery has two fates.
  ghost predicate OneFate(s: State) {
    && HandledTags(s) !! Tags(s.pending) !! s.filtered !! s.repeated !! s.dropped !! s.refused
  }

  ghost predicate Inv(s: State, n: nat) {
    PendingOk(s, n) && HandledOk(s, n) && OneFate(s) && (forall t :: t in Accounted(s) ==> t < n)
  }

  lemma {:induction false} ReplayedIsOrdered(expected: Module, pending: seq<Tagged>)
    requires forall i, j :: 0 <= i < j < |pending| ==> pending[i].tag < pending[j].tag
    ensures Increasing(Replayed(expected, pending))
    ensures forall t :: t in Replayed(expected, pending) <==>
              exists i :: 0 <= i < |pending| && pending[i].tag == t && Matches(expected, pending[i].entry.mod)
  {
    if pending != [] {
      var n := |pending| - 1;
      ReplayedIsOrdered(expected, pending[..n]);
      forall t ensures t in Replayed(expected, pending) <==>
                exists i :: 0 <= i < |pending| && pending[i].tag == t && Matches(expected, pending[i].entry.mod)
      {
        if i :| 0 <= i < |pending| && pending[i].tag == t && Matches(expected, pending[i].entry.mod) {
          if i < n { assert pending[..n][i].tag == t; }
        }
        if t in Replayed(expected, pending[..n]) {
          var i :| 0 <= i < n && pending[..n][i].tag == t && Matches(expected, pending[..n][i].entry.mod);
          assert pending[i].tag == t;
        }
      }
      var r := Replayed(expected, pending[..n]);
      forall k | 0 <= k < |r| ensures r[k] < pending[n].tag {
        assert r[k] in r;
      }
    }
  }

  lemma ReplayKeepsInv(s: State, n: nat)
    requires Inv(s, n)
    ensures var r := Replayed(s.expected, s.pending);
      && HandledOk(s.(pending := [], handled := s.handled + r), n)
      && (forall t :: t in r ==> t in Tags(s.pending) && t !in Mismatched(s.expected, s.pending))
      && (forall t :: t in Tags(s.pending) ==> t in r || t in Mismatched(s.expected, s.pending))
  {
    var r := Replayed(s.expected, s.pending);
    ReplayedIsOrdered(s.expected, s.pending);
    forall i | 0 <= i < |r| ensures r[i] in Tags(s.pending) && r[i] !in Mismatched(s.expected, s.pending) {
      assert r[i] in r;
    }
  }

  lemma SetHandlerKeepsInv(c: Codec, s: State, n: nat, present: bool)
    requires Inv(s, n)
    ensures var s' := Do(c, s, n, HandlerSet(present)); Inv(s', n + 1) && Accounted(s') == Accounted(s)
  {
    ReplayKeepsInv(s, n);
    var s' := Do(c, s, n, HandlerSet(present));
    var r := Replayed(s.expected, s.pending);
    if present {
      assert HandledTags(s') == HandledTags(s) + (set i | 0 <= i < |r| :: r[i]) by {
        forall i | 0 <= i < |s.handled| ensures s.handled[i] in HandledTags(s') {
          assert s'.handled[i] == s.handled[i];
        }
        forall i | 0 <= i < |r| ensures r[i] in HandledTags(s') { assert s'.handled[|s.handled| + i] == r[i]; }
      }
      assert Tags(s.pending) == (set i | 0 <= i < |r| :: r[i]) + Mismatched(s.expected, s.pending);
      assert Accounted(s') == Accounted(s);
    } else {
      assert HandledTags(s') == HandledTags(s) && Accounted(s') == Accounted(s);
    }
  }

  lemma HandledKeepsInv(s: State, s': State, n: nat)
    requires Inv(s, n) && s' == s.(handled := s.handled + [n]) && s.pending == []
    ensures Inv(s', n + 1) && Accounted(s') == Accounted(s) + {n}
  {
    assert n !in Accounted(s);
    assert HandledTags(s') == HandledTags(s) + {n} by {
      assert s'.handled[|s.handled|] == n;
      forall i | 0 <= i < |s.handled| ensures s.handled[i] in HandledTags(s') {
        assert s'.handled[i] == s.handled[i];
      }
    }
  }

  lemma BufferedKeepsInv(s: State, s': State, n: nat, entry: Entry)
    requires Inv(s, n) && s' == s.(pending := s.pending + [Tagged(n, entry)])
    requires !s.handling && |s.pending| < PENDING_CAP && !Duplicate(Entries(s.pending), entry.key)
    ensures Inv(s', n + 1) && Accounted(s') == Accounted(s) + {n}
  {
    assert n !in Accounted(s);
    assert Tags(s'.pending) == Tags(s.pending) + {n} by {
      assert s'.pending[|s.pending|].tag == n;
      forall i | 0 <= i < |s.pending| ensures s.pending[i].tag in Tags(s'.pending) {
        assert s'.pending[i] == s.pending[i];
      }
    }
    forall i | 0 <= i < |s.pending| ensures s.pending[i].entry.key != entry.key {
      assert Entries(s.pending)[i].key == s.pending[i].entry.key;
    }
    assert HandledTags(s') == HandledTags(s);
    assert Accounted(s') == Accounted(s) + {n};
  }

  lemma DeliverKeepsInv(c: Codec, s: State, n: nat, sender: string, wire: string)
    requires Inv(s, n)
    ensures var s' := Do(c, s, n, Delivered(sender, wire)); Inv(s', n + 1) && Accounted(s') == Accounted(s) + {n}
  {
    var s' := Do(c, s, n, Delivered(sender, wire));
    match FateOf(c, s.handling, s.expected, Entries(s.pending), sender, wire)
    case Handled => HandledKeepsInv(s, s', n);
    case Buffered => BufferedKeepsInv(s, s', n, EntryOf(c, sender, wire));
    case Undecodable => SimpleFateKeepsInv(s, s', n);
    case Full => SimpleFateKeepsInv(s, s', n);
    case Filtered => SimpleFateKeepsInv(s, s', n);
    case Repeated => SimpleFateKeepsInv(s, s', n);
  }

  // A delivery that only enters one of the fate sets.
  lemma SimpleFateKeepsInv(s: State, s': State, n: nat)
    requires Inv(s, n)
    requires s' == s.(refused := s.refused + {n}) || s' == s.(filtered := s.filtered + {n})
             || s' == s.(repeated := s.repeated + {n})
    ensures Inv(s', n + 1) && Accounted(s') == Accounted(s) + {n}
  {
    assert n !in Accounted(s) && HandledTags(s') == HandledTags(s);
    assert Accounted(s') == Accounted(s) + {n};
  }

  ghost predicate IsDelivery(events: seq<Event>, i: nat) { i < |events| && events[i].Delivered? }

  // Conservation over any run: every delivery has exactly one fate so far, handler calls
  // come once each and in arrival order, and pending stays within its cap with distinct keys.
  lemma {:induction false} InboxConservation(c: Codec, events: seq<Event>)
    ensures var s := After(c, events);
      && PendingOk(s, |events|) && HandledOk(s, |events|) && OneFate(s)
      && (forall t :: t in Accounted(s) <==> IsDelivery(events, t))
  {
    if events != [] {
      var n := |events| - 1;
      InboxConservation(c, events[..n]);
      var s, s' := After(c, events[..n]), After(c, events);
      assert Inv(s, n) by {
        forall t | t in Accounted(s) ensures t < n { assert IsDelivery(events[..n], t); }
      }
      match events[n]
      case Delivered(sender, wire) => DeliverKeepsInv(c, s, n, sender, wire);
      case HandlerSet(present) => SetHandlerKeepsInv(c, s, n, present);
      case HandlerCleared => SetHandlerKeepsInv(c, s, n, false);
      case ExpectedSet(_) =>
      forall t: nat ensures t in Accounted(s') <==> IsDelivery(events, t) {
        assert t in Accounted(s) <==> IsDelivery(events[..n], t);
        assert t < n ==> events[..n][t] == events[t];
      }
    }
  }

  // ---- The object ----

  type Handler = (string, Message) -> Option<string>  // its error, if any

  // The first error of replaying the pending messages to a handler.
  function FirstError(h: Handler, expected: Module, pending: seq<Entry>): Option<string> {
    if pending == [] then None
    else
      var n := |pending| - 1;
      var earlier := FirstError(h, expected, pending[..n]);
      if earlier.Some? || !Matches(expected, pending[n].mod) then earlier
      else match h(pending[n].sender, pending[n].msg)
           case None => None
           case Some(e) => Some("replay from " + pending[n].msg.id + ": " + e)
  }

  function ReplayCalls(expected: Module, pending: seq<Entry>): seq<(string, Message)> {
    if pending == [] then []
    else
      var n := |pending| - 1;
      ReplayCalls(expected, pending[..n])
      + (if Matches(expected, pending[n].mod) then [(pending[n].sender, pending[n].msg)] else [])
  }

  // The object's replay calls are the calls behind the tags of the run's replay, in order.
  lemma {:induction false} ReplaysAgree(expected: Module, pending: seq<Tagged>, k: nat)
    ensures |ReplayCalls(expected, Entries(pending))| == |Replayed(expected, pending)|
    ensures k < |Replayed(expected, pending)| ==>
      exists i :: 0 <= i < |pending| && pending[i].tag == Replayed(expected, pending)[k]
                  && ReplayCalls(expected, Entries(pending))[k] == (pending[i].entry.sender, pending[i].entry.msg)
  {
    if pending != [] {
      var n := |pending| - 1;
      assert Entries(pending)[..n] == Entries(pending[..n]);
      ReplaysAgree(expected, pending[..n], k);
      if k < |Replayed(expected, pending[..n])| {
        var i :| 0 <= i < n && pending[..n][i].tag == Replayed(expected, pending[..n])[k]
                 && ReplayCalls(expected, Entries(pending[..n]))[k]
                    == (pending[..n][i].entry.sender, pending[..n][i].entry.msg);
        assert pending[i] == pending[..n][i];
      } else if k < |Replayed(expected, pending)| {
        assert pending[n].tag == Replayed(expected, pending)[k];
      }
    }
  }

  class MessageInbox {
    const codec: Codec
    var handler: Option<Handler>
    var expectedModule: Module
    var pending: seq<Entry>
    ghost var calls: seq<(string, Message)>  // every call of a handler

    constructor (codec: Codec)
      ensures this.codec == codec && handler == None && expectedModule == 0 && pending == [] && calls == []
    {
      this.codec := codec;
      handler, expectedModule, pending, calls := None, 0, [], [];
    }

    method SetExpectedModule(mod: Module)
      modifies `expectedModule
      ensures expectedModule == mod
    {
      expectedModule := mod;
    }

    method SetHandler(h: Option<Handler>) returns (firstErr: Option<string>)
      modifies `handler, `pending, `calls
      ensures handler == h && pending == []
      ensures calls == old(calls) + (if h.Some? then ReplayCalls(expectedModule, old(pending)) else [])
      ensures firstErr == if h.Some? then FirstError(h.value, expectedModule, old(pending)) else None
    {
      handler := h;
      var expected, replay := expectedModule, pending;
      pending := [];
      firstErr := None;
      var i := 0;
      while i < |replay|
        invariant 0 <= i <= |replay| && handler == h && pending == []
        invariant calls == old(calls) + (if h.Some? then ReplayCalls(expected, replay[..i]) else [])
        invariant firstErr == if h.Some? then FirstError(h.value, expected, replay[..i]) else None
      {
        assert replay[..i + 1][..i] == replay[..i];
        var p := replay[i];
        i := i + 1;
        if h.None? { continue; }
        if expected != 0 && p.mod != expected { continue; }
        calls := calls + [(p.sender, p.msg)];
        var err := h.value(p.sender, p.msg);
        if err.Some? && firstErr.None? {
          firstErr := Some("replay from " + p.msg.id + ": " + err.value);
        }
      }
      assert replay[..i] == replay;
    }

    method ClearHandler()
      modifies `handler, `expectedModule, `pending
      ensures handler == None && expectedModule == 0 && pending == []
    {
      handler, expectedModule, pending := None, 0, [];
    }

    // A handler error is passed on; decode errors and a full buffer are errors of their own.
    method Deliver(sender: string, wire: string) returns (err: Option<string>)
      modifies `pending, `calls
      ensures var fate := FateOf(codec, handler.Some?, expectedModule, old(pending), sender, wire);
        && pending == old(pending) + (if fate == Buffered then [EntryOf(codec, sender, wire)] else [])
        && calls == old(calls) + (if fate == Handled then [(sender, codec.decode(wire).value.1)] else [])
        && (fate == Undecodable || fate == Full ==> err.Some?)
        && (fate == Filtered || fate == Repeated || fate == Buffered ==> err == None)
        && (fate == Handled ==> err == handler.value(sender, codec.decode(wire).value.1))
      ensures codec.decode(wire).Some? ==>
        var (mod, msg) := codec.decode(wire).value;
        && (expectedModule != 0 && mod != expectedModule ==>
              err == None && calls == old(calls) && pending == old(pending))
        && ((expectedModule == 0 || mod == expectedModule) && handler.Some? ==>
              calls == old(calls) + [(sender, msg)] && err == handler.value(sender, msg))
    {
      var decoded := codec.decode(wire);
      if decoded.None? { return Some("undecodable wire"); }
      var mod, msg := decoded.value.0, decoded.value.1;
      if expectedModule != 0 && mod != expectedModule { return None; }
      if handler.Some? {
        calls := calls + [(sender, msg)];
        return handler.value(sender, msg);
      }
      if |pending| >= PENDING_CAP { return Some("inbox pending full"); }
      var key := codec.key(sender, wire);
      var i := 0;
      while i < |pending|
        invariant 0 <= i <= |pending|
        invariant !Duplicate(pending[..i], key)
      {
        if pending[i].key == key {
          assert Duplicate(pending, key);
          return None;
        }
        i := i + 1;
      }
      assert pending[..i] == pending;
      pending := pending + [Entry(sender, key, mod, msg)];
      return None;
    }

    method PendingLen() returns (n: nat)
      ensures n == |pending|
    {
      return |pending|;
    }
  }
}
