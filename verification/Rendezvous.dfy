/**
  How an incoming realm connection finds the `try_connect` call that waits for it: the `waiting`
  table of `VSockServer` and the oneshot channel of every call.

  Calls run concurrently and each may time out, be cancelled or be superseded by a later call for
  the same cid at any moment. The connector lock makes each action below atomic.
 */
module Rendezvous {
  import opened Outcomes

  type Cid = nat

  datatype CallResult = Pending | Connected(stream: nat) | Failed

  /** One try_connect call: `sender` while the server keeps the sending half of its oneshot channel. */
  datatype Call = Call(cid: Cid, sender: bool, slot: Option<nat>, result: CallResult)

  /** An accepted connection: its peer, how many calls were registered by then, and the call it was handed to. */
  datatype Accepted = Accepted(cid: Cid, registered: nat, recipient: Option<nat>)

  datatype System = System(
    waiting: map<Cid, nat>,    // the newest registration of each cid that was not served yet
    calls: seq<Call>,          // in the order of registration
    accepted: seq<Accepted>,   // streams are numbered in the order of acceptance
    listening: bool)

  datatype Action =
    | Register(cid: Cid)       // acquire_realm_sender
    | Accept(cid: Cid)         // handle_accept
    | Take(k: nat)             // the select of try_connect sees the stream
    | SeeSenderGone(k: nat)    // it sees that the sender was dropped
    | GiveUp(k: nat)           // it times out or is cancelled

  const Init := System(map[], [], [], true)

  function DoRegister(s: System, cid: Cid): System {
    var calls := if cid in s.waiting && s.waiting[cid] < |s.calls|
                 then s.calls[s.waiting[cid] := s.calls[s.waiting[cid]].(sender := false)] else s.calls;
    s.(waiting := s.waiting[cid := |s.calls|], calls := calls + [Call(cid, true, None, Pending)])
  }

  /** An unexpected connection, or one whose call is gone, ends the listener. */
  function DoAccept(s: System, cid: Cid): System {
    var arrival := Accepted(cid, |s.calls|, None);
    if cid !in s.waiting || s.waiting[cid] >= |s.calls|
    then s.(accepted := s.accepted + [arrival], listening := false)
    else
      var k := s.waiting[cid];
      var c := s.calls[k];
      if c.result.Pending?
      then System(s.waiting - {cid}, s.calls[k := c.(sender := false, slot := Some(|s.accepted|))],
                  s.accepted + [arrival.(recipient := Some(k))], true)
      else System(s.waiting - {cid}, s.calls[k := c.(sender := false)], s.accepted + [arrival], false)
  }

  function Next(s: System, a: Action): Option<System> {
    match a
    case Register(cid) => Some(DoRegister(s, cid))
    case Accept(cid) => if s.listening then Some(DoAccept(s, cid)) else None
    case Take(k) =>
      if k < |s.calls| && s.calls[k].result.Pending? && s.calls[k].slot.Some?
      then Some(s.(calls := s.calls[k := s.calls[k].(slot := None, result := Connected(s.calls[k].slot.value))]))
      else None
    case SeeSenderGone(k) =>
      if k < |s.calls| && s.calls[k].result.Pending? && s.calls[k].slot.None? && !s.calls[k].sender
      then Some(s.(calls := s.calls[k := s.calls[k].(result := Failed)]))
      else None
    case GiveUp(k) =>
      if k < |s.calls| && s.calls[k].result.Pending?
      then Some(s.(calls := s.calls[k := s.calls[k].(slot := None, result := Failed)]))
      else None
  }

  function Run(s: System, actions: seq<Action>): Option<System>
    decreases |actions|
  {
    if actions == [] then Some(s)
    else
      var next := Next(s, actions[0]);
      if next.None? then None else Run(next.value, actions[1..])
  }

  // ----- the invariant -----

  /** The stream a call has, in its channel or as its result. */
  function StreamOf(c: Call): Option<nat> {
    if c.slot.Some? then c.slot else if c.result.Connected? then Some(c.result.stream) else None
  }

  /** No call registered between k and n asked for the same cid. */
  predicate NewestAmong(calls: seq<Call>, k: nat, n: nat) {
    k < n <= |calls| && forall j :: k < j < n ==> calls[j].cid != calls[k].cid
  }

  predicate WaitingOk(s: System) {
    && (forall cid :: cid in s.waiting ==>
          var k := s.waiting[cid];
          NewestAmong(s.calls, k, |s.calls|) && s.calls[k].cid == cid && s.calls[k].sender)
    && (forall k :: 0 <= k < |s.calls| && s.calls[k].sender ==>
          s.calls[k].slot.None? && !s.calls[k].result.Connected? &&
          s.calls[k].cid in s.waiting && s.waiting[s.calls[k].cid] == k)
    && (forall k :: 0 <= k < |s.calls| && s.calls[k].slot.Some? ==> s.calls[k].result.Pending?)
  }

  /** A call's stream was accepted from the cid it asked for, and was handed to it. */
  predicate StreamsOk(s: System) {
    && (forall k :: 0 <= k < |s.calls| && StreamOf(s.calls[k]).Some? ==>
          StreamOf(s.calls[k]).value < |s.accepted| && s.accepted[StreamOf(s.calls[k]).value].recipient == Some(k))
    && (forall n :: 0 <= n < |s.accepted| && s.accepted[n].recipient.Some? ==>
          var a := s.accepted[n];
          NewestAmong(s.calls, a.recipient.value, a.registered) && s.calls[a.recipient.value].cid == a.cid)
  }

  predicate Inv(s: System) { WaitingOk(s) && StreamsOk(s) }

  lemma RegisterKeepsStreams(s: System, cid: Cid)
    requires Inv(s)
    ensures StreamsOk(DoRegister(s, cid))
  {
    var t := DoRegister(s, cid);
    assert forall k :: 0 <= k < |s.calls| ==>
      t.calls[k].cid == s.calls[k].cid && StreamOf(t.calls[k]) == StreamOf(s.calls[k]);
    forall n | 0 <= n < |t.accepted| && t.accepted[n].recipient.Some?
      ensures var a := t.accepted[n]; NewestAmong(t.calls, a.recipient.value, a.registered) && t.calls[a.recipient.value].cid == a.cid
    {
      assert NewestAmong(s.calls, s.accepted[n].recipient.value, s.accepted[n].registered);
    }
  }

  lemma RegisterKeepsWaiting(s: System, cid: Cid)
    requires WaitingOk(s)
    ensures WaitingOk(DoRegister(s, cid))
  {
    var t := DoRegister(s, cid);
    forall c | c in t.waiting ensures
      var k := t.waiting[c]; NewestAmong(t.calls, k, |t.calls|) && t.calls[k].cid == c && t.calls[k].sender
    {
      if c != cid { assert NewestAmong(s.calls, s.waiting[c], |s.calls|); }
    }
  }

  lemma RegisterKeeps(s: System, cid: Cid)
    requires Inv(s)
    ensures Inv(DoRegister(s, cid))
  {
    RegisterKeepsStreams(s, cid);
    RegisterKeepsWaiting(s, cid);
  }

  lemma AcceptKeeps(s: System, cid: Cid)
    requires Inv(s)
    ensures Inv(DoAccept(s, cid))
  {
    var t := DoAccept(s, cid);
    forall n | 0 <= n < |t.accepted| && t.accepted[n].recipient.Some?
      ensures var a := t.accepted[n]; NewestAmong(t.calls, a.recipient.value, a.registered) && t.calls[a.recipient.value].cid == a.cid
    {
      if n < |s.accepted| {
        assert NewestAmong(s.calls, s.accepted[n].recipient.value, s.accepted[n].registered);
      }
    }
  }

  /** Changing how one call stands, but not what it asked for or who sends to it. */
  lemma EndKeeps(s: System, a: Action)
    requires Inv(s) && (a.Take? || a.SeeSenderGone? || a.GiveUp?) && Next(s, a).Some?
    ensures Inv(Next(s, a).value)
  {
    var t := Next(s, a).value;
    var c, d := s.calls[a.k], t.calls[a.k];
    assert t == s.(calls := s.calls[a.k := d]);
    assert d.cid == c.cid && d.sender == c.sender && (StreamOf(d).None? || StreamOf(d) == StreamOf(c));
    assert d.slot.None? && (d.result.Connected? ==> !d.sender);
    OneCallKeeps(s, a.k, d);
  }

  lemma OneCallKeeps(s: System, k: nat, d: Call)
    requires Inv(s) && k < |s.calls|
    requires d.cid == s.calls[k].cid && d.sender == s.calls[k].sender && d.slot.None?
    requires StreamOf(d).None? || StreamOf(d) == StreamOf(s.calls[k])
    requires d.result.Connected? ==> !d.sender
    ensures Inv(s.(calls := s.calls[k := d]))
  {
    var t := s.(calls := s.calls[k := d]);
    forall n | 0 <= n < |t.accepted| && t.accepted[n].recipient.Some?
      ensures NewestAmong(t.calls, t.accepted[n].recipient.value, t.accepted[n].registered)
      ensures t.calls[t.accepted[n].recipient.value].cid == t.accepted[n].cid
    {
      assert NewestAmong(s.calls, s.accepted[n].recipient.value, s.accepted[n].registered);
    }
    forall cid | cid in t.waiting ensures NewestAmong(t.calls, t.waiting[cid], |t.calls|) {
      assert NewestAmong(s.calls, s.waiting[cid], |s.calls|);
    }
  }

  lemma {:induction false} RunKeeps(s: System, actions: seq<Action>)
    requires Inv(s) && Run(s, actions).Some?
    ensures Inv(Run(s, actions).value)
    decreases |actions|
  {
    if actions != [] {
      match actions[0] {
        case Register(cid) => RegisterKeeps(s, cid);
        case Accept(cid) => AcceptKeeps(s, cid);
        case _ => EndKeeps(s, actions[0]);
      }
      RunKeeps(Next(s, actions[0]).value, actions[1..]);
    }
  }

  // ----- what every run guarantees -----

  /**
    A connected call got a stream of the cid it asked for and was, when that stream was accepted, the newest
    registration for that cid; and no two calls got the same stream.
   */
  lemma RendezvousSafety(actions: seq<Action>)
    requires Run(Init, actions).Some?
    ensures var s := Run(Init, actions).value;
      && (forall k :: 0 <= k < |s.calls| && s.calls[k].result.Connected? ==>
            var n := s.calls[k].result.stream;
            && n < |s.accepted| && s.accepted[n].cid == s.calls[k].cid
            && NewestAmong(s.calls, k, s.accepted[n].registered))
      && (forall j, k :: 0 <= j < k < |s.calls| && s.calls[j].result.Connected? && s.calls[k].result.Connected? ==>
            s.calls[j].result.stream != s.calls[k].result.stream)
  {
    RunKeeps(Init, actions);
    var s := Run(Init, actions).value;
    forall k | 0 <= k < |s.calls| && s.calls[k].result.Connected?
      ensures StreamOf(s.calls[k]) == Some(s.calls[k].result.stream)
    {
    }
  }

  /** A call whose stream was delivered connects with that stream as soon as it looks; only giving up first prevents it. */
  lemma DeliveredConnects(s: System, k: nat, a: Action)
    requires Inv(s) && k < |s.calls| && s.calls[k].slot.Some? && Next(s, a).Some?
    ensures Next(s, Take(k)).Some? && Next(s, Take(k)).value.calls[k].result == Connected(s.calls[k].slot.value)
    ensures k < |Next(s, a).value.calls|
    ensures var c, d := s.calls[k], Next(s, a).value.calls[k];
      || (d.slot == c.slot && d.result.Pending?)
      || (a == Take(k) && d.result == Connected(c.slot.value))
      || (a == GiveUp(k) && d.result.Failed?)
  {
  }

  /** A call that failed, or that a later registration superseded before it was served. */
  predicate Lost(c: Call) {
    c.result.Failed? || (c.result.Pending? && c.slot.None? && !c.sender)
  }

  /** Registering again for a cid loses the call that was waiting for it. */
  lemma RegisterSupersedes(s: System, cid: Cid)
    requires Inv(s) && cid in s.waiting
    ensures Lost(DoRegister(s, cid).calls[s.waiting[cid]])
  {
  }

  lemma LostStaysLost(s: System, a: Action, k: nat)
    requires Inv(s) && Next(s, a).Some? && k < |s.calls| && Lost(s.calls[k])
    ensures k < |Next(s, a).value.calls| && Lost(Next(s, a).value.calls[k])
  {
  }

  /** A superseded, timed-out or cancelled call never gets a stream, whatever happens later. */
  lemma {:induction false} LostNeverConnects(s: System, actions: seq<Action>, k: nat)
    requires Inv(s) && Run(s, actions).Some? && k < |s.calls| && Lost(s.calls[k])
    ensures var t := Run(s, actions).value; k < |t.calls| && !t.calls[k].result.Connected? && t.calls[k].slot.None?
    decreases |actions|
  {
    if actions == [] {
      assert s.calls[k].result.Failed? ==> s.calls[k].slot.None?;
    } else {
      RunKeeps(s, [actions[0]]);
      assert Run(s, [actions[0]]) == Run(Next(s, actions[0]).value, []);
      LostStaysLost(s, actions[0], k);
      LostNeverConnects(Next(s, actions[0]).value, actions[1..], k);
    }
  }

  /** A later call asked for the same cid. */
  predicate Superseded(calls: seq<Call>, k: nat) {
    k < |calls| && exists j :: k < j < |calls| && calls[j].cid == calls[k].cid
  }

  predicate SendersOk(s: System) {
    forall k: nat :: k < |s.calls| && s.calls[k].result.Pending? && s.calls[k].slot.None? && !s.calls[k].sender ==> Superseded(s.calls, k)
  }

  lemma NextKeepsSenders(s: System, a: Action)
    requires SendersOk(s) && WaitingOk(s) && Next(s, a).Some?
    ensures SendersOk(Next(s, a).value)
  {
    var t := Next(s, a).value;
    forall k: nat | k < |t.calls| && t.calls[k].result.Pending? && t.calls[k].slot.None? && !t.calls[k].sender
      ensures Superseded(t.calls, k)
    {
      if k < |s.calls| && !s.calls[k].sender {
        assert Superseded(s.calls, k);
        var j :| k < j < |s.calls| && s.calls[j].cid == s.calls[k].cid;
        assert t.calls[j].cid == t.calls[k].cid;
      } else {
        assert a.Register? && t.calls[|s.calls|].cid == t.calls[k].cid;
      }
    }
  }

  lemma {:induction false} RunKeepsSenders(s: System, actions: seq<Action>)
    requires SendersOk(s) && Inv(s) && Run(s, actions).Some?
    ensures SendersOk(Run(s, actions).value)
    decreases |actions|
  {
    if actions != [] {
      NextKeepsSenders(s, actions[0]);
      RunKeeps(s, [actions[0]]);
      assert Run(s, [actions[0]]) == Run(Next(s, actions[0]).value, []);
      RunKeepsSenders(Next(s, actions[0]).value, actions[1..]);
    }
  }

  /** In every run a call that finds its sender gone was superseded; while it is the newest for its cid it can only connect or give up. */
  lemma SenderGoneMeansSuperseded(actions: seq<Action>, k: nat)
    requires Run(Init, actions).Some? && Next(Run(Init, actions).value, SeeSenderGone(k)).Some?
    ensures Superseded(Run(Init, actions).value.calls, k)
  {
    RunKeepsSenders(Init, actions);
  }

  /** The listener survives a connection exactly when some call still waits for that cid. */
  lemma ListenerSurvivesIff(s: System, cid: Cid)
    requires Inv(s) && s.listening
    ensures DoAccept(s, cid).listening <==>
            exists k :: 0 <= k < |s.calls| && s.calls[k].cid == cid && s.calls[k].sender && s.calls[k].result.Pending?
  {
    if cid in s.waiting {
      var k := s.waiting[cid];
      assert s.calls[k].cid == cid && s.calls[k].sender;
    }
  }

  /** It happens: a connection nobody asked for ends the listener, and so does one that comes after the call gave up. */
  lemma ListenerEnds(cid: Cid)
    ensures Run(Init, [Accept(cid)]).Some? && !Run(Init, [Accept(cid)]).value.listening
    ensures Run(Init, [Register(cid), GiveUp(0), Accept(cid)]).Some?
    ensures !Run(Init, [Register(cid), GiveUp(0), Accept(cid)]).value.listening
  {
    assert Run(Init, [Accept(cid)]) == Run(DoAccept(Init, cid), [Accept(cid)][1..]);
    var s1 := DoRegister(Init, cid);
    var s2 := Next(s1, GiveUp(0)).value;
    var actions := [Register(cid), GiveUp(0), Accept(cid)];
    assert actions[1..][1..][1..] == [];
    assert Run(Init, actions) == Run(s1, actions[1..]);
    assert Run(s1, actions[1..]) == Run(s2, actions[1..][1..]);
    assert Run(s2, actions[1..][1..]) == Run(DoAccept(s2, cid), []);
  }

  /** The new stream is the newest call's if that still waits, and nobody else's. */
  lemma AcceptGoesTo(s: System, cid: Cid)
    requires Inv(s) && s.listening
    ensures var t := DoAccept(s, cid);
      && (t.listening <==> cid in s.waiting && s.waiting[cid] < |s.calls| && s.calls[s.waiting[cid]].result.Pending?)
      && (forall k :: 0 <= k < |t.calls| && StreamOf(t.calls[k]) == Some(|s.accepted|) ==> t.listening && k == s.waiting[cid])
      && (t.listening ==> StreamOf(t.calls[s.waiting[cid]]) == Some(|s.accepted|))
  {}

  /** The server object, with the channels of the calls it has handed out. */
  class VSockServer {
    var waiting: map<Cid, nat>
    var calls: seq<Call>
    var accepted: seq<Accepted>
    var listening: bool

    function Model(): System
      reads this
    {
      System(waiting, calls, accepted, listening)
    }

    ghost predicate Valid()
      reads this
    {
      Inv(Model())
    }

    constructor ()
      ensures Valid() && Model() == Init
    {
      waiting, calls, accepted, listening := map[], [], [], true;
    }

    /** The new call is the one the next connection of its cid will go to; whoever waited for that cid has lost. */
    method AcquireRealmSender(cid: Cid) returns (call: nat)
      requires Valid()
      modifies this
      ensures Valid() && Model() == DoRegister(old(Model()), cid) && call == |old(calls)|
      ensures cid in waiting && waiting[cid] == call && calls[call].result.Pending? && calls[call].sender
      ensures cid in old(waiting) ==> Lost(calls[old(waiting)[cid]])
    {
      RegisterKeeps(Model(), cid);
      call := |calls|;
      if cid in waiting && waiting[cid] < |calls| {
        calls := calls[waiting[cid] := calls[waiting[cid]].(sender := false)];
      }
      calls := calls + [Call(cid, true, None, Pending)];
      waiting := waiting[cid := call];
    }

    /** The connection goes to the newest call for its cid if that still waits, to nobody otherwise; then the listener ends. */
    method HandleAccept(cid: Cid)
      requires Valid() && listening
      modifies this
      ensures Valid() && Model() == DoAccept(old(Model()), cid)
      ensures listening <==> cid in old(waiting) && old(waiting)[cid] < |old(calls)| && old(calls)[old(waiting)[cid]].result.Pending?
      ensures forall k :: 0 <= k < |calls| && StreamOf(calls[k]) == Some(|old(accepted)|) ==> listening && k == old(waiting)[cid]
      ensures listening ==> StreamOf(calls[old(waiting)[cid]]) == Some(|old(accepted)|)
    {
      AcceptKeeps(Model(), cid);
      AcceptGoesTo(Model(), cid);
      Deliver(cid);
    }

    method Deliver(cid: Cid)
      requires listening
      modifies this
      ensures Model() == DoAccept(old(Model()), cid)
    {
      var stream := |accepted|;
      accepted := accepted + [Accepted(cid, |calls|, None)];
      if cid in waiting && waiting[cid] < |calls| {
        var k := waiting[cid];
        waiting := waiting - {cid};
        calls := calls[k := calls[k].(sender := false)];
        if calls[k].result.Pending? {
          calls := calls[k := calls[k].(slot := Some(stream))];
          accepted := accepted[stream := accepted[stream].(recipient := Some(k))];
        } else {
          listening := false;
        }
      } else {
        listening := false;
      }
    }
  }
}
