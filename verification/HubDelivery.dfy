// The order in which a connected device receives what was put into its queue.
module HubDelivery {
  import opened Wrappers
  import opened Tables
  import opened Messages
  import opened SessionRules
  import opened AttemptGrammar
  import opened Coordinator
  import opened CoordinatorRuns
  import opened SignalTheorems

  // The message the event takes from the device's queue for its socket.
  function Taken(s: System, e: Event, device: Id): (messages: seq<Message>) {
    if e == Drain(device) && device in s.peers && s.peers[device].outgoing != [] then [s.peers[device].outgoing[0]]
    else []
  }

  // The message the event is to put there: a held signal for the device that fits, or
  // a control message, as long as the device has fewer than 32 waiting.
  function Posted(s: System, e: Event, device: Id): (messages: seq<Message>) {
    if device !in s.peers || |s.peers[device].outgoing| >= 32 then []
    else
      match e
      case SendControl(d) => if d == device then [ControlMessage] else []
      case Enqueue(d, fits) =>
        if fits && d in s.peers && s.peers[d].reader.Holding? && s.peers[d].reader.signal.toDeviceId == device
        then [SignalMessage(s.peers[d].reader.signal)] else []
      case _ => []
  }

  ghost predicate Connecting(s: System, e: Event, device: Id) { e == Connect(device) && device !in s.peers }

  // What was taken and put since the device last connected.
  ghost function TakenSince(keyId: Key -> Id, env: Env, events: seq<Event>, device: Id): (messages: seq<Message>) {
    if events == [] then []
    else
      var earlier, e := events[..|events| - 1], events[|events| - 1];
      var s := Run(keyId, env, BOOT, earlier);
      if Connecting(s, e, device) then [] else TakenSince(keyId, env, earlier, device) + Taken(s, e, device)
  }

  ghost function PostedSince(keyId: Key -> Id, env: Env, events: seq<Event>, device: Id): (messages: seq<Message>) {
    if events == [] then []
    else
      var earlier, e := events[..|events| - 1], events[|events| - 1];
      var s := Run(keyId, env, BOOT, earlier);
      if Connecting(s, e, device) then [] else PostedSince(keyId, env, earlier, device) + Posted(s, e, device)
  }

  // What one event does to the queue of a device that is connected after it.
  ghost predicate QueueFrom(s: System, t: System, e: Event, device: Id) {
    device in t.peers ==>
      if device in s.peers
      then Taken(s, e, device) + t.peers[device].outgoing == s.peers[device].outgoing + Posted(s, e, device)
      else Connecting(s, e, device) && t.peers[device].outgoing == []
  }

  lemma QueueStep(keyId: Key -> Id, env: Env, s: System, e: Event, device: Id)
    ensures QueueFrom(s, Exec(keyId, env, s, e), e, device)
  {
    match e
    case Enqueue(sender, fits) =>
      assert Exec(keyId, env, s, e) == DoEnqueue(s, sender, fits);
      EnqueueStep(s, sender, fits, device);
    case Unlock =>
      assert Exec(keyId, env, s, e) == DoUnlock(env, s);
      UnlockKeepsQueues(env, s);
    case Lock(call, reading) =>
      assert Exec(keyId, env, s, e) == DoLock(s, call, reading);
      LockingTouches(s, call, reading);
    case _ => OtherStep(keyId, env, s, e, device);
  }

  lemma EnqueueStep(s: System, sender: Id, fits: bool, device: Id)
    ensures QueueFrom(s, DoEnqueue(s, sender, fits), Enqueue(sender, fits), device)
  {
    if sender in s.peers && s.peers[sender].reader.Holding? {
      HeldSignalIsDelivered(s, sender, fits);
    }
  }

  lemma UnlockKeepsQueues(env: Env, s: System)
    ensures var t := DoUnlock(env, s);
            t.peers.Keys == s.peers.Keys && forall d :: d in s.peers ==> t.peers[d].outgoing == s.peers[d].outgoing
  {
    if s.locked.Some? && Complete(s.locked.value) && s.locked.value.call.AdmitCall? {
      AdmittedKeepsQueues(env, s);
    }
  }

  lemma AdmittedKeepsQueues(env: Env, s: System)
    requires s.locked.Some? && Complete(s.locked.value) && s.locked.value.call.AdmitCall?
    ensures var device, t := s.locked.value.call.sender, DoUnlock(env, s);
            t.peers == if device in s.peers then s.peers[device := s.peers[device].(reader := t.peers[device].reader)]
                       else s.peers
  {
  }

  lemma OtherStep(keyId: Key -> Id, env: Env, s: System, e: Event, device: Id)
    requires !e.Enqueue? && !e.Unlock? && !e.Lock?
    ensures QueueFrom(s, Exec(keyId, env, s, e), e, device)
  {
    if e.SendControl? || e.Connect? || e.Disconnect? || e.Drain? {
      QueueChanges(keyId, env, s, e, device);
    } else {
      PeersUntouched(keyId, env, s, e);
    }
  }

  lemma QueueChanges(keyId: Key -> Id, env: Env, s: System, e: Event, device: Id)
    requires e.SendControl? || e.Connect? || e.Disconnect? || e.Drain?
    ensures QueueFrom(s, Exec(keyId, env, s, e), e, device)
  {
    match e
    case SendControl(d) =>
      assert Exec(keyId, env, s, e) == DoSendControl(s, d);
      ControlStep(s, d, device);
    case Connect(d) => assert Exec(keyId, env, s, e) == DoConnect(s, d);
    case Disconnect(d) => assert Exec(keyId, env, s, e) == DoDisconnect(s, d);
    case Drain(d) =>
      assert Exec(keyId, env, s, e) == DoDrain(s, d);
      DrainStep(s, d, device);
  }

  lemma ControlStep(s: System, d: Id, device: Id)
    ensures QueueFrom(s, DoSendControl(s, d), SendControl(d), device)
  {
  }

  lemma DrainStep(s: System, d: Id, device: Id)
    ensures QueueFrom(s, DoDrain(s, d), Drain(d), device)
  {
  }

  // A device takes the messages of its queue in the order they were put there, none
  // is lost and none comes twice: what it has taken since it connected and what still
  // waits are together what was put there.
  lemma {:induction false} TakenInOrder(keyId: Key -> Id, env: Env, events: seq<Event>, device: Id)
    requires device in Run(keyId, env, BOOT, events).peers
    ensures TakenSince(keyId, env, events, device) + Run(keyId, env, BOOT, events).peers[device].outgoing
            == PostedSince(keyId, env, events, device)
  {
    if events != [] {
      var earlier, e := events[..|events| - 1], events[|events| - 1];
      var s, t := Run(keyId, env, BOOT, earlier), Run(keyId, env, BOOT, events);
      QueueStep(keyId, env, s, e, device);
      assert QueueFrom(s, t, e, device);
      if device in s.peers {
        TakenInOrder(keyId, env, earlier, device);
        Shift(TakenSince(keyId, env, earlier, device), Taken(s, e, device), t.peers[device].outgoing,
              s.peers[device].outgoing, Posted(s, e, device));
      }
    }
  }

  lemma Shift(taken: seq<Message>, now: seq<Message>, after: seq<Message>, before: seq<Message>, put: seq<Message>)
    requires now + after == before + put
    ensures taken + now + after == taken + before + put
  {
    assert taken + now + after == taken + (now + after);
    assert taken + before + put == taken + (before + put);
  }

  // Signals of one sender for one attempt come in increasing sequence.
  ghost predicate InSequence(messages: seq<Message>) {
    forall i, j :: 0 <= i < j < |messages| && messages[i].SignalMessage? && messages[j].SignalMessage? ==>
      Before(messages[i].signal, messages[j].signal)
  }

  predicate Before(a: Signal, b: Signal) {
    a.fromDeviceId == b.fromDeviceId && a.attemptId == b.attemptId ==> a.sequence < b.sequence
  }

  ghost predicate AllEnqueued(messages: seq<Message>, enqueued: seq<Signal>) {
    forall i :: 0 <= i < |messages| && messages[i].SignalMessage? ==> messages[i].signal in enqueued
  }

  // A signal put into a queue is the next one enqueued.
  lemma PostedIsEnqueued(keyId: Key -> Id, env: Env, s: System, e: Event, device: Id)
    ensures var t, posted := Exec(keyId, env, s, e), Posted(s, e, device);
            && s.enqueued <= t.enqueued
            && (posted != [] && posted[0].SignalMessage? ==> t.enqueued == s.enqueued + [posted[0].signal])
  {
    match e
    case Enqueue(sender, fits) =>
      assert Exec(keyId, env, s, e) == DoEnqueue(s, sender, fits);
      if sender in s.peers && s.peers[sender].reader.Holding? {
        HeldSignalIsDelivered(s, sender, fits);
      }
    case Unlock => UnlockTouches(env, s);
    case Lock(call, reading) =>
      assert Exec(keyId, env, s, e) == DoLock(s, call, reading);
      LockingTouches(s, call, reading);
    case _ =>
  }

  // What was put so far stays in sequence with what is put next.
  lemma PostedInSequence(messages: seq<Message>, posted: seq<Message>, enqueued: seq<Signal>, later: seq<Signal>)
    requires InSequence(messages) && AllEnqueued(messages, enqueued) && Increasing(later) && enqueued <= later
    requires |posted| <= 1
    requires posted != [] && posted[0].SignalMessage? ==> later == enqueued + [posted[0].signal]
    ensures InSequence(messages + posted) && AllEnqueued(messages + posted, later)
  {
    var all := messages + posted;
    forall i, j | 0 <= i < j < |all| && all[i].SignalMessage? && all[j].SignalMessage?
      ensures Before(all[i].signal, all[j].signal)
    {
      if j == |messages| {
        var k :| 0 <= k < |enqueued| && enqueued[k] == messages[i].signal;
        assert later[k] == all[i].signal && later[|enqueued|] == all[j].signal;
      }
    }
  }

  lemma {:induction false} PostedStaysInSequence(keyId: Key -> Id, env: Env, events: seq<Event>, device: Id)
    requires Lawful(env)
    ensures InSequence(PostedSince(keyId, env, events, device))
    ensures AllEnqueued(PostedSince(keyId, env, events, device), Run(keyId, env, BOOT, events).enqueued)
  {
    if events != [] {
      var earlier, e := events[..|events| - 1], events[|events| - 1];
      var s := Run(keyId, env, BOOT, earlier);
      PostedStaysInSequence(keyId, env, earlier, device);
      Reachable(keyId, env, events);
      PostedIsEnqueued(keyId, env, s, e, device);
      if !Connecting(s, e, device) {
        PostedInSequence(PostedSince(keyId, env, earlier, device), Posted(s, e, device), s.enqueued,
                         Run(keyId, env, BOOT, events).enqueued);
      }
    }
  }

  // In every run, a connected device has taken the signals of each sender for each
  // attempt in the order of their sequence numbers, whatever else came between them.
  lemma SignalsAreTakenInSequence(keyId: Key -> Id, env: Env, events: seq<Event>, device: Id)
    requires Lawful(env) && device in Run(keyId, env, BOOT, events).peers
    ensures InSequence(TakenSince(keyId, env, events, device))
  {
    PostedStaysInSequence(keyId, env, events, device);
    TakenInOrder(keyId, env, events, device);
    var taken, posted := TakenSince(keyId, env, events, device), PostedSince(keyId, env, events, device);
    assert forall i :: 0 <= i < |taken| ==> taken[i] == posted[i];
  }
}
