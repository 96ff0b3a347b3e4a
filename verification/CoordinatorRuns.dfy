// What holds of attempts, leases and signals over every run of the coordinator.
module CoordinatorRuns {
  import opened Tables
  import opened Messages
  import opened Clock
  import opened SessionRules
  import opened AttemptGrammar
  import opened Coordinator
  import Runs = StoreRuns
  import Invariants = StoreInvariants

  // ---- the invariant of the hub ----

  // How many signals of one sender an attempt has accepted so far.
  function AcceptedOf(histories: map<Id, History>, attempt: Id, sender: Id): (n: nat) {
    if attempt in histories then CountBy(histories[attempt].log, sender) else 0
  }

  // Everything enqueued from one sender for one attempt is below `bound`.
  ghost predicate AllBelow(enqueued: seq<Signal>, attempt: Id, sender: Id, bound: nat) {
    forall i :: 0 <= i < |enqueued| && enqueued[i].fromDeviceId == sender && enqueued[i].attemptId == attempt ==>
      enqueued[i].sequence < bound
  }

  // The signal is in the log of its attempt.
  ghost predicate Logged(histories: map<Id, History>, signal: Signal) {
    signal.attemptId in histories && Entry(signal.fromDeviceId, signal) in histories[signal.attemptId].log
  }

  // A held signal is the last one its sender had accepted, and ahead of all it
  // has enqueued.
  ghost predicate ReadersHold(peers: map<Id, Peer>, histories: map<Id, History>, enqueued: seq<Signal>) {
    forall d :: d in peers && peers[d].reader.Holding? ==>
      var signal := peers[d].reader.signal;
      && signal.fromDeviceId == d && Logged(histories, signal)
      && signal.sequence == AcceptedOf(histories, signal.attemptId, d)
      && AllBelow(enqueued, signal.attemptId, d, signal.sequence)
  }

  ghost predicate Accounted(histories: map<Id, History>, enqueued: seq<Signal>) {
    forall i :: 0 <= i < |enqueued| ==>
      && Logged(histories, enqueued[i])
      && enqueued[i].sequence <= AcceptedOf(histories, enqueued[i].attemptId, enqueued[i].fromDeviceId)
  }

  ghost predicate Increasing(enqueued: seq<Signal>) {
    forall i, j :: (0 <= i < j < |enqueued|
                    && enqueued[i].fromDeviceId == enqueued[j].fromDeviceId
                    && enqueued[i].attemptId == enqueued[j].attemptId) ==>
      enqueued[i].sequence < enqueued[j].sequence
  }

  ghost predicate QueuesBounded(peers: map<Id, Peer>) {
    forall d :: d in peers ==> |peers[d].outgoing| <= QUEUE_LIMIT
  }

  ghost predicate HubHolds(peers: map<Id, Peer>, histories: map<Id, History>, enqueued: seq<Signal>) {
    && ReadersHold(peers, histories, enqueued) && Accounted(histories, enqueued)
    && Increasing(enqueued) && QueuesBounded(peers)
  }

  // The lock's reading is past, its call has queries left or none, its attempt id
  // is still fresh, and its reader waits for it.
  ghost predicate LockHolds(s: System) {
    s.locked.Some? ==>
      && s.locked.value.now <= s.now && |s.locked.value.views| <= Reads(s.locked.value.call)
      && match s.locked.value.call
         case BeginCall(_, _, _, attempt, _) => attempt !in s.histories
         case RenewCall(_, _, _) => true
         case AdmitCall(device, _) => device in s.peers && s.peers[device].reader.Admitting?
  }

  ghost predicate WorldHolds(keyId: Key -> Id, s: System) {
    Runs.Inv(keyId, s.world) && s.world.clock == Unix(s.now)
  }

  ghost predicate Inv(keyId: Key -> Id, env: Env, s: System) {
    && WorldHolds(keyId, s)
    && LockHolds(s)
    && SessionsHold(env, s.sessions.attempts, s.histories, s.now)
    && HubHolds(s.peers, s.histories, s.enqueued)
  }

  // Peers may come, go and pass messages on, as long as no reader changes.
  lemma PeersChange(a: map<Id, Peer>, b: map<Id, Peer>, histories: map<Id, History>, enqueued: seq<Signal>)
    requires HubHolds(a, histories, enqueued) && QueuesBounded(b)
    requires forall d :: d in b && b[d].reader.Holding? ==> d in a && a[d].reader == b[d].reader
    ensures HubHolds(b, histories, enqueued)
  {
  }

  lemma NewHistory(peers: map<Id, Peer>, histories: map<Id, History>, enqueued: seq<Signal>, id: Id, from: Id)
    requires HubHolds(peers, histories, enqueued) && id !in histories
    ensures HubHolds(peers, histories[id := History(from, [])], enqueued)
  {
  }

  lemma HoldSignal(peers: map<Id, Peer>, histories: map<Id, History>, enqueued: seq<Signal>, d: Id, signal: Signal)
    requires HubHolds(peers, histories, enqueued) && d in peers && !peers[d].reader.Holding?
    requires signal.attemptId in histories && signal.fromDeviceId == d
    requires signal.sequence == CountBy(histories[signal.attemptId].log, d) + 1
    ensures var h := histories[signal.attemptId];
            HubHolds(peers[d := peers[d].(reader := Holding(signal))],
                     histories[signal.attemptId := h.(log := h.log + [Entry(d, signal)])], enqueued)
  {
  }

  lemma EnqueueHeld(peers: map<Id, Peer>, histories: map<Id, History>, enqueued: seq<Signal>, d: Id)
    requires HubHolds(peers, histories, enqueued) && d in peers && peers[d].reader.Holding?
    ensures HubHolds(peers[d := peers[d].(reader := Idle)], histories, enqueued + [peers[d].reader.signal])
  {
  }

  lemma SentKeepsReaders(peers: map<Id, Peer>, to: Id, message: Message)
    requires QueuesBounded(peers) && Sent(peers, to, message).Some?
    ensures var b := Sent(peers, to, message).value;
            && QueuesBounded(b) && b.Keys == peers.Keys
            && forall d :: d in peers ==> b[d].reader == peers[d].reader
  {
  }

  // ---- each event keeps the invariant ----

  // The store runs as it does alone, and only forward.
  lemma WorldKeeps(keyId: Key -> Id, env: Env, s: System, e: Event)
    requires WorldHolds(keyId, s)
    ensures var t := Exec(keyId, env, s, e);
            WorldHolds(keyId, t) && Invariants.Evolves(Stored(s), Stored(t)) && s.now <= t.now
  {
    if e.Elapse? && e.now >= s.now {
      WorldStep(keyId, s.world, Runs.Tick(Unix(e.now)));
    } else if e.StoreStep? && !e.event.Tick? {
      WorldStep(keyId, s.world, e.event);
      ClockStands(keyId, s.world, e.event);
    } else {
      WorldUntouched(keyId, env, s, e);
      Invariants.AdvancesReflexive(Stored(s));
      Invariants.StepsEvolve(Stored(s), Stored(s));
    }
  }

  lemma WorldStep(keyId: Key -> Id, w: Runs.World, e: Runs.Event)
    requires Runs.Inv(keyId, w)
    ensures Runs.Inv(keyId, Runs.Exec(keyId, w, e))
    ensures Invariants.Evolves(w.db, Runs.Exec(keyId, w, e).db)
  {
    Runs.ExecKeeps(keyId, w, e);
    Invariants.StepsEvolve(w.db, Runs.Exec(keyId, w, e).db);
  }

  lemma ClockStands(keyId: Key -> Id, w: Runs.World, e: Runs.Event)
    requires !e.Tick?
    ensures Runs.Exec(keyId, w, e).clock == w.clock
  {
  }

  lemma WorldUntouched(keyId: Key -> Id, env: Env, s: System, e: Event)
    requires !(e.Elapse? && e.now >= s.now) && !(e.StoreStep? && !e.event.Tick?)
    ensures Exec(keyId, env, s, e).world == s.world && Exec(keyId, env, s, e).now == s.now
  {
    if e.Unlock? {
      UnlockTouches(env, s);
    }
  }

  lemma UnlockTouches(env: Env, s: System)
    ensures var t := DoUnlock(env, s); t.world == s.world && t.now == s.now && t.enqueued == s.enqueued
    ensures s.locked.Some? && Complete(s.locked.value) ==> DoUnlock(env, s).locked.None?
  {
    if s.locked.Some? && Complete(s.locked.value) && s.locked.value.call.AdmitCall? {
      AdmitTouches(env, s);
    }
  }

  lemma AdmitTouches(env: Env, s: System)
    requires s.locked.Some? && Complete(s.locked.value) && s.locked.value.call.AdmitCall?
    ensures var t := DoUnlock(env, s);
            t.world == s.world && t.now == s.now && t.enqueued == s.enqueued && t.locked.None?
  {
  }

  lemma LockKeeps(keyId: Key -> Id, env: Env, s: System, e: Event)
    requires LockHolds(s)
    ensures LockHolds(Exec(keyId, env, s, e))
  {
    if e.Unlock? {
      UnlockTouches(env, s);
    } else if e.Enqueue? {
      EnqueueKeepsAdmitting(s, e.device, e.fits);
    }
  }

  lemma EnqueueKeepsAdmitting(s: System, device: Id, fits: bool)
    ensures var t := DoEnqueue(s, device, fits);
            && t.locked == s.locked && t.now == s.now && t.histories == s.histories
            && forall d :: d in s.peers && s.peers[d].reader.Admitting? ==> d in t.peers && t.peers[d].reader.Admitting?
  {
  }

  lemma SessionsKeep(keyId: Key -> Id, env: Env, s: System, e: Event)
    requires Lawful(env) && LockHolds(s)
    requires SessionsHold(env, s.sessions.attempts, s.histories, s.now)
    ensures var t := Exec(keyId, env, s, e); SessionsHold(env, t.sessions.attempts, t.histories, t.now)
  {
    if e.Unlock? {
      assert Exec(keyId, env, s, e) == DoUnlock(env, s);
      UnlockKeepsSessions(env, s);
    } else {
      AttemptsOnlyLeave(keyId, env, s, e);
      var t := Exec(keyId, env, s, e);
      FewerAttempts(env, s.sessions.attempts, t.sessions.attempts, s.histories, s.now, t.now);
    }
  }

  // Every event but the end of a call leaves attempts as they are or drops them.
  lemma AttemptsOnlyLeave(keyId: Key -> Id, env: Env, s: System, e: Event)
    requires !e.Unlock?
    ensures var t := Exec(keyId, env, s, e);
            && (forall k :: k in t.sessions.attempts ==>
                  k in s.sessions.attempts && t.sessions.attempts[k] == s.sessions.attempts[k])
            && t.histories == s.histories && s.now <= t.now
  {
    match e
    case Enqueue(device, fits) =>
      assert Exec(keyId, env, s, e) == DoEnqueue(s, device, fits);
      EnqueueKeepsAttempts(s, device, fits);
    case EndAttempt(sender, pairId, attempt) =>
      assert End(s.sessions, sender, pairId, attempt).0.attempts
             in {s.sessions.attempts, s.sessions.attempts - {pairId}};
    case Elapse(_) =>
    case _ => SessionsUntouched(keyId, env, s, e);
  }

  lemma EnqueueKeepsAttempts(s: System, device: Id, fits: bool)
    ensures var t := DoEnqueue(s, device, fits);
            t.sessions == s.sessions && t.histories == s.histories && t.now == s.now
  {
  }

  // Taking the lock and looking change neither the sessions nor what is remembered.
  lemma LockingTouches(s: System, call: Call, reading: int)
    ensures var t := DoLock(s, call, reading);
            && t.sessions == s.sessions && t.histories == s.histories && t.now == s.now && t.enqueued == s.enqueued
            && t.peers.Keys == s.peers.Keys
            && forall d :: d in s.peers ==>
                 t.peers[d].outgoing == s.peers[d].outgoing
                 && (t.peers[d].reader == s.peers[d].reader || t.peers[d].reader.Admitting?)
  {
  }

  lemma SessionsUntouched(keyId: Key -> Id, env: Env, s: System, e: Event)
    requires !e.Unlock? && !e.Elapse? && !e.EndAttempt? && !e.Enqueue?
    ensures var t := Exec(keyId, env, s, e);
            t.sessions.attempts == s.sessions.attempts && t.histories == s.histories && t.now == s.now
  {
    match e
    case Lock(call, reading) =>
      assert Exec(keyId, env, s, e) == DoLock(s, call, reading);
      LockingTouches(s, call, reading);
    case Look => assert Exec(keyId, env, s, e) == DoLook(s);
    case RecordBeat(thread) => assert Exec(keyId, env, s, e) == DoRecordBeat(s, thread);
    case CheckLink(thread) => assert Exec(keyId, env, s, e) == DoCheckLink(s, thread);
    case Connect(d) => assert Exec(keyId, env, s, e) == DoConnect(s, d);
    case Disconnect(d) => assert Exec(keyId, env, s, e) == DoDisconnect(s, d);
    case SendControl(d) => assert Exec(keyId, env, s, e) == DoSendControl(s, d);
    case Drain(d) => assert Exec(keyId, env, s, e) == DoDrain(s, d);
    case _ =>
  }

  lemma UnlockKeepsSessions(env: Env, s: System)
    requires Lawful(env) && LockHolds(s)
    requires SessionsHold(env, s.sessions.attempts, s.histories, s.now)
    ensures var t := DoUnlock(env, s); SessionsHold(env, t.sessions.attempts, t.histories, t.now)
  {
    UnlockTouches(env, s);
    if s.locked.Some? && Complete(s.locked.value) {
      match s.locked.value.call
      case BeginCall(_, _, _, _, _) => BeginKeepsSessions(env, s);
      case RenewCall(_, _, _) => RenewKeepsSessions(env, s);
      case AdmitCall(_, _) => AdmitKeepsSessions(env, s);
    }
  }

  lemma HubKeeps(keyId: Key -> Id, env: Env, s: System, e: Event)
    requires LockHolds(s) && SessionsHold(env, s.sessions.attempts, s.histories, s.now)
    requires HubHolds(s.peers, s.histories, s.enqueued)
    ensures var t := Exec(keyId, env, s, e); HubHolds(t.peers, t.histories, t.enqueued)
  {
    match e
    case Unlock => UnlockKeepsHub(env, s);
    case Enqueue(device, fits) => EnqueueKeepsHub(s, device, fits);
    case SendControl(device) => ControlKeepsHub(keyId, env, s, device);
    case _ => ReadersUntouched(keyId, env, s, e);
  }

  lemma ControlKeepsHub(keyId: Key -> Id, env: Env, s: System, device: Id)
    requires HubHolds(s.peers, s.histories, s.enqueued)
    ensures var t := Exec(keyId, env, s, SendControl(device)); HubHolds(t.peers, t.histories, t.enqueued)
  {
    if Sent(s.peers, device, ControlMessage).Some? {
      SentKeepsReaders(s.peers, device, ControlMessage);
      PeersChange(s.peers, Sent(s.peers, device, ControlMessage).value, s.histories, s.enqueued);
    }
  }

  // The other events leave every signal that is held and every signal enqueued.
  lemma ReadersUntouched(keyId: Key -> Id, env: Env, s: System, e: Event)
    requires HubHolds(s.peers, s.histories, s.enqueued) && !e.Unlock? && !e.Enqueue? && !e.SendControl?
    ensures var t := Exec(keyId, env, s, e); HubHolds(t.peers, t.histories, t.enqueued)
  {
    var t := Exec(keyId, env, s, e);
    match e
    case Lock(call, reading) =>
      assert t == DoLock(s, call, reading);
      LockingTouches(s, call, reading);
      PeersChange(s.peers, t.peers, s.histories, s.enqueued);
    case Connect(_) => PeersStep(keyId, env, s, e);
    case Disconnect(_) => PeersStep(keyId, env, s, e);
    case Drain(_) => PeersStep(keyId, env, s, e);
    case _ => PeersUntouched(keyId, env, s, e);
  }

  lemma PeersUntouched(keyId: Key -> Id, env: Env, s: System, e: Event)
    requires !e.Unlock? && !e.Enqueue? && !e.SendControl?
    requires !e.Lock? && !e.Connect? && !e.Disconnect? && !e.Drain?
    ensures var t := Exec(keyId, env, s, e);
            t.peers == s.peers && t.histories == s.histories && t.enqueued == s.enqueued
  {
    match e
    case Look => assert Exec(keyId, env, s, e) == DoLook(s);
    case CheckLink(thread) => assert Exec(keyId, env, s, e) == DoCheckLink(s, thread);
    case RecordBeat(thread) => assert Exec(keyId, env, s, e) == DoRecordBeat(s, thread);
    case _ =>
  }

  // Coming, going and draining leave every reader that stays as it was.
  lemma PeersComeAndGo(keyId: Key -> Id, env: Env, s: System, e: Event)
    requires QueuesBounded(s.peers) && (e.Connect? || e.Disconnect? || e.Drain?)
    ensures var t := Exec(keyId, env, s, e);
            && t.histories == s.histories && t.enqueued == s.enqueued && QueuesBounded(t.peers)
            && forall d :: d in t.peers && t.peers[d].reader.Holding? ==>
                 d in s.peers && s.peers[d].reader == t.peers[d].reader
  {
    match e
    case Connect(d) => assert Exec(keyId, env, s, e) == DoConnect(s, d);
    case Disconnect(d) => assert Exec(keyId, env, s, e) == DoDisconnect(s, d);
    case Drain(d) => assert Exec(keyId, env, s, e) == DoDrain(s, d);
  }

  lemma PeersStep(keyId: Key -> Id, env: Env, s: System, e: Event)
    requires HubHolds(s.peers, s.histories, s.enqueued) && (e.Connect? || e.Disconnect? || e.Drain?)
    ensures var t := Exec(keyId, env, s, e); HubHolds(t.peers, t.histories, t.enqueued)
  {
    var t := Exec(keyId, env, s, e);
    PeersComeAndGo(keyId, env, s, e);
    PeersChange(s.peers, t.peers, s.histories, s.enqueued);
  }

  lemma UnlockKeepsHub(env: Env, s: System)
    requires LockHolds(s) && SessionsHold(env, s.sessions.attempts, s.histories, s.now)
    requires HubHolds(s.peers, s.histories, s.enqueued)
    ensures var t := DoUnlock(env, s); HubHolds(t.peers, t.histories, t.enqueued)
  {
    UnlockTouches(env, s);
    if s.locked.Some? && Complete(s.locked.value) {
      match s.locked.value.call
      case BeginCall(sender, _, _, attempt, _) => NewHistory(s.peers, s.histories, s.enqueued, attempt, sender);
      case RenewCall(_, _, _) =>
      case AdmitCall(device, signal) => AdmitKeepsHub(env, s);
    }
  }

  lemma AdmitKeepsHub(env: Env, s: System)
    requires s.locked.Some? && s.locked.value.call.AdmitCall? && Complete(s.locked.value)
    requires LockHolds(s) && SessionsHold(env, s.sessions.attempts, s.histories, s.now)
    requires HubHolds(s.peers, s.histories, s.enqueued)
    ensures var t := DoUnlock(env, s); HubHolds(t.peers, t.histories, t.enqueued)
  {
    var w := s.locked.value;
    var AdmitCall(device, signal) := w.call;
    if Succeeds(env, s.sessions, w) {
      AcceptedAttempt(env, s.sessions, w);
      var a := s.sessions.attempts[signal.pairId];
      AcceptIsStep(env, a, device, w.views[3].devices[device].publicKey, signal, w.now);
      assert AttemptHolds(env, s.histories, s.now, signal.pairId, a);
      assert Counter(a, device) == CountBy(s.histories[signal.attemptId].log, device);
      HoldSignal(s.peers, s.histories, s.enqueued, device, signal);
    } else {
      PeersChange(s.peers, WithReader(s, device, Leaving).peers, s.histories, s.enqueued);
    }
  }

  lemma EnqueueKeepsHub(s: System, device: Id, fits: bool)
    requires HubHolds(s.peers, s.histories, s.enqueued)
    ensures var t := DoEnqueue(s, device, fits); HubHolds(t.peers, t.histories, t.enqueued)
  {
    if device in s.peers && s.peers[device].reader.Holding? {
      var signal := s.peers[device].reader.signal;
      var sent := Sent(s.peers, signal.toDeviceId, SignalMessage(signal));
      if fits && sent.Some? {
        SentKeepsReaders(s.peers, signal.toDeviceId, SignalMessage(signal));
        PeersChange(s.peers, sent.value, s.histories, s.enqueued);
        EnqueueHeld(sent.value, s.histories, s.enqueued, device);
      } else {
        PeersChange(s.peers, WithReader(s, device, Leaving).peers, s.histories, s.enqueued);
      }
    }
  }

  lemma ExecKeeps(keyId: Key -> Id, env: Env, s: System, e: Event)
    requires Lawful(env) && Inv(keyId, env, s)
    ensures Inv(keyId, env, Exec(keyId, env, s, e))
  {
    WorldKeeps(keyId, env, s, e);
    LockKeeps(keyId, env, s, e);
    SessionsKeep(keyId, env, s, e);
    HubKeeps(keyId, env, s, e);
  }

  lemma BootHolds(keyId: Key -> Id, env: Env)
    ensures Inv(keyId, env, BOOT)
  {
    Runs.StartHolds(keyId);
  }

  lemma {:induction false} RunKeeps(keyId: Key -> Id, env: Env, s: System, events: seq<Event>)
    requires Lawful(env) && Inv(keyId, env, s)
    ensures Inv(keyId, env, Run(keyId, env, s, events))
  {
    if events != [] {
      RunKeeps(keyId, env, s, events[..|events| - 1]);
      ExecKeeps(keyId, env, Run(keyId, env, s, events[..|events| - 1]), events[|events| - 1]);
    }
  }

  // Every state a run from the start reaches satisfies the invariant.
  lemma Reachable(keyId: Key -> Id, env: Env, events: seq<Event>)
    requires Lawful(env)
    ensures Inv(keyId, env, Run(keyId, env, BOOT, events))
  {
    BootHolds(keyId, env);
    RunKeeps(keyId, env, BOOT, events);
  }

  lemma {:induction false} RunEvolves(keyId: Key -> Id, env: Env, s: System, events: seq<Event>)
    requires WorldHolds(keyId, s)
    ensures var t := Run(keyId, env, s, events);
            WorldHolds(keyId, t) && Invariants.Evolves(Stored(s), Stored(t)) && s.now <= t.now
  {
    if events == [] {
      Invariants.AdvancesReflexive(Stored(s));
      Invariants.StepsEvolve(Stored(s), Stored(s));
    } else {
      var earlier := Run(keyId, env, s, events[..|events| - 1]);
      RunEvolves(keyId, env, s, events[..|events| - 1]);
      WorldKeeps(keyId, env, earlier, events[|events| - 1]);
      Invariants.EvolvesTransitive(Stored(s), Stored(earlier), Stored(Run(keyId, env, s, events)));
    }
  }
}
