// The promises of sessions and signalling, over every run of the coordinator.
module SignalTheorems {
  import opened Tables
  import opened Messages
  import opened Clock
  import opened SessionRules
  import opened AttemptGrammar
  import opened Coordinator
  import opened CoordinatorRuns
  import opened StoreInvariants

  // ---- logs and queues ----

  // Every attempt ever begun, live or not, has accepted a log of the grammar,
  // of at most 512 signals.
  lemma EveryLogObeysTheGrammar(keyId: Key -> Id, env: Env, events: seq<Event>, id: Id)
    requires Lawful(env) && id in Run(keyId, env, BOOT, events).histories
    ensures var h := Run(keyId, env, BOOT, events).histories[id];
            Grammar(env, h.initiator, h.log) && |h.log| <= MAX_SIGNALS
  {
    Reachable(keyId, env, events);
  }

  // What a stored attempt keeps in its maps is exactly what its log says.
  ghost predicate TellsItsLog(env: Env, a: Attempt, log: seq<Entry>) {
    && (forall x :: Counter(a, x) == CountBy(log, x))
    && (forall m :: m in a.messageIds <==> Carries(log, m))
    && (forall x :: x in a.sdpHash <==> HasSdp(log, x))
    && (forall i :: 0 <= i < |log| && IsSdp(log[i]) ==> HashOf(a, log[i].sender) == SdpHash(env, log[i]))
    && a.count == |log| == |a.messageIds| <= MAX_SIGNALS
    && (forall senders :: Senders(a, senders) ==> a.count == CounterSum(a, senders))
  }

  // In every reachable state, each attempt's counters, message ids and hashes are
  // those of the signals it accepted, and its total is the sum of its counters, at
  // most 512.
  lemma AttemptsTellTheirLogs(keyId: Key -> Id, env: Env, events: seq<Event>, k: Id)
    requires Lawful(env) && k in Run(keyId, env, BOOT, events).sessions.attempts
    ensures var s := Run(keyId, env, BOOT, events);
            var a := s.sessions.attempts[k];
            a.lease.attemptId in s.histories && TellsItsLog(env, a, s.histories[a.lease.attemptId].log)
  {
    Reachable(keyId, env, events);
    var s := Run(keyId, env, BOOT, events);
    var a := s.sessions.attempts[k];
    assert AttemptHolds(env, s.histories, s.now, k, a);
    RememberingTells(env, a, s.histories[a.lease.attemptId].log);
  }

  lemma RememberingTells(env: Env, a: Attempt, log: seq<Entry>)
    requires Remembers(env, a, log)
    ensures TellsItsLog(env, a, log)
  {
    forall senders | Senders(a, senders) ensures a.count == CounterSum(a, senders) {
      TotalIsTheSum(env, a, log, senders);
    }
  }

  // Signals of one sender for one attempt enter queues in strictly increasing
  // sequence order, so each at most once; each was accepted first; and no queue
  // ever holds more than 32 messages.
  lemma EnqueuedOnceAndInOrder(keyId: Key -> Id, env: Env, events: seq<Event>)
    requires Lawful(env)
    ensures var s := Run(keyId, env, BOOT, events);
            && Increasing(s.enqueued)
            && (forall i :: 0 <= i < |s.enqueued| ==> Logged(s.histories, s.enqueued[i]))
            && QueuesBounded(s.peers)
  {
    Reachable(keyId, env, events);
  }

  // Every signal enqueued is of an attempt that was begun: one of its initiator's is
  // for the target, which the pair id names, one of the target's for the initiator,
  // and one of any other device's for the target.
  lemma EnqueuedSignalsAreAddressed(keyId: Key -> Id, env: Env, events: seq<Event>, i: nat)
    requires Lawful(env) && i < |Run(keyId, env, BOOT, events).enqueued|
    ensures var s := Run(keyId, env, BOOT, events);
            var signal := s.enqueued[i];
            && signal.attemptId in s.histories
            && var from := s.histories[signal.attemptId].initiator;
               && (signal.fromDeviceId == from ==> from != signal.toDeviceId == signal.pairId)
               && (signal.fromDeviceId == signal.pairId ==> signal.toDeviceId == from != signal.fromDeviceId)
               && (signal.fromDeviceId !in {from, signal.pairId} ==> signal.toDeviceId == signal.pairId)
  {
    Reachable(keyId, env, events);
    var s := Run(keyId, env, BOOT, events);
    var signal := s.enqueued[i];
    assert Logged(s.histories, signal);
    LoggedIsAddressed(env, s.histories, signal);
  }

  lemma LoggedIsAddressed(env: Env, histories: map<Id, History>, signal: Signal)
    requires HistoriesHold(env, histories) && Logged(histories, signal)
    ensures Addressed(histories[signal.attemptId].initiator, Entry(signal.fromDeviceId, signal))
  {
    var h := histories[signal.attemptId];
    var j :| 0 <= j < |h.log| && h.log[j] == Entry(signal.fromDeviceId, signal);
    assert MayFollow(env, h.initiator, h.log[..j], h.log[j]);
  }

  // A held signal that fits goes to the end of the queue of the device it is for,
  // when that device is connected with room left, and into no other queue; otherwise
  // it goes nowhere and its sender has to leave.
  lemma HeldSignalIsDelivered(s: System, device: Id, fits: bool)
    requires device in s.peers && s.peers[device].reader.Holding?
    ensures var signal, t := s.peers[device].reader.signal, DoEnqueue(s, device, fits);
            var to := signal.toDeviceId;
            var delivered := fits && to in s.peers && |s.peers[to].outgoing| < 32;
            && t.peers.Keys == s.peers.Keys
            && t.enqueued == (if delivered then s.enqueued + [signal] else s.enqueued)
            && t.peers[device].reader == (if delivered then Idle else Leaving)
            && (forall d :: d in s.peers && d != device ==> t.peers[d].reader == s.peers[d].reader)
            && (forall d :: d in s.peers ==>
                  t.peers[d].outgoing == if delivered && d == to then s.peers[d].outgoing + [SignalMessage(signal)]
                                         else s.peers[d].outgoing)
  {
  }

  ghost predicate KeyedLease(lease: Lease, k: Id, second: int) {
    lease.toDeviceId == k && lease.pairId == k && lease.fromDeviceId != k && lease.expiresAt <= second
  }

  predicate SameEndsOrId(a: Lease, b: Lease) {
    a.attemptId == b.attemptId || {a.fromDeviceId, a.toDeviceId} == {b.fromDeviceId, b.toDeviceId}
  }

  // Each stored attempt is keyed by its lease's target and pair id, its ends
  // differ, its lease ends within a minute, and no two join the same devices in
  // either direction.
  lemma AttemptsAreKeyedAndExclusive(keyId: Key -> Id, env: Env, events: seq<Event>, j: Id, k: Id)
    requires Lawful(env)
    requires var attempts := Run(keyId, env, BOOT, events).sessions.attempts; j in attempts && k in attempts
    ensures var s := Run(keyId, env, BOOT, events);
            var a, b := s.sessions.attempts[j].lease, s.sessions.attempts[k].lease;
            KeyedLease(a, j, Unix(s.now) + LEASE_SECONDS) && (j != k ==> !SameEndsOrId(a, b))
  {
    Reachable(keyId, env, events);
    var s := Run(keyId, env, BOOT, events);
    var a, b := s.sessions.attempts[j].lease, s.sessions.attempts[k].lease;
    assert AttemptHolds(env, s.histories, s.now, j, s.sessions.attempts[j]);
    assert AttemptHolds(env, s.histories, s.now, k, s.sessions.attempts[k]);
    if j != k {
      DisjointDiffer(a, b);
    }
  }

  lemma DisjointDiffer(a: Lease, b: Lease)
    requires Disjoint(a, b) && a.fromDeviceId != a.toDeviceId && b.fromDeviceId != b.toDeviceId
    ensures !SameEndsOrId(a, b)
  {
    assert a.fromDeviceId in {a.fromDeviceId, a.toDeviceId} && a.toDeviceId in {a.fromDeviceId, a.toDeviceId};
    assert b.fromDeviceId in {b.fromDeviceId, b.toDeviceId} && b.toDeviceId in {b.fromDeviceId, b.toDeviceId};
  }

  // ---- how leases change in one event ----

  // The call that holds the lock is about to end, and succeeds.
  ghost predicate Succeeding(env: Env, s: System, e: Event) {
    e.Unlock? && s.locked.Some? && Succeeds(env, s.sessions, s.locked.value)
  }

  // A lease after an event was there before it unchanged, or was just begun, or
  // was just renewed.
  ghost predicate LeaseFrom(env: Env, s: System, t: System, e: Event, k: Id) {
    && k in t.sessions.attempts
    && var lease := t.sessions.attempts[k].lease;
       || (k in s.sessions.attempts && s.sessions.attempts[k].lease == lease)
       || (&& Succeeding(env, s, e)
           && var w := s.locked.value;
              match w.call
              case BeginCall(sender, target, _, attempt, _) =>
                && target == k && lease.attemptId == attempt && lease.fromDeviceId == sender && lease.toDeviceId == k
                && lease.expiresAt == Unix(w.now) + LEASE_SECONDS
              case RenewCall(_, pairId, attempt) =>
                && pairId == k && k in s.sessions.attempts && s.sessions.attempts[k].lease.attemptId == attempt
                && lease == Extended(env, s.sessions.attempts[k].lease, w.now)
              case AdmitCall(_, _) => false)
  }

  lemma BegunLease(env: Env, s: System, k: Id)
    requires s.locked.Some? && s.locked.value.call.BeginCall? && Complete(s.locked.value)
    requires k in DoUnlock(env, s).sessions.attempts
    ensures LeaseFrom(env, s, DoUnlock(env, s), Unlock, k)
  {
    UnlockedSessions(env, s);
    if Succeeds(env, s.sessions, s.locked.value) {
      BegunAttempt(env, s.sessions, s.locked.value);
    } else {
      RefusedBegin(env, s.sessions, s.locked.value);
    }
  }

  lemma RenewedLease(env: Env, s: System, k: Id)
    requires s.locked.Some? && s.locked.value.call.RenewCall? && Complete(s.locked.value)
    requires k in DoUnlock(env, s).sessions.attempts
    ensures LeaseFrom(env, s, DoUnlock(env, s), Unlock, k)
  {
    UnlockedSessions(env, s);
    RenewedAttempt(env, s.sessions, s.locked.value);
  }

  lemma AdmittedLease(env: Env, s: System, k: Id)
    requires s.locked.Some? && s.locked.value.call.AdmitCall? && Complete(s.locked.value)
    requires k in DoUnlock(env, s).sessions.attempts
    ensures LeaseFrom(env, s, DoUnlock(env, s), Unlock, k)
  {
    UnlockedSessions(env, s);
    var w := s.locked.value;
    if Succeeds(env, s.sessions, w) {
      AcceptedAttempt(env, s.sessions, w);
      var AdmitCall(device, signal) := w.call;
      var key := w.views[3].devices[device].publicKey;
      AcceptIsStep(env, s.sessions.attempts[signal.pairId], device, key, signal, w.now);
    } else {
      RefusedAdmit(env, s.sessions, w);
    }
  }

  lemma LeasesChangeOnlyByBeginAndRenew(keyId: Key -> Id, env: Env, s: System, e: Event, k: Id)
    requires k in Exec(keyId, env, s, e).sessions.attempts
    ensures LeaseFrom(env, s, Exec(keyId, env, s, e), e, k)
  {
    if e.Unlock? && s.locked.Some? && Complete(s.locked.value) {
      match s.locked.value.call
      case BeginCall(_, _, _, _, _) => BegunLease(env, s, k);
      case RenewCall(_, _, _) => RenewedLease(env, s, k);
      case AdmitCall(_, _) => AdmittedLease(env, s, k);
    } else if e.Unlock? {
      assert DoUnlock(env, s) == s;
    } else {
      AttemptsOnlyLeave(keyId, env, s, e);
    }
  }

  // ---- what a call that holds the lock has seen ----

  // A call that holds the lock after an event held it before, having seen at most
  // the database of that moment since, or has just taken it.
  ghost predicate LockFrom(s: System, t: System, e: Event) {
    t.locked.Some? ==>
      || (e.Lock? && t.locked.value == Working(e.call, e.reading, []))
      || (s.locked.Some? && t.locked.value == s.locked.value)
      || (s.locked.Some? && t.locked.value == s.locked.value.(views := s.locked.value.views + [Stored(s)]))
  }

  lemma LockComesFrom(keyId: Key -> Id, env: Env, s: System, e: Event)
    ensures LockFrom(s, Exec(keyId, env, s, e), e)
  {
    if e.Unlock? {
      UnlockTouches(env, s);
    } else if e.Enqueue? {
      EnqueueKeepsAdmitting(s, e.device, e.fits);
    }
  }

  ghost predicate ViewsAll(s: System, p: Db -> bool) {
    s.locked.Some? ==> forall v :: v in s.locked.value.views ==> p(v)
  }

  lemma ViewsStep(s: System, t: System, e: Event, p: Db -> bool)
    requires LockFrom(s, t, e) && ViewsAll(s, p) && p(Stored(s))
    ensures ViewsAll(t, p)
  {
  }

  // A call that took the lock during a run has seen only databases of that run.
  lemma {:induction false} ViewsAreOfTheRun(keyId: Key -> Id, env: Env, s: System, events: seq<Event>, p: Db -> bool)
    requires s.locked.None?
    requires forall i :: 0 <= i <= |events| ==> p(Stored(Run(keyId, env, s, events[..i])))
    ensures ViewsAll(Run(keyId, env, s, events), p)
  {
    if events != [] {
      var n := |events| - 1;
      assert forall i :: 0 <= i <= n ==> events[..n][..i] == events[..i];
      ViewsAreOfTheRun(keyId, env, s, events[..n], p);
      assert p(Stored(Run(keyId, env, s, events[..n])));
      LockComesFrom(keyId, env, Run(keyId, env, s, events[..n]), events[n]);
      ViewsStep(Run(keyId, env, s, events[..n]), Run(keyId, env, s, events), events[n], p);
    }
  }

  // ---- a revoked device, or one whose account is disabled ----

  // The device is known, and revoked or its primary account disabled.
  ghost predicate Withdrawn(db: Db, device: Id) {
    device in db.devices && (db.devices[device].revoked
                             || (db.devices[device].user in db.users && db.users[db.devices[device].user].disabled))
  }

  lemma WithdrawnForever(a: Db, b: Db, device: Id)
    requires Evolves(a, b) && Withdrawn(a, device)
    ensures Withdrawn(b, device) && !Admitted(b, device)
  {
  }

  predicate IsEndOf(lease: Lease, device: Id) { lease.fromDeviceId == device || lease.toDeviceId == device }

  // The call names the device: as an end of the attempt, or as the sender of a signal.
  predicate Names(s: Sessions, call: Call, device: Id) {
    match call
    case BeginCall(sender, target, _, _, _) => sender == device || target == device
    case RenewCall(_, pairId, _) => pairId in s.attempts && IsEndOf(s.attempts[pairId].lease, device)
    case AdmitCall(sender, signal) =>
      sender == device || (signal.pairId in s.attempts && IsEndOf(s.attempts[signal.pairId].lease, device))
  }

  // A call fails when no query of it finds the device it names admitted.
  lemma NotAdmittedIsRefused(env: Env, s: Sessions, w: Working, device: Id)
    requires Names(s, w.call, device) && forall v :: v in w.views ==> !Admitted(v, device)
    ensures !Succeeds(env, s, w)
  {
    if Complete(w) {
      assert forall i :: 0 <= i < |w.views| ==> w.views[i] in w.views;
    }
  }

  // A call in progress has read the clock by then, or found `p` at every query.
  ghost predicate EarlyOrSeen(s: System, p: Db -> bool, until: int) {
    s.locked.Some? ==> s.locked.value.now <= until || forall v :: v in s.locked.value.views ==> p(v)
  }

  lemma EarlyOrSeenStep(s: System, t: System, e: Event, p: Db -> bool, until: int)
    requires LockFrom(s, t, e) && EarlyOrSeen(s, p, until) && p(Stored(s))
    ensures EarlyOrSeen(t, p, until)
  {
  }

  // Leases the device is an end of run out by then.
  ghost predicate LeasesEndBy(s: System, device: Id, second: int) {
    forall k :: k in s.sessions.attempts && IsEndOf(s.sessions.attempts[k].lease, device) ==>
      s.sessions.attempts[k].lease.expiresAt <= second
  }

  // A lease that is new after an event comes from a call that found the device
  // admitted, and so read the clock early.
  lemma LeaseExpires(env: Env, s: System, t: System, e: Event, device: Id, until: int, k: Id)
    requires LeasesEndBy(s, device, Unix(until) + LEASE_SECONDS)
    requires EarlyOrSeen(s, db => !Admitted(db, device), until)
    requires LeaseFrom(env, s, t, e, k) && IsEndOf(t.sessions.attempts[k].lease, device)
    ensures t.sessions.attempts[k].lease.expiresAt <= Unix(until) + LEASE_SECONDS
  {
    if !(k in s.sessions.attempts && s.sessions.attempts[k].lease == t.sessions.attempts[k].lease) {
      if s.locked.value.now > until {
        NotAdmittedIsRefused(env, s.sessions, s.locked.value, device);
      }
    }
  }

  lemma LeasesExpire(keyId: Key -> Id, env: Env, s: System, e: Event, device: Id, until: int)
    requires LeasesEndBy(s, device, Unix(until) + LEASE_SECONDS)
    requires EarlyOrSeen(s, db => !Admitted(db, device), until)
    ensures LeasesEndBy(Exec(keyId, env, s, e), device, Unix(until) + LEASE_SECONDS)
  {
    var t := Exec(keyId, env, s, e);
    forall k | k in t.sessions.attempts && IsEndOf(t.sessions.attempts[k].lease, device)
      ensures t.sessions.attempts[k].lease.expiresAt <= Unix(until) + LEASE_SECONDS
    {
      LeasesChangeOnlyByBeginAndRenew(keyId, env, s, e, k);
      LeaseExpires(env, s, t, e, device, until, k);
    }
  }

  // Once an end is withdrawn, every lease it is an end of runs out within a minute
  // of that moment, whatever was in progress then and whenever the clock was read.
  lemma {:induction false} WithdrawnLeasesRunOut(keyId: Key -> Id, env: Env, s: System, events: seq<Event>, device: Id)
    requires Inv(keyId, env, s) && Withdrawn(Stored(s), device)
    ensures LeasesEndBy(Run(keyId, env, s, events), device, Unix(s.now) + LEASE_SECONDS)
    ensures EarlyOrSeen(Run(keyId, env, s, events), db => !Admitted(db, device), s.now)
  {
    var p := (db: Db) => !Admitted(db, device);
    if events == [] {
      EveryLeaseEnds(env, s);
    } else {
      var earlier := Run(keyId, env, s, events[..|events| - 1]);
      WithdrawnLeasesRunOut(keyId, env, s, events[..|events| - 1], device);
      RunEvolves(keyId, env, s, events[..|events| - 1]);
      WithdrawnForever(Stored(s), Stored(earlier), device);
      LeasesExpire(keyId, env, earlier, events[|events| - 1], device, s.now);
      LockComesFrom(keyId, env, earlier, events[|events| - 1]);
      EarlyOrSeenStep(earlier, Run(keyId, env, s, events), events[|events| - 1], p, s.now);
    }
  }

  lemma EveryLeaseEnds(env: Env, s: System)
    requires SessionsHold(env, s.sessions.attempts, s.histories, s.now)
    ensures forall k :: k in s.sessions.attempts ==>
              s.sessions.attempts[k].lease.expiresAt <= Unix(s.now) + LEASE_SECONDS
  {
    forall k | k in s.sessions.attempts ensures s.sessions.attempts[k].lease.expiresAt <= Unix(s.now) + LEASE_SECONDS {
      assert AttemptHolds(env, s.histories, s.now, k, s.sessions.attempts[k]);
    }
  }

  // And no call that takes the lock from then on and names the device succeeds.
  lemma WithdrawnEndIsShutOut(keyId: Key -> Id, env: Env, s: System, events: seq<Event>, device: Id)
    requires Inv(keyId, env, s) && Withdrawn(Stored(s), device) && s.locked.None?
    ensures var t := Run(keyId, env, s, events);
            t.locked.Some? && Names(t.sessions, t.locked.value.call, device) ==>
              !Succeeds(env, t.sessions, t.locked.value)
  {
    var t := Run(keyId, env, s, events);
    var p := (db: Db) => !Admitted(db, device);
    forall i | 0 <= i <= |events| ensures p(Stored(Run(keyId, env, s, events[..i]))) {
      RunEvolves(keyId, env, s, events[..i]);
      WithdrawnForever(Stored(s), Stored(Run(keyId, env, s, events[..i])), device);
    }
    ViewsAreOfTheRun(keyId, env, s, events, p);
    if t.locked.Some? && Names(t.sessions, t.locked.value.call, device) {
      NotAdmittedIsRefused(env, t.sessions, t.locked.value, device);
    }
  }

  // ---- a target bound nowhere ----

  ghost predicate BoundNowhere(db: Db, device: Id) {
    forall n :: !Bound(db, n, device)
  }

  lemma UnboundIsAlone(db: Db, sender: Id, device: Id)
    requires BoundNowhere(db, device)
    ensures !SameNetwork(db, sender, device)
  {
  }

  predicate Targets(call: Call, device: Id) {
    match call
    case BeginCall(_, target, _, _, _) => target == device
    case RenewCall(_, pairId, _) => pairId == device
    case AdmitCall(_, signal) => signal.pairId == device
  }

  lemma UnboundIsRefused(env: Env, s: Sessions, w: Working, device: Id)
    requires Targets(w.call, device) && forall v :: v in w.views ==> BoundNowhere(v, device)
    ensures !Succeeds(env, s, w)
  {
    if Complete(w) {
      assert w.views[0] in w.views;
      UnboundIsAlone(w.views[0], w.call.sender, device);
    }
  }

  ghost predicate TargetEndsBy(s: System, device: Id, second: int) {
    device in s.sessions.attempts ==> s.sessions.attempts[device].lease.expiresAt <= second
  }

  lemma TargetLeaseExpires(env: Env, s: System, t: System, e: Event, device: Id, until: int)
    requires TargetEndsBy(s, device, Unix(until) + LEASE_SECONDS)
    requires EarlyOrSeen(s, db => BoundNowhere(db, device), until)
    requires device in t.sessions.attempts ==> LeaseFrom(env, s, t, e, device)
    ensures TargetEndsBy(t, device, Unix(until) + LEASE_SECONDS)
  {
    if device in t.sessions.attempts && Succeeding(env, s, e) && Targets(s.locked.value.call, device) {
      if s.locked.value.now > until {
        UnboundIsRefused(env, s.sessions, s.locked.value, device);
      }
    }
  }

  ghost predicate UnboundThroughout(keyId: Key -> Id, env: Env, s: System, events: seq<Event>, device: Id) {
    forall i :: 0 <= i <= |events| ==> BoundNowhere(Stored(Run(keyId, env, s, events[..i])), device)
  }

  lemma UnboundEarlier(keyId: Key -> Id, env: Env, s: System, events: seq<Event>, device: Id)
    requires events != [] && UnboundThroughout(keyId, env, s, events, device)
    ensures UnboundThroughout(keyId, env, s, events[..|events| - 1], device)
    ensures BoundNowhere(Stored(Run(keyId, env, s, events[..|events| - 1])), device)
  {
    var n := |events| - 1;
    forall i | 0 <= i <= n ensures BoundNowhere(Stored(Run(keyId, env, s, events[..n][..i])), device) {
      assert events[..n][..i] == events[..i];
    }
  }

  // While a target has no active binding, the lease it had runs out within a minute.
  lemma {:induction false} UnboundLeaseRunsOut(keyId: Key -> Id, env: Env, s: System, events: seq<Event>, device: Id)
    requires Inv(keyId, env, s) && UnboundThroughout(keyId, env, s, events, device)
    ensures TargetEndsBy(Run(keyId, env, s, events), device, Unix(s.now) + LEASE_SECONDS)
    ensures EarlyOrSeen(Run(keyId, env, s, events), db => BoundNowhere(db, device), s.now)
  {
    if events == [] {
      EveryLeaseEnds(env, s);
    } else {
      UnboundEarlier(keyId, env, s, events, device);
      UnboundLeaseRunsOut(keyId, env, s, events[..|events| - 1], device);
      UnboundStep(keyId, env, Run(keyId, env, s, events[..|events| - 1]), events[|events| - 1], device, s.now);
    }
  }

  lemma UnboundStep(keyId: Key -> Id, env: Env, s: System, e: Event, device: Id, until: int)
    requires TargetEndsBy(s, device, Unix(until) + LEASE_SECONDS) && BoundNowhere(Stored(s), device)
    requires EarlyOrSeen(s, db => BoundNowhere(db, device), until)
    ensures TargetEndsBy(Exec(keyId, env, s, e), device, Unix(until) + LEASE_SECONDS)
    ensures EarlyOrSeen(Exec(keyId, env, s, e), db => BoundNowhere(db, device), until)
  {
    var t, p := Exec(keyId, env, s, e), (db: Db) => BoundNowhere(db, device);
    if device in t.sessions.attempts {
      LeasesChangeOnlyByBeginAndRenew(keyId, env, s, e, device);
    }
    TargetLeaseExpires(env, s, t, e, device, until);
    LockComesFrom(keyId, env, s, e);
    EarlyOrSeenStep(s, t, e, p, until);
  }

  // And every call on it that takes the lock meanwhile fails.
  lemma UnboundTargetIsShutOut(keyId: Key -> Id, env: Env, s: System, events: seq<Event>, device: Id)
    requires UnboundThroughout(keyId, env, s, events, device) && s.locked.None?
    ensures var t := Run(keyId, env, s, events);
            t.locked.Some? && Targets(t.locked.value.call, device) ==> !Succeeds(env, t.sessions, t.locked.value)
  {
    var t := Run(keyId, env, s, events);
    ViewsAreOfTheRun(keyId, env, s, events, db => BoundNowhere(db, device));
    if t.locked.Some? && Targets(t.locked.value.call, device) {
      UnboundIsRefused(env, t.sessions, t.locked.value, device);
    }
  }

  // ---- an attempt id is never accepted again ----

  predicate Asks(call: Call, id: Id) {
    match call
    case BeginCall(_, _, _, _, _) => false
    case RenewCall(_, _, attempt) => attempt == id
    case AdmitCall(_, signal) => signal.attemptId == id
  }

  // The id was drawn, and no stored attempt carries it.
  ghost predicate Gone(s: System, id: Id) {
    && id in s.histories && (forall k :: k in s.sessions.attempts ==> s.sessions.attempts[k].lease.attemptId != id)
    && LockHolds(s)
  }

  // The id was drawn, any stored attempt that carries it ends by `second`, and so
  // does the reading of no call in progress that asks for it.
  ghost predicate Over(s: System, id: Id, second: int) {
    && id in s.histories && LockHolds(s)
    && (forall k :: k in s.sessions.attempts && s.sessions.attempts[k].lease.attemptId == id ==>
          s.sessions.attempts[k].lease.expiresAt <= second)
    && (s.locked.Some? && Asks(s.locked.value.call, id) ==> second <= Unix(s.locked.value.now))
  }

  // A call that asks for an id succeeds only on a stored attempt of that id whose
  // deadline is after the call's own reading of the clock.
  lemma AcceptedBeforeDeadline(env: Env, s: Sessions, w: Working, id: Id)
    requires Asks(w.call, id) && Succeeds(env, s, w)
    ensures exists k :: k in s.attempts && s.attempts[k].lease.attemptId == id
                        && s.attempts[k].lease.expiresAt > Unix(w.now)
  {
    var k := if w.call.RenewCall? then w.call.pairId else w.call.signal.pairId;
    assert k in s.attempts && s.attempts[k].lease.attemptId == id;
  }

  lemma IdsStayDrawn(keyId: Key -> Id, env: Env, s: System, e: Event, id: Id)
    requires id in s.histories
    ensures id in Exec(keyId, env, s, e).histories
  {
    if !e.Unlock? {
      AttemptsOnlyLeave(keyId, env, s, e);
    }
  }

  lemma StaysGone(keyId: Key -> Id, env: Env, s: System, e: Event, id: Id)
    requires Gone(s, id)
    ensures Gone(Exec(keyId, env, s, e), id)
  {
    var t := Exec(keyId, env, s, e);
    IdsStayDrawn(keyId, env, s, e, id);
    LockKeeps(keyId, env, s, e);
    forall k | k in t.sessions.attempts ensures t.sessions.attempts[k].lease.attemptId != id {
      LeasesChangeOnlyByBeginAndRenew(keyId, env, s, e, k);
      assert LeaseFrom(env, s, t, e, k);
    }
  }

  // An attempt that has ended is refused for ever, whenever the clock was read.
  lemma {:induction false} EndedForever(keyId: Key -> Id, env: Env, s: System, events: seq<Event>, id: Id)
    requires Gone(s, id)
    ensures var t := Run(keyId, env, s, events);
            && Gone(t, id)
            && (t.locked.Some? && Asks(t.locked.value.call, id) ==> !Succeeds(env, t.sessions, t.locked.value))
  {
    if events != [] {
      EndedForever(keyId, env, s, events[..|events| - 1], id);
      StaysGone(keyId, env, Run(keyId, env, s, events[..|events| - 1]), events[|events| - 1], id);
    }
    var t := Run(keyId, env, s, events);
    if t.locked.Some? && Asks(t.locked.value.call, id) && Succeeds(env, t.sessions, t.locked.value) {
      AcceptedBeforeDeadline(env, t.sessions, t.locked.value, id);
      assert false;
    }
  }

  // A call that asks for the id read the clock at the deadline or later.
  predicate Late(e: Event, id: Id, second: int) {
    e.Lock? && Asks(e.call, id) ==> second <= Unix(e.reading)
  }

  lemma StaysOver(keyId: Key -> Id, env: Env, s: System, e: Event, id: Id, second: int)
    requires Over(s, id, second) && Late(e, id, second)
    ensures Over(Exec(keyId, env, s, e), id, second)
  {
    var t := Exec(keyId, env, s, e);
    IdsStayDrawn(keyId, env, s, e, id);
    LockKeeps(keyId, env, s, e);
    LockComesFrom(keyId, env, s, e);
    AskingStaysLate(s, t, e, id, second);
    forall k | k in t.sessions.attempts && t.sessions.attempts[k].lease.attemptId == id
      ensures t.sessions.attempts[k].lease.expiresAt <= second
    {
      LeasesChangeOnlyByBeginAndRenew(keyId, env, s, e, k);
      LeaseStaysOver(env, s, t, e, id, second, k);
    }
  }

  lemma LeaseStaysOver(env: Env, s: System, t: System, e: Event, id: Id, second: int, k: Id)
    requires Over(s, id, second) && LeaseFrom(env, s, t, e, k) && t.sessions.attempts[k].lease.attemptId == id
    ensures t.sessions.attempts[k].lease.expiresAt <= second
  {
    if !(k in s.sessions.attempts && s.sessions.attempts[k].lease == t.sessions.attempts[k].lease)
       && s.locked.value.call.RenewCall? {
      AcceptedBeforeDeadline(env, s.sessions, s.locked.value, id);
      assert false;
    }
  }

  lemma AskingStaysLate(s: System, t: System, e: Event, id: Id, second: int)
    requires LockFrom(s, t, e) && Over(s, id, second) && Late(e, id, second)
    ensures t.locked.Some? && Asks(t.locked.value.call, id) ==> second <= Unix(t.locked.value.now)
  {
  }

  // An attempt that has expired is accepted again only by a call that read the
  // clock before the deadline: as long as every call that asks for it read the
  // clock later, all of them fail.
  lemma {:induction false} ExpiredForever(keyId: Key -> Id, env: Env, s: System, events: seq<Event>, id: Id,
                                          second: int)
    requires Over(s, id, second) && forall i :: 0 <= i < |events| ==> Late(events[i], id, second)
    ensures var t := Run(keyId, env, s, events);
            && Over(t, id, second)
            && (t.locked.Some? && Asks(t.locked.value.call, id) ==> !Succeeds(env, t.sessions, t.locked.value))
  {
    if events != [] {
      ExpiredForever(keyId, env, s, events[..|events| - 1], id, second);
      StaysOver(keyId, env, Run(keyId, env, s, events[..|events| - 1]), events[|events| - 1], id, second);
    }
    var t := Run(keyId, env, s, events);
    if t.locked.Some? && Asks(t.locked.value.call, id) && Succeeds(env, t.sessions, t.locked.value) {
      AcceptedBeforeDeadline(env, t.sessions, t.locked.value, id);
      assert false;
    }
  }

  // ---- the lease the two ends receive ----

  // A lease from Begin passes Lease.Verify, against what was asked for, from the
  // second of its reading until a minute later, and at no other time.
  lemma IssuedLeaseVerifiesForAMinute(env: Env, v: Views, s: Sessions, sender: Id, target: Id, generation: nat,
                                      issued: int, attempt: Id, network: Id, public: Key, now: int)
    requires LawfulSigning(env.sign, Verifier(env, public)) && |v| == BEGIN_READS
    requires Begin(env, v, s, sender, target, generation, issued, attempt, network).1.Success?
    requires ValidID(sender) && ValidID(attempt) && ValidID(network) && ValidID(v[3].devices[sender].user)
    ensures var lease := Begin(env, v, s, sender, target, generation, issued, attempt, network).1.value;
            VerifyLease(env, public, env.serviceId, lease, Scope(attempt, sender, target, target, generation, 0),
                        v[3].devices[sender].user, network, 1, now).Success?
            <==> Unix(issued) <= Unix(now) < Unix(issued) + LEASE_SECONDS
  {
    var lease := Begin(env, v, s, sender, target, generation, issued, attempt, network).1.value;
    var unsigned := lease.(signature := "");
    assert SameStatement(SignedLease(lease), SignedLease(unsigned));
    assert Verifier(env, public)(SignedLease(lease), env.sign(SignedLease(unsigned)));
  }
}
