// Which requests on a lease ask that its two ends still share a network.
//
// Renew and Admit compare the sender with the lease's pair id, which is the
// target, and do not ask that the sender is an end at all. Sent by the initiator,
// a request therefore needs a network both ends are bound to; sent by any other
// device, one that it shares with the target.
module LeaseMembership {
  import opened Wrappers
  import opened Tables
  import opened Transactions
  import opened Messages
  import opened Clock
  import opened SessionRules
  import opened AttemptGrammar
  import opened Coordinator
  import opened CoordinatorRuns
  import PairRace
  import Contracts = SessionContracts
  import Rows = StoreContracts

  predicate BoundSomewhere(db: Db, device: Id) {
    exists k :: k in db.bindings && k.1 == device && db.bindings[k]
  }

  lemma SharesWithItself(db: Db, device: Id)
    ensures SameNetwork(db, device, device) <==> BoundSomewhere(db, device)
  {
    if BoundSomewhere(db, device) {
      var k :| k in db.bindings && k.1 == device && db.bindings[k];
      assert k == (k.0, device);
    }
  }

  lemma SharesWithSome(db: Db, sender: Id, device: Id)
    requires SameNetwork(db, sender, device)
    ensures BoundSomewhere(db, device)
  {
    var k :| k in db.bindings && k.1 == sender && db.bindings[k] && Bound(db, k.0, device);
    assert (k.0, device) in db.bindings;
  }

  // The attempt's lease has not run out, and both its ends are admitted.
  predicate Standing(s: Sessions, db: Db, pairId: Id, now: int) {
    && pairId in s.attempts && s.attempts[pairId].lease.expiresAt > Unix(now)
    && Admitted(db, s.attempts[pairId].lease.fromDeviceId) && Admitted(db, s.attempts[pairId].lease.toDeviceId)
  }

  // The sender renews the attempt's lease, with nothing between its queries.
  predicate Renews(env: Env, s: Sessions, db: Db, sender: Id, pairId: Id, now: int)
    requires pairId in s.attempts
  {
    Renew(env, AtOnce(db, RENEW_READS), s, sender, pairId, s.attempts[pairId].lease.attemptId, now).1.Success?
  }

  // In every reachable state, a device can renew a standing lease exactly when it
  // shares a network with the target: some device can exactly when the target is
  // bound anywhere, and while the ends share no network it is never the initiator.
  lemma WhoMayRenew(keyId: Key -> Id, env: Env, events: seq<Event>, pairId: Id)
    requires Lawful(env)
    requires var s := Run(keyId, env, BOOT, events); Standing(s.sessions, Stored(s), pairId, s.now)
    ensures var s := Run(keyId, env, BOOT, events);
            var lease, db := s.sessions.attempts[pairId].lease, Stored(s);
            && (forall sender ::
                  Renews(env, s.sessions, db, sender, pairId, s.now) <==> SameNetwork(db, sender, pairId))
            && ((exists sender :: Renews(env, s.sessions, db, sender, pairId, s.now)) <==> BoundSomewhere(db, pairId))
            && (forall sender :: Renews(env, s.sessions, db, sender, pairId, s.now)
                                 && !SameNetwork(db, lease.fromDeviceId, lease.toDeviceId) ==>
                  sender != lease.fromDeviceId)
  {
    Reachable(keyId, env, events);
    var s := Run(keyId, env, BOOT, events);
    assert AttemptHolds(env, s.histories, s.now, pairId, s.sessions.attempts[pairId]);
    RenewersShareWithTarget(env, s.sessions, Stored(s), pairId, s.now);
  }

  lemma RenewersShareWithTarget(env: Env, s: Sessions, db: Db, pairId: Id, now: int)
    requires Standing(s, db, pairId, now)
    ensures forall sender :: Renews(env, s, db, sender, pairId, now) <==> SameNetwork(db, sender, pairId)
    ensures (exists sender :: Renews(env, s, db, sender, pairId, now)) <==> BoundSomewhere(db, pairId)
  {
    SharesWithItself(db, pairId);
    assert BoundSomewhere(db, pairId) ==> Renews(env, s, db, pairId, pairId, now);
    forall sender | Renews(env, s, db, sender, pairId, now) ensures BoundSomewhere(db, pairId) {
      SharesWithSome(db, sender, pairId);
    }
  }

  // A signal of the sender that passes every check of its own, when it goes to the
  // other end.
  predicate Acceptable(env: Env, s: Sessions, db: Db, sender: Id, signal: Signal, now: int)
    requires signal.pairId in s.attempts
  {
    var a := s.attempts[signal.pairId];
    var recipient := if sender == a.lease.toDeviceId then a.lease.fromDeviceId else a.lease.toDeviceId;
    && Admitted(db, sender) && signal.attemptId == a.lease.attemptId
    && Contracts.MaySignal(env, a, sender, recipient, db.devices[sender].publicKey, signal, now)
  }

  // It is admitted on a standing lease exactly when its sender shares a network with
  // the target.
  lemma WhoMayAdmit(env: Env, s: Sessions, db: Db, sender: Id, signal: Signal, now: int)
    requires Standing(s, db, signal.pairId, now) && Acceptable(env, s, db, sender, signal, now)
    ensures Admit(env, AtOnce(db, ADMIT_READS), s, sender, signal, now).1.Success?
            <==> SameNetwork(db, sender, signal.pairId)
  {
    Contracts.SharingAgrees(db, sender, signal.pairId);
    Contracts.SignalIsAdmitted(env, AtOnce(db, ADMIT_READS), s, sender, signal, now);
  }

  // ---- when a call succeeds, whatever changes between its queries ----

  // Begin: the target is another device the sender shares a network with, both are
  // admitted and were heard of for their primary account in the last half minute, no
  // running attempt is on the target or joins the two, the sender is still admitted,
  // and the last query finds both in the network the lease names.
  lemma BeginSucceedsExactly(env: Env, s: Sessions, w: Working)
    requires w.call.BeginCall? && Complete(w)
    ensures var BeginCall(sender, target, generation, attempt, network) := w.call;
            Succeeds(env, s, w) <==>
              && Contracts.Proper(w.views[0], sender, target, generation)
              && Contracts.Answering(w.views[1], s, sender, w.now)
              && Contracts.Answering(w.views[2], s, target, w.now)
              && Contracts.Free(s, sender, target, w.now)
              && Rows.CallerOn(w.views[3], sender)
              && Rows.BoundOn(w.views[4], network, sender) && Rows.BoundOn(w.views[4], network, target)
  {
    var BeginCall(sender, target, generation, attempt, network) := w.call;
    Contracts.AttemptBegins(env, w.views, s, sender, target, generation, w.now, attempt, network);
  }

  // Renew: the attempt is stored under the id asked for, its deadline is after the
  // call's own reading of the clock, the first query found a network the sender
  // shares with the target, and the other two found the ends admitted.
  lemma RenewSucceedsExactly(env: Env, s: Sessions, w: Working)
    requires w.call.RenewCall? && Complete(w)
    ensures var RenewCall(sender, k, attempt) := w.call;
            Succeeds(env, s, w) <==>
              && k in s.attempts && s.attempts[k].lease.attemptId == attempt
              && Contracts.Running(s.attempts[k].lease, w.now)
              && Contracts.Meet(w.views[0], sender, k)
              && Rows.CallerOn(w.views[1], s.attempts[k].lease.fromDeviceId)
              && Rows.CallerOn(w.views[2], s.attempts[k].lease.toDeviceId)
  {
    var RenewCall(sender, k, attempt) := w.call;
    Contracts.LeaseIsRenewed(env, w.views, s, sender, k, attempt, w.now);
  }

  // What Admit asks of the attempt and its queries, before the signal itself.
  ghost predicate Heeds(s: Sessions, w: Working)
    requires w.call.AdmitCall? && Complete(w)
  {
    var AdmitCall(sender, signal) := w.call;
    var k := signal.pairId;
    && k in s.attempts && s.attempts[k].lease.attemptId == signal.attemptId
    && Contracts.Running(s.attempts[k].lease, w.now)
    && Contracts.Meet(w.views[0], sender, k)
    && Rows.CallerOn(w.views[1], s.attempts[k].lease.fromDeviceId)
    && Rows.CallerOn(w.views[2], s.attempts[k].lease.toDeviceId)
    && Rows.CallerOn(w.views[3], sender)
  }

  // Admit of a signal from anyone but the target, the initiator above all: the signal
  // is well formed, goes to the target as the sender's next under the lease, and is
  // the initiator's offer, another's answer to it, or a candidate of the description
  // its sender gave; and it is signed with the key the last query found.
  lemma AdmitSucceedsExactly(env: Env, s: Sessions, w: Working)
    requires w.call.AdmitCall? && Complete(w)
    requires var k := w.call.signal.pairId; k in s.attempts ==> w.call.sender != s.attempts[k].lease.toDeviceId
    ensures var AdmitCall(sender, signal) := w.call;
            Succeeds(env, s, w) <==>
              && Heeds(s, w)
              && var a, key := s.attempts[signal.pairId], w.views[3].devices[sender].publicKey;
                 && Contracts.WellFormed(signal, w.now)
                 && Contracts.Belongs(a, signal, sender, a.lease.toDeviceId)
                 && (|| Contracts.Offers(env, a, sender, signal) || Contracts.Answers(env, a, sender, signal)
                     || Contracts.AddsCandidate(env, a, sender, signal))
                 && env.verify(key, SignedSignal(signal), signal.signature)
  {
    Contracts.SignalIsAdmitted(env, w.views, s, w.call.sender, w.call.signal, w.now);
  }

  // Admit of a signal from the target, which is not the initiator: the same, but it
  // goes to the initiator and is an answer or a candidate.
  lemma TargetAdmitSucceedsExactly(env: Env, s: Sessions, w: Working)
    requires w.call.AdmitCall? && Complete(w)
    requires var k := w.call.signal.pairId;
             k in s.attempts ==> w.call.sender == s.attempts[k].lease.toDeviceId != s.attempts[k].lease.fromDeviceId
    ensures var AdmitCall(sender, signal) := w.call;
            Succeeds(env, s, w) <==>
              && Heeds(s, w)
              && var a, key := s.attempts[signal.pairId], w.views[3].devices[sender].publicKey;
                 && Contracts.WellFormed(signal, w.now)
                 && Contracts.Belongs(a, signal, sender, a.lease.fromDeviceId)
                 && (Contracts.Answers(env, a, sender, signal) || Contracts.AddsCandidate(env, a, sender, signal))
                 && env.verify(key, SignedSignal(signal), signal.signature)
  {
    Contracts.SignalIsAdmitted(env, w.views, s, w.call.sender, w.call.signal, w.now);
  }

  // ---- the reading decides, not the clock ----

  ghost function LooksIn(keyId: Key -> Id, env: Env, s: System, n: nat): (t: System) {
    if n == 0 then s else Exec(keyId, env, LooksIn(keyId, env, s, n - 1), Look)
  }

  lemma {:induction false} LooksAreLooks(keyId: Key -> Id, env: Env, s: System, n: nat)
    ensures LooksIn(keyId, env, s, n) == Looks(s, n)
  {
    if n > 0 {
      LooksAreLooks(keyId, env, s, n - 1);
    }
  }

  // A call takes the lock at this moment, makes its queries with nothing in between,
  // and is then held up until `later`.
  ghost function HeldUp(keyId: Key -> Id, env: Env, s: System, call: Call, later: int): (t: System) {
    Exec(keyId, env, LooksIn(keyId, env, Exec(keyId, env, s, Lock(call, s.now)), Reads(call)), Elapse(later))
  }

  lemma HeldUpState(keyId: Key -> Id, env: Env, s: System, call: Call, later: int)
    requires s.locked.None? && MayLock(s, call) && later >= s.now
    ensures var t := HeldUp(keyId, env, s, call, later);
            && t.now == later && t.sessions == s.sessions
            && t.locked == Some(Working(call, s.now, AtOnce(Stored(s), Reads(call))))
  {
    var locked := Exec(keyId, env, s, Lock(call, s.now));
    assert locked == DoLock(s, call, s.now);
    LooksAreLooks(keyId, env, locked, Reads(call));
    UninterruptedLooks(locked, Reads(call));
  }

  // From every state in which a lease stands, a renewal that reads the clock now
  // succeeds even when it ends after the deadline.
  lemma RenewalOutlivesDeadline(keyId: Key -> Id, env: Env, s: System, sender: Id, k: Id, later: int)
    requires s.locked.None? && Standing(s.sessions, Stored(s), k, s.now) && SameNetwork(Stored(s), sender, k)
    requires Unix(later) >= s.sessions.attempts[k].lease.expiresAt
    ensures var t := HeldUp(keyId, env, s, RenewCall(sender, k, s.sessions.attempts[k].lease.attemptId), later);
            && t.now == later && t.sessions == s.sessions
            && Unix(t.now) >= s.sessions.attempts[k].lease.expiresAt
            && t.locked.Some? && Succeeds(env, t.sessions, t.locked.value)
  {
    var call := RenewCall(sender, k, s.sessions.attempts[k].lease.attemptId);
    LaterThan(s.now, later, s.sessions.attempts[k].lease.expiresAt);
    HeldUpState(keyId, env, s, call, later);
    Contracts.SharingAgrees(Stored(s), sender, k);
    RenewSucceedsExactly(env, s.sessions, Working(call, s.now, AtOnce(Stored(s), RENEW_READS)));
  }

  lemma LaterThan(now: int, later: int, second: int)
    requires Unix(now) < second <= Unix(later)
    ensures now <= later
  {
  }

  // And so does the admission of a signal by a free reader.
  lemma AdmissionOutlivesDeadline(keyId: Key -> Id, env: Env, s: System, sender: Id, signal: Signal, later: int)
    requires s.locked.None? && sender in s.peers && s.peers[sender].reader.Idle?
    requires Standing(s.sessions, Stored(s), signal.pairId, s.now)
    requires SameNetwork(Stored(s), sender, signal.pairId)
    requires Acceptable(env, s.sessions, Stored(s), sender, signal, s.now)
    requires Unix(later) >= s.sessions.attempts[signal.pairId].lease.expiresAt
    ensures var t := HeldUp(keyId, env, s, AdmitCall(sender, signal), later);
            && t.now == later && t.sessions == s.sessions
            && Unix(t.now) >= s.sessions.attempts[signal.pairId].lease.expiresAt
            && t.locked.Some? && Succeeds(env, t.sessions, t.locked.value)
  {
    var call := AdmitCall(sender, signal);
    LaterThan(s.now, later, s.sessions.attempts[signal.pairId].lease.expiresAt);
    HeldUpState(keyId, env, s, call, later);
    WhoMayAdmit(env, s.sessions, Stored(s), sender, signal, s.now);
  }

  // ---- instances ----

  // Three machines of one account in its only network.
  function Household(a: Id, b: Id, c: Id): (db: Db) {
    EMPTY_DB.(users := map["u" := User(false)],
              networks := map["n" := Network("u", "home", false, DEFAULT_NETWORK_LIMIT)],
              devices := map[a := PairRace.Machine("k1", "r1"), b := PairRace.Machine("k2", "r2"),
                             c := PairRace.Machine("k3", "r3")],
              links := {(a, "u"), (b, "u"), (c, "u")},
              bindings := map[("n", a) := true, ("n", b) := true, ("n", c) := true])
  }

  const INITIATOR := "aaaaaaaaaaaa"
  const TARGET := "bbbbbbbbbbbb"
  const BYSTANDER := "cccccccccccc"
  const HOUSEHOLD := Household(INITIATOR, TARGET, BYSTANDER)
  const ONLINE := NO_SESSIONS.(presence := map[(INITIATOR, "u") := 0, (TARGET, "u") := 0])

  // The first machine dials the second at time zero.
  function Dialled(env: Env): (r: (Sessions, Result<Lease, Error>)) {
    Begin(env, AtOnce(HOUSEHOLD, BEGIN_READS), ONLINE, INITIATOR, TARGET, 1, 0, "dddddddddddd", "n")
  }

  lemma DialSucceeds(env: Env)
    ensures Dialled(env).1.Success? && TARGET in Dialled(env).0.attempts
    ensures var lease := Dialled(env).0.attempts[TARGET].lease;
            && lease.attemptId == "dddddddddddd" && lease.fromDeviceId == INITIATOR && lease.toDeviceId == TARGET
            && lease.expiresAt == LEASE_SECONDS
  {
    assert ("n", INITIATOR) in HOUSEHOLD.bindings && Bound(HOUSEHOLD, "n", TARGET);
  }

  lemma InitiatorLeaves()
    ensures var left := UnbindDevice(HOUSEHOLD, "u", "n", INITIATOR);
            && left.Committed? && Admitted(left.db, INITIATOR) && Admitted(left.db, TARGET)
            && !SameNetwork(left.db, INITIATOR, TARGET)
            && SameNetwork(left.db, TARGET, TARGET) && SameNetwork(left.db, BYSTANDER, TARGET)
  {
    var left := UnbindDevice(HOUSEHOLD, "u", "n", INITIATOR).db;
    assert ("n", TARGET) in left.bindings && ("n", BYSTANDER) in left.bindings && Bound(left, "n", TARGET);
  }

  // The initiator is then unbound. It shares no network with the target any more
  // and can no longer renew; the target can, and so can a third machine that is no
  // end of the lease.
  lemma UnboundInitiatorLeavesALease(env: Env)
    ensures Dialled(env).1.Success? && TARGET in Dialled(env).0.attempts
    ensures var s, left := Dialled(env).0, UnbindDevice(HOUSEHOLD, "u", "n", INITIATOR);
            && left.Committed? && !SameNetwork(left.db, INITIATOR, TARGET)
            && !Renews(env, s, left.db, INITIATOR, TARGET, 0)
            && Renews(env, s, left.db, TARGET, TARGET, 0) && Renews(env, s, left.db, BYSTANDER, TARGET, 0)
  {
    DialSucceeds(env);
    InitiatorLeaves();
    var left := UnbindDevice(HOUSEHOLD, "u", "n", INITIATOR).db;
    RenewersShareWithTarget(env, Dialled(env).0, left, TARGET, 0);
  }
}
