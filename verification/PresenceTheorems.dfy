// Where presence comes from, over every run of the coordinator.
module PresenceTheorems {
  import opened Wrappers
  import opened Tables
  import opened SessionRules
  import opened Coordinator
  import opened CoordinatorRuns
  import opened LeaseMembership
  import Contracts = SessionContracts

  // ---- heartbeats under way ----

  // A heartbeat under way after an event was under way before it, or has just found
  // its device admitted, or the device linked to its account.
  ghost predicate ReportingFrom(s: System, t: System, e: Event, thread: nat) {
    thread in t.reporting ==>
      var r := t.reporting[thread];
      || (thread in s.reporting && s.reporting[thread] == r)
      || (&& e == Beat(thread, r.device, r.user, r.reading) && r.reading <= s.now && Admitted(Stored(s), r.device)
          && r.linked == r.user.None?)
      || (&& e == CheckLink(thread) && thread in s.reporting && s.reporting[thread] == r.(linked := false)
          && r.user.Some? && LinkedTo(Stored(s), r.device, r.user.value))
  }

  lemma ReportingStep(keyId: Key -> Id, env: Env, s: System, e: Event, thread: nat)
    ensures ReportingFrom(s, Exec(keyId, env, s, e), e, thread)
  {
    if e.CheckLink? {
      assert Exec(keyId, env, s, e) == DoCheckLink(s, e.thread);
    } else if !e.Beat? && !e.RecordBeat? {
      ReportsUntouched(keyId, env, s, e);
    }
  }

  lemma ReportsUntouched(keyId: Key -> Id, env: Env, s: System, e: Event)
    requires !e.Beat? && !e.CheckLink? && !e.RecordBeat?
    ensures Exec(keyId, env, s, e).reporting == s.reporting
  {
    match e
    case Unlock => UnlockKeepsReports(env, s);
    case Enqueue(sender, fits) => assert Exec(keyId, env, s, e) == DoEnqueue(s, sender, fits);
    case Lock(call, reading) => assert Exec(keyId, env, s, e) == DoLock(s, call, reading);
    case _ =>
  }

  lemma UnlockKeepsReports(env: Env, s: System)
    ensures DoUnlock(env, s).reporting == s.reporting
  {
  }

  // The i-th event found the device of the heartbeat admitted.
  ghost predicate AdmittedAt(keyId: Key -> Id, env: Env, events: seq<Event>, i: nat, thread: nat, r: Report)
    requires i < |events|
  {
    var s := Run(keyId, env, BOOT, events[..i]);
    events[i] == Beat(thread, r.device, r.user, r.reading) && r.reading <= s.now && Admitted(Stored(s), r.device)
  }

  // The i-th event found it linked to its account.
  ghost predicate LinkedAt(keyId: Key -> Id, env: Env, events: seq<Event>, i: nat, thread: nat, r: Report)
    requires i < |events|
  {
    var s := Run(keyId, env, BOOT, events[..i]);
    events[i] == CheckLink(thread) && r.user.Some? && LinkedTo(Stored(s), r.device, r.user.value)
  }

  lemma SamePast(events: seq<Event>, i: nat)
    requires i < |events| - 1
    ensures events[..|events| - 1][..i] == events[..i] && events[..|events| - 1][i] == events[i]
  {
  }

  lemma {:induction false} ReportWasAdmitted(keyId: Key -> Id, env: Env, events: seq<Event>, thread: nat)
    returns (i: nat)
    requires thread in Run(keyId, env, BOOT, events).reporting
    ensures i < |events|
    ensures AdmittedAt(keyId, env, events, i, thread, Run(keyId, env, BOOT, events).reporting[thread])
  {
    var n := |events| - 1;
    var s, t := Run(keyId, env, BOOT, events[..n]), Run(keyId, env, BOOT, events);
    ReportingStep(keyId, env, s, events[n], thread);
    assert ReportingFrom(s, t, events[n], thread);
    var r := t.reporting[thread];
    if thread in s.reporting && (s.reporting[thread] == r || s.reporting[thread] == r.(linked := false)) {
      i := ReportWasAdmitted(keyId, env, events[..n], thread);
      SamePast(events, i);
    } else {
      i := n;
    }
  }

  lemma {:induction false} ReportWasLinked(keyId: Key -> Id, env: Env, events: seq<Event>, thread: nat)
    returns (i: nat, j: nat)
    requires thread in Run(keyId, env, BOOT, events).reporting
    requires var r := Run(keyId, env, BOOT, events).reporting[thread]; r.linked && r.user.Some?
    ensures i < j < |events|
    ensures var r := Run(keyId, env, BOOT, events).reporting[thread];
            AdmittedAt(keyId, env, events, i, thread, r) && LinkedAt(keyId, env, events, j, thread, r)
  {
    var n := |events| - 1;
    var s, t := Run(keyId, env, BOOT, events[..n]), Run(keyId, env, BOOT, events);
    ReportingStep(keyId, env, s, events[n], thread);
    assert ReportingFrom(s, t, events[n], thread);
    if thread in s.reporting && s.reporting[thread] == t.reporting[thread] {
      i, j := ReportWasLinked(keyId, env, events[..n], thread);
      SamePast(events, i);
      SamePast(events, j);
    } else {
      i := ReportWasAdmitted(keyId, env, events[..n], thread);
      j := n;
      SamePast(events, i);
    }
  }

  // ---- presence ----

  // The event takes the device off the hub.
  predicate Departs(s: System, e: Event, device: Id) { e == Disconnect(device) && MayLeave(s, device) }

  // The event records the heartbeat.
  predicate Records(s: System, e: Event, device: Id, user: Id, reading: int) {
    && e.RecordBeat? && e.thread in s.reporting && s.locked.None?
    && s.reporting[e.thread] == Report(device, Some(user), reading, true)
  }

  lemma OutcomeKeepsPresence(env: Env, s: Sessions, w: Working)
    requires Complete(w)
    ensures Outcome(env, s, w).0.presence == s.presence
  {
    match w.call
    case BeginCall(sender, target, generation, attempt, network) =>
      Contracts.AttemptBegins(env, w.views, s, sender, target, generation, w.now, attempt, network);
    case RenewCall(sender, k, attempt) => Contracts.LeaseIsRenewed(env, w.views, s, sender, k, attempt, w.now);
    case AdmitCall(sender, signal) => Contracts.SignalIsAdmitted(env, w.views, s, sender, signal, w.now);
  }

  lemma UnlockKeepsPresence(env: Env, s: System)
    ensures DoUnlock(env, s).sessions.presence == s.sessions.presence
  {
    if s.locked.Some? && Complete(s.locked.value) {
      UnlockedSessions(env, s);
      OutcomeKeepsPresence(env, s.sessions, s.locked.value);
    }
  }

  // Presence after an event was recorded by it, or was there before and the device has
  // not departed.
  ghost predicate PresenceFrom(s: System, t: System, e: Event, device: Id, user: Id) {
    (device, user) in t.sessions.presence ==>
      || Records(s, e, device, user, t.sessions.presence[(device, user)])
      || (&& (device, user) in s.sessions.presence && !Departs(s, e, device)
          && s.sessions.presence[(device, user)] == t.sessions.presence[(device, user)])
  }

  // Only heartbeats and departures change presence.
  lemma PresenceUntouched(keyId: Key -> Id, env: Env, s: System, e: Event)
    requires !e.RecordBeat? && !e.Disconnect?
    ensures Exec(keyId, env, s, e).sessions.presence == s.sessions.presence
  {
    match e
    case Unlock => UnlockKeepsPresence(env, s);
    case Enqueue(sender, fits) =>
      assert Exec(keyId, env, s, e) == DoEnqueue(s, sender, fits);
      EnqueueKeepsAttempts(s, sender, fits);
    case Lock(call, reading) =>
      assert Exec(keyId, env, s, e) == DoLock(s, call, reading);
      LockingTouches(s, call, reading);
    case _ =>
  }

  lemma PresenceStep(keyId: Key -> Id, env: Env, s: System, e: Event, device: Id, user: Id)
    ensures PresenceFrom(s, Exec(keyId, env, s, e), e, device, user)
  {
    if !e.RecordBeat? && !e.Disconnect? {
      PresenceUntouched(keyId, env, s, e);
    } else if e.RecordBeat? {
      assert Exec(keyId, env, s, e) == DoRecordBeat(s, e.thread);
    }
  }

  // The k-th event recorded the heartbeat, and the device has not departed since.
  ghost predicate RecordedAt(keyId: Key -> Id, env: Env, events: seq<Event>, k: nat, device: Id, user: Id,
                             reading: int)
    requires k < |events|
  {
    && Records(Run(keyId, env, BOOT, events[..k]), events[k], device, user, reading)
    && forall j :: k < j < |events| ==> !Departs(Run(keyId, env, BOOT, events[..j]), events[j], device)
  }

  lemma RecordedStep(keyId: Key -> Id, env: Env, events: seq<Event>, e: Event, k: nat, device: Id, user: Id,
                     reading: int)
    requires k < |events| && RecordedAt(keyId, env, events, k, device, user, reading)
    requires !Departs(Run(keyId, env, BOOT, events), e, device)
    ensures RecordedAt(keyId, env, events + [e], k, device, user, reading)
  {
    var longer := events + [e];
    assert forall j :: 0 <= j <= |events| ==> longer[..j] == events[..j];
    assert events[..|events|] == events;
  }

  lemma {:induction false} PresenceWasRecorded(keyId: Key -> Id, env: Env, events: seq<Event>, device: Id, user: Id)
    returns (k: nat)
    requires (device, user) in Run(keyId, env, BOOT, events).sessions.presence
    ensures k < |events|
    ensures RecordedAt(keyId, env, events, k, device, user,
                       Run(keyId, env, BOOT, events).sessions.presence[(device, user)])
  {
    var earlier, e := events[..|events| - 1], events[|events| - 1];
    var s, t := Run(keyId, env, BOOT, earlier), Run(keyId, env, BOOT, events);
    PresenceStep(keyId, env, s, e, device, user);
    assert PresenceFrom(s, t, e, device, user) && earlier + [e] == events;
    if Records(s, e, device, user, t.sessions.presence[(device, user)]) {
      k := |events| - 1;
    } else {
      k := PresenceWasRecorded(keyId, env, earlier, device, user);
      RecordedStep(keyId, env, earlier, e, k, device, user, s.sessions.presence[(device, user)]);
    }
  }

  // The whole heartbeat: its reading, its two queries in order, and its record.
  ghost predicate ReportedBy(keyId: Key -> Id, env: Env, events: seq<Event>, i: nat, j: nat, k: nat, device: Id,
                             user: Id, reading: int)
    requires i < j < k < |events|
  {
    && RecordedAt(keyId, env, events, k, device, user, reading)
    && var r := Report(device, Some(user), reading, true);
       exists thread :: AdmittedAt(keyId, env, events, i, thread, r) && LinkedAt(keyId, env, events, j, thread, r)
  }

  // Whatever presence is recorded comes from a heartbeat that found its device admitted
  // and then linked to the account, and was recorded after both; since then the device
  // has not departed.
  lemma PresenceIsReported(keyId: Key -> Id, env: Env, events: seq<Event>, device: Id, user: Id)
    returns (i: nat, j: nat, k: nat)
    requires (device, user) in Run(keyId, env, BOOT, events).sessions.presence
    ensures i < j < k < |events|
    ensures ReportedBy(keyId, env, events, i, j, k, device, user,
                       Run(keyId, env, BOOT, events).sessions.presence[(device, user)])
  {
    k := PresenceWasRecorded(keyId, env, events, device, user);
    i, j := ReportWasLinked(keyId, env, events[..k], events[k].thread);
    assert events[..k][..i] == events[..i] && events[..k][..j] == events[..j];
    var r := Report(device, Some(user), Run(keyId, env, BOOT, events).sessions.presence[(device, user)], true);
    assert AdmittedAt(keyId, env, events, i, events[k].thread, r);
    assert LinkedAt(keyId, env, events, j, events[k].thread, r);
  }

  // A Begin that succeeds finds that both of its ends had reported for their primary
  // account less than half a minute before its reading, and not departed since.
  lemma BegunEndsHadReported(keyId: Key -> Id, env: Env, events: seq<Event>, device: Id)
    returns (i: nat, j: nat, k: nat, user: Id, reading: int)
    requires var s := Run(keyId, env, BOOT, events);
             && s.locked.Some? && s.locked.value.call.BeginCall? && s.locked.value.now >= 0
             && Succeeds(env, s.sessions, s.locked.value)
             && device in {s.locked.value.call.sender, s.locked.value.call.target}
    ensures i < j < k < |events| && ReportedBy(keyId, env, events, i, j, k, device, user, reading)
    ensures var w := Run(keyId, env, BOOT, events).locked.value;
            && reading > w.now - 30_000_000_000
            && exists v :: v in w.views && device in v.devices && v.devices[device].user == user
  {
    var s := Run(keyId, env, BOOT, events);
    var w := s.locked.value;
    BeginSucceedsExactly(env, s.sessions, w);
    var v := if device == w.call.sender then w.views[1] else w.views[2];
    assert Contracts.Answering(v, s.sessions, device, w.now) && v in w.views;
    user := v.devices[device].user;
    reading := s.sessions.presence[(device, user)];
    i, j, k := PresenceIsReported(keyId, env, events, device, user);
  }
}
