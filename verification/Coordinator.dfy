// The whole coordinator as a machine: the store of StoreRuns, the sessions of
// SessionRules, and the signal hub, under one non-decreasing clock.
//
// One call at a time holds the lock on the sessions. It took its clock reading
// before it got the lock, and between its queries of the database anything may
// happen but to the sessions. A device's socket has one reader, which admits a
// signal by such a call and enqueues it in a later step; a device may connect and
// disconnect at any time, but not while its reader is at work. A heartbeat makes its
// two queries and records the device's presence in three separate steps.
module Coordinator {
  import opened Wrappers
  import opened Tables
  import opened Messages
  import opened Clock
  import opened SessionRules
  import opened AttemptGrammar
  import Runs = StoreRuns

  const QUEUE_LIMIT := 32

  datatype Message = SignalMessage(signal: Signal) | ControlMessage

  datatype Reader = Idle | Admitting | Holding(signal: Signal) | Leaving

  // One connected device: its outgoing queue and its reader.
  datatype Peer = Peer(outgoing: seq<Message>, reader: Reader)

  datatype Call =
    | BeginCall(sender: Id, target: Id, generation: nat, attempt: Id, network: Id)
    | RenewCall(sender: Id, pairId: Id, attempt: Id)
    | AdmitCall(sender: Id, signal: Signal)

  // The call that holds the lock: its clock reading, and what its queries found.
  datatype Working = Working(call: Call, now: int, views: Views)

  // What the machine remembers only for its properties: every attempt ever
  // begun with the signals it accepted, and every signal put into a queue.
  datatype History = History(initiator: Id, log: seq<Entry>)

  // A heartbeat that has found its device admitted, and perhaps linked to its account.
  datatype Report = Report(device: Id, user: Option<Id>, reading: int, linked: bool)

  datatype System = System(world: Runs.World, now: int, sessions: Sessions, locked: Option<Working>,
                           reporting: map<nat, Report>, peers: map<Id, Peer>, histories: map<Id, History>,
                           enqueued: seq<Signal>)

  datatype Event =
    | Elapse(now: int)
    | StoreStep(event: Runs.Event)
    | Lock(call: Call, reading: int)
    | Look
    | Unlock
    | EndAttempt(sender: Id, pairId: Id, attempt: Id)
    | Beat(thread: nat, device: Id, user: Option<Id>, reading: int)
    | CheckLink(thread: nat)
    | RecordBeat(thread: nat)
    | Connect(device: Id)
    | Disconnect(device: Id)
    | Enqueue(device: Id, fits: bool)
    | SendControl(device: Id)
    | Drain(device: Id)

  const BOOT := System(Runs.START, 0, NO_SESSIONS, None, map[], map[], map[], [])

  function Stored(s: System): (db: Db) { s.world.db }

  function Reads(call: Call): (n: nat) {
    match call
    case BeginCall(_, _, _, _, _) => BEGIN_READS
    case RenewCall(_, _, _) => RENEW_READS
    case AdmitCall(_, _) => ADMIT_READS
  }

  predicate Complete(w: Working) { |w.views| == Reads(w.call) }

  // The sessions the call leaves, and whether it succeeds.
  function Outcome(env: Env, s: Sessions, w: Working): (r: (Sessions, bool))
    requires Complete(w)
  {
    match w.call
    case BeginCall(sender, target, generation, attempt, network) =>
      var r := Begin(env, w.views, s, sender, target, generation, w.now, attempt, network);
      (r.0, r.1.Success?)
    case RenewCall(sender, pairId, attempt) =>
      var r := Renew(env, w.views, s, sender, pairId, attempt, w.now);
      (r.0, r.1.Success?)
    case AdmitCall(sender, signal) =>
      var r := Admit(env, w.views, s, sender, signal, w.now);
      (r.0, r.1.Success?)
  }

  predicate Succeeds(env: Env, s: Sessions, w: Working) {
    Complete(w) && Outcome(env, s, w).1
  }

  // ---- the steps ----

  function WithReader(s: System, device: Id, reader: Reader): (t: System)
    requires device in s.peers
  {
    s.(peers := s.peers[device := s.peers[device].(reader := reader)])
  }

  // hub.send: the queue of a connected peer with room for one more message.
  function Sent(peers: map<Id, Peer>, to: Id, message: Message): (r: Option<map<Id, Peer>>) {
    if to !in peers || |peers[to].outgoing| >= QUEUE_LIMIT then None
    else Some(peers[to := peers[to].(outgoing := peers[to].outgoing + [message])])
  }

  // A new attempt begins under an id never drawn before, and a reader admits one
  // signal at a time.
  predicate MayLock(s: System, call: Call) {
    match call
    case BeginCall(_, _, _, attempt, _) => attempt !in s.histories
    case RenewCall(_, _, _) => true
    case AdmitCall(device, _) => device in s.peers && s.peers[device].reader.Idle?
  }

  function DoLock(s: System, call: Call, reading: int): (t: System) {
    if s.locked.Some? || reading > s.now || !MayLock(s, call) then s
    else
      var locked := s.(locked := Some(Working(call, reading, [])));
      if call.AdmitCall? then WithReader(locked, call.sender, Admitting) else locked
  }

  function DoLook(s: System): (t: System) {
    if s.locked.None? || Complete(s.locked.value) then s
    else s.(locked := Some(s.locked.value.(views := s.locked.value.views + [Stored(s)])))
  }

  // The call ends: a begun attempt and an accepted signal are remembered, and the
  // reader of a refused signal leaves.
  function DoUnlock(env: Env, s: System): (t: System) {
    if s.locked.None? || !Complete(s.locked.value) then s
    else
      var w := s.locked.value;
      var ended := s.(locked := None, sessions := Outcome(env, s.sessions, w).0);
      match w.call
      case BeginCall(sender, _, _, attempt, _) =>
        if Succeeds(env, s.sessions, w)
        then ended.(histories := s.histories[attempt := History(sender, [])]) else ended
      case RenewCall(_, _, _) => ended
      case AdmitCall(device, signal) =>
        if device !in s.peers then s.(locked := None)
        else if !Succeeds(env, s.sessions, w) then WithReader(ended, device, Leaving)
        else Remembering(WithReader(ended, device, Holding(signal)), device, signal)
  }

  function Remembering(s: System, device: Id, signal: Signal): (t: System) {
    if signal.attemptId !in s.histories then s
    else
      var h := s.histories[signal.attemptId];
      s.(histories := s.histories[signal.attemptId := h.(log := h.log + [Entry(device, signal)])])
  }

  // A held signal enters its recipient's queue, or its sender leaves: when it does
  // not fit a control message, or the recipient is away or full.
  function DoEnqueue(s: System, device: Id, fits: bool): (t: System) {
    if device !in s.peers || !s.peers[device].reader.Holding? then s
    else
      var signal := s.peers[device].reader.signal;
      var sent := if fits then Sent(s.peers, signal.toDeviceId, SignalMessage(signal)) else None;
      if sent.None? then WithReader(s, device, Leaving)
      else WithReader(s.(peers := sent.value, enqueued := s.enqueued + [signal]), device, Idle)
  }

  // A heartbeat for an account goes on when its device is linked to the account, and
  // once its queries have passed it takes the lock to record what it saw.
  function DoCheckLink(s: System, thread: nat): (t: System) {
    if thread !in s.reporting || s.reporting[thread].linked then s
    else
      var r := s.reporting[thread];
      if r.user.Some? && LinkedTo(Stored(s), r.device, r.user.value)
      then s.(reporting := s.reporting[thread := r.(linked := true)])
      else s.(reporting := s.reporting - {thread})
  }

  function DoRecordBeat(s: System, thread: nat): (t: System) {
    if thread !in s.reporting || !s.reporting[thread].linked || s.locked.Some? then s
    else
      var r := s.reporting[thread];
      s.(sessions := Record(s.sessions, r.device, r.user, r.reading).0, reporting := s.reporting - {thread})
  }

  predicate MayLeave(s: System, device: Id) {
    s.locked.None? && device in s.peers && (s.peers[device].reader.Idle? || s.peers[device].reader.Leaving?)
  }

  function DoConnect(s: System, device: Id): (t: System) {
    if device in s.peers then s else s.(peers := s.peers[device := Peer([], Idle)])
  }

  function DoDisconnect(s: System, device: Id): (t: System) {
    if MayLeave(s, device)
    then s.(peers := s.peers - {device}, sessions := Offline(s.sessions, device, None)) else s
  }

  function DoSendControl(s: System, device: Id): (t: System) {
    var sent := Sent(s.peers, device, ControlMessage);
    if sent.Some? then s.(peers := sent.value) else s
  }

  // The first message of a queue goes out.
  function DoDrain(s: System, device: Id): (t: System) {
    if device in s.peers && s.peers[device].outgoing != []
    then s.(peers := s.peers[device := s.peers[device].(outgoing := s.peers[device].outgoing[1..])])
    else s
  }

  ghost function Exec(keyId: Key -> Id, env: Env, s: System, e: Event): (t: System) {
    match e
    case Elapse(now) =>
      if now >= s.now then s.(now := now, world := Runs.Exec(keyId, s.world, Runs.Tick(Unix(now)))) else s
    case StoreStep(event) => if event.Tick? then s else s.(world := Runs.Exec(keyId, s.world, event))
    case Lock(call, reading) => DoLock(s, call, reading)
    case Look => DoLook(s)
    case Unlock => DoUnlock(env, s)
    case EndAttempt(sender, pairId, attempt) =>
      if s.locked.None? then s.(sessions := End(s.sessions, sender, pairId, attempt).0) else s
    case Beat(thread, device, user, reading) =>
      if thread !in s.reporting && reading <= s.now && Admitted(Stored(s), device)
      then s.(reporting := s.reporting[thread := Report(device, user, reading, user.None?)]) else s
    case CheckLink(thread) => DoCheckLink(s, thread)
    case RecordBeat(thread) => DoRecordBeat(s, thread)
    case Connect(device) => DoConnect(s, device)
    case Disconnect(device) => DoDisconnect(s, device)
    case Enqueue(device, fits) => DoEnqueue(s, device, fits)
    case SendControl(device) => DoSendControl(s, device)
    case Drain(device) => DoDrain(s, device)
  }

  ghost function Run(keyId: Key -> Id, env: Env, s: System, events: seq<Event>): (t: System) {
    if events == [] then s
    else Exec(keyId, env, Run(keyId, env, s, events[..|events| - 1]), events[|events| - 1])
  }

  // What the sessions are once the call has ended.
  lemma UnlockedSessions(env: Env, s: System)
    requires s.locked.Some? && Complete(s.locked.value)
    ensures DoUnlock(env, s).sessions
            == if s.locked.value.call.AdmitCall? && s.locked.value.call.sender !in s.peers then s.sessions
               else Outcome(env, s.sessions, s.locked.value).0
  {
  }

  // ---- the lock ----

  // While a call holds the lock, only its own end changes the sessions.
  lemma LockedSessionsAreFrozen(keyId: Key -> Id, env: Env, s: System, e: Event)
    requires s.locked.Some? && !e.Unlock?
    ensures var t := Exec(keyId, env, s, e);
            && t.sessions == s.sessions && t.locked.Some?
            && t.locked.value == s.locked.value.(views := t.locked.value.views)
            && s.locked.value.views <= t.locked.value.views
  {
  }

  ghost function Looks(s: System, n: nat): (t: System) {
    if n == 0 then s else DoLook(Looks(s, n - 1))
  }

  // A call with nothing between its queries sees one state of the database.
  lemma {:induction false} UninterruptedLooks(s: System, n: nat)
    requires s.locked.Some? && s.locked.value.views == [] && n <= Reads(s.locked.value.call)
    ensures Looks(s, n) == s.(locked := Some(s.locked.value.(views := AtOnce(Stored(s), n))))
  {
    if n == 0 {
      assert AtOnce(Stored(s), 0) == [];
    } else {
      UninterruptedLooks(s, n - 1);
      assert AtOnce(Stored(s), n - 1) + [Stored(s)] == AtOnce(Stored(s), n);
    }
  }

  // ---- the invariant of sessions ----

  // Each attempt is stored under its target, joins two different devices, is
  // known to the histories, remembers its log, and its lease ends within a
  // minute of the clock.
  ghost predicate AttemptHolds(env: Env, histories: map<Id, History>, now: int, k: Id, a: Attempt) {
    && a.lease.toDeviceId == k && a.lease.pairId == k && a.lease.fromDeviceId != k
    && a.lease.expiresAt <= Unix(now) + LEASE_SECONDS
    && a.lease.attemptId in histories
    && histories[a.lease.attemptId].initiator == a.lease.fromDeviceId
    && Remembers(env, a, histories[a.lease.attemptId].log)
  }

  ghost predicate AttemptsHold(env: Env, attempts: map<Id, Attempt>, histories: map<Id, History>, now: int) {
    forall k :: k in attempts ==> AttemptHolds(env, histories, now, k, attempts[k])
  }

  predicate Disjoint(a: Lease, b: Lease) {
    a.attemptId != b.attemptId && !Links(a, b.fromDeviceId, b.toDeviceId)
  }

  // No two attempts share an id or join the same two devices.
  ghost predicate AttemptsDiffer(attempts: map<Id, Attempt>) {
    forall j, k :: j in attempts && k in attempts && j != k ==> Disjoint(attempts[j].lease, attempts[k].lease)
  }

  ghost predicate HistoriesHold(env: Env, histories: map<Id, History>) {
    forall id :: id in histories ==>
      |histories[id].log| <= MAX_SIGNALS && Grammar(env, histories[id].initiator, histories[id].log)
  }

  ghost predicate SessionsHold(env: Env, attempts: map<Id, Attempt>, histories: map<Id, History>, now: int) {
    AttemptsHold(env, attempts, histories, now) && AttemptsDiffer(attempts) && HistoriesHold(env, histories)
  }

  // Dropping attempts keeps the invariant, and so does time passing.
  lemma FewerAttempts(env: Env, a: map<Id, Attempt>, b: map<Id, Attempt>, histories: map<Id, History>,
                      now: int, later: int)
    requires SessionsHold(env, a, histories, now) && now <= later
    requires forall k :: k in b ==> k in a && b[k] == a[k]
    ensures SessionsHold(env, b, histories, later)
  {
  }

  lemma InsertAttempt(env: Env, attempts: map<Id, Attempt>, histories: map<Id, History>, now: int, k: Id, lease: Lease)
    requires SessionsHold(env, attempts, histories, now)
    requires lease.attemptId !in histories && !Busy(attempts, lease.fromDeviceId, k)
    requires lease.toDeviceId == k && lease.pairId == k && lease.fromDeviceId != k
    requires lease.expiresAt <= Unix(now) + LEASE_SECONDS
    ensures SessionsHold(env, attempts[k := Opening(lease)],
                         histories[lease.attemptId := History(lease.fromDeviceId, [])], now)
  {
  }

  // What a successful Begin stores.
  lemma BegunAttempt(env: Env, s: Sessions, w: Working)
    requires w.call.BeginCall? && Succeeds(env, s, w)
    ensures var BeginCall(sender, target, generation, attempt, network) := w.call;
            var t := Outcome(env, s, w).0;
            && target in t.attempts && sender != target
            && t.attempts == Unexpired(s.attempts, w.now)[target := t.attempts[target]]
            && !Busy(Unexpired(s.attempts, w.now), sender, target)
            && var lease := t.attempts[target].lease;
               && t.attempts[target] == Opening(lease)
               && lease.attemptId == attempt && lease.fromDeviceId == sender
               && lease.toDeviceId == target && lease.pairId == target
               && lease.expiresAt == Unix(w.now) + LEASE_SECONDS
  {
  }

  // What a Begin that fails leaves: at most the expired attempts are gone.
  lemma RefusedBegin(env: Env, s: Sessions, w: Working)
    requires w.call.BeginCall? && Complete(w) && !Succeeds(env, s, w)
    ensures Outcome(env, s, w).0.attempts in {s.attempts, Unexpired(s.attempts, w.now)}
  {
  }

  lemma BeginKeepsSessions(env: Env, s: System)
    requires s.locked.Some? && s.locked.value.call.BeginCall? && Complete(s.locked.value)
    requires s.locked.value.now <= s.now && s.locked.value.call.attempt !in s.histories
    requires SessionsHold(env, s.sessions.attempts, s.histories, s.now)
    ensures var t := DoUnlock(env, s); SessionsHold(env, t.sessions.attempts, t.histories, s.now)
  {
    UnlockedSessions(env, s);
    var w := s.locked.value;
    var purged := Unexpired(s.sessions.attempts, w.now);
    FewerAttempts(env, s.sessions.attempts, purged, s.histories, s.now, s.now);
    if Succeeds(env, s.sessions, w) {
      BegunAttempt(env, s.sessions, w);
      InsertAttempt(env, purged, s.histories, s.now, w.call.target,
                    Outcome(env, s.sessions, w).0.attempts[w.call.target].lease);
    } else {
      RefusedBegin(env, s.sessions, w);
    }
  }

  // What Renew leaves: one lease with a new deadline and signature, or nothing new.
  lemma RenewedAttempt(env: Env, s: Sessions, w: Working)
    requires w.call.RenewCall? && Complete(w)
    ensures var k, t := w.call.pairId, Outcome(env, s, w).0;
            if Succeeds(env, s, w)
            then && k in s.attempts && s.attempts[k].lease.attemptId == w.call.attempt
                 && t.attempts == s.attempts[k := s.attempts[k].(lease := Extended(env, s.attempts[k].lease, w.now))]
            else t == s
  {
  }

  lemma RenewKeepsSessions(env: Env, s: System)
    requires s.locked.Some? && s.locked.value.call.RenewCall? && Complete(s.locked.value)
    requires s.locked.value.now <= s.now
    requires SessionsHold(env, s.sessions.attempts, s.histories, s.now)
    ensures var t := DoUnlock(env, s); SessionsHold(env, t.sessions.attempts, t.histories, s.now)
  {
    var w, k := s.locked.value, s.locked.value.call.pairId;
    UnlockedSessions(env, s);
    RenewedAttempt(env, s.sessions, w);
    assert DoUnlock(env, s).histories == s.histories;
    if Succeeds(env, s.sessions, w) {
      LaterDeadline(env, s.sessions.attempts, s.histories, s.now, k,
                    Extended(env, s.sessions.attempts[k].lease, w.now));
    }
  }

  // Replacing a lease by one that differs in its deadline and signature only.
  lemma LaterDeadline(env: Env, attempts: map<Id, Attempt>, histories: map<Id, History>, now: int, k: Id, lease: Lease)
    requires SessionsHold(env, attempts, histories, now) && k in attempts
    requires lease == attempts[k].lease.(expiresAt := lease.expiresAt, signature := lease.signature)
    requires lease.expiresAt <= Unix(now) + LEASE_SECONDS
    ensures SessionsHold(env, attempts[k := attempts[k].(lease := lease)], histories, now)
  {
    var a, h := attempts[k], histories[lease.attemptId];
    assert AttemptHolds(env, histories, now, k, a);
    ReplaceAttempt(env, attempts, histories, now, k, a.(lease := lease), h.log);
    assert histories[lease.attemptId := History(lease.fromDeviceId, h.log)] == histories;
  }

  // Replacing an attempt by one with the same id and ends, and the log it remembers.
  lemma ReplaceAttempt(env: Env, attempts: map<Id, Attempt>, histories: map<Id, History>, now: int, k: Id,
                       a: Attempt, log: seq<Entry>)
    requires SessionsHold(env, attempts, histories, now) && k in attempts
    requires a.lease.attemptId == attempts[k].lease.attemptId && a.lease.pairId == k && a.lease.toDeviceId == k
    requires a.lease.fromDeviceId == attempts[k].lease.fromDeviceId
    requires a.lease.expiresAt <= Unix(now) + LEASE_SECONDS
    requires Remembers(env, a, log) && Grammar(env, a.lease.fromDeviceId, log)
    ensures SessionsHold(env, attempts[k := a], histories[a.lease.attemptId := History(a.lease.fromDeviceId, log)], now)
  {
    var changed := histories[a.lease.attemptId := History(a.lease.fromDeviceId, log)];
    assert AttemptHolds(env, histories, now, k, attempts[k]);
    assert AttemptHolds(env, changed, now, k, a);
    ReplacedDiffers(attempts, k, a);
    forall j | j in attempts && j != k ensures AttemptHolds(env, changed, now, j, attempts[j]) {
      assert AttemptHolds(env, histories, now, j, attempts[j]);
      assert Disjoint(attempts[j].lease, attempts[k].lease);
    }
  }

  lemma ReplacedDiffers(attempts: map<Id, Attempt>, k: Id, a: Attempt)
    requires AttemptsDiffer(attempts) && k in attempts
    requires a.lease.attemptId == attempts[k].lease.attemptId
    requires a.lease.fromDeviceId == attempts[k].lease.fromDeviceId
    requires a.lease.toDeviceId == attempts[k].lease.toDeviceId
    ensures AttemptsDiffer(attempts[k := a])
  {
    forall j | j in attempts && j != k
      ensures Disjoint(attempts[j].lease, a.lease) && Disjoint(a.lease, attempts[j].lease)
    {
      assert Disjoint(attempts[j].lease, attempts[k].lease) && Disjoint(attempts[k].lease, attempts[j].lease);
    }
  }

  // The attempt an accepted signal belongs to, and what becomes of it.
  lemma AcceptedAttempt(env: Env, s: Sessions, w: Working)
    requires w.call.AdmitCall? && Succeeds(env, s, w)
    ensures var AdmitCall(device, signal) := w.call;
            && signal.pairId in s.attempts && device in w.views[3].devices
            && var a, key := s.attempts[signal.pairId], w.views[3].devices[device].publicKey;
               && a.lease.attemptId == signal.attemptId
               && Accept(env, a, device, key, signal, w.now).Success?
               && Outcome(env, s, w).0
                  == s.(attempts := s.attempts[signal.pairId := Accept(env, a, device, key, signal, w.now).value])
  {
  }

  lemma RefusedAdmit(env: Env, s: Sessions, w: Working)
    requires w.call.AdmitCall? && Complete(w) && !Succeeds(env, s, w)
    ensures Outcome(env, s, w).0 == s
  {
  }

  lemma AdmitKeepsSessions(env: Env, s: System)
    requires s.locked.Some? && s.locked.value.call.AdmitCall? && Complete(s.locked.value)
    requires Lawful(env) && SessionsHold(env, s.sessions.attempts, s.histories, s.now)
    ensures var t := DoUnlock(env, s); SessionsHold(env, t.sessions.attempts, t.histories, s.now)
  {
    UnlockedSessions(env, s);
    var w := s.locked.value;
    var AdmitCall(device, signal) := w.call;
    if Succeeds(env, s.sessions, w) {
      AcceptedAttempt(env, s.sessions, w);
      var a := s.sessions.attempts[signal.pairId];
      var log, key := s.histories[a.lease.attemptId].log, w.views[3].devices[device].publicKey;
      assert AttemptHolds(env, s.histories, s.now, signal.pairId, a);
      AcceptanceFollowsGrammar(env, a, log, device, key, signal, w.now);
      ReplaceAttempt(env, s.sessions.attempts, s.histories, s.now, signal.pairId,
                     Accept(env, a, device, key, signal, w.now).value, log + [Entry(device, signal)]);
    } else {
      RefusedAdmit(env, s.sessions, w);
    }
  }
}
