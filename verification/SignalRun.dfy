// A run from the start in which a device dials another, its offer reaches the other's
// queue and the answer its own: the states the signal theorems speak of are reached.
module SignalRun {
  import opened Wrappers
  import opened Tables
  import opened Messages
  import opened Clock
  import opened SessionRules
  import opened AttemptGrammar
  import opened Coordinator
  import opened CoordinatorRuns
  import Runs = StoreRuns
  import PairRace

  ghost predicate Reached(keyId: Key -> Id, env: Env, s: System) {
    exists events: seq<Event> :: Run(keyId, env, BOOT, events) == s
  }

  lemma Then(keyId: Key -> Id, env: Env, s: System, e: Event)
    requires Reached(keyId, env, s)
    ensures Reached(keyId, env, Exec(keyId, env, s, e))
  {
    var events: seq<Event> :| Run(keyId, env, BOOT, events) == s;
    assert (events + [e])[..|events|] == events;
    assert Run(keyId, env, BOOT, events + [e]) == Exec(keyId, env, s, e);
  }

  // ---- every run of the store is one of the coordinator ----

  function Lifted(w: Runs.World): (s: System) {
    BOOT.(world := w, now := w.clock * SECOND)
  }

  lemma LiftedStep(keyId: Key -> Id, env: Env, w: Runs.World, e: Runs.Event)
    requires Reached(keyId, env, Lifted(w))
    ensures Reached(keyId, env, Lifted(Runs.Exec(keyId, w, e)))
  {
    var step := if e.Tick? then Elapse(e.clock * SECOND) else StoreStep(e);
    Then(keyId, env, Lifted(w), step);
    if e.Tick? {
      assert Unix(e.clock * SECOND) == e.clock;
      assert Exec(keyId, env, Lifted(w), step) == Lifted(Runs.Exec(keyId, w, e));
    } else {
      ClockStands(keyId, w, e);
      assert Exec(keyId, env, Lifted(w), step) == Lifted(Runs.Exec(keyId, w, e));
    }
  }

  // Whatever the store can reach alone, it reaches within the coordinator.
  lemma {:induction false} StoreRunsLift(keyId: Key -> Id, env: Env, events: seq<Runs.Event>)
    ensures Reached(keyId, env, Lifted(Runs.Run(keyId, Runs.START, events)))
  {
    if events == [] {
      assert Run(keyId, env, BOOT, []) == Lifted(Runs.START);
    } else {
      StoreRunsLift(keyId, env, events[..|events| - 1]);
      LiftedStep(keyId, env, Runs.Run(keyId, Runs.START, events[..|events| - 1]), events[|events| - 1]);
    }
  }

  // ---- the offer ----

  // An environment whose signatures all verify and whose payloads all decode.
  const TRUSTING := Env("service", m => "signature", (key, m, signature) => true, text => "hash",
                        payload => Some("v=0"), payload => None)

  const ATTEMPT := "cccccccccccc"
  const MESSAGE := "dddddddddddd"

  function OfferOf(a: Id, b: Id): (signal: Signal) {
    Signal(VERSION, Offer, MESSAGE, ATTEMPT, 1, a, b, b, 1, SIGNAL_SECONDS, "payload", "signature")
  }

  // Both machines online and connected.
  function Online(db: Db, a: Id, b: Id): (s: System) {
    Lifted(PairRace.Quiet(db)).(
      sessions := Sessions(map[], map[(a, "u") := 0, (b, "u") := 0], map[a := 0, b := 0]),
      peers := map[a := Peer([], Idle), b := Peer([], Idle)])
  }

  // What the run asks of its store.
  predicate Related(db: Db, a: Id, b: Id) {
    && a != b && ValidID(a) && ValidID(b)
    && Admitted(db, a) && Admitted(db, b) && db.devices[a].user == "u" && db.devices[b].user == "u"
    && (a, "u") in db.links && (b, "u") in db.links
    && Bound(db, "n", a) && Bound(db, "n", b) && SameNetwork(db, a, b)
  }

  // A heartbeat with nothing between its queries and what it records.
  lemma HeartbeatIsRecorded(keyId: Key -> Id, env: Env, s: System, device: Id)
    requires Reached(keyId, env, s) && s.reporting == map[] && s.locked.None? && s.now == 0
    requires Admitted(Stored(s), device) && LinkedTo(Stored(s), device, "u")
    ensures Reached(keyId, env, s.(sessions := Record(s.sessions, device, Some("u"), 0).0))
  {
    var asked := s.(reporting := map[0 := Report(device, Some("u"), 0, false)]);
    var ready := s.(reporting := map[0 := Report(device, Some("u"), 0, true)]);
    var beat := Beat(0, device, Some("u"), 0);
    assert Exec(keyId, env, s, beat) == asked;
    Then(keyId, env, s, beat);
    assert asked.reporting[0 := Report(device, Some("u"), 0, true)] == ready.reporting;
    assert Exec(keyId, env, asked, CheckLink(0)) == ready;
    Then(keyId, env, asked, CheckLink(0));
    assert ready.reporting - {0} == map[];
    assert Exec(keyId, env, ready, RecordBeat(0)) == s.(sessions := Record(s.sessions, device, Some("u"), 0).0);
    Then(keyId, env, ready, RecordBeat(0));
  }

  lemma Connected(keyId: Key -> Id, env: Env, db: Db, a: Id, b: Id)
    requires Reached(keyId, env, Lifted(PairRace.Quiet(db))) && Related(db, a, b)
    ensures Reached(keyId, env, Online(db, a, b))
  {
    var s0 := Lifted(PairRace.Quiet(db));
    var s1 := s0.(sessions := Sessions(map[], map[(a, "u") := 0], map[a := 0]));
    var s2 := s1.(sessions := Sessions(map[], map[(a, "u") := 0, (b, "u") := 0], map[a := 0, b := 0]));
    HeartbeatIsRecorded(keyId, env, s0, a);
    assert Record(s0.sessions, a, Some("u"), 0).0 == s1.sessions;
    HeartbeatIsRecorded(keyId, env, s1, b);
    assert Record(s1.sessions, b, Some("u"), 0).0 == s2.sessions;
    Then(keyId, env, s2, Connect(a));
    var s3 := s2.(peers := map[a := Peer([], Idle)]);
    assert Exec(keyId, env, s2, Connect(a)) == s3;
    Then(keyId, env, s3, Connect(b));
    assert Exec(keyId, env, s3, Connect(b)) == Online(db, a, b);
  }

  // A call that takes the lock, makes its queries with nothing in between and ends.
  lemma CallEnds(keyId: Key -> Id, env: Env, s: System, call: Call)
    requires Reached(keyId, env, s) && s.locked.None? && MayLock(s, call)
    ensures Reached(keyId, env, DoUnlock(env, Answering(s, call)))
  {
    var locked := DoLock(s, call, s.now);
    Then(keyId, env, s, Lock(call, s.now));
    assert Exec(keyId, env, s, Lock(call, s.now)) == locked;
    LookOn(keyId, env, locked, Reads(call));
    LockedLooks(s, call);
    Then(keyId, env, Answering(s, call), Unlock);
    assert Exec(keyId, env, Answering(s, call), Unlock) == DoUnlock(env, Answering(s, call));
  }

  lemma LockedLooks(s: System, call: Call)
    requires s.locked.None? && MayLock(s, call)
    ensures Looks(DoLock(s, call, s.now), Reads(call)) == Answering(s, call)
  {
    UninterruptedLooks(DoLock(s, call, s.now), Reads(call));
  }

  function Answering(s: System, call: Call): (t: System)
    requires MayLock(s, call)
  {
    var locked := s.(locked := Some(Working(call, s.now, AtOnce(Stored(s), Reads(call)))));
    if call.AdmitCall? then WithReader(locked, call.sender, Admitting) else locked
  }

  lemma {:induction false} LookOn(keyId: Key -> Id, env: Env, s: System, n: nat)
    requires Reached(keyId, env, s)
    ensures Reached(keyId, env, Looks(s, n))
  {
    if n > 0 {
      LookOn(keyId, env, s, n - 1);
      Then(keyId, env, Looks(s, n - 1), Look);
    }
  }

  function LeaseOf(a: Id, b: Id): (lease: Lease) {
    NewLease(TRUSTING, "u", "n", ATTEMPT, a, b, 1, 0)
  }

  function Dialled(db: Db, a: Id, b: Id): (s: System) {
    var s := Online(db, a, b);
    s.(sessions := s.sessions.(attempts := map[b := Opening(LeaseOf(a, b))]),
       histories := map[ATTEMPT := History(a, [])])
  }

  lemma Dial(keyId: Key -> Id, db: Db, a: Id, b: Id)
    requires Reached(keyId, TRUSTING, Online(db, a, b)) && Related(db, a, b)
    ensures Reached(keyId, TRUSTING, Dialled(db, a, b))
  {
    var s, call := Online(db, a, b), BeginCall(a, b, 1, ATTEMPT, "n");
    CallEnds(keyId, TRUSTING, s, call);
    DialBegins(db, a, b);
    assert DoUnlock(TRUSTING, Answering(s, call)) == Dialled(db, a, b);
  }

  lemma DialBegins(db: Db, a: Id, b: Id)
    requires Related(db, a, b)
    ensures Begin(TRUSTING, AtOnce(db, BEGIN_READS), Online(db, a, b).sessions, a, b, 1, 0, ATTEMPT, "n")
            == (Dialled(db, a, b).sessions, Success(LeaseOf(a, b)))
  {
    var s, v := Online(db, a, b).sessions, AtOnce(db, BEGIN_READS);
    assert Unreachable(v, s, a, b, 1, 0).None?;
    assert Unexpired(s.attempts, 0) == map[] && !Busy(map[], a, b);
  }

  // The offer accepted, and what the attempt remembers of it.
  function Offered(db: Db, a: Id, b: Id): (s: System) {
    var s := Dialled(db, a, b);
    s.(sessions := s.sessions.(attempts := map[b :=
         Attempt(LeaseOf(a, b), map[a := 1], map[a := "hash"], {MESSAGE}, 1)]),
       peers := s.peers[a := Peer([], Holding(OfferOf(a, b)))],
       histories := map[ATTEMPT := History(a, [Entry(a, OfferOf(a, b))])])
  }

  lemma OfferIsAccepted(db: Db, a: Id, b: Id)
    requires Related(db, a, b)
    ensures Accept(TRUSTING, Opening(LeaseOf(a, b)), a, db.devices[a].publicKey, OfferOf(a, b), 0)
            == Success(Attempt(LeaseOf(a, b), map[a := 1], map[a := "hash"], {MESSAGE}, 1))
  {
    var attempt, signal := Opening(LeaseOf(a, b)), OfferOf(a, b);
    assert ValidPayload(TRUSTING, signal) && InScope(signal, ScopeOf(attempt, a, b));
    assert VerifySignal(TRUSTING, db.devices[a].publicKey, signal, ScopeOf(attempt, a, b), 0).Success?;
    assert {} + {MESSAGE} == {MESSAGE};
  }

  lemma OfferAdmits(db: Db, a: Id, b: Id)
    requires Related(db, a, b)
    ensures Admit(TRUSTING, AtOnce(db, ADMIT_READS), Dialled(db, a, b).sessions, a, OfferOf(a, b), 0)
            == (Offered(db, a, b).sessions, Success(()))
  {
    var s, v, signal := Dialled(db, a, b).sessions, AtOnce(db, ADMIT_READS), OfferOf(a, b);
    assert Authorize(v, s, a, b, ATTEMPT, 0) == Success(Opening(LeaseOf(a, b)));
    OfferIsAccepted(db, a, b);
    var accepted := Attempt(LeaseOf(a, b), map[a := 1], map[a := "hash"], {MESSAGE}, 1);
    assert s.attempts[b := accepted] == map[b := accepted];
  }

  // How the end of a successful Admit leaves the coordinator.
  lemma AdmitUnlocks(env: Env, s: System, device: Id, signal: Signal, sessions: Sessions)
    requires s.locked.Some? && s.locked.value.call == AdmitCall(device, signal) && device in s.peers
    requires Succeeds(env, s.sessions, s.locked.value) && Outcome(env, s.sessions, s.locked.value).0 == sessions
    ensures DoUnlock(env, s)
            == Remembering(WithReader(s.(locked := None, sessions := sessions), device, Holding(signal)),
                           device, signal)
  {
  }

  lemma OfferIsHeld(db: Db, a: Id, b: Id)
    requires Related(db, a, b)
    ensures var s, call := Dialled(db, a, b), AdmitCall(a, OfferOf(a, b));
            MayLock(s, call) && DoUnlock(TRUSTING, Answering(s, call)) == Offered(db, a, b)
  {
    var s, call := Dialled(db, a, b), AdmitCall(a, OfferOf(a, b));
    var t, sessions := Answering(s, call), Offered(db, a, b).sessions;
    OfferAdmits(db, a, b);
    assert t.locked.value == Working(call, 0, AtOnce(db, ADMIT_READS)) && t.sessions == s.sessions;
    assert Succeeds(TRUSTING, t.sessions, t.locked.value);
    assert Outcome(TRUSTING, t.sessions, t.locked.value).0 == sessions;
    AdmitUnlocks(TRUSTING, t, a, OfferOf(a, b), sessions);
    OfferIsRemembered(db, a, b);
  }

  lemma OfferIsRemembered(db: Db, a: Id, b: Id)
    requires Related(db, a, b)
    ensures var s, call, signal := Dialled(db, a, b), AdmitCall(a, OfferOf(a, b)), OfferOf(a, b);
            var t := Answering(s, call).(locked := None, sessions := Offered(db, a, b).sessions);
            Remembering(WithReader(t, a, Holding(signal)), a, signal) == Offered(db, a, b)
  {
    var s, signal := Dialled(db, a, b), OfferOf(a, b);
    var h := History(a, [Entry(a, signal)]);
    assert [] + [Entry(a, signal)] == [Entry(a, signal)];
    assert s.histories[ATTEMPT := h] == map[ATTEMPT := h];
    var held := Peer([], Holding(signal));
    assert s.peers[a := Peer([], Admitting)][a := held] == s.peers[a := held];
  }

  lemma OfferIsAdmitted(keyId: Key -> Id, db: Db, a: Id, b: Id)
    requires Reached(keyId, TRUSTING, Dialled(db, a, b)) && Related(db, a, b)
    ensures Reached(keyId, TRUSTING, Offered(db, a, b))
  {
    OfferIsHeld(db, a, b);
    CallEnds(keyId, TRUSTING, Dialled(db, a, b), AdmitCall(a, OfferOf(a, b)));
  }

  // The offer in the target's queue.
  function Carried(db: Db, a: Id, b: Id): (s: System) {
    var s := Offered(db, a, b);
    s.(peers := s.peers[a := Peer([], Idle)][b := Peer([SignalMessage(OfferOf(a, b))], Idle)],
       enqueued := [OfferOf(a, b)])
  }

  lemma OfferIsCarried(keyId: Key -> Id, db: Db, a: Id, b: Id)
    requires Reached(keyId, TRUSTING, Offered(db, a, b)) && Related(db, a, b)
    ensures Reached(keyId, TRUSTING, Carried(db, a, b))
  {
    var s := Offered(db, a, b);
    OfferIsEnqueued(db, a, b);
    assert Exec(keyId, TRUSTING, s, Enqueue(a, true)) == DoEnqueue(s, a, true);
    Then(keyId, TRUSTING, s, Enqueue(a, true));
  }

  lemma OfferIsEnqueued(db: Db, a: Id, b: Id)
    requires Related(db, a, b)
    ensures DoEnqueue(Offered(db, a, b), a, true) == Carried(db, a, b)
  {
    var s, signal := Offered(db, a, b), OfferOf(a, b);
    var full, free := Peer([SignalMessage(signal)], Idle), Peer([], Idle);
    assert s.peers[b].outgoing + [SignalMessage(signal)] == full.outgoing;
    assert Sent(s.peers, b, SignalMessage(signal)) == Some(s.peers[b := full]);
    assert s.peers[b := full][a := free] == s.peers[a := free][b := full];
  }

  // ---- the answer ----

  const REPLY := "eeeeeeeeeeee"

  function AnswerOf(a: Id, b: Id): (signal: Signal) {
    Signal(VERSION, Answer, REPLY, ATTEMPT, 1, b, a, b, 1, SIGNAL_SECONDS, "payload", "signature")
  }

  function BothDescribed(a: Id, b: Id): (attempt: Attempt) {
    Attempt(LeaseOf(a, b), map[a := 1, b := 1], map[a := "hash", b := "hash"], {MESSAGE, REPLY}, 2)
  }

  // The answer accepted, and what the attempt remembers of it.
  function Replied(db: Db, a: Id, b: Id): (s: System) {
    var s := Carried(db, a, b);
    s.(sessions := s.sessions.(attempts := map[b := BothDescribed(a, b)]),
       peers := s.peers[b := s.peers[b].(reader := Holding(AnswerOf(a, b)))],
       histories := map[ATTEMPT := History(a, [Entry(a, OfferOf(a, b)), Entry(b, AnswerOf(a, b))])])
  }

  function OfferDescribed(a: Id, b: Id): (attempt: Attempt) {
    Attempt(LeaseOf(a, b), map[a := 1], map[a := "hash"], {MESSAGE}, 1)
  }

  lemma AnswerVerifies(key: Key, a: Id, b: Id)
    requires a != b && ValidID(a) && ValidID(b)
    ensures VerifySignal(TRUSTING, key, AnswerOf(a, b), ScopeOf(OfferDescribed(a, b), b, b), 0).Success?
  {
    assert ValidPayload(TRUSTING, AnswerOf(a, b)) && InScope(AnswerOf(a, b), ScopeOf(OfferDescribed(a, b), b, b));
  }

  lemma AnswerIsAccepted(key: Key, a: Id, b: Id)
    requires a != b && ValidID(a) && ValidID(b)
    ensures Accept(TRUSTING, OfferDescribed(a, b), b, key, AnswerOf(a, b), 0) == Success(BothDescribed(a, b))
  {
    var attempt, signal := OfferDescribed(a, b), AnswerOf(a, b);
    AnswerVerifies(key, a, b);
    assert MESSAGE != REPLY && {MESSAGE} + {REPLY} == {MESSAGE, REPLY};
    assert AdmitSdp(TRUSTING, attempt, b, signal)
           == Success(attempt.(sdpHash := map[a := "hash", b := "hash"]));
  }

  lemma AnswerIsAuthorized(db: Db, a: Id, b: Id)
    requires Related(db, a, b)
    ensures Authorize(AtOnce(db, ADMIT_READS), Carried(db, a, b).sessions, b, b, ATTEMPT, 0)
            == Success(OfferDescribed(a, b))
  {
    var k :| k in db.bindings && k.1 == a && db.bindings[k] && Bound(db, k.0, b);
    assert (k.0, b) in db.bindings && Bound(db, k.0, b) && SameNetwork(db, b, b);
  }

  lemma AnswerAdmits(db: Db, a: Id, b: Id)
    requires Related(db, a, b)
    ensures Admit(TRUSTING, AtOnce(db, ADMIT_READS), Carried(db, a, b).sessions, b, AnswerOf(a, b), 0)
            == (Replied(db, a, b).sessions, Success(()))
  {
    var s := Carried(db, a, b).sessions;
    AnswerIsAuthorized(db, a, b);
    AnswerIsAccepted(db.devices[b].publicKey, a, b);
    assert s.attempts[b := BothDescribed(a, b)] == map[b := BothDescribed(a, b)];
  }

  lemma AnswerIsHeld(db: Db, a: Id, b: Id)
    requires Related(db, a, b)
    ensures var s, call := Carried(db, a, b), AdmitCall(b, AnswerOf(a, b));
            MayLock(s, call) && DoUnlock(TRUSTING, Answering(s, call)) == Replied(db, a, b)
  {
    var s, call := Carried(db, a, b), AdmitCall(b, AnswerOf(a, b));
    var t, sessions := Answering(s, call), Replied(db, a, b).sessions;
    AnswerAdmits(db, a, b);
    assert t.locked.value == Working(call, 0, AtOnce(db, ADMIT_READS)) && t.sessions == s.sessions;
    assert Succeeds(TRUSTING, t.sessions, t.locked.value);
    assert Outcome(TRUSTING, t.sessions, t.locked.value).0 == sessions;
    AdmitUnlocks(TRUSTING, t, b, AnswerOf(a, b), sessions);
    AnswerIsRemembered(db, a, b);
  }

  lemma AnswerIsRemembered(db: Db, a: Id, b: Id)
    requires Related(db, a, b)
    ensures var s, call, signal := Carried(db, a, b), AdmitCall(b, AnswerOf(a, b)), AnswerOf(a, b);
            var t := Answering(s, call).(locked := None, sessions := Replied(db, a, b).sessions);
            Remembering(WithReader(t, b, Holding(signal)), b, signal) == Replied(db, a, b)
  {
    var s, signal := Carried(db, a, b), AnswerOf(a, b);
    var h := History(a, [Entry(a, OfferOf(a, b)), Entry(b, signal)]);
    assert [Entry(a, OfferOf(a, b))] + [Entry(b, signal)] == h.log;
    assert s.histories[ATTEMPT := h] == map[ATTEMPT := h];
    var held := s.peers[b].(reader := Holding(signal));
    assert s.peers[b := s.peers[b].(reader := Admitting)][b := held] == s.peers[b := held];
  }

  lemma AnswerIsAdmitted(keyId: Key -> Id, db: Db, a: Id, b: Id)
    requires Reached(keyId, TRUSTING, Carried(db, a, b)) && Related(db, a, b)
    ensures Reached(keyId, TRUSTING, Replied(db, a, b))
  {
    AnswerIsHeld(db, a, b);
    CallEnds(keyId, TRUSTING, Carried(db, a, b), AdmitCall(b, AnswerOf(a, b)));
  }

  // ---- both have arrived ----

  // The attempt is stored, the offer and the answer are in its log, and each is in the
  // queue of the other end.
  predicate Arrived(s: System, a: Id, b: Id) {
    && b in s.sessions.attempts && s.sessions.attempts[b] == BothDescribed(a, b)
    && s.histories == map[ATTEMPT := History(a, [Entry(a, OfferOf(a, b)), Entry(b, AnswerOf(a, b))])]
    && s.enqueued == [OfferOf(a, b), AnswerOf(a, b)]
    && a in s.peers && s.peers[a] == Peer([SignalMessage(AnswerOf(a, b))], Idle)
    && b in s.peers && s.peers[b] == Peer([SignalMessage(OfferOf(a, b))], Idle)
  }

  lemma AnswerArrives(db: Db, a: Id, b: Id)
    requires Related(db, a, b)
    ensures Arrived(DoEnqueue(Replied(db, a, b), b, true), a, b)
  {
  }

  // One machine of an account dials another. Its offer is accepted, logged and put
  // into the other's queue, and so is the other's answer, into its own.
  lemma AnOfferIsAnswered(keyId: Key -> Id, k: Key, l: Key)
    requires keyId(k) != keyId(l) && ValidID(keyId(k)) && ValidID(keyId(l))
    ensures Lawful(TRUSTING)
    ensures exists events: seq<Event> :: Arrived(Run(keyId, TRUSTING, BOOT, events), keyId(k), keyId(l))
  {
    var a, b := keyId(k), keyId(l);
    var db := PairRace.TwoMachines(a, b, k, l);
    MachinesAreRelated(keyId, k, l);
    Connected(keyId, TRUSTING, db, a, b);
    Dial(keyId, db, a, b);
    OfferIsAdmitted(keyId, db, a, b);
    OfferIsCarried(keyId, db, a, b);
    AnswerIsAdmitted(keyId, db, a, b);
    AnswerArrives(db, a, b);
    Enqueued(keyId, Replied(db, a, b), b, a, b);
  }

  lemma Enqueued(keyId: Key -> Id, s: System, device: Id, a: Id, b: Id)
    requires Reached(keyId, TRUSTING, s) && Arrived(DoEnqueue(s, device, true), a, b)
    ensures exists events: seq<Event> :: Arrived(Run(keyId, TRUSTING, BOOT, events), a, b)
  {
    Then(keyId, TRUSTING, s, Enqueue(device, true));
    assert Exec(keyId, TRUSTING, s, Enqueue(device, true)) == DoEnqueue(s, device, true);
    var events: seq<Event> :| Run(keyId, TRUSTING, BOOT, events) == DoEnqueue(s, device, true);
  }

  lemma MachinesAreRelated(keyId: Key -> Id, k: Key, l: Key)
    requires keyId(k) != keyId(l) && ValidID(keyId(k)) && ValidID(keyId(l))
    ensures var db := PairRace.TwoMachines(keyId(k), keyId(l), k, l);
            && Related(db, keyId(k), keyId(l)) && Reached(keyId, TRUSTING, Lifted(PairRace.Quiet(db)))
  {
    var a, b := keyId(k), keyId(l);
    var db := PairRace.TwoMachines(a, b, k, l);
    PairRace.SecondJoins(keyId, k, l);
    var events: seq<Runs.Event> :| Runs.Run(keyId, Runs.START, events) == PairRace.Quiet(db);
    StoreRunsLift(keyId, TRUSTING, events);
    assert ("n", a) in db.bindings && Bound(db, "n", b);
  }
}
