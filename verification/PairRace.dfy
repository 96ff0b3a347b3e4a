// A run from the empty store in which two devices end up with two active pairs.
//
// One account with one network enrols two machines; the first invites the second
// with its share; the second approves; the first confirms and is overtaken, after
// its last check and before its swap, by the deadline and by an adoption.
module PairRace {
  import opened Wrappers
  import opened Tables
  import opened Transactions
  import opened StoreRuns
  import opened PairTheorems

  // ---- the states on the way ----

  const ACCOUNT := EMPTY_DB.(users := map["u" := User(false)])

  const FOUNDED := EMPTY_DB.(users := map["u" := User(false)],
                            networks := map["n" := Network("u", "home", false, DEFAULT_NETWORK_LIMIT)])

  function Quiet(db: Db): (w: World) { World(db, 0, map[], map[], map[]) }

  function Machine(key: Key, request: Id): (row: Device) { Device("u", key, "machine", "certificate", false, request) }

  function OneMachine(a: Id, k: Key): (after: Db) {
    FOUNDED.(devices := map[a := Machine(k, "r1")], links := {(a, "u")}, bindings := map[("n", a) := true])
  }

  function TwoMachines(a: Id, b: Id, k: Key, l: Key): (after: Db) {
    FOUNDED.(devices := map[a := Machine(k, "r1"), b := Machine(l, "r2")], links := {(a, "u"), (b, "u")},
             bindings := map[("n", a) := true, ("n", b) := true])
  }

  function Row(a: Id, b: Id, state: PairState, revision: nat): (row: Pair) {
    Pair("n", a, b, state, PAIRING_SECONDS, revision)
  }

  function Paired(a: Id, b: Id, k: Key, l: Key, state: PairState, revision: nat): (after: Db) {
    TwoMachines(a, b, k, l).(shares := map["s" := ShareRow(b, "n", PAIRING_SECONDS, true)],
                             pairs := map["p" := Row(a, b, state, revision)])
  }

  // A transaction on a quiet store.
  lemma ThenCommit(keyId: Key -> Id, db: Db, op: Operation, after: Db)
    requires Reached(keyId, Quiet(db)) && Apply(keyId, db, op) == after
    requires Timely(Quiet(db), op) && !op.OpInsertNetwork?
    ensures Reached(keyId, Quiet(after))
  {
    Then(keyId, Quiet(db), Commit(op));
    assert Exec(keyId, Quiet(db), Commit(op)) == Quiet(after);
  }

  lemma AccountExists(keyId: Key -> Id)
    ensures Reached(keyId, Quiet(ACCOUNT))
  {
    assert Run(keyId, START, []) == START;
    assert Apply(keyId, EMPTY_DB, OpCreateUser("u")) == After(EMPTY_DB, CreateUser(EMPTY_DB, "u"));
    ThenCommit(keyId, EMPTY_DB, OpCreateUser("u"), ACCOUNT);
  }

  lemma FoundNetwork(keyId: Key -> Id)
    ensures Reached(keyId, Quiet(FOUNDED))
  {
    AccountExists(keyId);
    assert NetworksOf(ACCOUNT, "u") == {};
    var creation := Creation("u", "home", "n");
    Then(keyId, Quiet(ACCOUNT), CountNetworks(0, creation));
    var counted := Quiet(ACCOUNT).(creating := map[0 := creation]);
    assert Exec(keyId, Quiet(ACCOUNT), CountNetworks(0, creation)) == counted;
    Then(keyId, counted, InsertCounted(0));
    assert Apply(keyId, ACCOUNT, Insertion(creation)) == After(ACCOUNT, InsertNetwork(ACCOUNT, "u", "home", "n"));
    assert Exec(keyId, counted, InsertCounted(0)) == Quiet(FOUNDED);
  }

  // Joining with a key that is not on record yet.
  lemma Joining(db: Db, id: Id, k: Key, request: Id, after: Db)
    requires LiveNetwork(db, "n") && Fits(db, "n") && id !in db.devices
    requires forall d :: d in db.devices ==> db.devices[d].publicKey != k && db.devices[d].requestId != request
    requires after == Bind(PutDevice(db, id, Machine(k, request), "u"), "n", id)
    requires db.networks["n"].owner == "u"
    ensures After(db, JoinNetwork(db, id, k, "machine", "certificate", request, "n")) == after
  {
  }

  lemma FirstJoins(keyId: Key -> Id, k: Key)
    ensures Reached(keyId, Quiet(OneMachine(keyId(k), k)))
  {
    FoundNetwork(keyId);
    assert Members(FOUNDED, "n") == {};
    var op := OpJoinNetwork(k, "machine", "certificate", "r1", "n");
    Joining(FOUNDED, keyId(k), k, "r1", OneMachine(keyId(k), k));
    assert Apply(keyId, FOUNDED, op)
           == After(FOUNDED, JoinNetwork(FOUNDED, keyId(k), k, "machine", "certificate", "r1", "n"));
    ThenCommit(keyId, FOUNDED, op, OneMachine(keyId(k), k));
  }

  lemma SecondJoins(keyId: Key -> Id, k: Key, l: Key)
    requires keyId(k) != keyId(l)
    ensures Reached(keyId, Quiet(TwoMachines(keyId(k), keyId(l), k, l)))
  {
    FirstJoins(keyId, k);
    var db, after := OneMachine(keyId(k), k), TwoMachines(keyId(k), keyId(l), k, l);
    assert Members(db, "n") == {keyId(k)};
    var op := OpJoinNetwork(l, "machine", "certificate", "r2", "n");
    Joining(db, keyId(l), l, "r2", after);
    assert Apply(keyId, db, op) == After(db, JoinNetwork(db, keyId(l), l, "machine", "certificate", "r2", "n"));
    ThenCommit(keyId, db, op, after);
  }

  function Shared(a: Id, b: Id, k: Key, l: Key): (db: Db) {
    TwoMachines(a, b, k, l).(shares := map["s" := ShareRow(b, "n", PAIRING_SECONDS, false)])
  }

  lemma SecondShares(keyId: Key -> Id, k: Key, l: Key)
    requires keyId(k) != keyId(l)
    ensures Reached(keyId, Quiet(Shared(keyId(k), keyId(l), k, l)))
  {
    SecondJoins(keyId, k, l);
    var b := keyId(l);
    var db, shared := TwoMachines(keyId(k), b, k, l), Shared(keyId(k), b, k, l);
    var op := OpRecordShare(b, "n", "s", PAIRING_SECONDS);
    assert Apply(keyId, db, op) == After(db, RecordShare(db, b, "n", "s", PAIRING_SECONDS));
    assert After(db, RecordShare(db, b, "n", "s", PAIRING_SECONDS)) == shared;
    ThenCommit(keyId, db, op, shared);
  }

  lemma Inviting(a: Id, b: Id, k: Key, l: Key)
    requires a != b
    ensures var db := Shared(a, b, k, l);
            After(db, Invite(db, a, b, "n", "s", PAIRING_SECONDS, "p", 0)) == Paired(a, b, k, l, Invited, 1)
  {
    var db := Shared(a, b, k, l);
    assert CoOwned(db, "n", a, b) && !PairingExists(db, "n", a, b, 0);
    assert ShareUsable(db, "s", b, "n", PAIRING_SECONDS, 0);
    assert InsertPair(db.(shares := db.shares["s" := db.shares["s"].(used := true)]), "p", Row(a, b, Invited, 1))
           == Committed(Paired(a, b, k, l, Invited, 1), Row(a, b, Invited, 1));
  }

  lemma InvitationApplies(keyId: Key -> Id, db: Db, s: Id, t: Id, n: Id, nonce: Id, expires: int, id: Id, now: int)
    ensures Apply(keyId, db, OpInvite(s, t, n, nonce, expires, id, now))
            == After(db, Invite(db, s, t, n, nonce, expires, id, now))
  {
  }

  lemma FirstInvites(keyId: Key -> Id, k: Key, l: Key)
    requires keyId(k) != keyId(l)
    ensures Reached(keyId, Quiet(Paired(keyId(k), keyId(l), k, l, Invited, 1)))
  {
    SecondShares(keyId, k, l);
    var a, b := keyId(k), keyId(l);
    var db, after := Shared(a, b, k, l), Paired(a, b, k, l, Invited, 1);
    Inviting(a, b, k, l);
    InvitationApplies(keyId, db, a, b, "n", "s", PAIRING_SECONDS, "p", 0);
    ThenCommit(keyId, db, OpInvite(a, b, "n", "s", PAIRING_SECONDS, "p", 0), after);
  }

  // ---- acting on the pair ----

  function Waiting(db: Db, call: Call, phase: Phase): (w: World) {
    World(db, 0, map[0 := Pending(call, phase)], map[], map[])
  }

  lemma Advance(keyId: Key -> Id, db: Db, call: Call, phase: Phase)
    requires Reached(keyId, Waiting(db, call, phase)) && NextPhase(keyId, db, Pending(call, phase)).Some?
    ensures Reached(keyId, Waiting(db, call, NextPhase(keyId, db, Pending(call, phase)).value))
  {
    Then(keyId, Waiting(db, call, phase), Proceed(0));
    assert Exec(keyId, Waiting(db, call, phase), Proceed(0))
           == Waiting(db, call, NextPhase(keyId, db, Pending(call, phase)).value);
  }

  // The reads of one call, with nothing in between.
  lemma ReadsThenReady(keyId: Key -> Id, db: Db, call: Call, row: Pair, next: PairState)
    requires Reached(keyId, Quiet(db)) && call.now == 0
    requires Admitted(db, call.device) && OwnRow(db, call) == Some(row)
    requires CoOwned(db, row.network, row.initiator, row.target) && row.expires > 0
    requires Move(call.action, row, call.device, Identified(keyId, db, row, call.fingerprint)) == Some(next)
    ensures Reached(keyId, Waiting(db, call, Ready(row, next)))
  {
    RowIsRead(keyId, db, call, row);
    var owner := BindingOwner(db, row.network, row.initiator).value;
    assert NextPhase(keyId, db, Pending(call, RowRead(row))) == Some(InitiatorOwned(row, owner));
    Advance(keyId, db, call, RowRead(row));
    assert NextPhase(keyId, db, Pending(call, InitiatorOwned(row, owner))) == Some(BothOwned(row));
    Advance(keyId, db, call, InitiatorOwned(row, owner));
    assert NextPhase(keyId, db, Pending(call, BothOwned(row))) == Some(Ready(row, next));
    Advance(keyId, db, call, BothOwned(row));
  }

  lemma RowIsRead(keyId: Key -> Id, db: Db, call: Call, row: Pair)
    requires Reached(keyId, Quiet(db)) && call.now == 0
    requires Admitted(db, call.device) && OwnRow(db, call) == Some(row)
    ensures Reached(keyId, Waiting(db, call, RowRead(row)))
  {
    Then(keyId, Quiet(db), Enter(0, call));
    assert Exec(keyId, Quiet(db), Enter(0, call)) == Waiting(db, call, Entered);
    Advance(keyId, db, call, Entered);
    Advance(keyId, db, call, CallerRead);
  }

  // The swap and the two reads after it.
  lemma SwapThenQuiet(keyId: Key -> Id, db: Db, call: Call, row: Pair, next: PairState, after: Db, written: Pair)
    requires Reached(keyId, Waiting(db, call, Ready(row, next)))
    requires CompareAndSwap(db, call.pair, row, next) == Committed(after, written) && Admitted(after, call.device)
    ensures Reached(keyId, Quiet(after))
  {
    var w := Waiting(db, call, Ready(row, next));
    Then(keyId, w, Proceed(0));
    assert Exec(keyId, w, Proceed(0)) == Waiting(after, call, Swapped(written));
    Advance(keyId, after, call, Swapped(written));
    Then(keyId, Waiting(after, call, Rechecked(written)), Proceed(0));
    assert Exec(keyId, Waiting(after, call, Rechecked(written)), Proceed(0)) == Quiet(after);
  }

  lemma SecondApproves(keyId: Key -> Id, k: Key, l: Key)
    requires keyId(k) != keyId(l)
    ensures Reached(keyId, Quiet(Paired(keyId(k), keyId(l), k, l, Approved, 2)))
  {
    FirstInvites(keyId, k, l);
    var a, b := keyId(k), keyId(l);
    var db, call := Paired(a, b, k, l, Invited, 1), Call(b, "p", Approve, "", 0);
    PairedIsOwned(a, b, k, l, Invited, 1);
    ReadsThenReady(keyId, db, call, Row(a, b, Invited, 1), Approved);
    var after, written := Paired(a, b, k, l, Approved, 2), Row(a, b, Approved, 2);
    assert CompareAndSwap(db, "p", Row(a, b, Invited, 1), Approved) == Committed(after, written);
    SwapThenQuiet(keyId, db, call, Row(a, b, Invited, 1), Approved, after, written);
  }

  lemma PairedIsOwned(a: Id, b: Id, k: Key, l: Key, state: PairState, revision: nat)
    requires a != b
    ensures var db := Paired(a, b, k, l, state, revision);
            Admitted(db, a) && Admitted(db, b) && CoOwned(db, "n", a, b)
  {
  }

  // Two active pairs between the same two devices of one network are reachable.
  lemma TwoActivePairsAreReachable(keyId: Key -> Id, k: Key, l: Key)
    requires keyId(k) != keyId(l)
    ensures exists events: seq<Event> ::
              TwoActive(Run(keyId, START, events).db, "p", "q", Row(keyId(k), keyId(l), Approved, 2))
  {
    SecondApproves(keyId, k, l);
    var a, b := keyId(k), keyId(l);
    var db, call, row := Paired(a, b, k, l, Approved, 2), Call(a, "p", Confirm, b, 0), Row(a, b, Approved, 2);
    PairedIsOwned(a, b, k, l, Approved, 2);
    ReadsThenReady(keyId, db, call, row, Active);
    var w := Waiting(db, call, Ready(row, Active));
    ReachedHolds(keyId, w);
    ExpiryRace(keyId, w, 0, "q");
    OvertakenIsReached(keyId, w, 0, row, "q");
    var events: seq<Event> :| Run(keyId, START, events) == Overtaken(keyId, w, 0, row, "q");
  }

  lemma OvertakenIsReached(keyId: Key -> Id, w: World, t: nat, row: Pair, other: Id)
    requires Reached(keyId, w)
    ensures Reached(keyId, Overtaken(keyId, w, t, row, other))
  {
    var expired := Tick(row.expires);
    var adopt := Commit(OpAdopt(row.initiator, row.target, row.network, other, row.expires));
    Then(keyId, w, expired);
    Then(keyId, Exec(keyId, w, expired), adopt);
    Then(keyId, Exec(keyId, Exec(keyId, w, expired), adopt), Proceed(t));
  }
}
