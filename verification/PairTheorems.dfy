// What holds of pairs over every run of the store.
module PairTheorems {
  import opened Wrappers
  import opened Tables
  import opened Transactions
  import opened StoreInvariants
  import opened StoreSteps
  import opened StoreRuns

  // What the swap finds and writes.
  ghost predicate Atomic(w: World, v: World, t: nat)
    requires t in w.pending && w.pending[t].phase.Ready?
  {
    var call, row := w.pending[t].call, w.pending[t].phase.row;
    && call.pair in w.db.pairs && w.db.pairs[call.pair] == row
    && BindingOwner(w.db, row.network, row.initiator).Some?
    && BindingOwner(w.db, row.network, row.target) == BindingOwner(w.db, row.network, row.initiator)
    && call.pair in v.db.pairs
    && Edge(row.state, v.db.pairs[call.pair].state)
    && v.db == w.db.(pairs := w.db.pairs[call.pair :=
         row.(state := v.db.pairs[call.pair].state, revision := row.revision + 1)])
  }

  // Which action the call asked for, who asked, when, and where it took the row.
  ghost predicate JustifiedMove(keyId: Key -> Id, w: World, v: World, t: nat)
    requires t in w.pending && w.pending[t].phase.Ready?
  {
    var call, row := w.pending[t].call, w.pending[t].phase.row;
    call.pair in v.db.pairs &&
    var state := v.db.pairs[call.pair].state;
    match call.action
    case Approve => state == Approved && row.state == Invited && row.target == call.device && call.now < row.expires
    case Reject => state == Rejected && row.state == Invited && row.target == call.device && call.now < row.expires
    case Confirm =>
      && state == Active && row.state == Approved && row.initiator == call.device && call.now < row.expires
      && row.target in w.db.devices && call.fingerprint == keyId(w.db.devices[row.target].publicKey)
    case RevokePair =>
      state == Revoked && row.state == Active && (row.initiator == call.device || row.target == call.device)
    case UnknownAction => false
  }

  // The swap's conditions leave only the row that was read, and it is open.
  lemma RowIsCurrent(keyId: Key -> Id, db: Db, p: Pending)
    requires PendingHolds(keyId, db, p) && p.phase.Ready? && Swap(db, p).Committed?
    ensures p.call.pair in db.pairs && db.pairs[p.call.pair] == p.phase.row
    ensures Open(p.phase.row.state) && Edge(p.phase.row.state, p.phase.next)
    ensures Justified(keyId, db, p.call, p.phase.row, p.phase.next)
  {
  }

  lemma SwapFindsTheRow(keyId: Key -> Id, w: World, t: nat)
    requires Inv(keyId, w) && Swapping(w, Proceed(t))
    ensures var call, row := w.pending[t].call, w.pending[t].phase.row;
            && call.pair in w.db.pairs && w.db.pairs[call.pair] == row && Authorized(w.db, row)
            && Edge(row.state, w.pending[t].phase.next)
            && Justified(keyId, w.db, call, row, w.pending[t].phase.next)
  {
    RowIsCurrent(keyId, w.db, w.pending[t]);
    assert PairAuthority(w.db);
  }

  ghost predicate Written(w: World, v: World, t: nat)
    requires t in w.pending && w.pending[t].phase.Ready?
  {
    var call, Ready(row, next) := w.pending[t].call, w.pending[t].phase;
    v.db == w.db.(pairs := w.db.pairs[call.pair := row.(state := next, revision := row.revision + 1)])
  }

  lemma SwapWrites(keyId: Key -> Id, w: World, t: nat)
    requires Swapping(w, Proceed(t)) && w.db.pairs[w.pending[t].call.pair] == w.pending[t].phase.row
    ensures Written(w, Exec(keyId, w, Proceed(t)), t)
  {
  }

  // What was found and what was written make the move atomic and justified.
  lemma WrittenIsAtomic(keyId: Key -> Id, w: World, v: World, t: nat)
    requires t in w.pending && w.pending[t].phase.Ready? && Written(w, v, t)
    requires var call, row := w.pending[t].call, w.pending[t].phase.row;
             && call.pair in w.db.pairs && w.db.pairs[call.pair] == row && Authorized(w.db, row)
             && Edge(row.state, w.pending[t].phase.next)
             && Justified(keyId, w.db, call, row, w.pending[t].phase.next)
    ensures Atomic(w, v, t) && JustifiedMove(keyId, w, v, t)
  {
  }

  lemma SwapHolds(keyId: Key -> Id, w: World, t: nat)
    requires Inv(keyId, w) && Swapping(w, Proceed(t))
    ensures Atomic(w, Exec(keyId, w, Proceed(t)), t) && JustifiedMove(keyId, w, Exec(keyId, w, Proceed(t)), t)
  {
    SwapFindsTheRow(keyId, w, t);
    SwapWrites(keyId, w, t);
    WrittenIsAtomic(keyId, w, Exec(keyId, w, Proceed(t)), t);
  }

  // Whatever ran between the reads and the swap, a swap that commits finds the
  // row exactly as it was read, with both owners in place at that moment; it
  // moves the row along the state graph, raises its revision by one, and
  // touches nothing else.
  lemma SwapIsAtomic(keyId: Key -> Id, events: seq<Event>, i: nat)
    requires i < |events| && Swapping(At(keyId, events, i), events[i])
    ensures Atomic(At(keyId, events, i), At(keyId, events, i + 1), events[i].thread)
  {
    Reachable(keyId, events, i);
    AtStep(keyId, events, i);
    SwapHolds(keyId, At(keyId, events, i), events[i].thread);
  }

  // Who may cause each move: only the target answers an invitation, and only
  // the initiator activates it, with the target's own key fingerprint.
  lemma SwapIsJustified(keyId: Key -> Id, events: seq<Event>, i: nat)
    requires i < |events| && Swapping(At(keyId, events, i), events[i])
    ensures JustifiedMove(keyId, At(keyId, events, i), At(keyId, events, i + 1), events[i].thread)
  {
    Reachable(keyId, events, i);
    AtStep(keyId, events, i);
    SwapHolds(keyId, At(keyId, events, i), events[i].thread);
  }

  // ActOnPair answers with the row it reads last: the one it wrote, or a newer
  // one, and the one it wrote exactly when nothing moved the row in between.
  lemma AnswerIsTheWrittenRowOrNewer(keyId: Key -> Id, events: seq<Event>, i: nat, t: nat)
    requires i <= |events| && t in At(keyId, events, i).pending
    requires At(keyId, events, i).pending[t].phase.Rechecked?
    ensures var w := At(keyId, events, i);
            var written, answer := w.pending[t].phase.row, OwnRow(w.db, w.pending[t].call);
            && answer.Some? && RowEvolves(written, answer.value)
            && (answer.value == written <==> answer.value.revision == written.revision)
  {
    Reachable(keyId, events, i);
    assert PendingHolds(keyId, At(keyId, events, i).db, At(keyId, events, i).pending[t]);
  }

  // In every reachable state, an open pair has its whole authority in place.
  lemma OpenPairsAreAuthorized(keyId: Key -> Id, events: seq<Event>, id: Id)
    requires id in Run(keyId, START, events).db.pairs
    requires Open(Run(keyId, START, events).db.pairs[id].state)
    ensures var db := Run(keyId, START, events).db;
            var p := db.pairs[id];
            && p.network in db.networks && !db.networks[p.network].deleted
            && Enabled(db, db.networks[p.network].owner)
            && (forall end | end in {p.initiator, p.target} ::
                  && end in db.devices && !db.devices[end].revoked
                  && Bound(db, p.network, end)
                  && (end, db.networks[p.network].owner) in db.links)
  {
    StartHolds(keyId);
    RunKeeps(keyId, START, events);
    var db := Run(keyId, START, events).db;
    assert Authorized(db, db.pairs[id]);
  }

  // A rejected or revoked pair never opens again, whatever is re-bound or
  // re-enrolled later; its ends, network and deadline never change either.
  lemma ClosedPairsStayClosed(keyId: Key -> Id, events: seq<Event>, i: nat, j: nat, id: Id)
    requires i <= j <= |events|
    requires id in At(keyId, events, i).db.pairs
    requires !Open(At(keyId, events, i).db.pairs[id].state)
    ensures id in At(keyId, events, j).db.pairs
    ensures !Open(At(keyId, events, j).db.pairs[id].state)
    ensures SameEnds(At(keyId, events, i).db.pairs[id], At(keyId, events, j).db.pairs[id])
  {
    LaterEvolves(keyId, events, i, j);
    assert RowEvolves(At(keyId, events, i).db.pairs[id], At(keyId, events, j).db.pairs[id]);
  }

  // Over one event a row stays as it is or moves along one edge of the graph,
  // and a new row starts as invited or active.
  lemma RowsMoveAlongEdges(keyId: Key -> Id, events: seq<Event>, i: nat, id: Id)
    requires i < |events| && id in At(keyId, events, i + 1).db.pairs
    ensures var a, b := At(keyId, events, i).db.pairs, At(keyId, events, i + 1).db.pairs;
            if id in a then b[id] == a[id] || (Edge(a[id].state, b[id].state) && b[id].revision == a[id].revision + 1)
            else b[id].revision == 1 && b[id].state in {Invited, Active}
  {
    Reachable(keyId, events, i);
    AtStep(keyId, events, i);
    ExecKeeps(keyId, At(keyId, events, i), events[i]);
  }

  // ---- at most one live pair per network and unordered device pair ----

  // Another pair, live now, between the same two devices of the same network.
  predicate Rival(db: Db, now: int, p: Id, q: Id) {
    && p in db.pairs && q in db.pairs && p != q
    && LiveAt(db.pairs[q], now)
    && Joins(db.pairs[q], db.pairs[p].network, db.pairs[p].initiator, db.pairs[p].target)
  }

  ghost predicate UniqueLive(db: Db, now: int) {
    forall p, q :: p in db.pairs && LiveAt(db.pairs[p], now) ==> !Rival(db, now, p, q)
  }

  // A confirmation whose row has expired between its own check and its swap,
  // while another pair of the same devices is live.
  ghost predicate LateConfirmation(w: World, e: Event) {
    && Swapping(w, e)
    && w.pending[e.thread].call.action == Confirm
    && w.pending[e.thread].phase.row.expires <= w.clock
    && (exists q :: Rival(w.db, w.clock, w.pending[e.thread].call.pair, q))
  }

  // Every row of `a` is still there with its ends, and no such row came to life.
  ghost predicate OnlyNewAreLive(a: Db, b: Db, now: int) {
    && (forall p :: p in a.pairs ==> p in b.pairs && SameEnds(a.pairs[p], b.pairs[p]))
    && (forall p :: p in b.pairs && p in a.pairs && LiveAt(b.pairs[p], now) ==> LiveAt(a.pairs[p], now))
  }

  lemma NoNewPairsKeepUnique(a: Db, b: Db, now: int)
    requires UniqueLive(a, now) && OnlyNewAreLive(a, b, now) && b.pairs.Keys == a.pairs.Keys
    ensures UniqueLive(b, now)
  {
    forall p, q | p in b.pairs && LiveAt(b.pairs[p], now) ensures !Rival(b, now, p, q) {
      assert !Rival(a, now, p, q);
    }
  }

  lemma InsertKeepsUnique(a: Db, b: Db, id: Id, pair: Pair, read: int, now: int)
    requires UniqueLive(a, now) && read <= now
    requires id !in a.pairs && b.pairs == a.pairs[id := pair]
    requires !PairingExists(a, pair.network, pair.initiator, pair.target, read)
    ensures UniqueLive(b, now)
  {
    forall p, q | p in b.pairs && LiveAt(b.pairs[p], now) ensures !Rival(b, now, p, q) {
      if Rival(b, now, p, q) {
        if p == id {
          assert LiveAt(a.pairs[q], read);
        } else if q == id {
          assert LiveAt(a.pairs[p], read);
        } else {
          assert Rival(a, now, p, q);
        }
      }
    }
  }

  lemma InviteKeepsUnique(db: Db, s: Id, t: Id, n: Id, nonce: Id, expires: int, id: Id, read: int, now: int)
    requires UniqueLive(db, now) && read <= now
    ensures UniqueLive(After(db, Invite(db, s, t, n, nonce, expires, id, read)), now)
  {
    var outcome := Invite(db, s, t, n, nonce, expires, id, read);
    if outcome.Committed? {
      InsertKeepsUnique(db, outcome.db, id, outcome.value, read, now);
    }
  }

  lemma AdoptKeepsUnique(db: Db, s: Id, t: Id, n: Id, id: Id, read: int, now: int)
    requires UniqueLive(db, now) && read <= now
    ensures UniqueLive(After(db, Adopt(db, s, t, n, id, read)), now)
  {
    var outcome := Adopt(db, s, t, n, id, read);
    if outcome.Committed? {
      InsertKeepsUnique(db, outcome.db, id, outcome.value, read, now);
    }
  }

  lemma CommitKeepsUnique(keyId: Key -> Id, db: Db, op: Operation, now: int)
    requires UniqueLive(db, now) && (Reading(op).Some? ==> Reading(op).value <= now)
    ensures UniqueLive(Apply(keyId, db, op), now)
  {
    match op
    case OpInvite(s, t, n, nonce, expires, id, read) => InviteKeepsUnique(db, s, t, n, nonce, expires, id, read, now);
    case OpAdopt(s, t, n, id, read) => AdoptKeepsUnique(db, s, t, n, id, read, now);
    case _ => RevocationsKeepUnique(keyId, db, op, now);
  }

  // Apart from inviting and adopting, a transaction can only revoke pairs.
  lemma PairsOnlyRevoked(keyId: Key -> Id, db: Db, op: Operation)
    requires !op.OpInvite? && !op.OpAdopt?
    ensures var b := Apply(keyId, db, op);
            OnlyRevokes(db.pairs, b.pairs)
  {
    if !Revokes(op) {
      PairsUntouched(keyId, db, op);
    }
  }

  lemma RevocationsKeepUnique(keyId: Key -> Id, db: Db, op: Operation, now: int)
    requires !op.OpInvite? && !op.OpAdopt? && UniqueLive(db, now)
    ensures UniqueLive(Apply(keyId, db, op), now)
  {
    PairsOnlyRevoked(keyId, db, op);
    RevokedPairsKeepUnique(db, Apply(keyId, db, op), now);
  }

  lemma RevokedPairsKeepUnique(a: Db, b: Db, now: int)
    requires UniqueLive(a, now) && OnlyRevokes(a.pairs, b.pairs)
    ensures UniqueLive(b, now)
  {
    NoNewPairsKeepUnique(a, b, now);
  }

  lemma TransactionKeepsUnique(keyId: Key -> Id, w: World, e: Event)
    requires Inv(keyId, w) && UniqueLive(w.db, w.clock) && Transaction(w, e).Some?
    ensures UniqueLive(Exec(keyId, w, e).db, w.clock)
  {
    TransactionsAreTimely(keyId, w, e);
    DbAfter(keyId, w, e);
    CommitKeepsUnique(keyId, w.db, Transaction(w, e).value, w.clock);
  }

  lemma OnlyTicksMoveTheClock(keyId: Key -> Id, w: World, e: Event)
    ensures Transaction(w, e).Some? || Swapping(w, e) ==> Exec(keyId, w, e).clock == w.clock
    ensures w.clock <= Exec(keyId, w, e).clock
  {
  }

  // One event keeps live pairs unique exactly when it is not a late confirmation.
  lemma UniqueExactlyWithoutLateConfirmation(keyId: Key -> Id, w: World, e: Event)
    requires Inv(keyId, w) && UniqueLive(w.db, w.clock)
    ensures var v := Exec(keyId, w, e);
            UniqueLive(v.db, v.clock) <==> !LateConfirmation(w, e)
  {
    OnlyTicksMoveTheClock(keyId, w, e);
    if Transaction(w, e).Some? {
      TransactionKeepsUnique(keyId, w, e);
    } else {
      DbAfter(keyId, w, e);
      if Swapping(w, e) {
        SwapUniqueness(keyId, w, e.thread);
      } else {
        TimeKeepsUnique(w.db, w.clock, Exec(keyId, w, e).clock);
      }
    }
  }

  // Pairs only stop being live as time passes.
  lemma TimeKeepsUnique(db: Db, now: int, later: int)
    requires UniqueLive(db, now) && now <= later
    ensures UniqueLive(db, later)
  {
    forall p, q | p in db.pairs && LiveAt(db.pairs[p], later) ensures !Rival(db, later, p, q) {
      assert !Rival(db, now, p, q);
    }
  }

  // Writing one row keeps live pairs unique unless it comes to life beside a rival.
  lemma RowUniqueness(a: Db, b: Db, p: Id, row: Pair, now: int)
    requires UniqueLive(a, now) && p in a.pairs && SameEnds(a.pairs[p], row)
    requires b.pairs == a.pairs[p := row]
    ensures UniqueLive(b, now) <==>
              !(LiveAt(row, now) && !LiveAt(a.pairs[p], now) && exists q :: Rival(a, now, p, q))
  {
    if LiveAt(row, now) && !LiveAt(a.pairs[p], now) && exists q :: Rival(a, now, p, q) {
      var q :| Rival(a, now, p, q);
      assert Rival(b, now, p, q);
    } else {
      forall r, q | r in b.pairs && LiveAt(b.pairs[r], now) ensures !Rival(b, now, r, q) {
        if r == p {
          assert !Rival(a, now, p, q);
        } else if q == p {
          assert LiveAt(row, now) ==> !Rival(a, now, p, r);
        } else {
          assert !Rival(a, now, r, q);
        }
      }
    }
  }

  // The row the swap writes comes to life only when a confirmation finds it expired.
  lemma SwapRevives(keyId: Key -> Id, w: World, t: nat)
    requires Inv(keyId, w) && Swapping(w, Proceed(t))
    ensures var p, b := w.pending[t].call.pair, Swap(w.db, w.pending[t]).db;
            && p in w.db.pairs && p in b.pairs && SameEnds(w.db.pairs[p], b.pairs[p])
            && b.pairs == w.db.pairs[p := b.pairs[p]]
            && (LiveAt(b.pairs[p], w.clock) && !LiveAt(w.db.pairs[p], w.clock) <==>
                  w.pending[t].call.action == Confirm && w.pending[t].phase.row.expires <= w.clock)
  {
    RowIsCurrent(keyId, w.db, w.pending[t]);
  }

  lemma SwapUniqueness(keyId: Key -> Id, w: World, t: nat)
    requires Inv(keyId, w) && UniqueLive(w.db, w.clock) && Swapping(w, Proceed(t))
    ensures UniqueLive(Swap(w.db, w.pending[t]).db, w.clock) <==> !LateConfirmation(w, Proceed(t))
  {
    SwapRevives(keyId, w, t);
    var p, b := w.pending[t].call.pair, Swap(w.db, w.pending[t]).db;
    RowUniqueness(w.db, b, p, b.pairs[p], w.clock);
  }

  ghost predicate UniqueAt(keyId: Key -> Id, events: seq<Event>, i: nat)
    requires i <= |events|
  {
    UniqueLive(At(keyId, events, i).db, At(keyId, events, i).clock)
  }

  ghost predicate LateAt(keyId: Key -> Id, events: seq<Event>, i: nat)
    requires i < |events|
  {
    LateConfirmation(At(keyId, events, i), events[i])
  }

  lemma UniqueStep(keyId: Key -> Id, events: seq<Event>, i: nat)
    requires i < |events| && UniqueAt(keyId, events, i)
    ensures UniqueAt(keyId, events, i + 1) <==> !LateAt(keyId, events, i)
  {
    Reachable(keyId, events, i);
    AtStep(keyId, events, i);
    UniqueExactlyWithoutLateConfirmation(keyId, At(keyId, events, i), events[i]);
  }

  // Hence live pairs are unique at every point of a run exactly when no event of
  // it is a late confirmation.
  lemma LivePairsAreUnique(keyId: Key -> Id, events: seq<Event>)
    ensures (forall i :: 0 <= i <= |events| ==> UniqueAt(keyId, events, i))
            <==> (forall i :: 0 <= i < |events| ==> !LateAt(keyId, events, i))
  {
    var holds := (i: nat) => i <= |events| && UniqueAt(keyId, events, i);
    var bad := (i: nat) => i < |events| && LateAt(keyId, events, i);
    forall i: nat | i < |events| && holds(i) ensures holds(i + 1) <==> !bad(i) {
      UniqueStep(keyId, events, i);
    }
    HoldsExactlyWithoutBadSteps(holds, bad, |events|);
    assert forall i :: 0 <= i <= |events| ==> (holds(i) <==> UniqueAt(keyId, events, i));
    assert forall i :: 0 <= i < |events| ==> (bad(i) <==> LateAt(keyId, events, i));
  }

  // A confirmation that runs within one clock reading is never late.
  lemma ConfirmationInOneReadingIsNotLate(keyId: Key -> Id, w: World, e: Event)
    requires Inv(keyId, w) && Swapping(w, e)
    requires w.pending[e.thread].call.now == w.clock
    ensures !LateConfirmation(w, e)
  {
    assert PendingHolds(keyId, w.db, w.pending[e.thread]);
  }

  predicate TwoActive(db: Db, p: Id, q: Id, row: Pair) {
    && p in db.pairs && q in db.pairs && p != q
    && db.pairs[p].state == Active && db.pairs[q].state == Active
    && Joins(db.pairs[p], row.network, row.initiator, row.target)
    && Joins(db.pairs[q], row.network, row.initiator, row.target)
  }

  // The row expires, the two devices adopt each other, and the swap goes on.
  ghost function Overtaken(keyId: Key -> Id, w: World, t: nat, row: Pair, other: Id): (v: World) {
    var adopt := Commit(OpAdopt(row.initiator, row.target, row.network, other, row.expires));
    Exec(keyId, Exec(keyId, Exec(keyId, w, Tick(row.expires)), adopt), Proceed(t))
  }

  // The gap is real. From every state where a confirmation is about to swap, let
  // the row expire and the two devices adopt each other: the swap then still
  // commits, and leaves two active pairs between them.
  lemma ExpiryRace(keyId: Key -> Id, w: World, t: nat, other: Id)
    requires Inv(keyId, w) && UniqueLive(w.db, w.clock) && Swapping(w, Proceed(t))
    requires w.pending[t].call.action == Confirm && w.clock < w.pending[t].phase.row.expires
    requires other !in w.db.pairs
    ensures var row := w.pending[t].phase.row;
            TwoActive(Overtaken(keyId, w, t, row, other).db, w.pending[t].call.pair, other, row)
  {
    ReadyConfirmation(keyId, w, t);
    AdoptAfterExpiry(w.db, w.clock, w.pending[t].call.pair, other);
    LateSwap(keyId, w, t, other);
  }

  function AdoptedRow(row: Pair): (adopted: Pair) {
    Pair(row.network, row.initiator, row.target, Active, row.expires + PAIRING_SECONDS, 1)
  }

  predicate Adopts(db: Db, row: Pair, other: Id) {
    Adopt(db, row.initiator, row.target, row.network, other, row.expires)
    == Committed(db.(pairs := db.pairs[other := AdoptedRow(row)]), AdoptedRow(row))
  }

  lemma LateSwap(keyId: Key -> Id, w: World, t: nat, other: Id)
    requires Swapping(w, Proceed(t)) && w.pending[t].phase.next == Active && other !in w.db.pairs
    requires w.db.pairs[w.pending[t].call.pair] == w.pending[t].phase.row
    requires w.clock < w.pending[t].phase.row.expires && Adopts(w.db, w.pending[t].phase.row, other)
    ensures var row := w.pending[t].phase.row;
            TwoActive(Overtaken(keyId, w, t, row, other).db, w.pending[t].call.pair, other, row)
  {
    var row := w.pending[t].phase.row;
    var w1 := w.(clock := row.expires);
    assert Exec(keyId, w, Tick(row.expires)) == w1;
    var w2 := w1.(db := w.db.(pairs := w.db.pairs[other := AdoptedRow(row)]));
    assert Exec(keyId, w1, Commit(OpAdopt(row.initiator, row.target, row.network, other, row.expires))) == w2;
    SwapWrites(keyId, w2, t);
  }

  lemma ReadyConfirmation(keyId: Key -> Id, w: World, t: nat)
    requires Inv(keyId, w) && Swapping(w, Proceed(t)) && w.pending[t].call.action == Confirm
    ensures var p, row := w.pending[t].call.pair, w.pending[t].phase.row;
            && p in w.db.pairs && w.db.pairs[p] == row && row.state == Approved
            && w.pending[t].phase.next == Active
            && Authorized(w.db, row)
  {
    RowIsCurrent(keyId, w.db, w.pending[t]);
    assert PairAuthority(w.db);
  }

  // Once the only live pair of two authorized devices expires, adoption succeeds.
  lemma AdoptAfterExpiry(db: Db, clock: int, p: Id, other: Id)
    requires UniqueLive(db, clock) && other !in db.pairs
    requires p in db.pairs && db.pairs[p].state == Approved && clock < db.pairs[p].expires
    requires Authorized(db, db.pairs[p])
    ensures Adopts(db, db.pairs[p], other)
  {
    var row := db.pairs[p];
    forall q | q in db.pairs && Joins(db.pairs[q], row.network, row.initiator, row.target)
      ensures !LiveAt(db.pairs[q], row.expires)
    {
      assert !Rival(db, clock, p, q);
    }
  }
}
