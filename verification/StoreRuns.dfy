// Runs of the store: transactions interleaved with the separate steps of
// ActOnPair and CreateNetwork, under a clock that never goes back.
//
// ActOnPair holds no transaction. It reads the caller and the row, asks for the
// owner of each end, for a confirmation reads the target again, and only then
// swaps the row; after the swap it reads the caller and the row once more for
// its answer. CreateNetwork counts the account's networks and inserts the new
// one in a second statement. AdoptNetwork reads the caller, lists its peers, and
// adopts each in a transaction of its own. Any event may fall between two of
// those steps.
module StoreRuns {
  import opened Wrappers
  import opened Tables
  import opened Transactions
  import opened StoreInvariants
  import opened StoreSteps

  datatype Call = Call(device: Id, pair: Id, action: Action, fingerprint: Id, now: int)

  datatype Phase =
    | Entered
    | CallerRead
    | RowRead(row: Pair)
    | InitiatorOwned(row: Pair, owner: Id)
    | BothOwned(row: Pair)
    | Ready(row: Pair, next: PairState)
    | Swapped(row: Pair)
    | Rechecked(row: Pair)

  datatype Pending = Pending(call: Call, phase: Phase)

  // A CreateNetwork that has counted and not yet inserted.
  datatype Creation = Creation(user: Id, name: string, network: Id)

  // An AdoptNetwork that has read its caller, and once it has listed its peers:
  // what its query found, and what each turn of its loop so far found and drew.
  datatype AdoptCall = AdoptCall(device: Id, now: int, listing: Option<Listing>)
  datatype Listing = Listing(queried: Db, peers: seq<(Id, Id)>, turns: seq<Turn>)
  datatype Turn = Turn(found: Db, id: Id)

  datatype World = World(db: Db, clock: int, pending: map<nat, Pending>, creating: map<nat, Creation>,
                         adopting: map<nat, AdoptCall>)

  datatype Event =
    | Tick(clock: int)
    | Commit(op: Operation)
    | Enter(thread: nat, call: Call)
    | Proceed(thread: nat)
    | CountNetworks(thread: nat, creation: Creation)
    | InsertCounted(thread: nat)
    | EnterAdoption(thread: nat, device: Id, reading: int)
    | ListPeers(thread: nat, peers: seq<(Id, Id)>)
    | AdoptNext(thread: nat, id: Id)
    | ReturnAdopted(thread: nat)

  const START := World(EMPTY_DB, 0, map[], map[], map[])

  // The fingerprint comparison of a confirmation, against the target as read now.
  predicate Identified(keyId: Key -> Id, db: Db, row: Pair, fingerprint: Id) {
    Admitted(db, row.target) && fingerprint == keyId(db.devices[row.target].publicKey)
  }

  // The row of the call's pair, for a device that is one of its ends.
  function OwnRow(db: Db, call: Call): (row: Option<Pair>) {
    if call.pair in db.pairs && IsEnd(db.pairs[call.pair], call.device) then Some(db.pairs[call.pair]) else None
  }

  // The phase after one more read, or None when the call ends there.
  function NextPhase(keyId: Key -> Id, db: Db, p: Pending): (next: Option<Phase>)
  {
    match p.phase
    case Entered => if Admitted(db, p.call.device) then Some(CallerRead) else None
    case CallerRead =>
      var row := OwnRow(db, p.call);
      if row.Some? then Some(RowRead(row.value)) else None
    case RowRead(row) =>
      var owner := BindingOwner(db, row.network, row.initiator);
      if owner.Some? then Some(InitiatorOwned(row, owner.value)) else None
    case InitiatorOwned(row, owner) =>
      if BindingOwner(db, row.network, row.target) == Some(owner) then Some(BothOwned(row)) else None
    case BothOwned(row) =>
      var next := Move(p.call.action, row, p.call.device, Identified(keyId, db, row, p.call.fingerprint));
      if next.None? || (p.call.action != RevokePair && row.expires <= p.call.now) then None
      else Some(Ready(row, next.value))
    case Ready(_, _) => None
    case Swapped(row) => if Admitted(db, p.call.device) then Some(Rechecked(row)) else None
    case Rechecked(_) => None
  }

  ghost predicate Timely(w: World, op: Operation) {
    Reading(op).None? || Reading(op).value <= w.clock
  }

  // One step of a pending call: its swap, or its next read.
  function Moved(keyId: Key -> Id, w: World, t: nat): (v: World)
    requires t in w.pending
  {
    if w.pending[t].phase.Ready? then
      match Swap(w.db, w.pending[t])
      case Committed(db, row) => w.(db := db, pending := w.pending[t := w.pending[t].(phase := Swapped(row))])
      case Refused(_) => w.(pending := w.pending - {t})
    else
      match NextPhase(keyId, w.db, w.pending[t])
      case Some(phase) => w.(pending := w.pending[t := w.pending[t].(phase := phase)])
      case None => w.(pending := w.pending - {t})
  }

  // One event. An event that is not possible in `w` leaves it unchanged.
  ghost function Exec(keyId: Key -> Id, w: World, e: Event): (v: World) {
    match e
    case Tick(clock) => if clock >= w.clock then w.(clock := clock) else w
    case Commit(op) =>
      if Timely(w, op) && !op.OpInsertNetwork? then w.(db := Apply(keyId, w.db, op)) else w
    case Enter(t, call) =>
      if t !in w.pending && call.now <= w.clock
      then w.(pending := w.pending[t := Pending(call, Entered)]) else w
    case Proceed(t) => if t in w.pending then Moved(keyId, w, t) else w
    case CountNetworks(t, c) =>
      if t !in w.creating && |NetworksOf(w.db, c.user)| < NETWORK_QUOTA
      then w.(creating := w.creating[t := c]) else w
    case InsertCounted(t) =>
      if t in w.creating
      then w.(db := Apply(keyId, w.db, Insertion(w.creating[t])), creating := w.creating - {t}) else w
    case EnterAdoption(t, device, reading) =>
      if t !in w.adopting && Admitted(w.db, device) && reading <= w.clock
      then w.(adopting := w.adopting[t := AdoptCall(device, reading, None)]) else w
    case ListPeers(t, peers) =>
      if MayList(w, t, peers)
      then w.(adopting := w.adopting[t := w.adopting[t].(listing := Some(Listing(w.db, peers, [])))]) else w
    case AdoptNext(t, id) =>
      if MayAdopt(w, t, id)
      then w.(db := Apply(keyId, w.db, NextAdoption(w.adopting[t], id)),
              adopting := w.adopting[t := Adopted(w.adopting[t], Turn(w.db, id))]) else w
    case ReturnAdopted(t) =>
      if t in w.adopting && Returning(w.adopting[t]) then w.(adopting := w.adopting - {t}) else w
  }

  ghost predicate MayList(w: World, t: nat, peers: seq<(Id, Id)>) {
    && t in w.adopting && w.adopting[t].listing.None?
    && w.adopting[t].device in w.db.devices && Lists(peers, w.db, w.adopting[t].device)
  }

  // A turn is left, and its id is fresh.
  predicate MayAdopt(w: World, t: nat, id: Id) {
    t in w.adopting && Turning(w.adopting[t]) && id !in w.db.pairs
  }

  predicate Turning(a: AdoptCall) {
    a.listing.Some? && |a.listing.value.turns| < |a.listing.value.peers|
  }

  // Every peer has had its turn.
  predicate Returning(a: AdoptCall) {
    a.listing.Some? && |a.listing.value.turns| == |a.listing.value.peers|
  }

  function NextPeer(a: AdoptCall): (k: (Id, Id))
    requires Turning(a)
  {
    a.listing.value.peers[|a.listing.value.turns|]
  }

  function NextAdoption(a: AdoptCall, id: Id): (op: Operation)
    requires Turning(a)
  {
    OpAdopt(a.device, NextPeer(a).1, NextPeer(a).0, id, a.now)
  }

  function NextOutcome(db: Db, a: AdoptCall, id: Id): (outcome: Outcome<Pair>)
    requires Turning(a)
  {
    Adopt(db, a.device, NextPeer(a).1, NextPeer(a).0, id, a.now)
  }

  function Adopted(a: AdoptCall, turn: Turn): (b: AdoptCall)
    requires a.listing.Some?
  {
    a.(listing := Some(a.listing.value.(turns := a.listing.value.turns + [turn])))
  }

  // What the transaction of a turn makes of what it found.
  function TurnOutcome(a: AdoptCall, i: nat): (outcome: Outcome<Pair>)
    requires a.listing.Some? && i < |a.listing.value.turns| <= |a.listing.value.peers|
  {
    var turn, k := a.listing.value.turns[i], a.listing.value.peers[i];
    Adopt(turn.found, a.device, k.1, k.0, turn.id, a.now)
  }

  // The transaction an event commits or refuses, if it is one.
  ghost function Transaction(w: World, e: Event): (op: Option<Operation>) {
    match e
    case Commit(op) => if Timely(w, op) && !op.OpInsertNetwork? then Some(op) else None
    case InsertCounted(t) => if t in w.creating then Some(Insertion(w.creating[t])) else None
    case AdoptNext(t, id) => if MayAdopt(w, t, id) then Some(NextAdoption(w.adopting[t], id)) else None
    case _ => None
  }

  // The event is ActOnPair's compare-and-swap, and its conditions match.
  ghost predicate Swapping(w: World, e: Event) {
    && e.Proceed? && e.thread in w.pending
    && w.pending[e.thread].phase.Ready?
    && Swap(w.db, w.pending[e.thread]).Committed?
  }

  // Only transactions and swaps change the database.
  lemma DbAfter(keyId: Key -> Id, w: World, e: Event)
    ensures Exec(keyId, w, e).db
            == if Transaction(w, e).Some? then Apply(keyId, w.db, Transaction(w, e).value)
               else if Swapping(w, e) then Swap(w.db, w.pending[e.thread]).db
               else w.db
  {
  }

  function Insertion(c: Creation): (op: Operation) { OpInsertNetwork(c.user, c.name, c.network) }

  function Swap(db: Db, p: Pending): (outcome: Outcome<Pair>)
    requires p.phase.Ready?
  {
    CompareAndSwap(db, p.call.pair, p.phase.row, p.phase.next)
  }

  ghost function Run(keyId: Key -> Id, w: World, events: seq<Event>): (v: World) {
    if events == [] then w
    else Exec(keyId, Run(keyId, w, events[..|events| - 1]), events[|events| - 1])
  }

  ghost function At(keyId: Key -> Id, events: seq<Event>, i: nat): (v: World)
    requires i <= |events|
  {
    Run(keyId, START, events[..i])
  }

  // ---- the invariant of a run ----

  ghost predicate HasRead(db: Db, id: Id, row: Pair) {
    id in db.pairs && RowEvolves(row, db.pairs[id])
  }

  // What the branches of ActOnPair checked before the swap, and still holds.
  ghost predicate Justified(keyId: Key -> Id, db: Db, call: Call, row: Pair, next: PairState) {
    && IsEnd(row, call.device)
    && (exists identified :: Move(call.action, row, call.device, identified) == Some(next))
    && (call.action == Confirm ==>
          row.target in db.devices && call.fingerprint == keyId(db.devices[row.target].publicKey))
    && (call.action != RevokePair ==> row.expires > call.now)
  }

  ghost predicate PendingHolds(keyId: Key -> Id, db: Db, p: Pending) {
    match p.phase
    case Entered => true
    case CallerRead => true
    case RowRead(row) => HasRead(db, p.call.pair, row) && IsEnd(row, p.call.device)
    case InitiatorOwned(row, _) => HasRead(db, p.call.pair, row) && IsEnd(row, p.call.device)
    case BothOwned(row) => HasRead(db, p.call.pair, row) && IsEnd(row, p.call.device)
    case Ready(row, next) => HasRead(db, p.call.pair, row) && Justified(keyId, db, p.call, row, next)
    case Swapped(row) => HasRead(db, p.call.pair, row) && IsEnd(row, p.call.device)
    case Rechecked(row) => HasRead(db, p.call.pair, row) && IsEnd(row, p.call.device)
  }

  ghost predicate Inv(keyId: Key -> Id, w: World) {
    && Consistent(w.db) && PendingsHold(keyId, w.db, w.clock, w.pending)
    && AdoptionsHold(w.db, w.clock, w.adopting)
  }

  // A turn found a consistent state, no older than the query's, and what it left
  // has only moved forward since.
  ghost predicate TurnHolds(db: Db, a: AdoptCall, i: nat)
    requires a.listing.Some? && i < |a.listing.value.turns| <= |a.listing.value.peers|
  {
    var turn := a.listing.value.turns[i];
    && Consistent(turn.found) && turn.id !in turn.found.pairs
    && Evolves(a.listing.value.queried, turn.found)
    && Evolves(After(turn.found, TurnOutcome(a, i)), db)
  }

  ghost predicate ListingHolds(db: Db, a: AdoptCall)
    requires a.listing.Some?
  {
    var l := a.listing.value;
    && Consistent(l.queried) && Evolves(l.queried, db)
    && a.device in l.queried.devices && Lists(l.peers, l.queried, a.device)
    && |l.turns| <= |l.peers| && TurnsHold(db, a) && TurnsInOrder(a)
  }

  ghost predicate AdoptionsHold(db: Db, clock: int, adopting: map<nat, AdoptCall>) {
    forall t :: t in adopting ==>
      adopting[t].now <= clock && (adopting[t].listing.Some? ==> ListingHolds(db, adopting[t]))
  }

  ghost predicate PendingsHold(keyId: Key -> Id, db: Db, clock: int, pending: map<nat, Pending>) {
    forall t :: t in pending ==> PendingHolds(keyId, db, pending[t]) && pending[t].call.now <= clock
  }

  lemma PendingSurvives(keyId: Key -> Id, a: Db, b: Db, p: Pending)
    requires Evolves(a, b) && PendingHolds(keyId, a, p)
    ensures PendingHolds(keyId, b, p)
  {
  }

  lemma NextPhaseHolds(keyId: Key -> Id, db: Db, p: Pending)
    requires PendingHolds(keyId, db, p) && NextPhase(keyId, db, p).Some?
    ensures PendingHolds(keyId, db, p.(phase := NextPhase(keyId, db, p).value))
  {
  }

  lemma MovesAlongEdge(action: Action, row: Pair, device: Id, identified: bool)
    requires Move(action, row, device, identified).Some?
    ensures Open(row.state) && Edge(row.state, Move(action, row, device, identified).value)
  {
  }

  lemma SwapKeeps(keyId: Key -> Id, db: Db, p: Pending)
    requires Consistent(db) && PendingHolds(keyId, db, p) && p.phase.Ready?
    ensures Consistent(After(db, Swap(db, p))) && Advances(db, After(db, Swap(db, p)))
  {
    var Ready(row, next) := p.phase;
    var identified :| Move(p.call.action, row, p.call.device, identified) == Some(next);
    MovesAlongEdge(p.call.action, row, p.call.device, identified);
    assert Swap(db, p) == CompareAndSwap(db, p.call.pair, row, next);
    CompareAndSwapKeepsSchema(db, p.call.pair, row, next);
    CompareAndSwapKeepsAuthority(db, p.call.pair, row, next);
    CompareAndSwapAdvances(db, p.call.pair, row, next);
  }

  // The row a swap writes is the one its call goes on with.
  lemma SwapIsRead(keyId: Key -> Id, db: Db, p: Pending)
    requires PendingHolds(keyId, db, p) && p.phase.Ready? && Swap(db, p).Committed?
    ensures PendingHolds(keyId, Swap(db, p).db, p.(phase := Swapped(Swap(db, p).value)))
  {
  }

  lemma ExecKeeps(keyId: Key -> Id, w: World, e: Event)
    requires Inv(keyId, w)
    ensures Inv(keyId, Exec(keyId, w, e))
    ensures Advances(w.db, Exec(keyId, w, e).db)
    ensures w.clock <= Exec(keyId, w, e).clock
  {
    DbKeeps(keyId, w, e);
    PendingKeeps(keyId, w, e);
    AdoptionsKeep(keyId, w, e);
  }

  // The listings made so far stay as good as they were.
  lemma ListingSurvives(a: Db, b: Db, call: AdoptCall)
    requires Evolves(a, b) && call.listing.Some? && ListingHolds(a, call)
    ensures ListingHolds(b, call)
  {
    var l := call.listing.value;
    EvolvesTransitive(l.queried, a, b);
    forall i | 0 <= i < |l.turns| ensures TurnHolds(b, call, i) {
      assert TurnHolds(a, call, i);
      EvolvesTransitive(After(l.turns[i].found, TurnOutcome(call, i)), a, b);
    }
  }

  ghost predicate TurnsHold(db: Db, a: AdoptCall)
    requires a.listing.Some? && |a.listing.value.turns| <= |a.listing.value.peers|
  {
    forall i :: 0 <= i < |a.listing.value.turns| ==> TurnHolds(db, a, i)
  }

  ghost predicate TurnsInOrder(a: AdoptCall)
    requires a.listing.Some? && |a.listing.value.turns| <= |a.listing.value.peers|
  {
    forall i, j :: 0 <= i < j < |a.listing.value.turns| ==>
      Evolves(After(a.listing.value.turns[i].found, TurnOutcome(a, i)), a.listing.value.turns[j].found)
  }

  // A turn more leaves the earlier ones as they were.
  lemma EarlierTurns(call: AdoptCall, turn: Turn, i: nat)
    requires Turning(call) && i < |call.listing.value.turns|
    ensures Adopted(call, turn).listing.value.turns[i] == call.listing.value.turns[i]
    ensures TurnOutcome(Adopted(call, turn), i) == TurnOutcome(call, i)
  {
  }

  lemma MoreTurnsHold(a: Db, b: Db, call: AdoptCall, id: Id)
    requires Turning(call) && TurnsHold(b, call) && Evolves(call.listing.value.queried, a)
    requires Consistent(a) && id !in a.pairs && b == After(a, NextOutcome(a, call, id))
    ensures TurnsHold(b, Adopted(call, Turn(a, id)))
  {
    var next, n := Adopted(call, Turn(a, id)), |call.listing.value.turns|;
    AdvancesReflexive(b);
    StepsEvolve(b, b);
    forall i | 0 <= i <= n ensures TurnHolds(b, next, i) {
      if i < n {
        EarlierTurns(call, Turn(a, id), i);
        assert TurnHolds(b, call, i);
      }
    }
  }

  lemma MoreTurnsInOrder(a: Db, call: AdoptCall, id: Id)
    requires Turning(call) && TurnsHold(a, call) && TurnsInOrder(call)
    ensures TurnsInOrder(Adopted(call, Turn(a, id)))
  {
    var next, n := Adopted(call, Turn(a, id)), |call.listing.value.turns|;
    forall i, j | 0 <= i < j <= n
      ensures Evolves(After(next.listing.value.turns[i].found, TurnOutcome(next, i)), next.listing.value.turns[j].found)
    {
      EarlierTurns(call, Turn(a, id), i);
      assert TurnHolds(a, call, i);
      if j < n {
        EarlierTurns(call, Turn(a, id), j);
      }
    }
  }

  // A turn more, whose transaction leads from `a` to `b`.
  lemma TurnIsHeld(a: Db, b: Db, call: AdoptCall, id: Id)
    requires Turning(call) && ListingHolds(a, call) && Consistent(a) && Evolves(a, b) && id !in a.pairs
    requires b == After(a, NextOutcome(a, call, id))
    ensures ListingHolds(b, Adopted(call, Turn(a, id)))
  {
    ListingSurvives(a, b, call);
    MoreTurnsHold(a, b, call, id);
    MoreTurnsInOrder(a, call, id);
  }

  lemma AdoptionsSurvive(a: Db, b: Db, clock: int, later: int, adopting: map<nat, AdoptCall>)
    requires Evolves(a, b) && clock <= later && AdoptionsHold(a, clock, adopting)
    ensures AdoptionsHold(b, later, adopting)
  {
    forall t | t in adopting && adopting[t].listing.Some? ensures ListingHolds(b, adopting[t]) {
      ListingSurvives(a, b, adopting[t]);
    }
  }

  // Which adoptions an event changes.
  ghost predicate AdoptingAfter(w: World, v: World, e: Event) {
    match e
    case EnterAdoption(t, device, reading) =>
      || v.adopting == w.adopting
      || (reading <= w.clock && v.adopting == w.adopting[t := AdoptCall(device, reading, None)])
    case ListPeers(t, peers) =>
      || v.adopting == w.adopting
      || (&& MayList(w, t, peers) && v.db == w.db
          && v.adopting == w.adopting[t := w.adopting[t].(listing := Some(Listing(w.db, peers, [])))])
    case AdoptNext(t, id) =>
      || v.adopting == w.adopting
      || (&& MayAdopt(w, t, id) && v.db == After(w.db, NextOutcome(w.db, w.adopting[t], id))
          && v.adopting == w.adopting[t := Adopted(w.adopting[t], Turn(w.db, id))])
    case ReturnAdopted(t) => v.adopting == w.adopting - {t} || v.adopting == w.adopting
    case _ => v.adopting == w.adopting
  }

  lemma AdoptingIsAfter(keyId: Key -> Id, w: World, e: Event)
    ensures AdoptingAfter(w, Exec(keyId, w, e), e)
  {
    if e.AdoptNext? && MayAdopt(w, e.thread, e.id) {
      var a := w.adopting[e.thread];
      assert Apply(keyId, w.db, NextAdoption(a, e.id)) == After(w.db, NextOutcome(w.db, a, e.id));
    }
  }

  lemma AdoptionsStep(w: World, v: World, e: Event)
    requires AdoptingAfter(w, v, e) && Evolves(w.db, v.db) && w.clock <= v.clock
    requires Consistent(w.db) && AdoptionsHold(w.db, w.clock, w.adopting)
    ensures AdoptionsHold(v.db, v.clock, v.adopting)
  {
    AdoptionsSurvive(w.db, v.db, w.clock, v.clock, w.adopting);
    if e.ListPeers? && v.adopting != w.adopting {
      NewListingHolds(w.db, w.adopting[e.thread], e.peers);
    } else if e.AdoptNext? && v.adopting != w.adopting {
      TurnIsHeld(w.db, v.db, w.adopting[e.thread], e.id);
    }
  }

  lemma NewListingHolds(db: Db, a: AdoptCall, peers: seq<(Id, Id)>)
    requires Consistent(db) && a.device in db.devices && Lists(peers, db, a.device)
    ensures ListingHolds(db, a.(listing := Some(Listing(db, peers, []))))
  {
    AdvancesReflexive(db);
    StepsEvolve(db, db);
  }

  lemma AdoptionsKeep(keyId: Key -> Id, w: World, e: Event)
    requires Inv(keyId, w) && Advances(w.db, Exec(keyId, w, e).db)
    ensures var v := Exec(keyId, w, e); AdoptionsHold(v.db, v.clock, v.adopting)
  {
    StepsEvolve(w.db, Exec(keyId, w, e).db);
    ClockAdvances(keyId, w, e);
    AdoptingIsAfter(keyId, w, e);
    AdoptionsStep(w, Exec(keyId, w, e), e);
  }

  // No transaction of a run reads a clock that is still to come.
  lemma TransactionsAreTimely(keyId: Key -> Id, w: World, e: Event)
    requires Inv(keyId, w) && Transaction(w, e).Some?
    ensures Timely(w, Transaction(w, e).value)
  {
  }

  lemma DbKeeps(keyId: Key -> Id, w: World, e: Event)
    requires Inv(keyId, w)
    ensures Consistent(Exec(keyId, w, e).db) && Advances(w.db, Exec(keyId, w, e).db)
  {
    DbAfter(keyId, w, e);
    if Transaction(w, e).Some? {
      ApplyKeeps(keyId, w.db, Transaction(w, e).value);
    } else if Swapping(w, e) {
      SwapKeeps(keyId, w.db, w.pending[e.thread]);
    } else {
      AdvancesReflexive(w.db);
    }
  }

  // What each call has read stays read, and the call that moves reads more.
  lemma PendingKeeps(keyId: Key -> Id, w: World, e: Event)
    requires PendingsHold(keyId, w.db, w.clock, w.pending) && Advances(w.db, Exec(keyId, w, e).db)
    ensures var v := Exec(keyId, w, e); PendingsHold(keyId, v.db, v.clock, v.pending) && w.clock <= v.clock
  {
    StepsEvolve(w.db, Exec(keyId, w, e).db);
    ClockAdvances(keyId, w, e);
    PendingIsAfter(keyId, w, e);
    PendingsStep(keyId, w, Exec(keyId, w, e), e);
  }

  lemma ClockAdvances(keyId: Key -> Id, w: World, e: Event)
    ensures w.clock <= Exec(keyId, w, e).clock
  {
  }

  // Which pending calls an event changes.
  ghost predicate PendingAfter(keyId: Key -> Id, w: World, v: World, e: Event) {
    match e
    case Enter(t, call) =>
      || v.pending == w.pending
      || (call.now <= w.clock && v.pending == w.pending[t := Pending(call, Entered)])
    case Proceed(t) =>
      if t in w.pending then v.db == Moved(keyId, w, t).db && v.pending == Moved(keyId, w, t).pending
      else v.pending == w.pending
    case _ => v.pending == w.pending
  }

  lemma PendingIsAfter(keyId: Key -> Id, w: World, e: Event)
    ensures PendingAfter(keyId, w, Exec(keyId, w, e), e)
  {
  }

  lemma PendingsStep(keyId: Key -> Id, w: World, v: World, e: Event)
    requires PendingAfter(keyId, w, v, e) && Evolves(w.db, v.db) && w.clock <= v.clock
    requires PendingsHold(keyId, w.db, w.clock, w.pending)
    ensures PendingsHold(keyId, v.db, v.clock, v.pending)
  {
    PendingsSurvive(keyId, w.db, v.db, w.clock, v.clock, w.pending);
    if e.Proceed? && e.thread in w.pending {
      MovedHolds(keyId, w, e.thread);
      forall t | t in v.pending ensures PendingHolds(keyId, v.db, v.pending[t]) && v.pending[t].call.now <= v.clock {
        assert t != e.thread ==> v.pending[t] == w.pending[t];
      }
    }
  }

  lemma PendingsSurvive(keyId: Key -> Id, a: Db, b: Db, clock: int, later: int, pending: map<nat, Pending>)
    requires Evolves(a, b) && clock <= later && PendingsHold(keyId, a, clock, pending)
    ensures PendingsHold(keyId, b, later, pending)
  {
    forall t | t in pending ensures PendingHolds(keyId, b, pending[t]) && pending[t].call.now <= later {
      PendingSurvives(keyId, a, b, pending[t]);
    }
  }

  // The call that moves keeps its reading, and holds what its new phase asks.
  lemma MovedHolds(keyId: Key -> Id, w: World, t: nat)
    requires t in w.pending && PendingHolds(keyId, w.db, w.pending[t])
    ensures var v := Moved(keyId, w, t);
            && (forall u :: u in v.pending && u != t ==> u in w.pending && v.pending[u] == w.pending[u])
            && (t in v.pending ==>
                  PendingHolds(keyId, v.db, v.pending[t]) && v.pending[t].call == w.pending[t].call)
  {
    if w.pending[t].phase.Ready? {
      if Swap(w.db, w.pending[t]).Committed? {
        SwapIsRead(keyId, w.db, w.pending[t]);
      }
    } else if NextPhase(keyId, w.db, w.pending[t]).Some? {
      NextPhaseHolds(keyId, w.db, w.pending[t]);
    }
  }

  lemma {:induction false} RunKeeps(keyId: Key -> Id, w: World, events: seq<Event>)
    requires Inv(keyId, w)
    ensures Inv(keyId, Run(keyId, w, events))
    ensures Evolves(w.db, Run(keyId, w, events).db)
    ensures w.clock <= Run(keyId, w, events).clock
  {
    if events == [] {
      StepsEvolve(w.db, w.db);
    } else {
      var before := Run(keyId, w, events[..|events| - 1]);
      RunKeeps(keyId, w, events[..|events| - 1]);
      ExecKeeps(keyId, before, events[|events| - 1]);
      StepsEvolve(before.db, Run(keyId, w, events).db);
      EvolvesTransitive(w.db, before.db, Run(keyId, w, events).db);
    }
  }

  lemma StartHolds(keyId: Key -> Id)
    ensures Inv(keyId, START)
  {
  }

  lemma Reachable(keyId: Key -> Id, events: seq<Event>, i: nat)
    requires i <= |events|
    ensures Inv(keyId, At(keyId, events, i))
  {
    StartHolds(keyId);
    RunKeeps(keyId, START, events[..i]);
  }

  lemma AtStep(keyId: Key -> Id, events: seq<Event>, i: nat)
    requires i < |events|
    ensures At(keyId, events, i + 1) == Exec(keyId, At(keyId, events, i), events[i])
  {
    assert events[..i + 1][..i] == events[..i];
  }

  lemma StepEvolves(keyId: Key -> Id, events: seq<Event>, i: nat)
    requires i < |events|
    ensures Evolves(At(keyId, events, i).db, At(keyId, events, i + 1).db)
    ensures At(keyId, events, i).clock <= At(keyId, events, i + 1).clock
  {
    Reachable(keyId, events, i);
    AtStep(keyId, events, i);
    ExecKeeps(keyId, At(keyId, events, i), events[i]);
    StepsEvolve(At(keyId, events, i).db, At(keyId, events, i + 1).db);
  }

  lemma {:induction false} LaterEvolves(keyId: Key -> Id, events: seq<Event>, i: nat, j: nat)
    requires i <= j <= |events|
    ensures Evolves(At(keyId, events, i).db, At(keyId, events, j).db)
    ensures At(keyId, events, i).clock <= At(keyId, events, j).clock
    decreases j
  {
    var first, last := At(keyId, events, i), At(keyId, events, j);
    if i == j {
      AdvancesReflexive(first.db);
      StepsEvolve(first.db, first.db);
    } else {
      LaterEvolves(keyId, events, i, j - 1);
      StepEvolves(keyId, events, j - 1);
      EvolvesTransitive(first.db, At(keyId, events, j - 1).db, last.db);
    }
  }

  // ---- reachable worlds, one event at a time ----

  ghost predicate Reached(keyId: Key -> Id, w: World) {
    exists events: seq<Event> :: Run(keyId, START, events) == w
  }

  lemma Then(keyId: Key -> Id, w: World, e: Event)
    requires Reached(keyId, w)
    ensures Reached(keyId, Exec(keyId, w, e))
  {
    var events: seq<Event> :| Run(keyId, START, events) == w;
    assert (events + [e])[..|events|] == events;
    assert Run(keyId, START, events + [e]) == Exec(keyId, w, e);
  }

  lemma ReachedHolds(keyId: Key -> Id, w: World)
    requires Reached(keyId, w)
    ensures Inv(keyId, w)
  {
    StartHolds(keyId);
    var events: seq<Event> :| Run(keyId, START, events) == w;
    RunKeeps(keyId, START, events);
  }
}
