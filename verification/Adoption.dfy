// AdoptNetwork: pair a device with every other device of its account that is
// bound to one of its networks.
module Adoption {
  import opened Wrappers
  import opened Tables
  import opened Transactions
  import opened StoreInvariants
  import opened StoreRuns
  import Contracts = StoreContracts

  // The peers adopted one transaction at a time; a peer whose transaction is
  // refused is skipped. `draw(i)` is the id drawn for the i-th peer.
  function AdoptAll(db: Db, device: Id, peers: seq<(Id, Id)>, draw: nat -> Id, now: int): (r: (Db, seq<(Id, Pair)>)) {
    if peers == [] then (db, [])
    else
      var n := |peers| - 1;
      var (current, adopted) := AdoptAll(db, device, peers[..n], draw, now);
      match Adopt(current, device, peers[n].1, peers[n].0, draw(n), now)
      case Committed(next, pair) => (next, adopted + [(draw(n), pair)])
      case Refused(_) => (current, adopted)
  }

  // ---- what the calls have in common ----

  // Only new pairs were added: those listed, active, begun by the device.
  ghost predicate AddsOnly(a: Db, b: Db, device: Id, adopted: seq<(Id, Pair)>) {
    && b == a.(pairs := b.pairs)
    && (forall p :: p in a.pairs ==> p in b.pairs && b.pairs[p] == a.pairs[p])
    && (forall p :: p in b.pairs && p !in a.pairs ==> (p, b.pairs[p]) in adopted)
    && (forall x :: x in adopted ==>
          && x.0 !in a.pairs && x.0 in b.pairs && b.pairs[x.0] == x.1
          && x.1.state == Active && x.1.initiator == device && x.1.revision == 1)
  }

  lemma AdoptAddsOne(a: Db, b: Db, device: Id, adopted: seq<(Id, Pair)>, target: Id, network: Id, id: Id, now: int)
    requires AddsOnly(a, b, device, adopted)
    ensures match Adopt(b, device, target, network, id, now)
            case Committed(next, pair) => AddsOnly(a, next, device, adopted + [(id, pair)])
            case Refused(_) => true
  {
  }

  lemma {:induction false} AdoptAllAddsOnly(db: Db, device: Id, peers: seq<(Id, Id)>, draw: nat -> Id, now: int)
    ensures var (after, adopted) := AdoptAll(db, device, peers, draw, now); AddsOnly(db, after, device, adopted)
  {
    if peers != [] {
      var n := |peers| - 1;
      AdoptAllAddsOnly(db, device, peers[..n], draw, now);
      var (current, adopted) := AdoptAll(db, device, peers[..n], draw, now);
      AdoptAddsOne(db, current, device, adopted, peers[n].1, peers[n].0, draw(n), now);
    }
  }

  // A selected peer passes every check of its transaction but the busy check:
  // the link to the owner, which the query does not ask for, is implied.
  lemma PeersAreCoOwned(db: Db, b: Db, device: Id, k: (Id, Id))
    requires Authority(db) && Admitted(db, device) && IsPeer(db, device, k)
    requires b == db.(pairs := b.pairs)
    ensures CoOwned(b, k.0, device, k.1)
  {
  }

  // The drawn ids are fresh: distinct, and no pair's id yet.
  ghost predicate FreshDraws(db: Db, draw: nat -> Id) {
    && (forall i :: draw(i) !in db.pairs)
    && (forall i, j :: i != j ==> draw(i) != draw(j))
  }

  ghost predicate DrawnFrom(adopted: seq<(Id, Pair)>, draw: nat -> Id, n: nat) {
    forall x :: x in adopted ==> exists i :: 0 <= i < n && x.0 == draw(i)
  }

  lemma {:induction false} AdoptAllDraws(db: Db, device: Id, peers: seq<(Id, Id)>, draw: nat -> Id, now: int)
    ensures DrawnFrom(AdoptAll(db, device, peers, draw, now).1, draw, |peers|)
  {
    if peers != [] {
      var n := |peers| - 1;
      AdoptAllDraws(db, device, peers[..n], draw, now);
      var (current, adopted) := AdoptAll(db, device, peers[..n], draw, now);
      forall x | x in adopted ensures exists i :: 0 <= i < |peers| && x.0 == draw(i) {
        var i :| 0 <= i < n && x.0 == draw(i);
        assert 0 <= i < |peers|;
      }
      assert draw(n) == draw(|peers| - 1);
    }
  }

  // The turn of a peer leaves it paired.
  lemma TurnPairs(db: Db, device: Id, peers: seq<(Id, Id)>, draw: nat -> Id, now: int)
    requires Authority(db) && Admitted(db, device) && FreshDraws(db, draw) && peers != []
    requires IsPeer(db, device, peers[|peers| - 1])
    ensures var n := |peers| - 1;
            PairingExists(AdoptAll(db, device, peers, draw, now).0, peers[n].0, device, peers[n].1, now)
  {
    var n := |peers| - 1;
    var current := AdoptAll(db, device, peers[..n], draw, now).0;
    AdoptAllAddsOnly(db, device, peers[..n], draw, now);
    AdoptAllDraws(db, device, peers[..n], draw, now);
    assert draw(n) !in current.pairs;
    PeersAreCoOwned(db, current, device, peers[n]);
    AdoptedOrBusy(current, device, peers[n], draw(n), now);
    LastTurn(db, device, peers, draw, now);
  }

  lemma LastTurn(db: Db, device: Id, peers: seq<(Id, Id)>, draw: nat -> Id, now: int)
    requires peers != []
    ensures var n := |peers| - 1;
            var current := AdoptAll(db, device, peers[..n], draw, now).0;
            AdoptAll(db, device, peers, draw, now).0
            == After(current, Adopt(current, device, peers[n].1, peers[n].0, draw(n), now))
  {
  }

  lemma {:induction false} EveryPeerIsPaired(db: Db, device: Id, peers: seq<(Id, Id)>, draw: nat -> Id, now: int,
                                             m: nat)
    requires Authority(db) && Admitted(db, device) && FreshDraws(db, draw)
    requires forall i :: 0 <= i < |peers| ==> IsPeer(db, device, peers[i])
    requires m < |peers|
    ensures PairingExists(AdoptAll(db, device, peers, draw, now).0, peers[m].0, device, peers[m].1, now)
  {
    var n := |peers| - 1;
    if m < n {
      EveryPeerIsPaired(db, device, peers[..n], draw, now, m);
      PairingPersists(AdoptAll(db, device, peers[..n], draw, now).0, device, peers[n], draw(n), now, peers[m]);
      LastTurn(db, device, peers, draw, now);
    } else {
      TurnPairs(db, device, peers, draw, now);
    }
  }

  lemma PairingPersists(db: Db, device: Id, k: (Id, Id), id: Id, now: int, other: (Id, Id))
    requires PairingExists(db, other.0, device, other.1, now)
    ensures PairingExists(After(db, Adopt(db, device, k.1, k.0, id, now)), other.0, device, other.1, now)
  {
    var p :| p in db.pairs && Joins(db.pairs[p], other.0, device, other.1) && LiveAt(db.pairs[p], now);
    var b := After(db, Adopt(db, device, k.1, k.0, id, now));
    assert p in b.pairs && b.pairs[p] == db.pairs[p];
  }

  lemma AdoptedOrBusy(db: Db, device: Id, k: (Id, Id), id: Id, now: int)
    requires CoOwned(db, k.0, device, k.1) && id !in db.pairs
    ensures PairingExists(After(db, Adopt(db, device, k.1, k.0, id, now)), k.0, device, k.1, now)
  {
    var b := After(db, Adopt(db, device, k.1, k.0, id, now));
    if !PairingExists(db, k.0, device, k.1, now) {
      assert id in b.pairs && Joins(b.pairs[id], k.0, device, k.1) && LiveAt(b.pairs[id], now);
    }
  }

  // An immediate repeat finds every peer paired and inserts nothing.
  lemma {:induction false} RepeatInsertsNothing(db: Db, device: Id, peers: seq<(Id, Id)>, draw: nat -> Id, now: int)
    requires forall i :: 0 <= i < |peers| ==> PairingExists(db, peers[i].0, device, peers[i].1, now)
    ensures AdoptAll(db, device, peers, draw, now) == (db, [])
  {
    if peers != [] {
      RepeatInsertsNothing(db, device, peers[..|peers| - 1], draw, now);
    }
  }

  // ---- AdoptNetwork ----

  lemma ListedArePeers(peers: seq<(Id, Id)>, db: Db, device: Id)
    requires device in db.devices && Lists(peers, db, device)
    ensures forall i :: 0 <= i < |peers| ==> IsPeer(db, device, peers[i])
  {
    forall i | 0 <= i < |peers| ensures IsPeer(db, device, peers[i]) {
      assert peers[i] in peers;
    }
  }

  predicate LivePairOf(db: Db, p: Id, network: Id, a: Id, b: Id, now: int) {
    p in db.pairs && Joins(db.pairs[p], network, a, b) && LiveAt(db.pairs[p], now)
  }

  ghost predicate AtMostOneLivePair(db: Db, network: Id, a: Id, b: Id, now: int) {
    forall p, q :: LivePairOf(db, p, network, a, b, now) && LivePairOf(db, q, network, a, b, now) ==> p == q
  }

  ghost predicate ExactlyOneLivePair(db: Db, network: Id, a: Id, b: Id, now: int) {
    PairingExists(db, network, a, b, now) && AtMostOneLivePair(db, network, a, b, now)
  }

  // An adoption never adds a second live pair, whichever two devices it joins.
  lemma AdoptKeepsAtMostOne(db: Db, device: Id, k: (Id, Id), id: Id, now: int, network: Id, a: Id, b: Id)
    requires AtMostOneLivePair(db, network, a, b, now)
    ensures AtMostOneLivePair(After(db, Adopt(db, device, k.1, k.0, id, now)), network, a, b, now)
  {
    var after := After(db, Adopt(db, device, k.1, k.0, id, now));
    forall p, q | LivePairOf(after, p, network, a, b, now) && LivePairOf(after, q, network, a, b, now) ensures p == q {
      assert p != id ==> p in db.pairs && LivePairOf(db, p, network, a, b, now);
      assert q != id ==> q in db.pairs && LivePairOf(db, q, network, a, b, now);
    }
  }

  lemma {:induction false} AdoptAllKeepsAtMostOne(db: Db, device: Id, peers: seq<(Id, Id)>, draw: nat -> Id, now: int,
                                                  network: Id, a: Id, b: Id)
    requires AtMostOneLivePair(db, network, a, b, now)
    ensures AtMostOneLivePair(AdoptAll(db, device, peers, draw, now).0, network, a, b, now)
  {
    if peers != [] {
      var n := |peers| - 1;
      AdoptAllKeepsAtMostOne(db, device, peers[..n], draw, now, network, a, b);
      AdoptKeepsAtMostOne(AdoptAll(db, device, peers[..n], draw, now).0, device, peers[n], draw(n), now, network, a, b);
    }
  }

  // The live pairs there were are still live: two of them stay two.
  lemma TwoStayTwo(a: Db, b: Db, device: Id, adopted: seq<(Id, Pair)>, network: Id, c: Id, d: Id, now: int)
    requires AddsOnly(a, b, device, adopted) && AtMostOneLivePair(b, network, c, d, now)
    ensures AtMostOneLivePair(a, network, c, d, now)
  {
    forall p, q | LivePairOf(a, p, network, c, d, now) && LivePairOf(a, q, network, c, d, now) ensures p == q {
      assert LivePairOf(b, p, network, c, d, now) && LivePairOf(b, q, network, c, d, now);
    }
  }

  ghost predicate Settled(before: Db, after: Db, device: Id, k: (Id, Id), now: int) {
    && PairingExists(after, k.0, device, k.1, now)
    && (ExactlyOneLivePair(after, k.0, device, k.1, now) <==> AtMostOneLivePair(before, k.0, device, k.1, now))
  }

  lemma PeerIsSettled(db: Db, device: Id, peers: seq<(Id, Id)>, draw: nat -> Id, now: int, k: (Id, Id))
    requires Authority(db) && Admitted(db, device) && FreshDraws(db, draw)
    requires k in peers && forall i :: 0 <= i < |peers| ==> IsPeer(db, device, peers[i])
    ensures Settled(db, AdoptAll(db, device, peers, draw, now).0, device, k, now)
  {
    var (after, adopted) := AdoptAll(db, device, peers, draw, now);
    AdoptAllAddsOnly(db, device, peers, draw, now);
    var m :| 0 <= m < |peers| && peers[m] == k;
    EveryPeerIsPaired(db, device, peers, draw, now, m);
    if AtMostOneLivePair(db, k.0, device, k.1, now) {
      AdoptAllKeepsAtMostOne(db, device, peers, draw, now, k.0, device, k.1);
    } else if AtMostOneLivePair(after, k.0, device, k.1, now) {
      TwoStayTwo(db, after, device, adopted, k.0, device, k.1, now);
    }
  }

  // After AdoptNetwork, in whatever order its query listed the peers: every peer
  // has a live pair with the caller in that network, and exactly one unless there
  // were already two; the result lists exactly the pairs inserted, nothing older
  // changed; and calling it again in the same second, with any ids and any order,
  // inserts nothing.
  lemma AdoptNetworkSettles(db: Db, device: Id, peers: seq<(Id, Id)>, draw: nat -> Id, now: int,
                            again: seq<(Id, Id)>, redraw: nat -> Id)
    requires Authority(db) && Admitted(db, device) && FreshDraws(db, draw)
    requires Lists(peers, db, device) && Lists(again, db, device)
    ensures var (after, adopted) := AdoptAll(db, device, peers, draw, now);
            && (forall k :: k in Peers(db, device) ==> Settled(db, after, device, k, now))
            && AddsOnly(db, after, device, adopted) && Peers(after, device) == Peers(db, device)
            && AdoptAll(after, device, again, redraw, now) == (after, [])
  {
    var (after, adopted) := AdoptAll(db, device, peers, draw, now);
    AdoptAllAddsOnly(db, device, peers, draw, now);
    ListedArePeers(peers, db, device);
    forall k | k in Peers(db, device) ensures Settled(db, after, device, k, now) {
      PeerIsSettled(db, device, peers, draw, now, k);
    }
    SamePeers(db, after, device);
    forall i | 0 <= i < |again| ensures PairingExists(after, again[i].0, device, again[i].1, now) {
      assert again[i] in again;
      assert Settled(db, after, device, again[i], now);
    }
    RepeatInsertsNothing(after, device, again, redraw, now);
  }

  lemma SamePeers(db: Db, after: Db, device: Id)
    requires device in db.devices && after == db.(pairs := after.pairs)
    ensures Peers(after, device) == Peers(db, device)
  {
  }

  // What is inserted was missing, and joins the device with a listed peer.
  lemma {:induction false} AdoptedWereListed(db: Db, device: Id, peers: seq<(Id, Id)>, draw: nat -> Id, now: int,
                                             x: (Id, Pair))
    requires x in AdoptAll(db, device, peers, draw, now).1
    ensures (x.1.network, x.1.target) in peers && !PairingExists(db, x.1.network, device, x.1.target, now)
    ensures x.1 == Pair(x.1.network, device, x.1.target, Active, now + PAIRING_SECONDS, 1)
  {
    var n := |peers| - 1;
    var (current, adopted) := AdoptAll(db, device, peers[..n], draw, now);
    if x in adopted {
      AdoptedWereListed(db, device, peers[..n], draw, now, x);
    } else {
      AdoptAllAddsOnly(db, device, peers[..n], draw, now);
      assert !PairingExists(current, peers[n].0, device, peers[n].1, now);
      StillRelated(db, current, device, peers[n], now);
    }
  }

  lemma StillRelated(a: Db, b: Db, device: Id, k: (Id, Id), now: int)
    requires forall p :: p in a.pairs ==> p in b.pairs && b.pairs[p] == a.pairs[p]
    ensures PairingExists(a, k.0, device, k.1, now) ==> PairingExists(b, k.0, device, k.1, now)
  {
    if PairingExists(a, k.0, device, k.1, now) {
      var p :| p in a.pairs && Joins(a.pairs[p], k.0, device, k.1) && LiveAt(a.pairs[p], now);
      assert p in b.pairs;
    }
  }

  // The call read off the tables: who belongs with the caller is paired with it, and
  // nothing else is.
  lemma NetworkIsAdopted(db: Db, device: Id, peers: seq<(Id, Id)>, draw: nat -> Id, now: int)
    requires Authority(db) && Admitted(db, device) && Lists(peers, db, device)
    ensures var (after, adopted) := AdoptAll(db, device, peers, draw, now);
            && Contracts.AdoptsPeers(db, after, Some(adopted), device, now)
            && (FreshDraws(db, draw) ==> Contracts.AllRelated(db, after, device, now))
  {
    var (after, adopted) := AdoptAll(db, device, peers, draw, now);
    AdoptAllAddsOnly(db, device, peers, draw, now);
    ListedArePeers(peers, db, device);
    forall x | x in adopted
      ensures Contracts.Together(db, x.1.network, device, x.1.target)
      ensures !Contracts.Related(db, x.1.network, device, x.1.target, now)
      ensures x.1 == Pair(x.1.network, device, x.1.target, Active, now + 300, 1)
    {
      AdoptedWereListed(db, device, peers, draw, now, x);
      Contracts.PeersAreTogether(db, device, (x.1.network, x.1.target));
      Contracts.RelatedAgrees(db, x.1.network, device, x.1.target, now);
    }
    if FreshDraws(db, draw) {
      forall network, peer | Contracts.Together(db, network, device, peer)
        ensures Contracts.Related(after, network, device, peer, now)
      {
        Contracts.PeersAreTogether(db, device, (network, peer));
        PeerIsSettled(db, device, peers, draw, now, (network, peer));
        Contracts.RelatedAgrees(after, network, device, peer, now);
      }
    }
  }

  // ---- interleaved with everything else ----

  // An adoption gets under way exactly for a caller, whose query finds exactly the
  // devices that belong together with it at that moment, in any order.
  lemma AdoptionStarts(keyId: Key -> Id, w: World, t: nat, device: Id, reading: int)
    requires t !in w.adopting && reading <= w.clock
    ensures var v := Exec(keyId, w, EnterAdoption(t, device, reading));
            && v.db == w.db
            && v.adopting == if Contracts.CallerOn(w.db, device) then w.adopting[t := AdoptCall(device, reading, None)]
                             else w.adopting
  {
  }

  lemma QueryFindsTheTogether(keyId: Key -> Id, w: World, t: nat, peers: seq<(Id, Id)>)
    requires t in w.adopting && w.adopting[t].listing.None? && w.adopting[t].device in w.db.devices
    requires forall k :: k in peers <==> Contracts.Together(w.db, k.0, w.adopting[t].device, k.1)
    ensures var v := Exec(keyId, w, ListPeers(t, peers));
            && v.db == w.db
            && v.adopting == w.adopting[t := w.adopting[t].(listing := Some(Listing(w.db, peers, [])))]
  {
    forall k ensures k in peers <==> k in Peers(w.db, w.adopting[t].device) {
      Contracts.PeersAreTogether(w.db, w.adopting[t].device, k);
    }
  }

  // One adoption as an event of a run: whatever ran since the query, the two
  // devices have a live pair after it exactly when they had one before it or still
  // both acted for one owner at that moment.
  lemma TurnSettlesOrIsUnauthorized(keyId: Key -> Id, w: World, e: Event)
    requires Transaction(w, e).Some? && Transaction(w, e).value.OpAdopt?
    requires Transaction(w, e).value.id !in w.db.pairs
    ensures var OpAdopt(device, target, network, id, now) := Transaction(w, e).value;
            PairingExists(Exec(keyId, w, e).db, network, device, target, now) <==>
              CoOwned(w.db, network, device, target) || PairingExists(w.db, network, device, target, now)
  {
    var op := Transaction(w, e).value;
    DbAfter(keyId, w, e);
    assert Apply(keyId, w.db, op) == After(w.db, Adopt(w.db, op.sender, op.target, op.network, op.id, op.now));
    TurnSettles(w.db, op.sender, (op.network, op.target), op.id, op.now);
  }

  lemma TurnSettles(db: Db, device: Id, k: (Id, Id), id: Id, now: int)
    requires id !in db.pairs
    ensures PairingExists(After(db, Adopt(db, device, k.1, k.0, id, now)), k.0, device, k.1, now) <==>
              CoOwned(db, k.0, device, k.1) || PairingExists(db, k.0, device, k.1, now)
  {
    if CoOwned(db, k.0, device, k.1) {
      AdoptedOrBusy(db, device, k, id, now);
    }
  }

  // What a turn owes its peer: a pair that was live right after it and has only
  // moved forward since. It owes none exactly when the two devices had no live pair
  // and no longer acted for one owner at the moment of the turn.
  ghost predicate Resolved(db: Db, a: AdoptCall, i: nat)
    requires a.listing.Some? && i < |a.listing.value.turns| <= |a.listing.value.peers|
  {
    var k, found := a.listing.value.peers[i], a.listing.value.turns[i].found;
    RelatedSince(After(found, TurnOutcome(a, i)), db, k.0, a.device, k.1, a.now)
    <==> || (Contracts.ActsIn(found, k.0, a.device) && Contracts.ActsIn(found, k.0, k.1))
         || Contracts.Related(found, k.0, a.device, k.1, a.now)
  }

  // A pair of the two that was live in `a` has only moved forward up to `b`.
  ghost predicate RelatedSince(a: Db, b: Db, network: Id, device: Id, peer: Id, now: int) {
    exists p :: && p in a.pairs && Contracts.RowOf(a.pairs[p], network, device, peer)
                && Contracts.RowLive(a.pairs[p], now) && p in b.pairs && RowEvolves(a.pairs[p], b.pairs[p])
  }

  lemma RelatedStays(a: Db, b: Db, network: Id, device: Id, peer: Id, now: int)
    requires Evolves(a, b)
    ensures RelatedSince(a, b, network, device, peer, now) <==> PairingExists(a, network, device, peer, now)
  {
    Contracts.RelatedAgrees(a, network, device, peer, now);
    if Contracts.Related(a, network, device, peer, now) {
      var p :| p in a.pairs && Contracts.RowOf(a.pairs[p], network, device, peer)
               && Contracts.RowLive(a.pairs[p], now);
      assert p in b.pairs && RowEvolves(a.pairs[p], b.pairs[p]);
    }
  }

  lemma TurnResolves(db: Db, a: AdoptCall, i: nat)
    requires a.listing.Some? && i < |a.listing.value.turns| <= |a.listing.value.peers| && TurnHolds(db, a, i)
    ensures Resolved(db, a, i)
  {
    var k, turn := a.listing.value.peers[i], a.listing.value.turns[i];
    TurnSettles(turn.found, a.device, k, turn.id, a.now);
    Contracts.OwnersAgree(turn.found, k.0, a.device, k.1);
    Contracts.RelatedAgrees(turn.found, k.0, a.device, k.1, a.now);
    RelatedStays(After(turn.found, TurnOutcome(a, i)), db, k.0, a.device, k.1, a.now);
  }

  // When AdoptNetwork returns, whatever ran between its query and its turns, every
  // device that belonged together with the caller when it asked has had a turn, and
  // that turn is resolved.
  lemma EveryPeerIsResolved(keyId: Key -> Id, events: seq<Event>, n: nat, t: nat, k: (Id, Id)) returns (i: nat)
    requires n <= |events| && t in At(keyId, events, n).adopting && Returning(At(keyId, events, n).adopting[t])
    requires var a := At(keyId, events, n).adopting[t];
             Contracts.Together(a.listing.value.queried, k.0, a.device, k.1)
    ensures var a := At(keyId, events, n).adopting[t];
            i < |a.listing.value.peers| && a.listing.value.peers[i] == k && Resolved(At(keyId, events, n).db, a, i)
  {
    Reachable(keyId, events, n);
    var a := At(keyId, events, n).adopting[t];
    assert ListingHolds(At(keyId, events, n).db, a);
    Contracts.PeersAreTogether(a.listing.value.queried, a.device, k);
    var m :| 0 <= m < |a.listing.value.peers| && a.listing.value.peers[m] == k;
    i := m;
    TurnResolves(At(keyId, events, n).db, a, i);
  }

  // The list it answers with: the rows its turns inserted, in order.
  function Answered(a: AdoptCall, n: nat): (rows: seq<(Id, Pair)>)
    requires a.listing.Some? && n <= |a.listing.value.turns| <= |a.listing.value.peers|
  {
    if n == 0 then []
    else
      match TurnOutcome(a, n - 1)
      case Committed(_, row) => Answered(a, n - 1) + [(a.listing.value.turns[n - 1].id, row)]
      case Refused(_) => Answered(a, n - 1)
  }

  // The turn inserted the row.
  predicate Inserts(a: AdoptCall, i: nat, x: (Id, Pair))
    requires a.listing.Some? && i < |a.listing.value.turns| <= |a.listing.value.peers|
  {
    TurnOutcome(a, i).Committed? && x == (a.listing.value.turns[i].id, TurnOutcome(a, i).value)
  }

  // An active pair begun by the caller, with a device that belonged together with it
  // at the query, under an id new since then; it has only moved forward since.
  ghost predicate InsertedSince(db: Db, a: AdoptCall, x: (Id, Pair))
    requires a.listing.Some?
  {
    && x.0 !in a.listing.value.queried.pairs && x.0 in db.pairs && RowEvolves(x.1, db.pairs[x.0])
    && x.1.state == Active && x.1.initiator == a.device && x.1.revision == 1
    && Contracts.Together(a.listing.value.queried, x.1.network, a.device, x.1.target)
  }

  ghost predicate FromTurn(a: AdoptCall, n: nat, x: (Id, Pair))
    requires a.listing.Some? && n <= |a.listing.value.turns| <= |a.listing.value.peers|
  {
    exists i :: 0 <= i < n && Inserts(a, i, x)
  }

  lemma TurnInserts(db: Db, a: AdoptCall, i: nat)
    requires a.listing.Some? && i < |a.listing.value.turns| <= |a.listing.value.peers| && TurnHolds(db, a, i)
    requires a.device in a.listing.value.queried.devices
    requires Lists(a.listing.value.peers, a.listing.value.queried, a.device)
    requires TurnOutcome(a, i).Committed?
    ensures InsertedSince(db, a, (a.listing.value.turns[i].id, TurnOutcome(a, i).value))
  {
    assert a.listing.value.peers[i] in a.listing.value.peers;
    Contracts.PeersAreTogether(a.listing.value.queried, a.device, a.listing.value.peers[i]);
  }

  lemma {:induction false} AnswersAreInsertions(a: AdoptCall, n: nat, x: (Id, Pair))
    requires a.listing.Some? && n <= |a.listing.value.turns| <= |a.listing.value.peers|
    ensures x in Answered(a, n) <==> FromTurn(a, n, x)
  {
    if n > 0 {
      AnswersAreInsertions(a, n - 1, x);
      if Inserts(a, n - 1, x) {
        assert x in Answered(a, n);
      }
      if FromTurn(a, n, x) {
        var i :| 0 <= i < n && Inserts(a, i, x);
        assert i == n - 1 || FromTurn(a, n - 1, x);
      }
    }
  }

  // What it answers with is exactly what its turns inserted, and all of that is new
  // since the query.
  lemma AnswerListsInsertions(keyId: Key -> Id, events: seq<Event>, n: nat, t: nat, x: (Id, Pair))
    requires n <= |events| && t in At(keyId, events, n).adopting && Returning(At(keyId, events, n).adopting[t])
    ensures var a, db := At(keyId, events, n).adopting[t], At(keyId, events, n).db;
            var m := |a.listing.value.turns|;
            && (x in Answered(a, m) <==> FromTurn(a, m, x))
            && (x in Answered(a, m) ==> InsertedSince(db, a, x))
  {
    Reachable(keyId, events, n);
    AnswerHolds(At(keyId, events, n).db, At(keyId, events, n).adopting[t], x);
  }

  lemma AnswerHolds(db: Db, a: AdoptCall, x: (Id, Pair))
    requires a.listing.Some? && ListingHolds(db, a)
    ensures var m := |a.listing.value.turns|;
            && (x in Answered(a, m) <==> FromTurn(a, m, x))
            && (x in Answered(a, m) ==> InsertedSince(db, a, x))
  {
    var m := |a.listing.value.turns|;
    AnswersAreInsertions(a, m, x);
    if FromTurn(a, m, x) {
      var i :| 0 <= i < m && Inserts(a, i, x);
      assert TurnHolds(db, a, i);
      TurnInserts(db, a, i);
    }
  }

  // No two turns insert a pair under one id.
  lemma InsertionsAreDistinct(keyId: Key -> Id, events: seq<Event>, n: nat, t: nat, i: nat, j: nat)
    requires n <= |events| && t in At(keyId, events, n).adopting && At(keyId, events, n).adopting[t].listing.Some?
    requires i < j < |At(keyId, events, n).adopting[t].listing.value.turns|
             <= |At(keyId, events, n).adopting[t].listing.value.peers|
    requires TurnOutcome(At(keyId, events, n).adopting[t], i).Committed?
    ensures var turns := At(keyId, events, n).adopting[t].listing.value.turns; turns[i].id != turns[j].id
  {
    Reachable(keyId, events, n);
    var a := At(keyId, events, n).adopting[t];
    assert ListingHolds(At(keyId, events, n).db, a) && TurnHolds(At(keyId, events, n).db, a, j);
    LaterTurnDiffers(a, i, j);
  }

  lemma LaterTurnDiffers(a: AdoptCall, i: nat, j: nat)
    requires a.listing.Some? && i < j < |a.listing.value.turns| <= |a.listing.value.peers|
    requires TurnOutcome(a, i).Committed? && a.listing.value.turns[j].id !in a.listing.value.turns[j].found.pairs
    requires Evolves(After(a.listing.value.turns[i].found, TurnOutcome(a, i)), a.listing.value.turns[j].found)
    ensures a.listing.value.turns[i].id != a.listing.value.turns[j].id
  {
  }

  // ---- the uninterrupted call is the run of its own steps ----

  // The first n turns, with nothing in between.
  ghost function Turns(keyId: Key -> Id, w: World, t: nat, draw: nat -> Id, n: nat): (v: World) {
    if n == 0 then w else Exec(keyId, Turns(keyId, w, t, draw, n - 1), AdoptNext(t, draw(n - 1)))
  }

  // After n turns from `w`, the store and the answer so far are those of AdoptAll.
  ghost predicate Reproduces(w: World, v: World, t: nat, draw: nat -> Id, n: nat) {
    && t in w.adopting && w.adopting[t].listing.Some? && n <= |w.adopting[t].listing.value.peers|
    && t in v.adopting && v.adopting[t].listing.Some?
    && var a, b := w.adopting[t], v.adopting[t];
       && b.device == a.device && b.now == a.now && b.listing.value.peers == a.listing.value.peers
       && |b.listing.value.turns| == n
       && (v.db, Answered(b, n)) == AdoptAll(w.db, a.device, a.listing.value.peers[..n], draw, a.now)
  }

  // With nothing in between, the turns adopt the peers one by one, and the answer is
  // the list of AdoptAll.
  lemma {:induction false} TurnsAreAdoptAll(keyId: Key -> Id, w: World, t: nat, draw: nat -> Id, n: nat)
    requires t in w.adopting && w.adopting[t].listing.Some? && w.adopting[t].listing.value.turns == []
    requires n <= |w.adopting[t].listing.value.peers| && FreshDraws(w.db, draw)
    ensures Reproduces(w, Turns(keyId, w, t, draw, n), t, draw, n)
  {
    if n == 0 {
      assert w.adopting[t].listing.value.peers[..0] == [];
    } else {
      var v := Turns(keyId, w, t, draw, n - 1);
      TurnsAreAdoptAll(keyId, w, t, draw, n - 1);
      NextIsFresh(w, v, t, draw, n - 1);
      OneMoreTurn(keyId, v, t, draw(n - 1));
      ReproducesStep(w, v, Turns(keyId, w, t, draw, n), t, draw, n - 1);
    }
  }

  lemma NextIsFresh(w: World, v: World, t: nat, draw: nat -> Id, n: nat)
    requires Reproduces(w, v, t, draw, n) && FreshDraws(w.db, draw)
    ensures draw(n) !in v.db.pairs
  {
    var a := w.adopting[t];
    var peers := a.listing.value.peers[..n];
    AdoptAllDraws(w.db, a.device, peers, draw, a.now);
    AdoptAllAddsOnly(w.db, a.device, peers, draw, a.now);
  }

  lemma ReproducesStep(w: World, v: World, u: World, t: nat, draw: nat -> Id, n: nat)
    requires Reproduces(w, v, t, draw, n) && Turning(v.adopting[t]) && TurnLeads(v, u, t, draw(n))
    ensures Reproduces(w, u, t, draw, n + 1)
  {
    var peers := w.adopting[t].listing.value.peers;
    assert peers[..n + 1][..n] == peers[..n] && peers[..n + 1][n] == peers[n];
  }

  // One more turn: the store moves by its transaction, and the answer by its row.
  ghost predicate TurnLeads(w: World, v: World, t: nat, id: Id)
    requires t in w.adopting && Turning(w.adopting[t])
  {
    var a := w.adopting[t];
    && v.db == After(w.db, NextOutcome(w.db, a, id))
    && v.adopting == w.adopting[t := Adopted(a, Turn(w.db, id))]
    && Answered(v.adopting[t], |a.listing.value.turns| + 1)
       == match NextOutcome(w.db, a, id)
          case Committed(_, row) => Answered(a, |a.listing.value.turns|) + [(id, row)]
          case Refused(_) => Answered(a, |a.listing.value.turns|)
  }

  lemma OneMoreTurn(keyId: Key -> Id, w: World, t: nat, id: Id)
    requires MayAdopt(w, t, id)
    ensures TurnLeads(w, Exec(keyId, w, AdoptNext(t, id)), t, id)
  {
    var a := w.adopting[t];
    assert Apply(keyId, w.db, NextAdoption(a, id)) == After(w.db, NextOutcome(w.db, a, id));
    AnsweredPrefix(a, Turn(w.db, id), |a.listing.value.turns|);
  }

  lemma {:induction false} AnsweredPrefix(a: AdoptCall, turn: Turn, n: nat)
    requires Turning(a) && n <= |a.listing.value.turns|
    ensures Answered(Adopted(a, turn), n) == Answered(a, n)
  {
    if n > 0 {
      AnsweredPrefix(a, turn, n - 1);
    }
  }
}
