// What is withdrawn stays withdrawn: over every later run, whatever is bound,
// enrolled or invited again.
module Withdrawals {
  import opened Tables
  import opened Transactions
  import opened StoreInvariants
  import opened StoreRuns
  import opened MembershipTheorems

  predicate OwnedBy(db: Db, pair: Pair, user: Id) {
    pair.network in db.networks && db.networks[pair.network].owner == user
  }

  // The event takes the device out of the network, or deletes the network.
  predicate Withdraws(db: Db, e: Event, network: Id, device: Id) {
    && e.Commit?
    && match e.op
       case OpUnbindDevice(user, n, d) => n == network && d == device && UnbindDevice(db, user, n, d).Committed?
       case OpDeleteNetwork(user, n) => n == network && DeleteNetwork(db, user, n).Committed?
       case _ => false
  }

  // What is gone of the device's place in the network.
  ghost predicate Taken(a: Db, b: Db, network: Id, device: Id) {
    && !Bound(b, network, device)
    && (forall p :: p in a.pairs && a.pairs[p].network == network && IsEnd(a.pairs[p], device) ==>
          p in b.pairs && !Open(b.pairs[p].state))
    && (forall s :: s in a.shares && a.shares[s].network == network && a.shares[s].device == device ==>
          s in b.shares && b.shares[s].used)
  }

  lemma UnbindingTakes(db: Db, user: Id, network: Id, device: Id)
    requires UnbindDevice(db, user, network, device).Committed?
    ensures Taken(db, UnbindDevice(db, user, network, device).db, network, device)
  {
  }

  lemma DeletionTakes(db: Db, user: Id, network: Id, device: Id)
    requires DeleteNetwork(db, user, network).Committed?
    ensures Taken(db, DeleteNetwork(db, user, network).db, network, device)
  {
  }

  // What it takes away at once.
  lemma WithdrawalTakes(keyId: Key -> Id, w: World, e: Event, network: Id, device: Id)
    requires Withdraws(w.db, e, network, device)
    ensures Taken(w.db, Exec(keyId, w, e).db, network, device)
  {
    DbAfter(keyId, w, e);
    match e.op
    case OpUnbindDevice(user, _, _) =>
      assert Apply(keyId, w.db, e.op) == After(w.db, UnbindDevice(w.db, user, network, device));
      UnbindingTakes(w.db, user, network, device);
    case OpDeleteNetwork(user, _) =>
      assert Apply(keyId, w.db, e.op) == After(w.db, DeleteNetwork(w.db, user, network));
      DeletionTakes(w.db, user, network, device);
  }

  // A share made before the device left its network never invites again, even
  // when the device comes back.
  lemma SharesDieWithMembership(keyId: Key -> Id, events: seq<Event>, i: nat, j: nat, nonce: Id)
    requires i < j < |events| && nonce in At(keyId, events, i).db.shares
    requires var share := At(keyId, events, i).db.shares[nonce];
             Withdraws(At(keyId, events, i).db, events[i], share.network, share.device)
    ensures !Invites(keyId, At(keyId, events, j), events[j], nonce)
  {
    AtStep(keyId, events, i);
    var share := At(keyId, events, i).db.shares[nonce];
    WithdrawalTakes(keyId, At(keyId, events, i), events[i], share.network, share.device);
    LaterEvolves(keyId, events, i + 1, j);
    UsedShareIsDead(keyId, At(keyId, events, j), events[j], nonce);
  }

  // Leaving a network closes every pair the device has there at once, and a pair
  // open later is a new one.
  lemma PairsDieWithMembership(keyId: Key -> Id, events: seq<Event>, i: nat, j: nat, network: Id, device: Id, id: Id)
    requires i < j <= |events| && Withdraws(At(keyId, events, i).db, events[i], network, device)
    requires id in At(keyId, events, i).db.pairs
    requires At(keyId, events, i).db.pairs[id].network == network && IsEnd(At(keyId, events, i).db.pairs[id], device)
    ensures id in At(keyId, events, j).db.pairs && !Open(At(keyId, events, j).db.pairs[id].state)
    ensures !Bound(At(keyId, events, i + 1).db, network, device)
  {
    AtStep(keyId, events, i);
    WithdrawalTakes(keyId, At(keyId, events, i), events[i], network, device);
    LaterEvolves(keyId, events, i + 1, j);
    var next := At(keyId, events, i + 1).db;
    assert id in next.pairs && !Open(next.pairs[id].state);
    assert RowEvolves(next.pairs[id], At(keyId, events, j).db.pairs[id]);
  }

  // A deleted network never has a member, an open pair or a usable token again.
  lemma DeletedNetworkStaysEmpty(keyId: Key -> Id, events: seq<Event>, i: nat, j: nat, network: Id)
    requires i <= j <= |events|
    requires network in At(keyId, events, i).db.networks && At(keyId, events, i).db.networks[network].deleted
    ensures var db := At(keyId, events, j).db;
            && Members(db, network) == {}
            && (forall p :: p in db.pairs && db.pairs[p].network == network ==> !Open(db.pairs[p].state))
            && (forall hash, now :: TokenScope(db, hash, now).Some? ==> TokenScope(db, hash, now).value.1 != network)
  {
    LaterEvolves(keyId, events, i, j);
    Reachable(keyId, events, j);
    var db := At(keyId, events, j).db;
    assert Authority(db) && db.networks[network].deleted;
    forall p | p in db.pairs && db.pairs[p].network == network ensures !Open(db.pairs[p].state) {
      assert Open(db.pairs[p].state) ==> Authorized(db, db.pairs[p]);
    }
  }

  // A revoked device never has an open pair again and is never admitted.
  lemma RevokedDeviceStaysOut(keyId: Key -> Id, events: seq<Event>, i: nat, j: nat, device: Id)
    requires i <= j <= |events|
    requires device in At(keyId, events, i).db.devices && At(keyId, events, i).db.devices[device].revoked
    ensures var db := At(keyId, events, j).db;
            && !Admitted(db, device)
            && (forall p :: p in db.pairs && IsEnd(db.pairs[p], device) ==> !Open(db.pairs[p].state))
            && (forall n :: BindingOwner(db, n, device).None?)
  {
    LaterEvolves(keyId, events, i, j);
    Reachable(keyId, events, j);
    var db := At(keyId, events, j).db;
    assert Authority(db) && db.devices[device].revoked;
    forall p | p in db.pairs && IsEnd(db.pairs[p], device) ensures !Open(db.pairs[p].state) {
      assert Open(db.pairs[p].state) ==> Authorized(db, db.pairs[p]);
    }
  }

  // A disabled account never has an open pair in its networks again, nor a
  // usable token, nor an admitted device of its own.
  lemma DisabledUserStaysOut(keyId: Key -> Id, events: seq<Event>, i: nat, j: nat, user: Id)
    requires i <= j <= |events|
    requires user in At(keyId, events, i).db.users && At(keyId, events, i).db.users[user].disabled
    ensures var db := At(keyId, events, j).db;
            && (forall p :: p in db.pairs && OwnedBy(db, db.pairs[p], user) ==> !Open(db.pairs[p].state))
            && (forall hash, now :: TokenScope(db, hash, now).Some? ==> TokenScope(db, hash, now).value.0 != user)
            && (forall d :: d in db.devices && db.devices[d].user == user ==> !Admitted(db, d))
  {
    LaterEvolves(keyId, events, i, j);
    Reachable(keyId, events, j);
    var db := At(keyId, events, j).db;
    assert Authority(db) && !Enabled(db, user);
    forall p | p in db.pairs && OwnedBy(db, db.pairs[p], user) ensures !Open(db.pairs[p].state) {
      assert Open(db.pairs[p].state) ==> Authorized(db, db.pairs[p]);
    }
  }
}
