// What holds of membership, capacity and single-use secrets over every run.
module MembershipTheorems {
  import opened Wrappers
  import opened Tables
  import opened Transactions
  import opened StoreInvariants
  import opened StoreSteps
  import opened StoreRuns
  import Contracts = StoreContracts

  // ---- the cheap queries agree with the guarded ones ----

  // sameNetwork reads bindings alone; in every reachable state it answers as if
  // it also asked for an undeleted network that links both devices to its owner.
  lemma SameNetworkIsGuarded(keyId: Key -> Id, events: seq<Event>, a: Id, b: Id)
    ensures var db := Run(keyId, START, events).db;
            SameNetwork(db, a, b) <==>
              exists n :: && Bound(db, n, a) && Bound(db, n, b)
                          && n in db.networks && !db.networks[n].deleted
                          && (a, db.networks[n].owner) in db.links && (b, db.networks[n].owner) in db.links
  {
    StartHolds(keyId);
    RunKeeps(keyId, START, events);
    var db := Run(keyId, START, events).db;
    assert Membership(db);
    if SameNetwork(db, a, b) {
      var k :| k in db.bindings && k.1 == a && db.bindings[k] && Bound(db, k.0, b);
      assert Bound(db, k.0, a);
    }
    if n :| Bound(db, n, a) && Bound(db, n, b) {
      assert (n, a) in db.bindings;
    }
  }

  // bindingOwner's deleted and device_users clauses never decide the answer.
  lemma BindingOwnerClausesAreImplied(keyId: Key -> Id, events: seq<Event>, n: Id, d: Id)
    ensures var db := Run(keyId, START, events).db;
            BindingOwner(db, n, d).Some? <==>
              && Bound(db, n, d) && n in db.networks && Enabled(db, db.networks[n].owner)
              && d in db.devices && !db.devices[d].revoked
  {
    StartHolds(keyId);
    RunKeeps(keyId, START, events);
    var db := Run(keyId, START, events).db;
    if Bound(db, n, d) {
      assert (n, d) in db.bindings;
    }
  }

  // ---- capacity ----

  // What one event may do to the active bindings: nothing new, or one more
  // device in a network that still had room.
  ghost predicate NoNewBindings(a: Db, b: Db) {
    forall n, d :: Bound(b, n, d) ==> Bound(a, n, d)
  }

  ghost predicate OneNewBinding(a: Db, b: Db) {
    exists n, d :: n in a.networks && Fits(a, n) && b.bindings == a.bindings[(n, d) := true]
  }

  lemma RegisterBinds(db: Db, id: Id, key: Key, name: string, certificate: Certificate,
                      request: Id, user: Id, network: Id)
    requires network in db.networks && Fits(db, network)
    requires Register(db, id, key, name, certificate, request, user, network).Committed?
    ensures OneNewBinding(db, Register(db, id, key, name, certificate, request, user, network).db)
  {
    var outcome := Register(db, id, key, name, certificate, request, user, network);
    assert outcome.db.bindings == db.bindings[(network, outcome.value.0) := true];
  }

  lemma EnrollBinds(db: Db, id: Id, key: Key, name: string, certificate: Certificate,
                    request: Id, hash: string, now: int)
    requires Enroll(db, id, key, name, certificate, request, hash, now).Committed?
    ensures OneNewBinding(db, Enroll(db, id, key, name, certificate, request, hash, now).db)
  {
  }

  lemma ApplyBindsWithinCapacity(keyId: Key -> Id, db: Db, op: Operation)
    ensures var b := Apply(keyId, db, op); NoNewBindings(db, b) || OneNewBinding(db, b)
  {
    match op
    case OpBindDevice(_, _, _) =>
    case OpEnroll(key, name, certificate, request, hash, now) =>
      if Enroll(db, keyId(key), key, name, certificate, request, hash, now).Committed? {
        EnrollBinds(db, keyId(key), key, name, certificate, request, hash, now);
      }
    case OpJoinNetwork(key, name, certificate, request, network) =>
      if JoinNetwork(db, keyId(key), key, name, certificate, request, network).Committed? {
        RegisterBinds(db, keyId(key), key, name, certificate, request, db.networks[network].owner, network);
      }
    case _ =>
      OtherBindings(keyId, db, op);
  }

  lemma OtherBindings(keyId: Key -> Id, db: Db, op: Operation)
    requires !op.OpBindDevice? && !op.OpEnroll? && !op.OpJoinNetwork?
    ensures NoNewBindings(db, Apply(keyId, db, op))
  {
    if !op.OpUnbindDevice? && !op.OpDeleteNetwork? {
      BindingsUntouched(keyId, db, op);
    }
  }

  lemma MembersShrink(a: Db, b: Db, n: Id)
    requires NoNewBindings(a, b)
    ensures |Members(b, n)| <= |Members(a, n)|
  {
    forall d | d in Members(b, n) ensures d in Members(a, n) {
      assert Bound(b, n, d) && Bound(a, n, d);
    }
    SubsetIsSmaller(Members(b, n), Members(a, n));
  }

  lemma MembersAfterBinding(a: Db, b: Db, m: Id, d: Id, n: Id)
    requires b.bindings == a.bindings[(m, d) := true]
    ensures Members(b, n) == if m == n then Members(a, n) + {d} else Members(a, n)
  {
  }

  lemma CountAfterBinding(a: Db, b: Db, n: Id)
    requires NoNewBindings(a, b) || OneNewBinding(a, b)
    ensures |Members(b, n)| <= |Members(a, n)|
            || (n in a.networks && Fits(a, n) && |Members(b, n)| == |Members(a, n)| + 1)
  {
    if NoNewBindings(a, b) {
      MembersShrink(a, b, n);
    } else {
      var m, d :| m in a.networks && Fits(a, m) && b.bindings == a.bindings[(m, d) := true];
      MembersAfterBinding(a, b, m, d, n);
    }
  }

  // The count never grows in a network that is at or above its limit.
  lemma CountGrowsOnlyBelowLimit(keyId: Key -> Id, events: seq<Event>, i: nat, n: Id)
    requires i < |events|
    ensures var a, b := At(keyId, events, i).db, At(keyId, events, i + 1).db;
            |Members(b, n)| <= |Members(a, n)|
            || (n in a.networks && Fits(a, n) && |Members(b, n)| == |Members(a, n)| + 1)
  {
    AtStep(keyId, events, i);
    var w, b := At(keyId, events, i), At(keyId, events, i + 1).db;
    DbAfter(keyId, w, events[i]);
    if Transaction(w, events[i]).Some? {
      ApplyBindsWithinCapacity(keyId, w.db, Transaction(w, events[i]).value);
    } else {
      assert b.bindings == w.db.bindings;
    }
    CountAfterBinding(w.db, b, n);
  }

  // In every state, a network's active devices number at most some limit it has
  // had so far, even when the limit was lowered in between.
  lemma {:induction false} CountWithinSomePastLimit(keyId: Key -> Id, events: seq<Event>, i: nat, n: Id)
    returns (j: nat)
    requires i <= |events| && n in At(keyId, events, i).db.networks
    ensures j <= i && n in At(keyId, events, j).db.networks
    ensures |Members(At(keyId, events, i).db, n)| <= At(keyId, events, j).db.networks[n].maxDevices
  {
    j := i;
    if i > 0 && |Members(At(keyId, events, i).db, n)| > At(keyId, events, i).db.networks[n].maxDevices {
      CountGrowsOnlyBelowLimit(keyId, events, i - 1, n);
      if n in At(keyId, events, i - 1).db.networks {
        var a := At(keyId, events, i - 1).db;
        if |Members(At(keyId, events, i).db, n)| <= |Members(a, n)| {
          j := CountWithinSomePastLimit(keyId, events, i - 1, n);
        } else {
          j := i - 1;
        }
      } else {
        NewNetworkIsEmpty(keyId, events, i - 1, n);
        LimitsHold(keyId, events, i, n);
      }
    }
  }

  lemma NewNetworkIsEmpty(keyId: Key -> Id, events: seq<Event>, i: nat, n: Id)
    requires i <= |events| && n !in At(keyId, events, i).db.networks
    ensures Members(At(keyId, events, i).db, n) == {}
  {
    Reachable(keyId, events, i);
  }

  lemma LimitsHold(keyId: Key -> Id, events: seq<Event>, i: nat, n: Id)
    requires i <= |events| && n in At(keyId, events, i).db.networks
    ensures 0 <= At(keyId, events, i).db.networks[n].maxDevices <= 30
  {
    Reachable(keyId, events, i);
  }

  // Hence never more than the largest selectable limit.
  lemma CountNeverExceedsThirty(keyId: Key -> Id, events: seq<Event>, i: nat, n: Id)
    requires i <= |events| && n in At(keyId, events, i).db.networks
    ensures |Members(At(keyId, events, i).db, n)| <= 30
  {
    var j := CountWithinSomePastLimit(keyId, events, i, n);
    LimitsHold(keyId, events, j, n);
  }

  // ---- single-use secrets ----

  ghost predicate Invites(keyId: Key -> Id, w: World, e: Event, nonce: Id) {
    && e.Commit? && e.op.OpInvite? && e.op.nonce == nonce && Timely(w, e.op)
    && Invite(w.db, e.op.sender, e.op.target, e.op.network, nonce, e.op.expires, e.op.id, e.op.now).Committed?
  }

  // The event enrols a device, or recovers a certificate, with the token.
  ghost predicate Redeems(keyId: Key -> Id, w: World, e: Event, hash: string) {
    && e.Commit? && Timely(w, e.op)
    && (|| (e.op.OpEnroll? && e.op.hash == hash
            && Enroll(w.db, keyId(e.op.key), e.op.key, e.op.name, e.op.certificate,
                      e.op.request, hash, e.op.now).Committed?)
        || (e.op.OpReplaceCertificate? && e.op.token == Some(hash)
            && ReplaceCertificate(w.db, e.op.device, e.op.request, e.op.token,
                                  e.op.certificate, e.op.now).Committed?))
  }

  lemma InvitationUsesShare(keyId: Key -> Id, w: World, e: Event, nonce: Id)
    requires Invites(keyId, w, e, nonce)
    ensures nonce in Exec(keyId, w, e).db.shares && Exec(keyId, w, e).db.shares[nonce].used
  {
  }

  lemma UsedShareIsDead(keyId: Key -> Id, w: World, e: Event, nonce: Id)
    requires nonce in w.db.shares && w.db.shares[nonce].used
    ensures !Invites(keyId, w, e, nonce)
  {
  }

  lemma NonceInvitesOnce(keyId: Key -> Id, events: seq<Event>, i: nat, j: nat, nonce: Id)
    requires i < j < |events| && Invites(keyId, At(keyId, events, i), events[i], nonce)
    ensures !Invites(keyId, At(keyId, events, j), events[j], nonce)
  {
    AtStep(keyId, events, i);
    InvitationUsesShare(keyId, At(keyId, events, i), events[i], nonce);
    LaterEvolves(keyId, events, i + 1, j);
    UsedShareIsDead(keyId, At(keyId, events, j), events[j], nonce);
  }

  lemma EnrollUsesToken(db: Db, id: Id, key: Key, name: string, certificate: Certificate,
                        request: Id, hash: string, now: int)
    requires Enroll(db, id, key, name, certificate, request, hash, now).Committed?
    ensures var b := Enroll(db, id, key, name, certificate, request, hash, now).db;
            hash in b.tokens && b.tokens[hash].used
  {
  }

  lemma RedemptionUsesToken(keyId: Key -> Id, w: World, e: Event, hash: string)
    requires Redeems(keyId, w, e, hash)
    ensures hash in Exec(keyId, w, e).db.tokens && Exec(keyId, w, e).db.tokens[hash].used
  {
    var op := e.op;
    if op.OpEnroll? {
      EnrollUsesToken(w.db, keyId(op.key), op.key, op.name, op.certificate, op.request, hash, op.now);
    }
  }

  lemma UsedTokenIsDead(keyId: Key -> Id, w: World, e: Event, hash: string)
    requires hash in w.db.tokens && w.db.tokens[hash].used
    ensures !Redeems(keyId, w, e, hash)
  {
  }

  lemma TokenRedeemsOnce(keyId: Key -> Id, events: seq<Event>, i: nat, j: nat, hash: string)
    requires i < j < |events| && Redeems(keyId, At(keyId, events, i), events[i], hash)
    ensures !Redeems(keyId, At(keyId, events, j), events[j], hash)
  {
    AtStep(keyId, events, i);
    RedemptionUsesToken(keyId, At(keyId, events, i), events[i], hash);
    LaterEvolves(keyId, events, i + 1, j);
    UsedTokenIsDead(keyId, At(keyId, events, j), events[j], hash);
  }

  // ---- key-derived identity ----

  ghost predicate KeyDerived(keyId: Key -> Id, devices: map<Id, Device>) {
    forall d :: d in devices ==> d == keyId(devices[d].publicKey)
  }

  lemma RegisterKeyDerived(keyId: Key -> Id, db: Db, key: Key, name: string, certificate: Certificate,
                           request: Id, user: Id, network: Id)
    requires UniqueColumns(db.devices) && KeyDerived(keyId, db.devices)
    ensures var outcome := Register(db, keyId(key), key, name, certificate, request, user, network);
            outcome.Committed? ==> SameMachine(keyId(key), db, outcome) && KeyDerived(keyId, outcome.db.devices)
  {
    if Enlist(db, keyId(key), key, name, certificate, request, user).Committed? {
      var device, row := EnlistWrites(db, keyId(key), key, name, certificate, request, user);
    }
  }

  // The device registered is `id`; if it was known, its account, revocation and
  // certificate are the ones it had.
  ghost predicate SameMachine(id: Id, db: Db, outcome: Outcome<(Id, Certificate)>)
    requires outcome.Committed?
  {
    && outcome.value.0 == id && id in outcome.db.devices
    && (id in db.devices ==>
          && outcome.db.devices[id].revoked == db.devices[id].revoked
          && outcome.db.devices[id].user == db.devices[id].user
          && outcome.value.1 == db.devices[id].certificate)
  }

  lemma EnrollKeyDerived(keyId: Key -> Id, db: Db, key: Key, name: string, certificate: Certificate,
                         request: Id, hash: string, now: int)
    requires UniqueColumns(db.devices) && KeyDerived(keyId, db.devices)
    ensures var outcome := Enroll(db, keyId(key), key, name, certificate, request, hash, now);
            outcome.Committed? ==> SameMachine(keyId(key), db, outcome) && KeyDerived(keyId, outcome.db.devices)
  {
    var scope := TokenScope(db, hash, now);
    if scope.Some? && Fits(db, scope.value.1) {
      RegisterKeyDerived(keyId, ConsumeToken(db, hash), key, name, certificate, request, scope.value.0, scope.value.1);
    }
  }

  // No other transaction adds a device or changes a key.
  lemma KeysUntouched(keyId: Key -> Id, db: Db, op: Operation)
    requires !op.OpEnroll? && !op.OpJoinNetwork?
    ensures var b := Apply(keyId, db, op);
            b.devices.Keys == db.devices.Keys
            && forall d :: d in db.devices ==> b.devices[d].publicKey == db.devices[d].publicKey
  {
    match op
    case OpRevokeDevice(device) => RevocationKeepsKeys(db, device);
    case OpReplaceCertificate(device, request, token, certificate, now) =>
      ReplacementKeepsKeys(db, device, request, token, certificate, now);
    case _ => DevicesUntouched(keyId, db, op);
  }

  lemma RevocationKeepsKeys(db: Db, device: Id)
    ensures var b := After(db, RevokeDevice(db, device));
            b.devices.Keys == db.devices.Keys
            && forall d :: d in db.devices ==> b.devices[d].publicKey == db.devices[d].publicKey
  {
  }

  lemma ReplacementKeepsKeys(db: Db, device: Id, request: Id, hash: Option<string>, certificate: Certificate, now: int)
    ensures var b := After(db, ReplaceCertificate(db, device, request, hash, certificate, now));
            b.devices.Keys == db.devices.Keys
            && forall d :: d in db.devices ==> b.devices[d].publicKey == db.devices[d].publicKey
  {
  }

  lemma ApplyKeyDerived(keyId: Key -> Id, db: Db, op: Operation)
    requires UniqueColumns(db.devices) && KeyDerived(keyId, db.devices)
    ensures KeyDerived(keyId, Apply(keyId, db, op).devices)
  {
    match op
    case OpEnroll(key, name, certificate, request, hash, now) =>
      assert Apply(keyId, db, op) == After(db, Enroll(db, keyId(key), key, name, certificate, request, hash, now));
      EnrollKeyDerived(keyId, db, key, name, certificate, request, hash, now);
    case OpJoinNetwork(key, name, certificate, request, network) =>
      assert Apply(keyId, db, op) == After(db, JoinNetwork(db, keyId(key), key, name, certificate, request, network));
      JoinKeyDerived(keyId, db, key, name, certificate, request, network);
    case _ => KeysUntouched(keyId, db, op);
  }

  lemma JoinKeyDerived(keyId: Key -> Id, db: Db, key: Key, name: string, certificate: Certificate,
                       request: Id, network: Id)
    requires UniqueColumns(db.devices) && KeyDerived(keyId, db.devices)
    ensures KeyDerived(keyId, After(db, JoinNetwork(db, keyId(key), key, name, certificate, request, network)).devices)
  {
    if LiveNetwork(db, network) {
      RegisterKeyDerived(keyId, db, key, name, certificate, request, db.networks[network].owner, network);
    }
  }

  lemma ExecKeyDerived(keyId: Key -> Id, w: World, e: Event)
    requires UniqueColumns(w.db.devices) && KeyDerived(keyId, w.db.devices)
    ensures KeyDerived(keyId, Exec(keyId, w, e).db.devices)
  {
    DbAfter(keyId, w, e);
    if Transaction(w, e).Some? {
      ApplyKeyDerived(keyId, w.db, Transaction(w, e).value);
    } else if Swapping(w, e) {
      assert Swap(w.db, w.pending[e.thread]).db.devices == w.db.devices;
    }
  }

  lemma {:induction false} RunKeyDerived(keyId: Key -> Id, events: seq<Event>)
    ensures KeyDerived(keyId, Run(keyId, START, events).db.devices)
  {
    if events != [] {
      var earlier := events[..|events| - 1];
      RunKeyDerived(keyId, earlier);
      StartHolds(keyId);
      RunKeeps(keyId, START, earlier);
      ExecKeyDerived(keyId, Run(keyId, START, earlier), events[|events| - 1]);
    }
  }

  lemma DevicesAreKeyDerived(keyId: Key -> Id, events: seq<Event>, i: nat)
    requires i <= |events|
    ensures KeyDerived(keyId, At(keyId, events, i).db.devices)
    ensures UniqueColumns(At(keyId, events, i).db.devices)
  {
    Reachable(keyId, events, i);
    RunKeyDerived(keyId, events[..i]);
  }

  // One machine is one device: in every reachable state, enrolling a key under
  // any account answers with the id derived from that key, keeps its row, and
  // never revives a revoked device.
  lemma EnrollmentKeepsIdentity(keyId: Key -> Id, events: seq<Event>, i: nat, key: Key, name: string,
                                certificate: Certificate, request: Id, hash: string, now: int)
    requires i <= |events|
    ensures var db := At(keyId, events, i).db;
            var outcome := Enroll(db, keyId(key), key, name, certificate, request, hash, now);
            outcome.Committed? ==> SameMachine(keyId(key), db, outcome)
  {
    DevicesAreKeyDerived(keyId, events, i);
    EnrollKeyDerived(keyId, At(keyId, events, i).db, key, name, certificate, request, hash, now);
  }

  // And so does joining a network by its id.
  lemma JoiningKeepsIdentity(keyId: Key -> Id, events: seq<Event>, i: nat, key: Key, name: string,
                             certificate: Certificate, request: Id, network: Id)
    requires i <= |events|
    ensures var db := At(keyId, events, i).db;
            var outcome := JoinNetwork(db, keyId(key), key, name, certificate, request, network);
            outcome.Committed? ==> SameMachine(keyId(key), db, outcome)
  {
    DevicesAreKeyDerived(keyId, events, i);
    var db := At(keyId, events, i).db;
    if LiveNetwork(db, network) {
      RegisterKeyDerived(keyId, db, key, name, certificate, request, db.networks[network].owner, network);
    }
  }

  // The id of the key is not another key's, and the request id no other device's.
  ghost predicate MayTake(keyId: Key -> Id, devices: map<Id, Device>, key: Key, request: Id) {
    && (keyId(key) in devices ==> devices[keyId(key)].publicKey == key)
    && forall d :: d in devices && devices[d].requestId == request ==> d == keyId(key)
  }

  // The machine of a key on record keeps its account, certificate and revocation
  // and takes the name and the request id; a new one is entered as it came.
  ghost predicate Recorded(a: Db, b: Db, answer: (Id, Certificate), device: Id, entry: Device) {
    var known := device in a.devices;
    var row := if known then a.devices[device].(name := entry.name, requestId := entry.requestId) else entry;
    && answer == (device, row.certificate) && b.devices == a.devices[device := row]
    && b.pairs == a.pairs && b.networks == a.networks && b.users == a.users
  }

  lemma EnrollableExactly(keyId: Key -> Id, devices: map<Id, Device>, key: Key, request: Id)
    requires KeyDerived(keyId, devices)
    ensures Contracts.Enrollable(devices, keyId(key), key, request) <==> MayTake(keyId, devices, key, request)
  {
    var id := keyId(key);
    if Contracts.OnRecord(devices, id, key) {
      assert Contracts.RequestFree(devices, id, request) ==> Contracts.Enrollable(devices, id, key, request);
    } else {
      assert forall d :: !Contracts.OnRecord(devices, d, key);
    }
  }

  // In every reachable state, enrolling a key succeeds exactly with a usable token,
  // room in its network, and an id and a request id that are free for the key,
  // whether or not its machine is on record; and it leaves the machine recorded.
  lemma EnrollmentSucceedsExactly(keyId: Key -> Id, events: seq<Event>, i: nat, key: Key, name: string,
                                  certificate: Certificate, request: Id, hash: string, now: int)
    requires i <= |events|
    ensures var db := At(keyId, events, i).db;
            var outcome := Enroll(db, keyId(key), key, name, certificate, request, hash, now);
            && (outcome.Committed? <==>
                  && Contracts.TokenOn(db, hash, now) && Contracts.HasRoom(db, db.tokens[hash].network)
                  && MayTake(keyId, db.devices, key, request))
            && (outcome.Committed? ==>
                  Recorded(db, outcome.db, outcome.value, keyId(key),
                           Device(db.tokens[hash].user, key, name, certificate, false, request)))
  {
    var db := At(keyId, events, i).db;
    DevicesAreKeyDerived(keyId, events, i);
    EnrollableExactly(keyId, db.devices, key, request);
    Contracts.MachineIsEnrolled(db, keyId(key), key, name, certificate, request, hash, now);
  }

  // And so does joining a live network with room.
  lemma JoiningSucceedsExactly(keyId: Key -> Id, events: seq<Event>, i: nat, key: Key, name: string,
                               certificate: Certificate, request: Id, network: Id)
    requires i <= |events|
    ensures var db := At(keyId, events, i).db;
            var outcome := JoinNetwork(db, keyId(key), key, name, certificate, request, network);
            && (outcome.Committed? <==>
                  && Contracts.NetworkOn(db, network) && Contracts.HasRoom(db, network)
                  && MayTake(keyId, db.devices, key, request))
            && (outcome.Committed? ==>
                  Recorded(db, outcome.db, outcome.value, keyId(key),
                           Device(db.networks[network].owner, key, name, certificate, false, request)))
  {
    var db := At(keyId, events, i).db;
    DevicesAreKeyDerived(keyId, events, i);
    EnrollableExactly(keyId, db.devices, key, request);
    Contracts.MachineJoins(db, keyId(key), key, name, certificate, request, network);
  }
}
