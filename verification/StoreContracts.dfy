// What each operation of the store promises, read off the rows.
//
// One predicate per operation says when it succeeds and what the tables are
// afterwards. It is written over users, networks, devices and the other rows
// themselves, not over the queries and branches the operations are made of, so
// that each of those is checked against it. A refused operation changes nothing.
module StoreContracts {
  import opened Wrappers
  import opened Tables
  import opened Transactions
  import opened StoreInvariants
  import opened StoreCalls
  import opened Messages

  // ---- rows that stand ----

  predicate UserOn(db: Db, user: Id) { user in db.users && !db.users[user].disabled }

  predicate NetworkOn(db: Db, network: Id) {
    network in db.networks && !db.networks[network].deleted && UserOn(db, db.networks[network].owner)
  }

  predicate OwnNetwork(db: Db, user: Id, network: Id) {
    NetworkOn(db, network) && db.networks[network].owner == user
  }

  predicate DeviceOn(db: Db, device: Id) { device in db.devices && !db.devices[device].revoked }

  // A device that may call: its primary account is enabled too.
  predicate CallerOn(db: Db, device: Id) { DeviceOn(db, device) && UserOn(db, db.devices[device].user) }

  predicate BoundOn(db: Db, network: Id, device: Id) {
    (network, device) in db.bindings && db.bindings[(network, device)]
  }

  // The device acts in the network for the network's owner.
  predicate ActsIn(db: Db, network: Id, device: Id) {
    && NetworkOn(db, network) && DeviceOn(db, device) && BoundOn(db, network, device)
    && (device, db.networks[network].owner) in db.links
  }

  // The rows of active bindings of a network.
  function ActiveRows(db: Db, network: Id): (rows: set<(Id, Id)>) {
    set k | k in db.bindings && k.0 == network && db.bindings[k]
  }

  predicate HasRoom(db: Db, network: Id) {
    network in db.networks && |ActiveRows(db, network)| < db.networks[network].maxDevices
  }

  predicate TokenOn(db: Db, hash: string, now: int) {
    && hash in db.tokens && !db.tokens[hash].used && db.tokens[hash].expires > now
    && OwnNetwork(db, db.tokens[hash].user, db.tokens[hash].network)
  }

  // The row is active, or an unfinished invitation before its deadline.
  predicate RowLive(row: Pair, now: int) {
    row.state == Active || (row.state in {Invited, Approved} && now < row.expires)
  }

  predicate RowOf(row: Pair, network: Id, a: Id, b: Id) {
    row.network == network && ((row.initiator, row.target) == (a, b) || (row.initiator, row.target) == (b, a))
  }

  ghost predicate Related(db: Db, network: Id, a: Id, b: Id, now: int) {
    exists p :: p in db.pairs && RowOf(db.pairs[p], network, a, b) && RowLive(db.pairs[p], now)
  }

  // ---- rows that change ----

  // Exactly the rows that are hit become revoked, one revision on.
  ghost predicate Revoking(a: map<Id, Pair>, b: map<Id, Pair>, hit: Pair -> bool) {
    && b.Keys == a.Keys
    && forall p :: p in a ==>
         b[p] == if hit(a[p]) then a[p].(state := Revoked, revision := a[p].revision + 1) else a[p]
  }

  ghost predicate UsingTokens(a: map<string, Token>, b: map<string, Token>, hit: Token -> bool) {
    b.Keys == a.Keys && forall h :: h in a ==> b[h] == if hit(a[h]) then a[h].(used := true) else a[h]
  }

  ghost predicate UsingShares(a: map<Id, ShareRow>, b: map<Id, ShareRow>, hit: ShareRow -> bool) {
    b.Keys == a.Keys && forall s :: s in a ==> b[s] == if hit(a[s]) then a[s].(used := true) else a[s]
  }

  predicate Unfinished(state: PairState) { state in {Invited, Approved, Active} }

  // ---- accounts and networks ----

  ghost predicate CreatesUser(a: Db, b: Db, ok: bool, user: Id) {
    && (ok <==> user !in a.users)
    && b == if ok then a.(users := a.users[user := User(false)]) else a
  }

  ghost predicate CreatesNetwork(a: Db, b: Db, ok: bool, user: Id, name: string, network: Id) {
    && (ok <==> UserOn(a, user) && network !in a.networks
                && |set n | n in a.networks && a.networks[n].owner == user && !a.networks[n].deleted| < 2)
    && b == if ok then a.(networks := a.networks[network := Network(user, name, false, 10)]) else a
  }

  ghost predicate ChangesLimit(a: Db, b: Db, ok: bool, user: Id, network: Id, limit: int) {
    && (ok <==> OwnNetwork(a, user, network) && (limit == 10 || limit == 20 || limit == 30))
    && b == if ok then a.(networks := a.networks[network := a.networks[network].(maxDevices := limit)]) else a
  }

  ghost predicate DeletesNetwork(a: Db, b: Db, ok: bool, user: Id, network: Id) {
    && (ok <==> OwnNetwork(a, user, network))
    && (!ok ==> b == a)
    && (ok ==>
          && b == a.(networks := a.networks[network := a.networks[network].(deleted := true)], bindings := b.bindings,
                     tokens := b.tokens, shares := b.shares, pairs := b.pairs)
          && b.bindings.Keys == a.bindings.Keys
          && (forall k :: k in a.bindings ==> (b.bindings[k] <==> a.bindings[k] && k.0 != network))
          && UsingTokens(a.tokens, b.tokens, (token: Token) => token.network == network)
          && UsingShares(a.shares, b.shares, (share: ShareRow) => share.network == network)
          && Revoking(a.pairs, b.pairs, (row: Pair) => row.network == network && Unfinished(row.state)))
  }

  ghost predicate DisablesUser(a: Db, b: Db, ok: bool, user: Id) {
    && (ok <==> UserOn(a, user))
    && (!ok ==> b == a)
    && (ok ==>
          && b == a.(users := a.users[user := User(true)], pairs := b.pairs)
          && Revoking(a.pairs, b.pairs, (row: Pair) =>
                        row.network in a.networks && a.networks[row.network].owner == user && Unfinished(row.state)))
  }

  // ---- devices and certificates ----

  ghost predicate IssuesToken(a: Db, b: Db, ok: bool, user: Id, network: Id, hash: string, now: int) {
    && (ok <==> OwnNetwork(a, user, network) && hash !in a.tokens)
    && b == if ok then a.(tokens := a.tokens[hash := Token(user, network, now + 300, false)]) else a
  }

  // The request id is free for the machine of the key, which is on record or new.
  ghost predicate Enrollable(devices: map<Id, Device>, id: Id, key: Key, request: Id) {
    || (exists d :: OnRecord(devices, d, key) && RequestFree(devices, d, request))
    || ((forall d :: !OnRecord(devices, d, key)) && id !in devices && RequestFree(devices, id, request))
  }

  predicate OnRecord(devices: map<Id, Device>, device: Id, key: Key) {
    device in devices && devices[device].publicKey == key
  }

  ghost predicate RequestFree(devices: map<Id, Device>, device: Id, request: Id) {
    forall d :: d in devices && devices[d].requestId == request ==> d == device
  }

  // A machine on record keeps its id, account, certificate and revocation and takes
  // the new name and request id; a new one gets `id` and the new certificate. Either
  // way it is linked to the account and bound to the network.
  ghost predicate Registers(a: Db, b: Db, answer: (Id, Certificate), id: Id, key: Key, name: string,
                            certificate: Certificate, request: Id, user: Id, network: Id)
  {
    var d := answer.0;
    && (if OnRecord(a.devices, d, key)
        then answer.1 == a.devices[d].certificate
             && b.devices == a.devices[d := a.devices[d].(name := name, requestId := request)]
        else d == id && id !in a.devices && answer.1 == certificate && (forall e :: !OnRecord(a.devices, e, key))
             && b.devices == a.devices[id := Device(user, key, name, certificate, false, request)])
    && b.links == a.links + {(d, user)} && b.bindings == a.bindings[(network, d) := true]
  }

  ghost predicate Enrolls(a: Db, b: Db, r: Option<(Id, Certificate)>, id: Id, key: Key, name: string,
                          certificate: Certificate, request: Id, hash: string, now: int)
  {
    && (r.Some? <==>
          TokenOn(a, hash, now) && HasRoom(a, a.tokens[hash].network) && Enrollable(a.devices, id, key, request))
    && (r.None? ==> b == a)
    && (r.Some? ==>
          && Registers(a, b, r.value, id, key, name, certificate, request, a.tokens[hash].user, a.tokens[hash].network)
          && b == a.(devices := b.devices, links := b.links, bindings := b.bindings,
                     tokens := a.tokens[hash := a.tokens[hash].(used := true)]))
  }

  ghost predicate JoinsNetwork(a: Db, b: Db, r: Option<(Id, Certificate)>, id: Id, key: Key, name: string,
                               certificate: Certificate, request: Id, network: Id)
  {
    && (r.Some? <==> NetworkOn(a, network) && HasRoom(a, network) && Enrollable(a.devices, id, key, request))
    && (r.None? ==> b == a)
    && (r.Some? ==>
          && Registers(a, b, r.value, id, key, name, certificate, request, a.networks[network].owner, network)
          && b == a.(devices := b.devices, links := b.links, bindings := b.bindings))
  }

  // The certificate is stored for the request and becomes the device's own.
  function Certified(db: Db, device: Id, request: Id, certificate: Certificate): (after: Db)
    requires device in db.devices
  {
    db.(renewals := db.renewals[(device, request) := certificate],
        devices := db.devices[device := db.devices[device].(certificate := certificate)])
  }

  // Renewing needs the device's own key, and a certificate that is due unless the
  // request was answered before.
  ghost predicate Renews(a: Db, b: Db, r: Option<Certificate>, device: Id, key: Key, request: Id, due: bool,
                         certificate: Certificate)
  {
    && (r.Some? <==>
          CallerOn(a, device) && a.devices[device].publicKey == key && (due || (device, request) in a.renewals))
    && (r.None? ==> b == a)
    && (r.Some? ==>
          if (device, request) in a.renewals then r.value == a.renewals[(device, request)] && b == a
          else r.value == certificate && b == Certified(a, device, request, certificate))
  }

  // Recovering needs the device's own key, an expired certificate, a new request id,
  // and a usable token of an account the device is linked to and acts for in the
  // token's network.
  ghost predicate Recovers(a: Db, b: Db, r: Option<Certificate>, device: Id, key: Key, request: Id, hash: string,
                           expired: bool, certificate: Certificate, now: int)
  {
    && (r.Some? <==>
          && CallerOn(a, device) && a.devices[device].publicKey == key && expired && TokenOn(a, hash, now)
          && (device, a.tokens[hash].user) in a.links && ActsIn(a, a.tokens[hash].network, device)
          && (device, request) !in a.renewals)
    && (r.None? ==> b == a)
    && (r.Some? ==>
          && r.value == certificate
          && b == Certified(a.(tokens := a.tokens[hash := a.tokens[hash].(used := true)]), device, request,
                            certificate))
  }

  ghost predicate RevokesDevice(a: Db, b: Db, ok: bool, device: Id) {
    && (ok <==> DeviceOn(a, device))
    && (!ok ==> b == a)
    && (ok ==>
          && b == a.(devices := a.devices[device := a.devices[device].(revoked := true)], pairs := b.pairs)
          && Revoking(a.pairs, b.pairs, (row: Pair) => row.initiator == device || row.target == device))
  }

  // ---- memberships ----

  // A device bound already is bound again whether or not there is room.
  ghost predicate BindsDevice(a: Db, b: Db, ok: bool, user: Id, network: Id, device: Id) {
    && (ok <==> OwnNetwork(a, user, network) && DeviceOn(a, device) && a.devices[device].user == user
                && (BoundOn(a, network, device) || HasRoom(a, network)))
    && b == if ok then a.(bindings := a.bindings[(network, device) := true]) else a
  }

  ghost predicate UnbindsDevice(a: Db, b: Db, ok: bool, user: Id, network: Id, device: Id) {
    && (ok <==> OwnNetwork(a, user, network) && ActsIn(a, network, device))
    && (!ok ==> b == a)
    && (ok ==>
          && b == a.(bindings := a.bindings[(network, device) := false], shares := b.shares, pairs := b.pairs)
          && UsingShares(a.shares, b.shares, (share: ShareRow) => share.network == network && share.device == device)
          && Revoking(a.pairs, b.pairs, (row: Pair) =>
                        row.network == network && (row.initiator == device || row.target == device)
                        && Unfinished(row.state)))
  }

  // ---- pairs ----

  ghost predicate DeletesPair(a: Db, b: Db, ok: bool, user: Id, network: Id, pair: Id) {
    && (ok <==> OwnNetwork(a, user, network) && pair in a.pairs && a.pairs[pair].network == network
                && Unfinished(a.pairs[pair].state))
    && (!ok ==> b == a)
    && (ok ==>
          && pair in b.pairs && b == a.(pairs := a.pairs[pair := b.pairs[pair]])
          && b.pairs[pair] == a.pairs[pair].(state := Revoked, revision := a.pairs[pair].revision + 1))
  }

  ghost predicate Shares(me: Identity, a: Db, b: Db, r: Option<Share>, device: Id, network: Id, nonce: Id, now: int) {
    && (r.Some? <==> CallerOn(a, device) && ActsIn(a, network, device) && nonce !in a.shares)
    && (r.None? ==> b == a)
    && (r.Some? ==>
          && b == a.(shares := a.shares[nonce := ShareRow(device, network, now + 300, false)])
          && r.value.(signature := "") == Share(1, me.serviceId, network, device, me.keyId(a.devices[device].publicKey),
                                                nonce, now + 300, "")
          && r.value.signature == me.sign(SignedShare(r.value.(signature := ""))))
  }

  // Inviting needs a share of another device, signed by this service over that
  // device's own key, unused and unexpired, and no live pair between the two.
  ghost predicate InvitesDevice(me: Identity, a: Db, b: Db, r: Option<Pair>, sender: Id, share: Share, id: Id,
                                now: int)
  {
    var target, network := share.deviceId, share.networkId;
    && (r.Some? <==>
          && CallerOn(a, sender) && CallerOn(a, target) && sender != target
          && share.version == 1 && share.serviceId == me.serviceId
          && share.fingerprint == me.keyId(a.devices[target].publicKey)
          && me.verify(SignedShare(share), share.signature)
          && now < share.expiresAt <= now + 300
          && ActsIn(a, network, sender) && ActsIn(a, network, target)
          && !Related(a, network, sender, target, now)
          && share.nonce in a.shares && a.shares[share.nonce] == ShareRow(target, network, share.expiresAt, false)
          && id !in a.pairs)
    && (r.None? ==> b == a)
    && (r.Some? ==>
          && r.value == Pair(network, sender, target, Invited, now + 300, 1)
          && b == a.(pairs := a.pairs[id := r.value],
                     shares := a.shares[share.nonce := ShareRow(target, network, share.expiresAt, true)]))
  }

  ghost predicate Adopts(a: Db, b: Db, r: Option<Pair>, initiator: Id, target: Id, network: Id, id: Id, now: int) {
    && (r.Some? <==>
          && ActsIn(a, network, initiator) && ActsIn(a, network, target)
          && !Related(a, network, initiator, target, now) && id !in a.pairs)
    && (r.None? ==> b == a)
    && (r.Some? ==>
          r.value == Pair(network, initiator, target, Active, now + 300, 1) && b == a.(pairs := a.pairs[id := r.value]))
  }

  // Two devices of one primary account, both bound to a live network of that account,
  // of which the second is unrevoked.
  predicate Together(db: Db, network: Id, a: Id, b: Id) {
    && a != b && a in db.devices && DeviceOn(db, b) && db.devices[a].user == db.devices[b].user
    && OwnNetwork(db, db.devices[a].user, network) && BoundOn(db, network, a) && BoundOn(db, network, b)
  }

  // Only pairs that were missing are added, between such devices, and all of them
  // are listed.
  ghost predicate AdoptsPeers(a: Db, b: Db, r: Option<seq<(Id, Pair)>>, device: Id, now: int) {
    && (r.Some? <==> CallerOn(a, device))
    && (r.None? ==> b == a)
    && (r.Some? ==>
          && b == a.(pairs := b.pairs)
          && (forall p :: p in a.pairs ==> p in b.pairs && b.pairs[p] == a.pairs[p])
          && (forall p :: p in b.pairs && p !in a.pairs ==> (p, b.pairs[p]) in r.value)
          && forall x :: x in r.value ==>
               && x.0 !in a.pairs && x.0 in b.pairs && b.pairs[x.0] == x.1
               && x.1 == Pair(x.1.network, device, x.1.target, Active, now + 300, 1)
               && Together(a, x.1.network, device, x.1.target) && !Related(a, x.1.network, device, x.1.target, now))
  }

  // The device has a live pair with every device it belongs together with.
  ghost predicate AllRelated(a: Db, b: Db, device: Id, now: int) {
    forall network, peer :: Together(a, network, device, peer) ==> Related(b, network, device, peer, now)
  }

  // Which rows an action applies to, by whom, and how far it takes them.
  ghost predicate Applies(keyId: Key -> Id, db: Db, row: Pair, device: Id, action: Action, fingerprint: Id, now: int) {
    match action
    case Approve => row.target == device && row.state == Invited && now < row.expires
    case Reject => row.target == device && row.state == Invited && now < row.expires
    case Confirm =>
      && row.initiator == device && row.state == Approved && now < row.expires
      && CallerOn(db, row.target) && fingerprint == keyId(db.devices[row.target].publicKey)
    case RevokePair => (row.initiator == device || row.target == device) && row.state == Active
    case UnknownAction => false
  }

  // The state each action leaves.
  predicate Leads(action: Action, state: PairState) {
    match action
    case Approve => state == Approved
    case Reject => state == Rejected
    case Confirm => state == Active
    case RevokePair => state == Revoked
    case UnknownAction => false
  }

  ghost predicate ActsOnPair(keyId: Key -> Id, a: Db, b: Db, r: Option<Pair>, device: Id, id: Id, action: Action,
                             fingerprint: Id, now: int)
  {
    && (r.Some? <==>
          && CallerOn(a, device) && id in a.pairs && Applies(keyId, a, a.pairs[id], device, action, fingerprint, now)
          && ActsIn(a, a.pairs[id].network, a.pairs[id].initiator)
          && ActsIn(a, a.pairs[id].network, a.pairs[id].target))
    && (r.None? ==> b == a)
    && (r.Some? ==>
          && Leads(action, r.value.state)
          && r.value == a.pairs[id].(state := r.value.state, revision := a.pairs[id].revision + 1)
          && b == a.(pairs := a.pairs[id := r.value]))
  }

  // ---- every operation keeps its promise ----

  function Value<T>(outcome: Outcome<T>): (r: Option<T>) {
    if outcome.Committed? then Some(outcome.value) else None
  }

  lemma {:induction false} SecondsOf(rows: set<(Id, Id)>, network: Id)
    requires forall k :: k in rows ==> k.0 == network
    ensures |set k | k in rows :: k.1| == |rows|
  {
    if rows != {} {
      var x :| x in rows;
      SecondsOf(rows - {x}, network);
      assert (set k | k in rows :: k.1) == (set k | k in rows - {x} :: k.1) + {x.1};
      assert x.1 !in (set k | k in rows - {x} :: k.1) by {
        assert forall k :: k in rows - {x} ==> k == (network, k.1);
      }
    }
  }

  // Devices are counted by their active rows.
  lemma RoomIsCounted(db: Db, network: Id)
    ensures |Members(db, network)| == |ActiveRows(db, network)|
  {
    SecondsOf(ActiveRows(db, network), network);
    assert Members(db, network) == set k | k in ActiveRows(db, network) :: k.1;
  }

  lemma OwnersAgree(db: Db, network: Id, a: Id, b: Id)
    ensures CoOwned(db, network, a, b) <==> ActsIn(db, network, a) && ActsIn(db, network, b)
  {
  }

  lemma RelatedAgrees(db: Db, network: Id, a: Id, b: Id, now: int)
    ensures Related(db, network, a, b, now) <==> PairingExists(db, network, a, b, now)
  {
    if Related(db, network, a, b, now) {
      var p :| p in db.pairs && RowOf(db.pairs[p], network, a, b) && RowLive(db.pairs[p], now);
      assert Joins(db.pairs[p], network, a, b) && LiveAt(db.pairs[p], now);
    }
    if PairingExists(db, network, a, b, now) {
      var p :| p in db.pairs && Joins(db.pairs[p], network, a, b) && LiveAt(db.pairs[p], now);
      assert RowOf(db.pairs[p], network, a, b) && RowLive(db.pairs[p], now);
    }
  }

  lemma UserIsCreated(db: Db, user: Id)
    ensures var o := CreateUser(db, user); CreatesUser(db, After(db, o), o.Committed?, user)
  {
  }

  lemma NetworkIsCreated(db: Db, user: Id, name: string, network: Id)
    ensures var o := CreateNetwork(db, user, name, network);
            CreatesNetwork(db, After(db, o), o.Committed?, user, name, network)
  {
    assert NetworksOf(db, user) == set n | n in db.networks && db.networks[n].owner == user && !db.networks[n].deleted;
  }

  lemma LimitIsChanged(db: Db, user: Id, network: Id, limit: int)
    ensures var o := UpdateNetworkLimit(db, user, network, limit);
            ChangesLimit(db, After(db, o), o.Committed?, user, network, limit)
  {
  }

  lemma NetworkIsDeleted(db: Db, user: Id, network: Id)
    ensures var o := DeleteNetwork(db, user, network); DeletesNetwork(db, After(db, o), o.Committed?, user, network)
  {
  }

  lemma UserIsDisabled(db: Db, user: Id)
    ensures var o := DisableUser(db, user); DisablesUser(db, After(db, o), o.Committed?, user)
  {
  }

  lemma TokenIsIssued(db: Db, user: Id, network: Id, hash: string, now: int)
    ensures var o := IssueToken(db, user, network, hash, now);
            IssuesToken(db, After(db, o), o.Committed?, user, network, hash, now)
  {
  }

  lemma MachineIsRegistered(db: Db, id: Id, key: Key, name: string, certificate: Certificate, request: Id,
                            user: Id, network: Id)
    requires UniqueColumns(db.devices)
    ensures var o := Register(db, id, key, name, certificate, request, user, network);
            && (o.Committed? <==> Enrollable(db.devices, id, key, request))
            && (o.Committed? ==> Registers(db, o.db, o.value, id, key, name, certificate, request, user, network))
  {
    match KnownDevice(db, key)
    case None => assert RequestTaken(db, request, id) <==> !RequestFree(db.devices, id, request);
    case Some(known) =>
      assert OnRecord(db.devices, known, key);
      assert RequestTaken(db, request, known) <==> !RequestFree(db.devices, known, request);
  }

  lemma MachineIsEnrolled(db: Db, id: Id, key: Key, name: string, certificate: Certificate, request: Id,
                          hash: string, now: int)
    requires UniqueColumns(db.devices)
    ensures var o := Enroll(db, id, key, name, certificate, request, hash, now);
            Enrolls(db, After(db, o), Value(o), id, key, name, certificate, request, hash, now)
  {
    if TokenOn(db, hash, now) {
      var user, network := db.tokens[hash].user, db.tokens[hash].network;
      RoomIsCounted(db, network);
      MachineIsRegistered(ConsumeToken(db, hash), id, key, name, certificate, request, user, network);
    }
  }

  lemma MachineJoins(db: Db, id: Id, key: Key, name: string, certificate: Certificate, request: Id, network: Id)
    requires UniqueColumns(db.devices)
    ensures var o := JoinNetwork(db, id, key, name, certificate, request, network);
            JoinsNetwork(db, After(db, o), Value(o), id, key, name, certificate, request, network)
  {
    if NetworkOn(db, network) {
      RoomIsCounted(db, network);
      MachineIsRegistered(db, id, key, name, certificate, request, db.networks[network].owner, network);
    }
  }

  lemma CertificateIsRenewed(db: Db, device: Id, key: Key, request: Id, due: bool, certificate: Certificate, now: int)
    ensures var o := RenewCertificate(db, device, key, request, due, certificate, now);
            Renews(db, After(db, o), Value(o), device, key, request, due, certificate)
  {
  }

  lemma CertificateIsRecovered(db: Db, device: Id, key: Key, request: Id, hash: string, expired: bool,
                               certificate: Certificate, now: int)
    ensures var o := RecoverCertificate(db, device, key, request, hash, expired, certificate, now);
            Recovers(db, After(db, o), Value(o), device, key, request, hash, expired, certificate, now)
  {
  }

  lemma DeviceIsRevoked(db: Db, device: Id)
    ensures var o := RevokeDevice(db, device); RevokesDevice(db, After(db, o), o.Committed?, device)
  {
  }

  lemma DeviceIsBound(db: Db, user: Id, network: Id, device: Id)
    ensures var o := BindDevice(db, user, network, device);
            BindsDevice(db, After(db, o), o.Committed?, user, network, device)
  {
    RoomIsCounted(db, network);
  }

  lemma DeviceIsUnbound(db: Db, user: Id, network: Id, device: Id)
    ensures var o := UnbindDevice(db, user, network, device);
            UnbindsDevice(db, After(db, o), o.Committed?, user, network, device)
  {
  }

  lemma PairIsDeleted(db: Db, user: Id, network: Id, pair: Id)
    ensures var o := DeletePair(db, user, network, pair);
            DeletesPair(db, After(db, o), o.Committed?, user, network, pair)
  {
  }

  lemma ShareIsMade(me: Identity, db: Db, device: Id, network: Id, nonce: Id, now: int)
    ensures var o := ShareDevice(me, db, device, network, nonce, now);
            Shares(me, db, After(db, o), Value(o), device, network, nonce, now)
  {
  }

  lemma DeviceIsInvited(me: Identity, db: Db, sender: Id, share: Share, id: Id, now: int)
    ensures var o := InviteDevice(me, db, sender, share, id, now);
            InvitesDevice(me, db, After(db, o), Value(o), sender, share, id, now)
  {
    OwnersAgree(db, share.networkId, sender, share.deviceId);
    RelatedAgrees(db, share.networkId, sender, share.deviceId, now);
  }

  lemma PeerIsAdopted(db: Db, initiator: Id, target: Id, network: Id, id: Id, now: int)
    ensures var o := Adopt(db, initiator, target, network, id, now);
            Adopts(db, After(db, o), Value(o), initiator, target, network, id, now)
  {
    OwnersAgree(db, network, initiator, target);
    RelatedAgrees(db, network, initiator, target, now);
  }

  lemma PeersAreTogether(db: Db, device: Id, k: (Id, Id))
    requires device in db.devices
    ensures k in Peers(db, device) <==> Together(db, k.0, device, k.1)
  {
  }

  lemma PairIsActedOn(keyId: Key -> Id, db: Db, device: Id, id: Id, action: Action, fingerprint: Id, now: int)
    ensures var o := ActOnPair(keyId, db, device, id, action, fingerprint, now);
            ActsOnPair(keyId, db, After(db, o), Value(o), device, id, action, fingerprint, now)
  {
    if id in db.pairs {
      OwnersAgree(db, db.pairs[id].network, db.pairs[id].initiator, db.pairs[id].target);
    }
  }
}
