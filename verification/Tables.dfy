// The rows the coordinator persists, and the queries its operations run on them.
//
// A Db value is one committed state of the database. Primary keys are map keys;
// the UNIQUE columns and the foreign keys are part of StoreInvariants.Consistent.
module Tables {
  import opened Wrappers

  type Id = string
  type Key = string
  type Certificate = string

  datatype Error =
    | DeviceUnauthorized | DeviceAlreadyEnrolled | NetworkUnauthorized | NetworkFull
    | NetworkLimitReached | InvalidNetworkLimit | UserUnauthorized | UserNotFound
    | UserConflict | BindingUnauthorized | PairUnauthorized | PairingBusy | InvalidPairingCode
    | PairStateConflict | PairingExpired | IdentityMismatch | InvalidPairAction
    | InvalidEnrollmentToken | RequestConflict | CertificateNotExpired | RenewalNotDue
    | InvalidRequest | InvalidGeneration | PeerOffline | ConnectionBusy | LeaseExpired
    | PairRevoked | AttemptNotFound | ProtocolMismatch | ScopeMismatch | SignalExpired
    | InvalidPayload | ProtocolLimit | SignalLimit | SignalStateConflict | SdpBindingMismatch | Internal

  datatype User = User(disabled: bool)
  datatype Network = Network(owner: Id, name: string, deleted: bool, maxDevices: int)
  // `user` is the account the device was first enrolled under; every account it
  // reports to is a row of device_users.
  datatype Device = Device(user: Id, publicKey: Key, name: string, certificate: Certificate,
                           revoked: bool, requestId: Id)
  datatype Token = Token(user: Id, network: Id, expires: int, used: bool)
  datatype ShareRow = ShareRow(device: Id, network: Id, expires: int, used: bool)

  datatype PairState = Invited | Approved | Active | Rejected | Revoked
  datatype Pair = Pair(network: Id, initiator: Id, target: Id, state: PairState,
                       expires: int, revision: nat)

  datatype Db = Db(users: map<Id, User>,
                   networks: map<Id, Network>,
                   devices: map<Id, Device>,
                   links: set<(Id, Id)>,            // device_users: (device, user)
                   bindings: map<(Id, Id), bool>,   // (network, device) to active
                   tokens: map<string, Token>,      // by token digest
                   shares: map<Id, ShareRow>,       // by nonce
                   pairs: map<Id, Pair>,
                   renewals: map<(Id, Id), Certificate>)

  const EMPTY_DB := Db(map[], map[], map[], {}, map[], map[], map[], map[], map[])

  const DEFAULT_NETWORK_LIMIT := 10
  const ALLOWED_NETWORK_LIMITS := {10, 20, 30}
  const NETWORK_QUOTA := 2
  const PAIRING_SECONDS := 300

  // ---- queries ----

  predicate Enabled(db: Db, user: Id) {
    user in db.users && !db.users[user].disabled
  }

  // The row filter of Store.Device: unrevoked, and its primary account enabled.
  predicate Admitted(db: Db, device: Id) {
    && device in db.devices
    && !db.devices[device].revoked
    && Enabled(db, db.devices[device].user)
  }

  predicate LiveNetwork(db: Db, network: Id) {
    && network in db.networks
    && !db.networks[network].deleted
    && Enabled(db, db.networks[network].owner)
  }

  predicate NetworkOwned(db: Db, user: Id, network: Id) {
    LiveNetwork(db, network) && db.networks[network].owner == user
  }

  // An active row of the bindings table.
  predicate Bound(db: Db, network: Id, device: Id) {
    (network, device) in db.bindings && db.bindings[(network, device)]
  }

  // The owner a bound device acts for, or None when any guard of the query fails.
  function BindingOwner(db: Db, network: Id, device: Id): (owner: Option<Id>)
  {
    if && Bound(db, network, device)
       && LiveNetwork(db, network)
       && device in db.devices && !db.devices[device].revoked
       && (device, db.networks[network].owner) in db.links
    then Some(db.networks[network].owner)
    else None
  }

  predicate LinkedTo(db: Db, device: Id, user: Id) {
    (device, user) in db.links && Enabled(db, user)
  }

  // Both devices actively bound to one common network. The query reads the
  // bindings table alone: neither the network row nor the device rows.
  predicate SameNetwork(db: Db, a: Id, b: Id) {
    exists k :: k in db.bindings && k.1 == a && db.bindings[k] && Bound(db, k.0, b)
  }

  function Members(db: Db, network: Id): (members: set<Id>) {
    set k | k in db.bindings && k.0 == network && db.bindings[k] :: k.1
  }

  // The undeleted networks of an account.
  function NetworksOf(db: Db, user: Id): (networks: set<Id>) {
    set n | n in db.networks && db.networks[n].owner == user && !db.networks[n].deleted
  }

  // bindingFitsCapacity's arithmetic; callers have already found the network row.
  predicate Fits(db: Db, network: Id)
    requires network in db.networks
  {
    |Members(db, network)| < db.networks[network].maxDevices
  }

  function TokenScope(db: Db, hash: string, now: int): (scope: Option<(Id, Id)>)
  {
    if && hash in db.tokens
       && !db.tokens[hash].used
       && db.tokens[hash].expires > now
       && Enabled(db, db.tokens[hash].user)
       && db.tokens[hash].network in db.networks
       && !db.networks[db.tokens[hash].network].deleted
       && db.networks[db.tokens[hash].network].owner == db.tokens[hash].user
    then Some((db.tokens[hash].user, db.tokens[hash].network))
    else None
  }

  predicate Open(state: PairState) {
    state == Invited || state == Approved || state == Active
  }

  // What the pairing queries count as an existing relation at second `now`.
  predicate LiveAt(pair: Pair, now: int) {
    pair.state == Active || ((pair.state == Invited || pair.state == Approved) && pair.expires > now)
  }

  predicate IsEnd(pair: Pair, device: Id) {
    pair.initiator == device || pair.target == device
  }

  predicate Joins(pair: Pair, network: Id, a: Id, b: Id) {
    && pair.network == network
    && ((pair.initiator == a && pair.target == b) || (pair.initiator == b && pair.target == a))
  }

  predicate PairingExists(db: Db, network: Id, a: Id, b: Id, now: int) {
    exists p :: p in db.pairs && Joins(db.pairs[p], network, a, b) && LiveAt(db.pairs[p], now)
  }

  // Some other device already holds this request id.
  predicate RequestTaken(db: Db, request: Id, device: Id) {
    exists d :: d in db.devices && d != device && db.devices[d].requestId == request
  }

  // The device whose key this is, if any.
  ghost function KnownDevice(db: Db, key: Key): (known: Option<Id>)
    ensures known.Some? ==> known.value in db.devices && db.devices[known.value].publicKey == key
    ensures known.None? ==> forall d :: d in db.devices ==> db.devices[d].publicKey != key
  {
    if exists d :: d in db.devices && db.devices[d].publicKey == key then
      var d :| d in db.devices && db.devices[d].publicKey == key; Some(d)
    else None
  }

  // A peer of AdoptNetwork's query: a live network of the device's own account that both
  // are actively bound to, and an unrevoked other device of that account.
  predicate IsPeer(db: Db, device: Id, k: (Id, Id))
    requires device in db.devices
  {
    && Bound(db, k.0, device) && Bound(db, k.0, k.1) && k.1 != device
    && NetworkOwned(db, db.devices[device].user, k.0)
    && k.1 in db.devices && db.devices[k.1].user == db.devices[device].user && !db.devices[k.1].revoked
  }

  function Peers(db: Db, device: Id): (members: set<(Id, Id)>)
    requires device in db.devices
  {
    set k | k in db.bindings && IsPeer(db, device, k)
  }

  // The rows of the query, in some order.
  ghost predicate Lists(peers: seq<(Id, Id)>, db: Db, device: Id)
    requires device in db.devices
  {
    forall k :: k in peers <==> k in Peers(db, device)
  }

  // ---- updates of many rows ----

  function Revoke(pair: Pair): (row: Pair) {
    pair.(state := Revoked, revision := pair.revision + 1)
  }

  function RevokePairsOfNetwork(pairs: map<Id, Pair>, network: Id): (updated: map<Id, Pair>) {
    map p | p in pairs ::
      if pairs[p].network == network && Open(pairs[p].state) then Revoke(pairs[p]) else pairs[p]
  }

  function RevokePairsOfMember(pairs: map<Id, Pair>, network: Id, device: Id): (updated: map<Id, Pair>) {
    map p | p in pairs ::
      if && pairs[p].network == network
         && IsEnd(pairs[p], device)
         && Open(pairs[p].state)
      then Revoke(pairs[p]) else pairs[p]
  }

  // RevokeDevice's statement has no filter on the state.
  function RevokePairsOfDevice(pairs: map<Id, Pair>, device: Id): (updated: map<Id, Pair>) {
    map p | p in pairs ::
      if IsEnd(pairs[p], device) then Revoke(pairs[p]) else pairs[p]
  }

  function RevokePairsOfOwner(pairs: map<Id, Pair>, networks: map<Id, Network>, user: Id): (updated: map<Id, Pair>) {
    map p | p in pairs ::
      if && pairs[p].network in networks && networks[pairs[p].network].owner == user
         && Open(pairs[p].state)
      then Revoke(pairs[p]) else pairs[p]
  }

  function UnbindAll(bindings: map<(Id, Id), bool>, network: Id): (updated: map<(Id, Id), bool>) {
    map k | k in bindings :: bindings[k] && k.0 != network
  }

  function UseTokensOf(tokens: map<string, Token>, network: Id): (updated: map<string, Token>) {
    map h | h in tokens :: if tokens[h].network == network then tokens[h].(used := true) else tokens[h]
  }

  function UseSharesOf(shares: map<Id, ShareRow>, network: Id): (updated: map<Id, ShareRow>) {
    map n | n in shares :: if shares[n].network == network then shares[n].(used := true) else shares[n]
  }

  function UseSharesOfMember(shares: map<Id, ShareRow>, network: Id, device: Id): (updated: map<Id, ShareRow>) {
    map n | n in shares ::
      if shares[n].network == network && shares[n].device == device
      then shares[n].(used := true) else shares[n]
  }
}
