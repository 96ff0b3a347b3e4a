// Each mutating operation as one transaction: the state it commits, or the
// error that rolls it back. A Refused outcome carries no state, because a
// rolled back transaction leaves none.
//
// Identifiers and secrets the program draws at random are parameters; a
// collision shows up as the primary key conflict the schema would report.
// `now` is in Unix seconds and may have been read before the transaction began.
module Transactions {
  import opened Wrappers
  import opened Tables

  datatype Outcome<+T> = Committed(db: Db, value: T) | Refused(error: Error)

  function After<T>(db: Db, outcome: Outcome<T>): (after: Db) {
    if outcome.Committed? then outcome.db else db
  }

  function CreateUser(db: Db, user: Id): (outcome: Outcome<()>)
    ensures outcome.Committed? ==> outcome.db == db.(users := outcome.db.users)
  {
    if user in db.users then Refused(UserConflict)
    else Committed(db.(users := db.users[user := User(false)]), ())
  }

  // The insert of CreateNetwork, for an enabled account; its count comes before it.
  function InsertNetwork(db: Db, user: Id, name: string, network: Id): (outcome: Outcome<()>)
    ensures outcome.Committed? ==> outcome.db == db.(networks := outcome.db.networks)
  {
    if network in db.networks then Refused(Internal)
    else if !Enabled(db, user) then Refused(UserUnauthorized)
    else Committed(db.(networks := db.networks[network := Network(user, name, false, DEFAULT_NETWORK_LIMIT)]), ())
  }

  function UpdateNetworkLimit(db: Db, user: Id, network: Id, limit: int): (outcome: Outcome<()>)
    ensures outcome.Committed? ==> outcome.db == db.(networks := outcome.db.networks)
  {
    if limit !in ALLOWED_NETWORK_LIMITS then Refused(InvalidNetworkLimit)
    else if !NetworkOwned(db, user, network) then Refused(NetworkUnauthorized)
    else Committed(db.(networks := db.networks[network := db.networks[network].(maxDevices := limit)]), ())
  }

  function DeleteNetwork(db: Db, user: Id, network: Id): (outcome: Outcome<()>)
    ensures outcome.Committed? ==>
              outcome.db == db.(networks := outcome.db.networks, bindings := outcome.db.bindings,
                               tokens := outcome.db.tokens, shares := outcome.db.shares, pairs := outcome.db.pairs)
  {
    if !NetworkOwned(db, user, network) then Refused(NetworkUnauthorized)
    else Committed(db.(networks := db.networks[network := db.networks[network].(deleted := true)],
                       bindings := UnbindAll(db.bindings, network),
                       tokens := UseTokensOf(db.tokens, network),
                       shares := UseSharesOf(db.shares, network),
                       pairs := RevokePairsOfNetwork(db.pairs, network)), ())
  }

  function BindDevice(db: Db, user: Id, network: Id, device: Id): (outcome: Outcome<()>)
    ensures outcome.Committed? ==> outcome.db == db.(bindings := outcome.db.bindings)
  {
    if !NetworkOwned(db, user, network) then Refused(NetworkUnauthorized)
    else if device !in db.devices || db.devices[device].revoked || db.devices[device].user != user then
      Refused(DeviceUnauthorized)
    else if !Bound(db, network, device) && !Fits(db, network) then Refused(NetworkFull)
    else Committed(Bind(db, network, device), ())
  }

  function UnbindDevice(db: Db, user: Id, network: Id, device: Id): (outcome: Outcome<()>)
    ensures outcome.Committed? ==>
              outcome.db == db.(bindings := outcome.db.bindings, pairs := outcome.db.pairs, shares := outcome.db.shares)
  {
    if !NetworkOwned(db, user, network) then Refused(NetworkUnauthorized)
    else if BindingOwner(db, network, device).None? then Refused(BindingUnauthorized)
    else Committed(db.(bindings := db.bindings[(network, device) := false],
                       pairs := RevokePairsOfMember(db.pairs, network, device),
                       shares := UseSharesOfMember(db.shares, network, device)), ())
  }

  function DeletePair(db: Db, user: Id, network: Id, pair: Id): (outcome: Outcome<()>)
    ensures outcome.Committed? ==> outcome.db == db.(pairs := outcome.db.pairs)
  {
    if !NetworkOwned(db, user, network) then Refused(NetworkUnauthorized)
    else if pair !in db.pairs || db.pairs[pair].network != network || !Open(db.pairs[pair].state) then
      Refused(PairUnauthorized)
    else Committed(db.(pairs := db.pairs[pair := Revoke(db.pairs[pair])]), ())
  }

  function IssueToken(db: Db, user: Id, network: Id, hash: string, now: int): (outcome: Outcome<()>)
    ensures outcome.Committed? ==> outcome.db == db.(tokens := outcome.db.tokens)
  {
    if !NetworkOwned(db, user, network) then Refused(NetworkUnauthorized)
    else if hash in db.tokens then Refused(Internal)
    else Committed(db.(tokens := db.tokens[hash := Token(user, network, now + PAIRING_SECONDS, false)]), ())
  }

  function ConsumeToken(db: Db, hash: string): (after: Db)
    requires hash in db.tokens
  {
    db.(tokens := db.tokens[hash := db.tokens[hash].(used := true)])
  }

  // Write one device row and link the device to an account.
  function PutDevice(db: Db, device: Id, row: Device, user: Id): (after: Db) {
    db.(devices := db.devices[device := row], links := db.links + {(device, user)})
  }

  // Insert the machine, or refresh the row its key already has.
  ghost function Enlist(db: Db, id: Id, key: Key, name: string, certificate: Certificate,
                        request: Id, user: Id): (outcome: Outcome<(Id, Certificate)>)
    ensures outcome.Committed? ==> outcome.db == db.(devices := outcome.db.devices, links := outcome.db.links)
  {
    match KnownDevice(db, key)
    case None =>
      if id in db.devices || RequestTaken(db, request, id) then Refused(DeviceAlreadyEnrolled)
      else Committed(PutDevice(db, id, Device(user, key, name, certificate, false, request), user), (id, certificate))
    case Some(known) =>
      var row := db.devices[known];
      if RequestTaken(db, request, known) then Refused(Internal)
      else Committed(PutDevice(db, known, row.(name := name, requestId := request), user), (known, row.certificate))
  }

  function Bind(db: Db, network: Id, device: Id): (after: Db) {
    db.(bindings := db.bindings[(network, device) := true])
  }

  // What Enroll and JoinNetwork share once the account and network are settled.
  ghost function Register(db: Db, id: Id, key: Key, name: string, certificate: Certificate,
                          request: Id, user: Id, network: Id): (outcome: Outcome<(Id, Certificate)>)
    ensures outcome.Committed? ==>
              outcome.db == db.(devices := outcome.db.devices, links := outcome.db.links,
                               bindings := outcome.db.bindings)
  {
    match Enlist(db, id, key, name, certificate, request, user)
    case Refused(error) => Refused(error)
    case Committed(enlisted, device) => Committed(Bind(enlisted, network, device.0), device)
  }

  ghost function Enroll(db: Db, id: Id, key: Key, name: string, certificate: Certificate,
                        request: Id, hash: string, now: int): (outcome: Outcome<(Id, Certificate)>)
    ensures outcome.Committed? ==>
              outcome.db == db.(devices := outcome.db.devices, links := outcome.db.links,
                               bindings := outcome.db.bindings, tokens := outcome.db.tokens)
  {
    match TokenScope(db, hash, now)
    case None => Refused(InvalidEnrollmentToken)
    case Some((user, network)) =>
      if !Fits(db, network) then Refused(NetworkFull)
      else Register(ConsumeToken(db, hash),
                    id, key, name, certificate, request, user, network)
  }

  ghost function JoinNetwork(db: Db, id: Id, key: Key, name: string, certificate: Certificate,
                             request: Id, network: Id): (outcome: Outcome<(Id, Certificate)>)
    ensures outcome.Committed? ==>
              outcome.db == db.(devices := outcome.db.devices, links := outcome.db.links,
                               bindings := outcome.db.bindings)
  {
    if !LiveNetwork(db, network) then Refused(NetworkUnauthorized)
    else if !Fits(db, network) then Refused(NetworkFull)
    else Register(db, id, key, name, certificate, request, db.networks[network].owner, network)
  }

  // `hash` is None for a renewal, and the digest of the token for a recovery.
  function ReplaceCertificate(db: Db, device: Id, request: Id, hash: Option<string>,
                              certificate: Certificate, now: int): (outcome: Outcome<Certificate>)
    ensures outcome.Committed? ==>
              outcome.db == db.(tokens := outcome.db.tokens, renewals := outcome.db.renewals,
                               devices := outcome.db.devices)
  {
    if device !in db.devices || db.devices[device].revoked then Refused(DeviceUnauthorized)
    else if hash.None? && (device, request) in db.renewals then
      Committed(db, db.renewals[(device, request)])
    else if hash.None? then
      Committed(StoreCertificate(db, device, request, certificate), certificate)
    else
      match TokenScope(db, hash.value, now)
      case None => Refused(InvalidEnrollmentToken)
      case Some((user, network)) =>
        if !LinkedTo(db, device, user) then Refused(IdentityMismatch)
        else if BindingOwner(db, network, device).None? then Refused(BindingUnauthorized)
        else if (device, request) in db.renewals then Refused(RequestConflict)
        else Committed(StoreCertificate(ConsumeToken(db, hash.value),
                                        device, request, certificate), certificate)
  }

  function StoreCertificate(db: Db, device: Id, request: Id, certificate: Certificate): (after: Db)
    requires device in db.devices
  {
    db.(renewals := db.renewals[(device, request) := certificate],
        devices := db.devices[device := db.devices[device].(certificate := certificate)])
  }

  function RevokeDevice(db: Db, device: Id): (outcome: Outcome<()>)
    ensures outcome.Committed? ==> outcome.db == db.(devices := outcome.db.devices, pairs := outcome.db.pairs)
  {
    if device !in db.devices || db.devices[device].revoked then Refused(DeviceUnauthorized)
    else Committed(db.(devices := db.devices[device := db.devices[device].(revoked := true)],
                       pairs := RevokePairsOfDevice(db.pairs, device)), ())
  }

  function DisableUser(db: Db, user: Id): (outcome: Outcome<()>)
    ensures outcome.Committed? ==> outcome.db == db.(users := outcome.db.users, pairs := outcome.db.pairs)
  {
    if !Enabled(db, user) then Refused(UserNotFound)
    else Committed(db.(users := db.users[user := User(true)],
                       pairs := RevokePairsOfOwner(db.pairs, db.networks, user)), ())
  }

  // ---- pairing ----

  function RecordShare(db: Db, device: Id, network: Id, nonce: Id, expires: int): (outcome: Outcome<()>)
    ensures outcome.Committed? ==> outcome.db == db.(shares := outcome.db.shares)
  {
    if BindingOwner(db, network, device).None? then Refused(BindingUnauthorized)
    else if nonce in db.shares then Refused(Internal)
    else Committed(db.(shares := db.shares[nonce := ShareRow(device, network, expires, false)]), ())
  }

  // Both ends must act for the same owner in the network.
  predicate CoOwned(db: Db, network: Id, a: Id, b: Id) {
    BindingOwner(db, network, a).Some? && BindingOwner(db, network, a) == BindingOwner(db, network, b)
  }

  function InsertPair(db: Db, id: Id, pair: Pair): (outcome: Outcome<Pair>)
    ensures outcome.Committed? ==> outcome.db == db.(pairs := outcome.db.pairs)
  {
    if id in db.pairs then Refused(Internal)
    else Committed(db.(pairs := db.pairs[id := pair]), pair)
  }

  predicate ShareUsable(db: Db, nonce: Id, device: Id, network: Id, expires: int, now: int) {
    && nonce in db.shares
    && db.shares[nonce] == ShareRow(device, network, expires, false)
    && expires > now
  }

  function Invite(db: Db, sender: Id, target: Id, network: Id, nonce: Id, expires: int,
                  id: Id, now: int): (outcome: Outcome<Pair>)
    ensures outcome.Committed? ==> outcome.db == db.(shares := outcome.db.shares, pairs := outcome.db.pairs)
  {
    if !CoOwned(db, network, sender, target) then Refused(BindingUnauthorized)
    else if PairingExists(db, network, sender, target, now) then Refused(PairingBusy)
    else if !ShareUsable(db, nonce, target, network, expires, now) then Refused(InvalidPairingCode)
    else InsertPair(db.(shares := db.shares[nonce := db.shares[nonce].(used := true)]), id,
                    Pair(network, sender, target, Invited, now + PAIRING_SECONDS, 1))
  }

  function Adopt(db: Db, initiator: Id, target: Id, network: Id, id: Id, now: int): (outcome: Outcome<Pair>)
    ensures outcome.Committed? ==> outcome.db == db.(pairs := outcome.db.pairs)
  {
    if !CoOwned(db, network, initiator, target) then Refused(BindingUnauthorized)
    else if PairingExists(db, network, initiator, target, now) then Refused(PairingBusy)
    else InsertPair(db, id, Pair(network, initiator, target, Active, now + PAIRING_SECONDS, 1))
  }

  datatype Action = Approve | Reject | Confirm | RevokePair | UnknownAction

  // The move an action makes, given the row that was read, or None when the
  // action does not apply to it. `identified` is the fingerprint comparison.
  function Move(action: Action, pair: Pair, device: Id, identified: bool): (next: Option<PairState>) {
    match action
    case Approve => if pair.target == device && pair.state == Invited then Some(Approved) else None
    case Reject => if pair.target == device && pair.state == Invited then Some(Rejected) else None
    case Confirm => if identified && pair.initiator == device && pair.state == Approved then Some(Active) else None
    case RevokePair => if pair.state == Active then Some(Revoked) else None
    case UnknownAction => None
  }

  // The row moves and its revision rises, provided its state and revision are still
  // the ones read and neither end is revoked.
  function CompareAndSwap(db: Db, id: Id, read: Pair, next: PairState): (outcome: Outcome<Pair>)
    ensures outcome.Committed? ==> outcome.db == db.(pairs := outcome.db.pairs)
  {
    if || id !in db.pairs
       || db.pairs[id].state != read.state
       || db.pairs[id].revision != read.revision
       || (read.initiator in db.devices && db.devices[read.initiator].revoked)
       || (read.target in db.devices && db.devices[read.target].revoked)
    then Refused(PairStateConflict)
    else
      var row := db.pairs[id].(state := next, revision := db.pairs[id].revision + 1);
      Committed(db.(pairs := db.pairs[id := row]), row)
  }

  // ---- every transaction, as data ----

  datatype Operation =
    | OpCreateUser(user: Id)
    | OpInsertNetwork(user: Id, name: string, network: Id)
    | OpUpdateNetworkLimit(user: Id, network: Id, limit: int)
    | OpDeleteNetwork(user: Id, network: Id)
    | OpBindDevice(user: Id, network: Id, device: Id)
    | OpUnbindDevice(user: Id, network: Id, device: Id)
    | OpDeletePair(user: Id, network: Id, pair: Id)
    | OpIssueToken(user: Id, network: Id, hash: string, now: int)
    | OpEnroll(key: Key, name: string, certificate: Certificate, request: Id, hash: string, now: int)
    | OpJoinNetwork(key: Key, name: string, certificate: Certificate, request: Id, network: Id)
    | OpReplaceCertificate(device: Id, request: Id, token: Option<string>, certificate: Certificate, now: int)
    | OpRevokeDevice(device: Id)
    | OpDisableUser(user: Id)
    | OpRecordShare(device: Id, network: Id, nonce: Id, expires: int)
    | OpInvite(sender: Id, target: Id, network: Id, nonce: Id, expires: int, id: Id, now: int)
    | OpAdopt(sender: Id, target: Id, network: Id, id: Id, now: int)

  // The state after one transaction. `keyId` derives a device id from a key.
  ghost function Apply(keyId: Key -> Id, db: Db, op: Operation): (after: Db) {
    match op
    case OpCreateUser(u) => After(db, CreateUser(db, u))
    case OpInsertNetwork(u, name, n) => After(db, InsertNetwork(db, u, name, n))
    case OpUpdateNetworkLimit(u, n, limit) => After(db, UpdateNetworkLimit(db, u, n, limit))
    case OpDeleteNetwork(u, n) => After(db, DeleteNetwork(db, u, n))
    case OpBindDevice(u, n, d) => After(db, BindDevice(db, u, n, d))
    case OpUnbindDevice(u, n, d) => After(db, UnbindDevice(db, u, n, d))
    case OpDeletePair(u, n, p) => After(db, DeletePair(db, u, n, p))
    case OpIssueToken(u, n, h, now) => After(db, IssueToken(db, u, n, h, now))
    case OpEnroll(key, name, cert, request, h, now) =>
      After(db, Enroll(db, keyId(key), key, name, cert, request, h, now))
    case OpJoinNetwork(key, name, cert, request, n) =>
      After(db, JoinNetwork(db, keyId(key), key, name, cert, request, n))
    case OpReplaceCertificate(d, request, h, cert, now) =>
      After(db, ReplaceCertificate(db, d, request, h, cert, now))
    case OpRevokeDevice(d) => After(db, RevokeDevice(db, d))
    case OpDisableUser(u) => After(db, DisableUser(db, u))
    case OpRecordShare(d, n, nonce, expires) => After(db, RecordShare(db, d, n, nonce, expires))
    case OpInvite(s, t, n, nonce, expires, id, now) => After(db, Invite(db, s, t, n, nonce, expires, id, now))
    case OpAdopt(s, t, n, id, now) => After(db, Adopt(db, s, t, n, id, now))
  }

  // The clock reading an operation carries, when its outcome depends on one.
  function Reading(op: Operation): (r: Option<int>) {
    match op
    case OpIssueToken(_, _, _, now) => Some(now)
    case OpEnroll(_, _, _, _, _, now) => Some(now)
    case OpReplaceCertificate(_, _, _, _, now) => Some(now)
    case OpInvite(_, _, _, _, _, _, now) => Some(now)
    case OpAdopt(_, _, _, _, now) => Some(now)
    case _ => None
  }
}
