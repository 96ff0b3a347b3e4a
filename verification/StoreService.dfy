// The store as the program runs it: statements on a transaction's working copy,
// in the program's order, with every early return a rollback.
//
// Each method is tied to the outcome its call has on the committed state; what
// those outcomes mean is proved in StoreSteps and the theorem modules.
module StoreService {
  import opened Wrappers
  import opened Tables
  import opened Transactions
  import opened StoreInvariants
  import opened StoreSteps
  import opened StoreCalls
  import Contracts = StoreContracts
  import Refusals = StoreRefusals
  import opened Adoption
  import opened Messages
  import Runs = StoreRuns

  // The answer and the committed state are those of the outcome; a refusal
  // leaves every table as it was.
  ghost predicate Agrees<T(!new)>(before: Db, after: Db, r: Result<T, Error>, outcome: Outcome<T>) {
    match outcome
    case Committed(db, value) => r == Success(value) && after == db
    case Refused(error) => r == Failure(error) && after == before
  }

  predicate NoOpenPairs(db: Db, network: Id) {
    forall p :: p in db.pairs && db.pairs[p].network == network ==> !Open(db.pairs[p].state)
  }

  predicate NoOpenPairsOfMember(db: Db, network: Id, device: Id) {
    forall p :: p in db.pairs && db.pairs[p].network == network && IsEnd(db.pairs[p], device) ==>
      !Open(db.pairs[p].state)
  }

  predicate SharesUsed(db: Db, network: Id, device: Id) {
    forall s :: s in db.shares && db.shares[s].network == network && db.shares[s].device == device ==> db.shares[s].used
  }

  // The machine of the key is on record under the id and certificate answered,
  // linked to the account and bound to the network.
  predicate Enrolled(db: Db, answer: (Id, Certificate), key: Key, user: Id, network: Id) {
    && answer.0 in db.devices && db.devices[answer.0].publicKey == key && db.devices[answer.0].certificate == answer.1
    && (answer.0, user) in db.links && Bound(db, network, answer.0)
  }

  lemma EnlistedHolds(db: Db, id: Id, key: Key, name: string, certificate: Certificate, request: Id, user: Id)
    requires UniqueColumns(db.devices)
    ensures match Enlist(db, id, key, name, certificate, request, user)
            case Committed(next, device) =>
              && device.0 in next.devices && next.devices[device.0].publicKey == key
              && next.devices[device.0].certificate == device.1 && (device.0, user) in next.links
              && next.tokens == db.tokens
            case Refused(_) => true
  {
    if Enlist(db, id, key, name, certificate, request, user).Committed? {
      var device, row := EnlistWrites(db, id, key, name, certificate, request, user);
    }
  }

  // A call that has passed every check is its conditional update.
  lemma DecidedCall(keyId: Key -> Id, db: Db, device: Id, id: Id, action: Action, fingerprint: Id, now: int,
                    next: PairState)
    requires Admitted(db, device) && id in db.pairs && IsEnd(db.pairs[id], device)
    requires CoOwned(db, db.pairs[id].network, db.pairs[id].initiator, db.pairs[id].target)
    requires Move(action, db.pairs[id], device, Runs.Identified(keyId, db, db.pairs[id], fingerprint)) == Some(next)
    requires action == RevokePair || db.pairs[id].expires > now
    ensures StoreCalls.ActOnPair(keyId, db, device, id, action, fingerprint, now)
            == CompareAndSwap(db, id, db.pairs[id], next)
  {
  }

  class Store {
    const me: Identity
    var db: Db

    ghost predicate Valid()
      reads this
    {
      Consistent(db)
    }

    constructor (me: Identity)
      ensures Valid() && db == EMPTY_DB && this.me == me
    {
      this.me, db := me, EMPTY_DB;
    }

    method CreateUser(user: Id) returns (r: Result<(), Error>)
      requires Valid()
      modifies this
      ensures Valid() && Agrees(old(db), db, r, Transactions.CreateUser(old(db), user))
      ensures r.Success? <==> user !in old(db).users
      ensures r.Success? ==> Enabled(db, user)
      ensures Contracts.CreatesUser(old(db), db, r.Success?, user)
      ensures r.Failure? ==> r.error == UserConflict
    {
      Contracts.UserIsCreated(db, user);
      CreateUserKeepsSchema(db, user);
      CreateUserKeepsAuthority(db, user);
      if user in db.users {
        return Failure(UserConflict);
      }
      db := db.(users := db.users[user := User(false)]);
      return Success(());
    }

    method CreateNetwork(user: Id, name: string, network: Id) returns (r: Result<(), Error>)
      requires Valid()
      modifies this
      ensures Valid() && Agrees(old(db), db, r, StoreCalls.CreateNetwork(old(db), user, name, network))
      ensures r.Success? ==>
                NetworkOwned(db, user, network) && NetworksOf(db, user) == NetworksOf(old(db), user) + {network}
      ensures r == Failure(NetworkLimitReached) <==> |NetworksOf(old(db), user)| >= NETWORK_QUOTA
      ensures Contracts.CreatesNetwork(old(db), db, r.Success?, user, name, network)
      ensures r.Failure? ==> r.error == if |NetworksOf(old(db), user)| >= 2 then NetworkLimitReached
                                         else if network in old(db).networks then Internal else UserUnauthorized
    {
      Contracts.NetworkIsCreated(db, user, name, network);
      InsertNetworkKeepsSchema(db, user, name, network);
      InsertNetworkKeepsAuthority(db, user, name, network);
      if |NetworksOf(db, user)| >= NETWORK_QUOTA {
        return Failure(NetworkLimitReached);
      }
      if network in db.networks {
        return Failure(Internal);
      }
      if !Enabled(db, user) {
        return Failure(UserUnauthorized);
      }
      db := db.(networks := db.networks[network := Network(user, name, false, DEFAULT_NETWORK_LIMIT)]);
      return Success(());
    }

    method UpdateNetworkLimit(user: Id, network: Id, limit: int) returns (r: Result<(), Error>)
      requires Valid()
      modifies this
      ensures Valid() && Agrees(old(db), db, r, Transactions.UpdateNetworkLimit(old(db), user, network, limit))
      ensures r.Success? <==> limit in ALLOWED_NETWORK_LIMITS && NetworkOwned(old(db), user, network)
      ensures r.Success? ==> network in db.networks && db.networks[network].maxDevices == limit
      ensures db.bindings == old(db).bindings
      ensures Contracts.ChangesLimit(old(db), db, r.Success?, user, network, limit)
      ensures r.Failure? ==> r.error == if limit in {10, 20, 30} then NetworkUnauthorized else InvalidNetworkLimit
    {
      Contracts.LimitIsChanged(db, user, network, limit);
      UpdateNetworkLimitKeepsSchema(db, user, network, limit);
      UpdateNetworkLimitKeepsAuthority(db, user, network, limit);
      if limit !in ALLOWED_NETWORK_LIMITS {
        return Failure(InvalidNetworkLimit);
      }
      if !NetworkOwned(db, user, network) {
        return Failure(NetworkUnauthorized);
      }
      if db.networks[network].maxDevices == limit {
        assert db.networks == db.networks[network := db.networks[network].(maxDevices := limit)];
        return Success(());
      }
      db := db.(networks := db.networks[network := db.networks[network].(maxDevices := limit)]);
      return Success(());
    }

    method DeleteNetwork(user: Id, network: Id) returns (r: Result<(), Error>)
      requires Valid()
      modifies this
      ensures Valid() && Agrees(old(db), db, r, Transactions.DeleteNetwork(old(db), user, network))
      ensures r.Success? <==> NetworkOwned(old(db), user, network)
      ensures r.Success? ==> Members(db, network) == {} && NoOpenPairs(db, network)
      ensures r.Success? ==>
                forall hash, t :: TokenScope(db, hash, t).Some? ==> TokenScope(db, hash, t).value.1 != network
      ensures Contracts.DeletesNetwork(old(db), db, r.Success?, user, network)
      ensures r.Failure? ==> r.error == NetworkUnauthorized
    {
      Contracts.NetworkIsDeleted(db, user, network);
      DeleteNetworkKeepsSchema(db, user, network);
      DeleteNetworkKeepsAuthority(db, user, network);
      var tx := db;
      if !NetworkOwned(tx, user, network) {
        return Failure(NetworkUnauthorized);
      }
      tx := tx.(networks := tx.networks[network := tx.networks[network].(deleted := true)]);
      tx := tx.(bindings := UnbindAll(tx.bindings, network));
      tx := tx.(tokens := UseTokensOf(tx.tokens, network));
      tx := tx.(shares := UseSharesOf(tx.shares, network));
      tx := tx.(pairs := RevokePairsOfNetwork(tx.pairs, network));
      db := tx;
      return Success(());
    }

    method BindDevice(user: Id, network: Id, device: Id) returns (r: Result<(), Error>)
      requires Valid()
      modifies this
      ensures Valid() && Agrees(old(db), db, r, Transactions.BindDevice(old(db), user, network, device))
      ensures r.Success? ==> Bound(db, network, device) && (Bound(old(db), network, device) || Fits(old(db), network))
      ensures r.Success? ==> forall n, d :: (n, d) != (network, device) ==> (Bound(db, n, d) <==> Bound(old(db), n, d))
      ensures Contracts.BindsDevice(old(db), db, r.Success?, user, network, device)
      ensures forall error :: r == Failure(error) <==> Refusals.BindRefuses(error, old(db), user, network, device)
    {
      forall error { Refusals.BindingIsRefused(db, user, network, device, error); }
      Contracts.DeviceIsBound(db, user, network, device);
      BindDeviceKeepsSchema(db, user, network, device);
      BindDeviceKeepsAuthority(db, user, network, device);
      if !NetworkOwned(db, user, network) {
        return Failure(NetworkUnauthorized);
      }
      if device !in db.devices || db.devices[device].revoked || db.devices[device].user != user {
        return Failure(DeviceUnauthorized);
      }
      if !Bound(db, network, device) {
        if !Fits(db, network) {
          return Failure(NetworkFull);
        }
      }
      db := db.(bindings := db.bindings[(network, device) := true]);
      return Success(());
    }

    method UnbindDevice(user: Id, network: Id, device: Id) returns (r: Result<(), Error>)
      requires Valid()
      modifies this
      ensures Valid() && Agrees(old(db), db, r, Transactions.UnbindDevice(old(db), user, network, device))
      ensures r.Success? ==> BindingOwner(db, network, device).None? && NoOpenPairsOfMember(db, network, device)
      ensures r.Success? ==> forall n, d :: (n, d) != (network, device) ==> (Bound(db, n, d) <==> Bound(old(db), n, d))
      ensures r.Success? ==> SharesUsed(db, network, device)
      ensures Contracts.UnbindsDevice(old(db), db, r.Success?, user, network, device)
      ensures r.Failure? ==>
                r.error == if Contracts.OwnNetwork(old(db), user, network) then BindingUnauthorized
                           else NetworkUnauthorized
    {
      Contracts.DeviceIsUnbound(db, user, network, device);
      UnbindDeviceKeepsSchema(db, user, network, device);
      UnbindDeviceKeepsAuthority(db, user, network, device);
      var tx := db;
      if !NetworkOwned(tx, user, network) {
        return Failure(NetworkUnauthorized);
      }
      if BindingOwner(tx, network, device).None? {
        return Failure(BindingUnauthorized);
      }
      tx := tx.(bindings := tx.bindings[(network, device) := false]);
      tx := tx.(pairs := RevokePairsOfMember(tx.pairs, network, device));
      tx := tx.(shares := UseSharesOfMember(tx.shares, network, device));
      db := tx;
      return Success(());
    }

    method DeletePair(user: Id, network: Id, pair: Id) returns (r: Result<(), Error>)
      requires Valid()
      modifies this
      ensures Valid() && Agrees(old(db), db, r, Transactions.DeletePair(old(db), user, network, pair))
      ensures r.Success? ==> pair in db.pairs && pair in old(db).pairs && db.pairs[pair] == Revoke(old(db).pairs[pair])
      ensures forall p :: p in old(db).pairs && p != pair ==> p in db.pairs && db.pairs[p] == old(db).pairs[p]
      ensures Contracts.DeletesPair(old(db), db, r.Success?, user, network, pair)
      ensures r.Failure? ==>
                r.error == if Contracts.OwnNetwork(old(db), user, network) then PairUnauthorized
                           else NetworkUnauthorized
    {
      Contracts.PairIsDeleted(db, user, network, pair);
      DeletePairKeepsSchema(db, user, network, pair);
      DeletePairKeepsAuthority(db, user, network, pair);
      if !NetworkOwned(db, user, network) {
        return Failure(NetworkUnauthorized);
      }
      if pair !in db.pairs || db.pairs[pair].network != network || !Open(db.pairs[pair].state) {
        return Failure(PairUnauthorized);
      }
      db := db.(pairs := db.pairs[pair := Revoke(db.pairs[pair])]);
      return Success(());
    }

    method IssueEnrollmentToken(user: Id, network: Id, hash: string, now: int) returns (r: Result<(), Error>)
      requires Valid()
      modifies this
      ensures Valid() && Agrees(old(db), db, r, IssueToken(old(db), user, network, hash, now))
      ensures r.Success? ==>
                forall t :: TokenScope(db, hash, t) == if t < now + PAIRING_SECONDS then Some((user, network)) else None
      ensures Contracts.IssuesToken(old(db), db, r.Success?, user, network, hash, now)
      ensures r.Failure? ==>
                r.error == if Contracts.OwnNetwork(old(db), user, network) then Internal
                           else NetworkUnauthorized
    {
      Contracts.TokenIsIssued(db, user, network, hash, now);
      IssueTokenKeepsSchema(db, user, network, hash, now);
      IssueTokenKeepsAuthority(db, user, network, hash, now);
      if !NetworkOwned(db, user, network) {
        return Failure(NetworkUnauthorized);
      }
      if hash in db.tokens {
        return Failure(Internal);
      }
      db := db.(tokens := db.tokens[hash := Token(user, network, now + PAIRING_SECONDS, false)]);
      return Success(());
    }

    // The device of a key, found by a scan of the table.
    method FindDevice(tx: Db, key: Key) returns (known: Option<Id>)
      requires UniqueColumns(tx.devices)
      ensures known == KnownDevice(tx, key)
    {
      var pending := tx.devices.Keys;
      while pending != {}
        invariant forall d :: d in tx.devices && d !in pending ==> tx.devices[d].publicKey != key
        invariant pending <= tx.devices.Keys
        decreases pending
      {
        var d :| d in pending;
        if tx.devices[d].publicKey == key {
          return Some(d);
        }
        pending := pending - {d};
      }
      return None;
    }

    // Insert the machine, or refresh the row its key has, and link the account.
    method EnlistDevice(tx: Db, id: Id, key: Key, name: string, certificate: Certificate, request: Id, user: Id)
      returns (r: Result<(Db, Id, Certificate), Error>)
      requires UniqueColumns(tx.devices)
      ensures match Enlist(tx, id, key, name, certificate, request, user)
              case Committed(next, device) => r == Success((next, device.0, device.1))
              case Refused(error) => r == Failure(error)
    {
      var work := tx;
      var known := FindDevice(work, key);
      match known {
        case None =>
          if id in work.devices || RequestTaken(work, request, id) {
            return Failure(DeviceAlreadyEnrolled);
          }
          work := work.(devices := work.devices[id := Device(user, key, name, certificate, false, request)]);
          work := work.(links := work.links + {(id, user)});
          return Success((work, id, certificate));
        case Some(d) =>
          if RequestTaken(work, request, d) {
            return Failure(Internal);
          }
          work := work.(devices := work.devices[d := work.devices[d].(name := name, requestId := request)]);
          work := work.(links := work.links + {(d, user)});
          return Success((work, d, work.devices[d].certificate));
      }
    }

    // What Enroll and JoinNetwork share, on their transaction's working copy.
    method RegisterDevice(tx: Db, id: Id, key: Key, name: string, certificate: Certificate, request: Id,
                          user: Id, network: Id) returns (r: Result<(Db, Id, Certificate), Error>)
      requires UniqueColumns(tx.devices)
      ensures match Register(tx, id, key, name, certificate, request, user, network)
              case Committed(next, device) => r == Success((next, device.0, device.1))
              case Refused(error) => r == Failure(error)
      ensures r.Success? ==> Enrolled(r.value.0, (r.value.1, r.value.2), key, user, network)
      ensures r.Success? ==> r.value.0.tokens == tx.tokens
    {
      EnlistedHolds(tx, id, key, name, certificate, request, user);
      var enlisted := EnlistDevice(tx, id, key, name, certificate, request, user);
      if enlisted.Failure? {
        return Failure(enlisted.error);
      }
      var (work, device, issued) := enlisted.value;
      work := work.(bindings := work.bindings[(network, device) := true]);
      return Success((work, device, issued));
    }

    method Enroll(key: Key, name: string, certificate: Certificate, request: Id, hash: string, now: int)
      returns (r: Result<(Id, Certificate), Error>)
      requires Valid()
      modifies this
      ensures Valid()
      ensures Agrees(old(db), db, r,
                     Transactions.Enroll(old(db), me.keyId(key), key, name, certificate, request, hash, now))
      ensures r.Success? ==> TokenScope(old(db), hash, now).Some? && forall t :: TokenScope(db, hash, t).None?
      ensures r.Success? ==> Enrolled(db, r.value, key, TokenScope(old(db), hash, now).value.0,
                                      TokenScope(old(db), hash, now).value.1)
      ensures Contracts.Enrolls(old(db), db, Given(r), me.keyId(key), key, name, certificate, request, hash, now)
      ensures forall error :: r == Failure(error) <==>
                Refusals.EnrollRefuses(error, old(db), me.keyId(key), key, request, hash, now)
    {
      forall error {
        Refusals.EnrollmentIsRefused(db, me.keyId(key), key, name, certificate, request, hash, now, error);
      }
      Contracts.MachineIsEnrolled(db, me.keyId(key), key, name, certificate, request, hash, now);
      EnrollKeeps(db, me.keyId(key), key, name, certificate, request, hash, now);
      var scope := TokenScope(db, hash, now);
      if scope.None? {
        return Failure(InvalidEnrollmentToken);
      }
      var (user, network) := scope.value;
      if !Fits(db, network) {
        return Failure(NetworkFull);
      }
      var tx := ConsumeToken(db, hash);
      var done := RegisterDevice(tx, me.keyId(key), key, name, certificate, request, user, network);
      if done.Failure? {
        return Failure(done.error);
      }
      db := done.value.0;
      return Success((done.value.1, done.value.2));
    }

    method JoinNetwork(key: Key, name: string, certificate: Certificate, request: Id, network: Id)
      returns (r: Result<(Id, Certificate), Error>)
      requires Valid()
      modifies this
      ensures Valid()
      ensures Agrees(old(db), db, r,
                     Transactions.JoinNetwork(old(db), me.keyId(key), key, name, certificate, request, network))
      ensures r.Success? ==> LiveNetwork(old(db), network) && Fits(old(db), network)
      ensures r.Success? ==> Enrolled(db, r.value, key, old(db).networks[network].owner, network)
      ensures Contracts.JoinsNetwork(old(db), db, Given(r), me.keyId(key), key, name, certificate, request, network)
      ensures forall error :: r == Failure(error) <==>
                Refusals.JoinRefuses(error, old(db), me.keyId(key), key, request, network)
    {
      forall error { Refusals.JoiningIsRefused(db, me.keyId(key), key, name, certificate, request, network, error); }
      Contracts.MachineJoins(db, me.keyId(key), key, name, certificate, request, network);
      JoinNetworkKeeps(db, me.keyId(key), key, name, certificate, request, network);
      if network !in db.networks || db.networks[network].deleted {
        return Failure(NetworkUnauthorized);
      }
      var owner := db.networks[network].owner;
      if !Enabled(db, owner) {
        return Failure(NetworkUnauthorized);
      }
      if !Fits(db, network) {
        return Failure(NetworkFull);
      }
      var done := RegisterDevice(db, me.keyId(key), key, name, certificate, request, owner, network);
      if done.Failure? {
        return Failure(done.error);
      }
      db := done.value.0;
      return Success((done.value.1, done.value.2));
    }

    method ReplaceCertificate(device: Id, request: Id, hash: Option<string>, certificate: Certificate, now: int)
      returns (r: Result<Certificate, Error>)
      requires Valid()
      modifies this
      ensures Valid()
      ensures Agrees(old(db), db, r, Transactions.ReplaceCertificate(old(db), device, request, hash, certificate, now))
      ensures r.Success? ==> (device, request) in db.renewals && db.renewals[(device, request)] == r.value
      ensures r.Success? && hash.Some? ==>
                && TokenScope(old(db), hash.value, now).Some? && (forall t :: TokenScope(db, hash.value, t).None?)
                && (device, request) !in old(db).renewals && db.devices[device].certificate == r.value
    {
      ReplaceCertificateKeepsSchema(db, device, request, hash, certificate, now);
      ReplaceCertificateKeepsAuthority(db, device, request, hash, certificate, now);
      var tx := db;
      if device !in tx.devices || tx.devices[device].revoked {
        return Failure(DeviceUnauthorized);
      }
      if (device, request) in tx.renewals && hash.None? {
        return Success(tx.renewals[(device, request)]);
      }
      if hash.Some? {
        var scope := TokenScope(tx, hash.value, now);
        if scope.None? {
          return Failure(InvalidEnrollmentToken);
        }
        if !LinkedTo(tx, device, scope.value.0) {
          return Failure(IdentityMismatch);
        }
        if BindingOwner(tx, scope.value.1, device).None? {
          return Failure(BindingUnauthorized);
        }
        tx := tx.(tokens := tx.tokens[hash.value := tx.tokens[hash.value].(used := true)]);
      }
      if (device, request) in tx.renewals {
        return Failure(RequestConflict);
      }
      tx := tx.(renewals := tx.renewals[(device, request) := certificate]);
      tx := tx.(devices := tx.devices[device := tx.devices[device].(certificate := certificate)]);
      db := tx;
      return Success(certificate);
    }

    method RenewCertificate(device: Id, key: Key, request: Id, due: bool, certificate: Certificate, now: int)
      returns (r: Result<Certificate, Error>)
      requires Valid()
      modifies this
      ensures Valid()
      ensures Agrees(old(db), db, r, StoreCalls.RenewCertificate(old(db), device, key, request, due, certificate, now))
      ensures r.Success? ==> (device, request) in db.renewals && db.renewals[(device, request)] == r.value
      ensures Contracts.Renews(old(db), db, Given(r), device, key, request, due, certificate)
      ensures forall error :: r == Failure(error) <==> Refusals.RenewRefuses(error, old(db), device, key, request, due)
    {
      forall error { Refusals.RenewalIsRefused(db, device, key, request, due, certificate, now, error); }
      Contracts.CertificateIsRenewed(db, device, key, request, due, certificate, now);
      if !Admitted(db, device) {
        return Failure(DeviceUnauthorized);
      }
      if key != db.devices[device].publicKey {
        return Failure(IdentityMismatch);
      }
      if (device, request) in db.renewals {
        return Success(db.renewals[(device, request)]);
      }
      if !due {
        return Failure(RenewalNotDue);
      }
      r := ReplaceCertificate(device, request, None, certificate, now);
    }

    method RecoverCertificate(device: Id, key: Key, request: Id, hash: string, expired: bool,
                              certificate: Certificate, now: int) returns (r: Result<Certificate, Error>)
      requires Valid()
      modifies this
      ensures Valid()
      ensures Agrees(old(db), db, r,
                     StoreCalls.RecoverCertificate(old(db), device, key, request, hash, expired, certificate, now))
      ensures r.Success? ==> expired && device in db.devices && db.devices[device].certificate == r.value
      ensures r.Success? ==> TokenScope(old(db), hash, now).Some? && forall t :: TokenScope(db, hash, t).None?
      ensures Contracts.Recovers(old(db), db, Given(r), device, key, request, hash, expired, certificate, now)
      ensures forall error :: r == Failure(error) <==> Refusals.RecoverRefuses(
                                error, Refusals.RecoverFinds(old(db), device, key, request, hash, expired, now))
    {
      forall error { Refusals.RecoveryIsRefused(db, device, key, request, hash, expired, certificate, now, error); }
      Contracts.CertificateIsRecovered(db, device, key, request, hash, expired, certificate, now);
      if !Admitted(db, device) {
        return Failure(DeviceUnauthorized);
      }
      if key != db.devices[device].publicKey {
        return Failure(IdentityMismatch);
      }
      if !expired {
        return Failure(CertificateNotExpired);
      }
      r := ReplaceCertificate(device, request, Some(hash), certificate, now);
    }

    method RevokeDevice(device: Id) returns (r: Result<(), Error>)
      requires Valid()
      modifies this
      ensures Valid() && Agrees(old(db), db, r, Transactions.RevokeDevice(old(db), device))
      ensures r.Success? ==> !Admitted(db, device) && forall n :: BindingOwner(db, n, device).None?
      ensures r.Success? ==> forall p :: p in db.pairs && device in {db.pairs[p].initiator, db.pairs[p].target} ==>
                               db.pairs[p].state == Revoked
      ensures Contracts.RevokesDevice(old(db), db, r.Success?, device)
      ensures r.Failure? ==> r.error == DeviceUnauthorized
    {
      Contracts.DeviceIsRevoked(db, device);
      RevokeDeviceKeepsSchema(db, device);
      RevokeDeviceKeepsAuthority(db, device);
      var tx := db;
      if device !in tx.devices || tx.devices[device].revoked {
        return Failure(DeviceUnauthorized);
      }
      tx := tx.(devices := tx.devices[device := tx.devices[device].(revoked := true)]);
      tx := tx.(pairs := RevokePairsOfDevice(tx.pairs, device));
      db := tx;
      return Success(());
    }

    method DisableUser(user: Id) returns (r: Result<(), Error>)
      requires Valid()
      modifies this
      ensures Valid() && Agrees(old(db), db, r, Transactions.DisableUser(old(db), user))
      ensures r.Success? <==> Enabled(old(db), user)
      ensures r.Success? ==> !Enabled(db, user)
      ensures r.Success? ==> forall n :: n in db.networks && db.networks[n].owner == user ==> NoOpenPairs(db, n)
      ensures Contracts.DisablesUser(old(db), db, r.Success?, user)
      ensures r.Failure? ==> r.error == UserNotFound
    {
      Contracts.UserIsDisabled(db, user);
      DisableUserKeepsSchema(db, user);
      DisableUserKeepsAuthority(db, user);
      var tx := db;
      if !Enabled(tx, user) {
        return Failure(UserNotFound);
      }
      tx := tx.(users := tx.users[user := User(true)]);
      tx := tx.(pairs := RevokePairsOfOwner(tx.pairs, tx.networks, user));
      db := tx;
      return Success(());
    }

    method ShareDevice(device: Id, network: Id, nonce: Id, now: int) returns (r: Result<Share, Error>)
      requires Valid()
      modifies this
      ensures Valid() && Agrees(old(db), db, r, StoreCalls.ShareDevice(me, old(db), device, network, nonce, now))
      ensures r.Success? ==>
                && r.value.expiresAt == now + PAIRING_SECONDS
                && forall t :: ShareUsable(db, nonce, device, network, r.value.expiresAt, t) <==> t < r.value.expiresAt
      ensures Contracts.Shares(me, old(db), db, Given(r), device, network, nonce, now)
      ensures forall error :: r == Failure(error) <==> Refusals.ShareRefuses(error, old(db), device, network, nonce)
    {
      forall error { Refusals.SharingIsRefused(me, db, device, network, nonce, now, error); }
      Contracts.ShareIsMade(me, db, device, network, nonce, now);
      RecordShareKeepsSchema(db, device, network, nonce, now + PAIRING_SECONDS);
      RecordShareKeepsAuthority(db, device, network, nonce, now + PAIRING_SECONDS);
      if !Admitted(db, device) {
        return Failure(DeviceUnauthorized);
      }
      var share := Share(VERSION, me.serviceId, network, device, me.keyId(db.devices[device].publicKey), nonce,
                         now + PAIRING_SECONDS, "");
      share := share.(signature := me.sign(SignedShare(share)));
      if BindingOwner(db, network, device).None? {
        return Failure(BindingUnauthorized);
      }
      if nonce in db.shares {
        return Failure(Internal);
      }
      db := db.(shares := db.shares[nonce := ShareRow(device, network, share.expiresAt, false)]);
      return Success(share);
    }

    method InviteDevice(sender: Id, share: Share, id: Id, now: int) returns (r: Result<Pair, Error>)
      requires Valid()
      modifies this
      ensures Valid() && Agrees(old(db), db, r, StoreCalls.InviteDevice(me, old(db), sender, share, id, now))
      ensures r.Success? ==>
                && id !in old(db).pairs && db.pairs == old(db).pairs[id := r.value] && r.value.state == Invited
                && r.value.initiator == sender && r.value.target == share.deviceId
                && share.nonce in db.shares && db.shares[share.nonce].used && !old(db).shares[share.nonce].used
      ensures Contracts.InvitesDevice(me, old(db), db, Given(r), sender, share, id, now)
      ensures forall error :: r == Failure(error) <==>
                Refusals.InviteRefuses(error, Refusals.InviteFinds(me, old(db), sender, share, id, now))
    {
      forall error { Refusals.InvitationIsRefused(me, db, sender, share, id, now, error); }
      Contracts.DeviceIsInvited(me, db, sender, share, id, now);
      InviteKeepsSchema(db, sender, share.deviceId, share.networkId, share.nonce, share.expiresAt, id, now);
      InviteKeepsAuthority(db, sender, share.deviceId, share.networkId, share.nonce, share.expiresAt, id, now);
      if !Admitted(db, sender) || !Admitted(db, share.deviceId) {
        return Failure(DeviceUnauthorized);
      }
      if !ShareHolds(me, db, sender, share, now) {
        return Failure(InvalidPairingCode);
      }
      var tx := db;
      var owner := BindingOwner(tx, share.networkId, sender);
      if owner.None? || BindingOwner(tx, share.networkId, share.deviceId) != owner {
        return Failure(BindingUnauthorized);
      }
      if PairingExists(tx, share.networkId, sender, share.deviceId, now) {
        return Failure(PairingBusy);
      }
      if !ShareUsable(tx, share.nonce, share.deviceId, share.networkId, share.expiresAt, now) {
        return Failure(InvalidPairingCode);
      }
      tx := tx.(shares := tx.shares[share.nonce := tx.shares[share.nonce].(used := true)]);
      var pair := Pair(share.networkId, sender, share.deviceId, Invited, now + PAIRING_SECONDS, 1);
      if id in tx.pairs {
        return Failure(Internal);
      }
      db := tx.(pairs := tx.pairs[id := pair]);
      return Success(pair);
    }

    // One already-active pair, or the reason there is none.
    method AdoptPeer(initiator: Id, target: Id, network: Id, id: Id, now: int) returns (r: Result<Pair, Error>)
      requires Valid()
      modifies this
      ensures Valid() && Agrees(old(db), db, r, Adopt(old(db), initiator, target, network, id, now))
      ensures r.Success? ==> !PairingExists(old(db), network, initiator, target, now)
      ensures r.Success? ==> id !in old(db).pairs && db.pairs == old(db).pairs[id := r.value] && r.value.state == Active
      ensures Contracts.Adopts(old(db), db, Given(r), initiator, target, network, id, now)
      ensures forall error :: r == Failure(error) <==>
                Refusals.AdoptRefuses(error, old(db), initiator, target, network, id, now)
    {
      forall error { Refusals.AdoptionIsRefused(db, initiator, target, network, id, now, error); }
      Contracts.PeerIsAdopted(db, initiator, target, network, id, now);
      AdoptKeepsSchema(db, initiator, target, network, id, now);
      AdoptKeepsAuthority(db, initiator, target, network, id, now);
      var owner := BindingOwner(db, network, initiator);
      if owner.None? || BindingOwner(db, network, target) != owner {
        return Failure(BindingUnauthorized);
      }
      if PairingExists(db, network, initiator, target, now) {
        return Failure(PairingBusy);
      }
      var pair := Pair(network, initiator, target, Active, now + PAIRING_SECONDS, 1);
      if id in db.pairs {
        return Failure(Internal);
      }
      db := db.(pairs := db.pairs[id := pair]);
      return Success(pair);
    }

    // The rows of AdoptNetwork's query, in some order and without repeats.
    method QueryPeers(device: Id) returns (peers: seq<(Id, Id)>)
      requires device in db.devices
      ensures Lists(peers, db, device)
    {
      var pending := Peers(db, device);
      peers := [];
      while pending != {}
        invariant pending <= Peers(db, device)
        invariant forall k :: k in peers <==> k in Peers(db, device) && k !in pending
        decreases pending
      {
        var k :| k in pending;
        peers, pending := peers + [k], pending - {k};
      }
    }

    // The loop over the peers.
    method AdoptEach(device: Id, peers: seq<(Id, Id)>, draw: nat -> Id, now: int) returns (adopted: seq<(Id, Pair)>)
      requires Valid()
      modifies this
      ensures Valid() && (db, adopted) == AdoptAll(old(db), device, peers, draw, now)
    {
      adopted := [];
      var i := 0;
      while i < |peers|
        invariant 0 <= i <= |peers| && Valid()
        invariant (db, adopted) == AdoptAll(old(db), device, peers[..i], draw, now)
      {
        assert peers[..i + 1][..i] == peers[..i];
        var pair := AdoptPeer(device, peers[i].1, peers[i].0, draw(i), now);
        if pair.Success? {
          adopted := adopted + [(draw(i), pair.value)];
        }
        i := i + 1;
      }
      assert peers[..i] == peers;
    }

    method AdoptNetwork(device: Id, draw: nat -> Id, now: int)
      returns (r: Result<seq<(Id, Pair)>, Error>, ghost peers: seq<(Id, Id)>)
      requires Valid()
      modifies this
      ensures Valid()
      ensures !Admitted(old(db), device) ==> r == Failure(DeviceUnauthorized) && db == old(db)
      ensures Admitted(old(db), device) ==>
                Lists(peers, old(db), device)
                && (db, r) == (AdoptAll(old(db), device, peers, draw, now).0,
                               Success(AdoptAll(old(db), device, peers, draw, now).1))
      ensures Contracts.AdoptsPeers(old(db), db, Given(r), device, now)
      ensures r.Success? && FreshDraws(old(db), draw) ==> Contracts.AllRelated(old(db), db, device, now)
    {
      ghost var before := db;
      peers := [];
      if !Admitted(db, device) {
        return Failure(DeviceUnauthorized), peers;
      }
      var found := QueryPeers(device);
      peers := found;
      var adopted := AdoptEach(device, found, draw, now);
      NetworkIsAdopted(before, device, found, draw, now);
      return Success(adopted), peers;
    }

    // The branches on the action: the state a row moves to, or why it does not.
    method Decide(action: Action, pair: Pair, device: Id, identified: bool) returns (r: Result<PairState, Error>)
      ensures match Move(action, pair, device, identified)
              case Some(next) => r == Success(next)
              case None => r == Failure(Refusal(action))
      ensures r.Success? ==> Open(pair.state) && Edge(pair.state, r.value)
    {
      match action {
        case Approve =>
          if pair.target != device || pair.state != Invited { return Failure(PairStateConflict); }
          return Success(Approved);
        case Reject =>
          if pair.target != device || pair.state != Invited { return Failure(PairStateConflict); }
          return Success(Rejected);
        case Confirm =>
          if !identified || pair.initiator != device || pair.state != Approved {
            return Failure(IdentityMismatch);
          }
          return Success(Active);
        case RevokePair =>
          if pair.state != Active { return Failure(PairStateConflict); }
          return Success(Revoked);
        case UnknownAction => return Failure(InvalidPairAction);
      }
    }

    method ActOnPair(device: Id, id: Id, action: Action, fingerprint: Id, now: int) returns (r: Result<Pair, Error>)
      requires Valid()
      modifies this
      ensures Valid()
      ensures Agrees(old(db), db, r, StoreCalls.ActOnPair(me.keyId, old(db), device, id, action, fingerprint, now))
      ensures r.Success? ==>
                && id in old(db).pairs && db == old(db).(pairs := old(db).pairs[id := r.value])
                && Edge(old(db).pairs[id].state, r.value.state)
                && r.value == old(db).pairs[id].(state := r.value.state, revision := old(db).pairs[id].revision + 1)
      ensures Contracts.ActsOnPair(me.keyId, old(db), db, Given(r), device, id, action, fingerprint, now)
      ensures forall error :: r == Failure(error) <==> Refusals.ActRefuses(
                                error, action,
                                Refusals.ActFinds(me.keyId, old(db), device, id, action, fingerprint, now))
    {
      forall error { Refusals.ActionIsRefused(me.keyId, db, device, id, action, fingerprint, now, error); }
      Contracts.PairIsActedOn(me.keyId, db, device, id, action, fingerprint, now);
      var judged := Judge(device, id, action, fingerprint, now);
      if judged.Failure? {
        return Failure(judged.error);
      }
      r := SwapRow(id, db.pairs[id], judged.value);
    }

    // The reads and checks before the update.
    method Judge(device: Id, id: Id, action: Action, fingerprint: Id, now: int) returns (r: Result<PairState, Error>)
      ensures var outcome := StoreCalls.ActOnPair(me.keyId, db, device, id, action, fingerprint, now);
              match r
              case Failure(error) => outcome == Refused(error)
              case Success(next) =>
                && id in db.pairs && Open(db.pairs[id].state) && Edge(db.pairs[id].state, next)
                && outcome == CompareAndSwap(db, id, db.pairs[id], next)
    {
      if !Admitted(db, device) {
        return Failure(DeviceUnauthorized);
      }
      if id !in db.pairs || !IsEnd(db.pairs[id], device) {
        return Failure(PairUnauthorized);
      }
      var pair := db.pairs[id];
      var owner := BindingOwner(db, pair.network, pair.initiator);
      if owner.None? || BindingOwner(db, pair.network, pair.target) != owner {
        return Failure(BindingUnauthorized);
      }
      var decided := Decide(action, pair, device, Runs.Identified(me.keyId, db, pair, fingerprint));
      if decided.Failure? {
        return Failure(decided.error);
      }
      if action != RevokePair && pair.expires <= now {
        return Failure(Error.PairingExpired);
      }
      DecidedCall(me.keyId, db, device, id, action, fingerprint, now, decided.value);
      return Success(decided.value);
    }

    // The conditional update of one row.
    method SwapRow(id: Id, read: Pair, next: PairState) returns (r: Result<Pair, Error>)
      requires Valid() && Open(read.state) && Edge(read.state, next)
      modifies this
      ensures Valid() && Agrees(old(db), db, r, CompareAndSwap(old(db), id, read, next))
      ensures r.Success? ==>
                && id in old(db).pairs && db == old(db).(pairs := old(db).pairs[id := r.value])
                && r.value == old(db).pairs[id].(state := next, revision := old(db).pairs[id].revision + 1)
    {
      CompareAndSwapKeepsSchema(db, id, read, next);
      CompareAndSwapKeepsAuthority(db, id, read, next);
      var outcome := CompareAndSwap(db, id, read, next);
      if outcome.Refused? {
        return Failure(PairStateConflict);
      }
      db := outcome.db;
      return Success(outcome.value);
    }
  }
}
