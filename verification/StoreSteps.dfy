// Every transaction keeps the invariant and only advances the tables.
//
// Three lemmas per transaction, each from the least it needs: the schema, the
// authority facts, and the step relation. ApplyKeeps gathers them.
module StoreSteps {
  import opened Wrappers
  import opened Tables
  import opened Transactions
  import opened StoreInvariants

  // What every transaction makes of a consistent state.
  ghost predicate Kept(a: Db, b: Db) { Consistent(b) && Advances(a, b) }

  // -- tables that change in step --

  ghost predicate OnlyRevokes(a: map<Id, Pair>, b: map<Id, Pair>) {
    b.Keys == a.Keys && forall p :: p in a ==> b[p] in {a[p], Revoke(a[p])}
  }

  lemma RevokedPairsRefer(db: Db, pairs: map<Id, Pair>)
    requires References(db) && OnlyRevokes(db.pairs, pairs)
    ensures PairsRefer(pairs, db.devices, db.networks)
  {
  }

  lemma OwnedDeviceRefers(db: Db, network: Id, device: Id)
    requires BindingOwner(db, network, device).Some?
    ensures network in db.networks && device in db.devices
  {
  }

  lemma PairingsKeepSchema(db: Db, shares: map<Id, ShareRow>, pairs: map<Id, Pair>)
    requires Schema(db) && SharesRefer(shares, db.devices, db.networks) && PairsRefer(pairs, db.devices, db.networks)
    ensures Schema(db.(shares := shares, pairs := pairs))
  {
  }

  lemma TokensKeepSchema(db: Db, tokens: map<string, Token>)
    requires Schema(db) && TokensRefer(tokens, db.users, db.networks)
    ensures Schema(db.(tokens := tokens))
  {
  }

  lemma TokensKeepAuthority(db: Db, tokens: map<string, Token>)
    requires Authority(db)
    ensures Authority(db.(tokens := tokens))
  {
  }

  lemma UsersKeepSchema(db: Db, users: map<Id, User>, pairs: map<Id, Pair>)
    requires Schema(db) && db.users.Keys <= users.Keys && PairsRefer(pairs, db.devices, db.networks)
    ensures Schema(db.(users := users, pairs := pairs))
  {
  }

  // -- CreateUser --

  lemma CreateUserKeepsSchema(db: Db, user: Id)
    requires Schema(db)
    ensures Schema(After(db, CreateUser(db, user)))
  {
  }

  lemma CreateUserKeepsAuthority(db: Db, user: Id)
    requires Authority(db)
    ensures Authority(After(db, CreateUser(db, user)))
  {
  }

  lemma CreateUserAdvances(db: Db, user: Id)
    ensures Advances(db, After(db, CreateUser(db, user)))
  {
  }

  // -- InsertNetwork --

  lemma InsertNetworkKeepsSchema(db: Db, user: Id, name: string, network: Id)
    requires Schema(db)
    ensures Schema(After(db, InsertNetwork(db, user, name, network)))
  {
  }

  lemma InsertNetworkKeepsAuthority(db: Db, user: Id, name: string, network: Id)
    requires Authority(db)
    ensures Authority(After(db, InsertNetwork(db, user, name, network)))
  {
  }

  lemma InsertNetworkAdvances(db: Db, user: Id, name: string, network: Id)
    ensures Advances(db, After(db, InsertNetwork(db, user, name, network)))
  {
    AdvancesReflexive(db);
  }

  // -- UpdateNetworkLimit --

  lemma UpdateNetworkLimitKeepsSchema(db: Db, user: Id, network: Id, limit: int)
    requires Schema(db)
    ensures Schema(After(db, UpdateNetworkLimit(db, user, network, limit)))
  {
  }

  lemma UpdateNetworkLimitKeepsAuthority(db: Db, user: Id, network: Id, limit: int)
    requires Authority(db)
    ensures Authority(After(db, UpdateNetworkLimit(db, user, network, limit)))
  {
  }

  lemma UpdateNetworkLimitAdvances(db: Db, user: Id, network: Id, limit: int)
    ensures Advances(db, After(db, UpdateNetworkLimit(db, user, network, limit)))
  {
    AdvancesReflexive(db);
  }

  // -- DeleteNetwork --

  lemma DeleteNetworkKeepsSchema(db: Db, user: Id, network: Id)
    requires Schema(db)
    ensures Schema(After(db, DeleteNetwork(db, user, network)))
  {
  }

  lemma DeletionKeepsMembership(db: Db, user: Id, network: Id)
    requires Membership(db) && DeleteNetwork(db, user, network).Committed?
    ensures Membership(DeleteNetwork(db, user, network).db)
  {
  }

  lemma DeleteNetworkKeepsAuthority(db: Db, user: Id, network: Id)
    requires Authority(db)
    ensures Authority(After(db, DeleteNetwork(db, user, network)))
  {
    var outcome := DeleteNetwork(db, user, network);
    if outcome.Committed? {
      DeletionKeepsMembership(db, user, network);
      forall p | p in outcome.db.pairs && Open(outcome.db.pairs[p].state)
        ensures Authorized(outcome.db, outcome.db.pairs[p])
      {
        assert outcome.db.pairs[p] == db.pairs[p] && Authorized(db, db.pairs[p]);
      }
    }
  }

  lemma DeleteNetworkAdvances(db: Db, user: Id, network: Id)
    ensures Advances(db, After(db, DeleteNetwork(db, user, network)))
  {
    AdvancesReflexive(db);
  }

  // -- BindDevice --

  lemma BindDeviceKeepsSchema(db: Db, user: Id, network: Id, device: Id)
    requires Schema(db)
    ensures Schema(After(db, BindDevice(db, user, network, device)))
  {
  }

  lemma BindDeviceKeepsAuthority(db: Db, user: Id, network: Id, device: Id)
    requires Authority(db)
    ensures Authority(After(db, BindDevice(db, user, network, device)))
  {
  }

  lemma BindDeviceAdvances(db: Db, user: Id, network: Id, device: Id)
    ensures Advances(db, After(db, BindDevice(db, user, network, device)))
  {
    AdvancesReflexive(db);
  }

  // -- UnbindDevice --

  lemma UnbindDeviceKeepsSchema(db: Db, user: Id, network: Id, device: Id)
    requires Schema(db)
    ensures Schema(After(db, UnbindDevice(db, user, network, device)))
  {
  }

  lemma UnbindDeviceKeepsAuthority(db: Db, user: Id, network: Id, device: Id)
    requires Authority(db)
    ensures Authority(After(db, UnbindDevice(db, user, network, device)))
  {
    var outcome := UnbindDevice(db, user, network, device);
    if outcome.Committed? {
      forall p | p in outcome.db.pairs && Open(outcome.db.pairs[p].state)
        ensures Authorized(outcome.db, outcome.db.pairs[p])
      {
        assert outcome.db.pairs[p] == db.pairs[p] && Authorized(db, db.pairs[p]);
      }
    }
  }

  lemma UnbindDeviceAdvances(db: Db, user: Id, network: Id, device: Id)
    ensures Advances(db, After(db, UnbindDevice(db, user, network, device)))
  {
    AdvancesReflexive(db);
  }

  // -- DeletePair --

  lemma DeletePairKeepsSchema(db: Db, user: Id, network: Id, pair: Id)
    requires Schema(db)
    ensures Schema(After(db, DeletePair(db, user, network, pair)))
  {
  }

  lemma DeletePairKeepsAuthority(db: Db, user: Id, network: Id, pair: Id)
    requires Authority(db)
    ensures Authority(After(db, DeletePair(db, user, network, pair)))
  {
  }

  lemma DeletePairAdvances(db: Db, user: Id, network: Id, pair: Id)
    ensures Advances(db, After(db, DeletePair(db, user, network, pair)))
  {
    AdvancesReflexive(db);
  }

  // -- IssueToken --

  lemma IssueTokenKeepsSchema(db: Db, user: Id, network: Id, hash: string, now: int)
    requires Schema(db)
    ensures Schema(After(db, IssueToken(db, user, network, hash, now)))
  {
  }

  lemma IssueTokenKeepsAuthority(db: Db, user: Id, network: Id, hash: string, now: int)
    requires Authority(db)
    ensures Authority(After(db, IssueToken(db, user, network, hash, now)))
  {
  }

  lemma IssueTokenAdvances(db: Db, user: Id, network: Id, hash: string, now: int)
    ensures Advances(db, After(db, IssueToken(db, user, network, hash, now)))
  {
    AdvancesReflexive(db);
  }

  // -- Register, by its two writes --

  // A row may be written when it is new or keeps its key and account, and no
  // other device holds its key or request id.
  ghost predicate RowFits(db: Db, device: Id, row: Device) {
    && (device in db.devices ==>
          db.devices[device] == row.(name := db.devices[device].name, requestId := db.devices[device].requestId))
    && (forall d :: d in db.devices && d != device ==>
          db.devices[d].publicKey != row.publicKey && db.devices[d].requestId != row.requestId)
  }

  lemma PutDeviceKeepsSchema(db: Db, device: Id, row: Device, user: Id)
    requires Schema(db) && RowFits(db, device, row) && row.user in db.users && user in db.users
    ensures Schema(PutDevice(db, device, row, user))
  {
  }

  lemma PutDeviceKeepsAuthority(db: Db, device: Id, row: Device, user: Id)
    requires Authority(db) && RowFits(db, device, row)
    requires device !in db.devices ==> row.user == user
    ensures Authority(PutDevice(db, device, row, user))
  {
  }

  lemma PutDeviceAdvances(db: Db, device: Id, row: Device, user: Id)
    requires RowFits(db, device, row)
    ensures Advances(db, PutDevice(db, device, row, user))
  {
  }

  lemma BindKeepsSchema(db: Db, network: Id, device: Id)
    requires Schema(db) && network in db.networks && device in db.devices
    ensures Schema(Bind(db, network, device))
  {
  }

  lemma BindKeepsAuthority(db: Db, network: Id, device: Id)
    requires Authority(db)
    requires network in db.networks && !db.networks[network].deleted
    requires (device, db.networks[network].owner) in db.links
    ensures Authority(Bind(db, network, device))
  {
  }

  // The row Enlist writes, and the device it is written for.
  lemma EnlistWrites(db: Db, id: Id, key: Key, name: string, certificate: Certificate, request: Id, user: Id)
    returns (device: Id, row: Device)
    requires UniqueColumns(db.devices)
    requires Enlist(db, id, key, name, certificate, request, user).Committed?
    ensures RowFits(db, device, row)
    ensures device in db.devices ==> row.user == db.devices[device].user
    ensures device !in db.devices ==> row.user == user
    ensures var o := Enlist(db, id, key, name, certificate, request, user);
            o.db == PutDevice(db, device, row, user) && o.value == (device, row.certificate)
    ensures row.publicKey == key
    ensures device == id || (device in db.devices && db.devices[device].publicKey == key)
    ensures device in db.devices ==>
              row.revoked == db.devices[device].revoked && row.certificate == db.devices[device].certificate
  {
    match KnownDevice(db, key)
    case None =>
      device, row := id, Device(user, key, name, certificate, false, request);
    case Some(known) =>
      device, row := known, db.devices[known].(name := name, requestId := request);
  }

  lemma RegisterKeeps(db: Db, id: Id, key: Key, name: string, certificate: Certificate,
                      request: Id, user: Id, network: Id)
    requires Consistent(db)
    requires network in db.networks && !db.networks[network].deleted && db.networks[network].owner == user
    ensures Kept(db, After(db, Register(db, id, key, name, certificate, request, user, network)))
  {
    if Enlist(db, id, key, name, certificate, request, user).Committed? {
      var device, row := EnlistWrites(db, id, key, name, certificate, request, user);
      var enlisted := PutDevice(db, device, row, user);
      PutDeviceKeepsSchema(db, device, row, user);
      PutDeviceKeepsAuthority(db, device, row, user);
      PutDeviceAdvances(db, device, row, user);
      BindKeepsSchema(enlisted, network, device);
      BindKeepsAuthority(enlisted, network, device);
    } else {
      AdvancesReflexive(db);
    }
  }

  // -- Enroll and JoinNetwork --

  lemma ConsumeTokenKeepsSchema(db: Db, hash: string)
    requires Schema(db) && hash in db.tokens
    ensures Schema(ConsumeToken(db, hash))
  {
    TokensKeepSchema(db, db.tokens[hash := db.tokens[hash].(used := true)]);
  }

  lemma ConsumeTokenKeeps(db: Db, hash: string)
    requires Consistent(db) && hash in db.tokens
    ensures Kept(db, ConsumeToken(db, hash))
  {
    ConsumeTokenKeepsSchema(db, hash);
    TokensKeepAuthority(db, ConsumeToken(db, hash).tokens);
    AdvancesReflexive(db);
    assert TokensEvolve(db.tokens, ConsumeToken(db, hash).tokens);
  }

  lemma EnrollKeeps(db: Db, id: Id, key: Key, name: string, certificate: Certificate,
                    request: Id, hash: string, now: int)
    requires Consistent(db)
    ensures Kept(db, After(db, Enroll(db, id, key, name, certificate, request, hash, now)))
  {
    AdvancesReflexive(db);
    var scope := TokenScope(db, hash, now);
    if scope.Some? && Fits(db, scope.value.1) {
      ConsumeTokenKeeps(db, hash);
      RegisterKeeps(ConsumeToken(db, hash), id, key, name, certificate, request, scope.value.0, scope.value.1);
    }
  }

  lemma JoinNetworkKeeps(db: Db, id: Id, key: Key, name: string, certificate: Certificate,
                         request: Id, network: Id)
    requires Consistent(db)
    ensures Kept(db, After(db, JoinNetwork(db, id, key, name, certificate, request, network)))
  {
    AdvancesReflexive(db);
    if LiveNetwork(db, network) {
      RegisterKeeps(db, id, key, name, certificate, request, db.networks[network].owner, network);
    }
  }

  // -- ReplaceCertificate --

  lemma CertificateKeepsSchema(db: Db, device: Id, request: Id, certificate: Certificate)
    requires Schema(db) && device in db.devices
    ensures Schema(StoreCertificate(db, device, request, certificate))
  {
  }

  lemma CertificateKeepsAuthority(db: Db, device: Id, request: Id, certificate: Certificate)
    requires Authority(db) && device in db.devices
    ensures Authority(StoreCertificate(db, device, request, certificate))
  {
  }

  lemma ReplaceCertificateKeepsSchema(db: Db, device: Id, request: Id, hash: Option<string>,
                                      certificate: Certificate, now: int)
    requires Schema(db)
    ensures Schema(After(db, ReplaceCertificate(db, device, request, hash, certificate, now)))
  {
    var outcome := ReplaceCertificate(db, device, request, hash, certificate, now);
    if outcome.Committed? && outcome.db != db {
      if hash.Some? {
        ConsumeTokenKeepsSchema(db, hash.value);
        CertificateKeepsSchema(ConsumeToken(db, hash.value), device, request, certificate);
      } else {
        CertificateKeepsSchema(db, device, request, certificate);
      }
    }
  }

  lemma ReplaceCertificateKeepsAuthority(db: Db, device: Id, request: Id, hash: Option<string>,
                                         certificate: Certificate, now: int)
    requires Authority(db)
    ensures Authority(After(db, ReplaceCertificate(db, device, request, hash, certificate, now)))
  {
    var outcome := ReplaceCertificate(db, device, request, hash, certificate, now);
    if outcome.Committed? && outcome.db != db {
      if hash.Some? {
        TokensKeepAuthority(db, ConsumeToken(db, hash.value).tokens);
        CertificateKeepsAuthority(ConsumeToken(db, hash.value), device, request, certificate);
      } else {
        CertificateKeepsAuthority(db, device, request, certificate);
      }
    }
  }

  lemma ReplaceCertificateAdvances(db: Db, device: Id, request: Id, hash: Option<string>,
                                   certificate: Certificate, now: int)
    ensures Advances(db, After(db, ReplaceCertificate(db, device, request, hash, certificate, now)))
  {
    AdvancesReflexive(db);
  }

  // -- RevokeDevice --

  lemma RevokeDeviceKeepsSchema(db: Db, device: Id)
    requires Schema(db)
    ensures Schema(After(db, RevokeDevice(db, device)))
  {
  }

  lemma RevokeDeviceKeepsAuthority(db: Db, device: Id)
    requires Authority(db)
    ensures Authority(After(db, RevokeDevice(db, device)))
  {
  }

  lemma RevokeDeviceAdvances(db: Db, device: Id)
    ensures Advances(db, After(db, RevokeDevice(db, device)))
  {
    AdvancesReflexive(db);
  }

  // -- DisableUser --

  lemma DisableUserKeepsSchema(db: Db, user: Id)
    requires Schema(db)
    ensures Schema(After(db, DisableUser(db, user)))
  {
    if Enabled(db, user) {
      var pairs := RevokePairsOfOwner(db.pairs, db.networks, user);
      RevokedPairsRefer(db, pairs);
      UsersKeepSchema(db, db.users[user := User(true)], pairs);
    }
  }

  lemma DisableUserKeepsAuthority(db: Db, user: Id)
    requires Authority(db)
    ensures Authority(After(db, DisableUser(db, user)))
  {
  }

  lemma DisableUserAdvances(db: Db, user: Id)
    ensures Advances(db, After(db, DisableUser(db, user)))
  {
    AdvancesReflexive(db);
  }

  // -- RecordShare --

  lemma RecordShareKeepsSchema(db: Db, device: Id, network: Id, nonce: Id, expires: int)
    requires Schema(db)
    ensures Schema(After(db, RecordShare(db, device, network, nonce, expires)))
  {
  }

  lemma RecordShareKeepsAuthority(db: Db, device: Id, network: Id, nonce: Id, expires: int)
    requires Authority(db)
    ensures Authority(After(db, RecordShare(db, device, network, nonce, expires)))
  {
  }

  lemma RecordShareAdvances(db: Db, device: Id, network: Id, nonce: Id, expires: int)
    ensures Advances(db, After(db, RecordShare(db, device, network, nonce, expires)))
  {
    AdvancesReflexive(db);
  }

  // -- Invite --

  lemma InviteKeepsSchema(db: Db, sender: Id, target: Id, network: Id, nonce: Id, expires: int,
                          id: Id, now: int)
    requires Schema(db)
    ensures Schema(After(db, Invite(db, sender, target, network, nonce, expires, id, now)))
  {
    var outcome := Invite(db, sender, target, network, nonce, expires, id, now);
    if outcome.Committed? {
      OwnedDeviceRefers(db, network, sender);
      OwnedDeviceRefers(db, network, target);
      var shares := db.shares[nonce := db.shares[nonce].(used := true)];
      assert outcome.db == db.(shares := shares, pairs := db.pairs[id := outcome.value]);
      PairingsKeepSchema(db, shares, db.pairs[id := outcome.value]);
    }
  }

  lemma InviteKeepsAuthority(db: Db, sender: Id, target: Id, network: Id, nonce: Id, expires: int,
                             id: Id, now: int)
    requires Authority(db)
    ensures Authority(After(db, Invite(db, sender, target, network, nonce, expires, id, now)))
  {
  }

  lemma InviteAdvances(db: Db, sender: Id, target: Id, network: Id, nonce: Id, expires: int, id: Id, now: int)
    ensures Advances(db, After(db, Invite(db, sender, target, network, nonce, expires, id, now)))
  {
    AdvancesReflexive(db);
  }

  // -- Adopt --

  lemma AdoptKeepsSchema(db: Db, initiator: Id, target: Id, network: Id, id: Id, now: int)
    requires Schema(db)
    ensures Schema(After(db, Adopt(db, initiator, target, network, id, now)))
  {
    var outcome := Adopt(db, initiator, target, network, id, now);
    if outcome.Committed? {
      OwnedDeviceRefers(db, network, initiator);
      OwnedDeviceRefers(db, network, target);
      assert outcome.db == db.(shares := db.shares, pairs := db.pairs[id := outcome.value]);
      PairingsKeepSchema(db, db.shares, db.pairs[id := outcome.value]);
    }
  }

  lemma AdoptKeepsAuthority(db: Db, initiator: Id, target: Id, network: Id, id: Id, now: int)
    requires Authority(db)
    ensures Authority(After(db, Adopt(db, initiator, target, network, id, now)))
  {
  }

  lemma AdoptAdvances(db: Db, initiator: Id, target: Id, network: Id, id: Id, now: int)
    ensures Advances(db, After(db, Adopt(db, initiator, target, network, id, now)))
  {
    AdvancesReflexive(db);
  }

  // -- CompareAndSwap --

  lemma CompareAndSwapKeepsSchema(db: Db, id: Id, read: Pair, next: PairState)
    requires Schema(db)
    ensures Schema(After(db, CompareAndSwap(db, id, read, next)))
  {
  }

  lemma CompareAndSwapKeepsAuthority(db: Db, id: Id, read: Pair, next: PairState)
    requires Authority(db)
    requires Open(read.state) && Edge(read.state, next)
    ensures Authority(After(db, CompareAndSwap(db, id, read, next)))
  {
  }

  lemma CompareAndSwapAdvances(db: Db, id: Id, read: Pair, next: PairState)
    requires Open(read.state) && Edge(read.state, next)
    ensures Advances(db, After(db, CompareAndSwap(db, id, read, next)))
  {
    AdvancesReflexive(db);
  }

  // -- the transactions that leave a table alone --

  lemma NetworksUntouched(keyId: Key -> Id, db: Db, op: Operation)
    requires !op.OpInsertNetwork? && !op.OpUpdateNetworkLimit? && !op.OpDeleteNetwork?
    ensures Apply(keyId, db, op).networks == db.networks
  {
  }

  lemma DevicesUntouched(keyId: Key -> Id, db: Db, op: Operation)
    requires !op.OpEnroll? && !op.OpJoinNetwork? && !op.OpReplaceCertificate? && !op.OpRevokeDevice?
    ensures Apply(keyId, db, op).devices == db.devices
  {
  }

  predicate Binds(op: Operation) { op.OpBindDevice? || op.OpEnroll? || op.OpJoinNetwork? }

  lemma BindingsUntouched(keyId: Key -> Id, db: Db, op: Operation)
    requires !Binds(op) && !op.OpDeleteNetwork? && !op.OpUnbindDevice?
    ensures Apply(keyId, db, op).bindings == db.bindings
  {
  }

  predicate Revokes(op: Operation) {
    op.OpDeleteNetwork? || op.OpUnbindDevice? || op.OpDeletePair? || op.OpRevokeDevice? || op.OpDisableUser?
  }

  lemma PairsUntouched(keyId: Key -> Id, db: Db, op: Operation)
    requires !op.OpInvite? && !op.OpAdopt? && !Revokes(op)
    ensures Apply(keyId, db, op).pairs == db.pairs
  {
  }

  // -- all of them --

  lemma CreateUserKept(keyId: Key -> Id, db: Db, op: Operation)
    requires Consistent(db) && op.OpCreateUser?
    ensures Kept(db, Apply(keyId, db, op))
  {
    assert Apply(keyId, db, op) == After(db, CreateUser(db, op.user));
    CreateUserKeepsSchema(db, op.user);
    CreateUserKeepsAuthority(db, op.user);
    CreateUserAdvances(db, op.user);
  }

  lemma InsertNetworkKept(keyId: Key -> Id, db: Db, op: Operation)
    requires Consistent(db) && op.OpInsertNetwork?
    ensures Kept(db, Apply(keyId, db, op))
  {
    assert Apply(keyId, db, op) == After(db, InsertNetwork(db, op.user, op.name, op.network));
    InsertNetworkKeepsSchema(db, op.user, op.name, op.network);
    InsertNetworkKeepsAuthority(db, op.user, op.name, op.network);
    InsertNetworkAdvances(db, op.user, op.name, op.network);
  }

  lemma UpdateNetworkLimitKept(keyId: Key -> Id, db: Db, op: Operation)
    requires Consistent(db) && op.OpUpdateNetworkLimit?
    ensures Kept(db, Apply(keyId, db, op))
  {
    assert Apply(keyId, db, op) == After(db, UpdateNetworkLimit(db, op.user, op.network, op.limit));
    UpdateNetworkLimitKeepsSchema(db, op.user, op.network, op.limit);
    UpdateNetworkLimitKeepsAuthority(db, op.user, op.network, op.limit);
    UpdateNetworkLimitAdvances(db, op.user, op.network, op.limit);
  }

  lemma DeleteNetworkKept(keyId: Key -> Id, db: Db, op: Operation)
    requires Consistent(db) && op.OpDeleteNetwork?
    ensures Kept(db, Apply(keyId, db, op))
  {
    assert Apply(keyId, db, op) == After(db, DeleteNetwork(db, op.user, op.network));
    DeleteNetworkKeepsSchema(db, op.user, op.network);
    DeleteNetworkKeepsAuthority(db, op.user, op.network);
    DeleteNetworkAdvances(db, op.user, op.network);
  }

  lemma BindDeviceKept(keyId: Key -> Id, db: Db, op: Operation)
    requires Consistent(db) && op.OpBindDevice?
    ensures Kept(db, Apply(keyId, db, op))
  {
    assert Apply(keyId, db, op) == After(db, BindDevice(db, op.user, op.network, op.device));
    BindDeviceKeepsSchema(db, op.user, op.network, op.device);
    BindDeviceKeepsAuthority(db, op.user, op.network, op.device);
    BindDeviceAdvances(db, op.user, op.network, op.device);
  }

  lemma UnbindDeviceKept(keyId: Key -> Id, db: Db, op: Operation)
    requires Consistent(db) && op.OpUnbindDevice?
    ensures Kept(db, Apply(keyId, db, op))
  {
    assert Apply(keyId, db, op) == After(db, UnbindDevice(db, op.user, op.network, op.device));
    UnbindDeviceKeepsSchema(db, op.user, op.network, op.device);
    UnbindDeviceKeepsAuthority(db, op.user, op.network, op.device);
    UnbindDeviceAdvances(db, op.user, op.network, op.device);
  }

  lemma DeletePairKept(keyId: Key -> Id, db: Db, op: Operation)
    requires Consistent(db) && op.OpDeletePair?
    ensures Kept(db, Apply(keyId, db, op))
  {
    assert Apply(keyId, db, op) == After(db, DeletePair(db, op.user, op.network, op.pair));
    DeletePairKeepsSchema(db, op.user, op.network, op.pair);
    DeletePairKeepsAuthority(db, op.user, op.network, op.pair);
    DeletePairAdvances(db, op.user, op.network, op.pair);
  }

  lemma IssueTokenKept(keyId: Key -> Id, db: Db, op: Operation)
    requires Consistent(db) && op.OpIssueToken?
    ensures Kept(db, Apply(keyId, db, op))
  {
    assert Apply(keyId, db, op) == After(db, IssueToken(db, op.user, op.network, op.hash, op.now));
    IssueTokenKeepsSchema(db, op.user, op.network, op.hash, op.now);
    IssueTokenKeepsAuthority(db, op.user, op.network, op.hash, op.now);
    IssueTokenAdvances(db, op.user, op.network, op.hash, op.now);
  }

  lemma ReplaceCertificateKept(keyId: Key -> Id, db: Db, op: Operation)
    requires Consistent(db) && op.OpReplaceCertificate?
    ensures Kept(db, Apply(keyId, db, op))
  {
    assert Apply(keyId, db, op)
           == After(db, ReplaceCertificate(db, op.device, op.request, op.token, op.certificate, op.now));
    ReplaceCertificateKeepsSchema(db, op.device, op.request, op.token, op.certificate, op.now);
    ReplaceCertificateKeepsAuthority(db, op.device, op.request, op.token, op.certificate, op.now);
    ReplaceCertificateAdvances(db, op.device, op.request, op.token, op.certificate, op.now);
  }

  lemma RevokeDeviceKept(keyId: Key -> Id, db: Db, op: Operation)
    requires Consistent(db) && op.OpRevokeDevice?
    ensures Kept(db, Apply(keyId, db, op))
  {
    assert Apply(keyId, db, op) == After(db, RevokeDevice(db, op.device));
    RevokeDeviceKeepsSchema(db, op.device);
    RevokeDeviceKeepsAuthority(db, op.device);
    RevokeDeviceAdvances(db, op.device);
  }

  lemma DisableUserKept(keyId: Key -> Id, db: Db, op: Operation)
    requires Consistent(db) && op.OpDisableUser?
    ensures Kept(db, Apply(keyId, db, op))
  {
    assert Apply(keyId, db, op) == After(db, DisableUser(db, op.user));
    DisableUserKeepsSchema(db, op.user);
    DisableUserKeepsAuthority(db, op.user);
    DisableUserAdvances(db, op.user);
  }

  lemma RecordShareKept(keyId: Key -> Id, db: Db, op: Operation)
    requires Consistent(db) && op.OpRecordShare?
    ensures Kept(db, Apply(keyId, db, op))
  {
    assert Apply(keyId, db, op) == After(db, RecordShare(db, op.device, op.network, op.nonce, op.expires));
    RecordShareKeepsSchema(db, op.device, op.network, op.nonce, op.expires);
    RecordShareKeepsAuthority(db, op.device, op.network, op.nonce, op.expires);
    RecordShareAdvances(db, op.device, op.network, op.nonce, op.expires);
  }

  lemma InviteKept(keyId: Key -> Id, db: Db, op: Operation)
    requires Consistent(db) && op.OpInvite?
    ensures Kept(db, Apply(keyId, db, op))
  {
    assert Apply(keyId, db, op)
           == After(db, Invite(db, op.sender, op.target, op.network, op.nonce, op.expires, op.id, op.now));
    InviteKeepsSchema(db, op.sender, op.target, op.network, op.nonce, op.expires, op.id, op.now);
    InviteKeepsAuthority(db, op.sender, op.target, op.network, op.nonce, op.expires, op.id, op.now);
    InviteAdvances(db, op.sender, op.target, op.network, op.nonce, op.expires, op.id, op.now);
  }

  lemma AdoptKept(keyId: Key -> Id, db: Db, op: Operation)
    requires Consistent(db) && op.OpAdopt?
    ensures Kept(db, Apply(keyId, db, op))
  {
    assert Apply(keyId, db, op) == After(db, Adopt(db, op.sender, op.target, op.network, op.id, op.now));
    AdoptKeepsSchema(db, op.sender, op.target, op.network, op.id, op.now);
    AdoptKeepsAuthority(db, op.sender, op.target, op.network, op.id, op.now);
    AdoptAdvances(db, op.sender, op.target, op.network, op.id, op.now);
  }

  lemma EnrollKept(keyId: Key -> Id, db: Db, op: Operation)
    requires Consistent(db) && op.OpEnroll?
    ensures Kept(db, Apply(keyId, db, op))
  {
    assert Apply(keyId, db, op)
           == After(db, Enroll(db, keyId(op.key), op.key, op.name, op.certificate, op.request, op.hash, op.now));
    EnrollKeeps(db, keyId(op.key), op.key, op.name, op.certificate, op.request, op.hash, op.now);
  }

  lemma JoinNetworkKept(keyId: Key -> Id, db: Db, op: Operation)
    requires Consistent(db) && op.OpJoinNetwork?
    ensures Kept(db, Apply(keyId, db, op))
  {
    assert Apply(keyId, db, op)
           == After(db, JoinNetwork(db, keyId(op.key), op.key, op.name, op.certificate, op.request, op.network));
    JoinNetworkKeeps(db, keyId(op.key), op.key, op.name, op.certificate, op.request, op.network);
  }

  lemma ApplyKeeps(keyId: Key -> Id, db: Db, op: Operation)
    requires Consistent(db)
    ensures Kept(db, Apply(keyId, db, op))
  {
    if op.OpCreateUser? {
      CreateUserKept(keyId, db, op);
    } else if op.OpInsertNetwork? {
      InsertNetworkKept(keyId, db, op);
    } else if op.OpUpdateNetworkLimit? {
      UpdateNetworkLimitKept(keyId, db, op);
    } else if op.OpDeleteNetwork? {
      DeleteNetworkKept(keyId, db, op);
    } else if op.OpDisableUser? {
      DisableUserKept(keyId, db, op);
    } else if op.OpIssueToken? {
      IssueTokenKept(keyId, db, op);
    } else if op.OpEnroll? {
      EnrollKept(keyId, db, op);
    } else if op.OpJoinNetwork? {
      JoinNetworkKept(keyId, db, op);
    } else if op.OpReplaceCertificate? {
      ReplaceCertificateKept(keyId, db, op);
    } else if op.OpRevokeDevice? {
      RevokeDeviceKept(keyId, db, op);
    } else if op.OpBindDevice? {
      BindDeviceKept(keyId, db, op);
    } else if op.OpUnbindDevice? {
      UnbindDeviceKept(keyId, db, op);
    } else if op.OpRecordShare? {
      RecordShareKept(keyId, db, op);
    } else if op.OpDeletePair? {
      DeletePairKept(keyId, db, op);
    } else if op.OpInvite? {
      InviteKept(keyId, db, op);
    } else {
      AdoptKept(keyId, db, op);
    }
  }
}
