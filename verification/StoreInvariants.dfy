// What every committed state satisfies, and how one state may follow another.
//
// Consistent is the invariant of the store: the schema's references and unique
// columns, plus the two facts no single row shows. An active binding implies a
// live network and a device_users link (Membership), and a pair that is still
// open has its whole authority in place (PairAuthority). TablesEvolve and
// PairsEvolve say what no operation ever undoes.
module StoreInvariants {
  import opened Tables
  import opened Transactions

  // ---- the invariant ----

  ghost predicate References(db: Db) {
    && (forall n :: n in db.networks ==> db.networks[n].owner in db.users)
    && (forall d :: d in db.devices ==> db.devices[d].user in db.users)
    && (forall l :: l in db.links ==> l.0 in db.devices && l.1 in db.users)
    && (forall k :: k in db.bindings ==> k.0 in db.networks && k.1 in db.devices)
    && TokensRefer(db.tokens, db.users, db.networks)
    && SharesRefer(db.shares, db.devices, db.networks)
    && PairsRefer(db.pairs, db.devices, db.networks)
  }

  ghost predicate TokensRefer(tokens: map<string, Token>, users: map<Id, User>, networks: map<Id, Network>) {
    forall h :: h in tokens ==> tokens[h].user in users && tokens[h].network in networks
  }

  ghost predicate SharesRefer(shares: map<Id, ShareRow>, devices: map<Id, Device>, networks: map<Id, Network>) {
    forall s :: s in shares ==> shares[s].device in devices && shares[s].network in networks
  }

  ghost predicate PairsRefer(pairs: map<Id, Pair>, devices: map<Id, Device>, networks: map<Id, Network>) {
    forall p :: p in pairs ==>
      pairs[p].network in networks && pairs[p].initiator in devices && pairs[p].target in devices
  }

  ghost predicate UniqueColumns(devices: map<Id, Device>) {
    forall a, b :: a in devices && b in devices && a != b ==>
      devices[a].publicKey != devices[b].publicKey && devices[a].requestId != devices[b].requestId
  }

  ghost predicate LimitsAllowed(networks: map<Id, Network>) {
    forall n :: n in networks ==> networks[n].maxDevices in ALLOWED_NETWORK_LIMITS
  }

  ghost predicate Membership(db: Db) {
    && (forall k :: k in db.bindings && db.bindings[k] ==>
          && k.0 in db.networks && !db.networks[k.0].deleted
          && (k.1, db.networks[k.0].owner) in db.links)
    && (forall d :: d in db.devices ==> (d, db.devices[d].user) in db.links)
  }

  // Undeleted network, enabled owner, and both ends unrevoked, actively bound
  // and linked to that owner.
  predicate Authorized(db: Db, pair: Pair) {
    CoOwned(db, pair.network, pair.initiator, pair.target)
  }

  ghost predicate PairAuthority(db: Db) {
    forall p :: p in db.pairs && Open(db.pairs[p].state) ==> Authorized(db, db.pairs[p])
  }

  ghost predicate Schema(db: Db) {
    References(db) && UniqueColumns(db.devices) && LimitsAllowed(db.networks)
  }

  ghost predicate Authority(db: Db) {
    Membership(db) && PairAuthority(db)
  }

  ghost predicate Consistent(db: Db) {
    Schema(db) && Authority(db)
  }

  // ---- how states follow one another ----

  predicate Edge(from: PairState, to: PairState) {
    match from
    case Invited => to == Approved || to == Rejected || to == Revoked
    case Approved => to == Active || to == Revoked
    case Active => to == Revoked
    case Rejected => to == Revoked
    case Revoked => to == Revoked
  }

  predicate SameEnds(p: Pair, q: Pair) {
    p.network == q.network && p.initiator == q.initiator && p.target == q.target && p.expires == q.expires
  }

  // One transaction leaves a row alone or moves it along one edge.
  ghost predicate PairsStep(a: map<Id, Pair>, b: map<Id, Pair>) {
    && (forall p :: p in a ==> p in b)
    && (forall p :: p in a && b[p] != a[p] ==>
          SameEnds(a[p], b[p]) && Edge(a[p].state, b[p].state) && b[p].revision == a[p].revision + 1)
    && (forall p :: p in b && p !in a ==>
          b[p].revision == 1 && (b[p].state == Invited || b[p].state == Active))
  }

  // Any number of transactions: rows are never removed, revisions never fall, an
  // unchanged revision means an unchanged row, and a closed pair stays closed.
  ghost predicate RowEvolves(p: Pair, q: Pair) {
    && SameEnds(p, q)
    && p.revision <= q.revision
    && (p.revision == q.revision ==> p == q)
    && (!Open(p.state) ==> !Open(q.state))
  }

  ghost predicate PairsEvolve(a: map<Id, Pair>, b: map<Id, Pair>) {
    forall p :: p in a ==> p in b && RowEvolves(a[p], b[p])
  }

  ghost predicate UsersEvolve(a: map<Id, User>, b: map<Id, User>) {
    forall u :: u in a ==> u in b && (a[u].disabled ==> b[u].disabled)
  }

  ghost predicate NetworksEvolve(a: map<Id, Network>, b: map<Id, Network>) {
    forall n :: n in a ==> n in b && b[n].owner == a[n].owner && (a[n].deleted ==> b[n].deleted)
  }

  ghost predicate DevicesEvolve(a: map<Id, Device>, b: map<Id, Device>) {
    forall d :: d in a ==>
      d in b && b[d].user == a[d].user && b[d].publicKey == a[d].publicKey && (a[d].revoked ==> b[d].revoked)
  }

  ghost predicate TokensEvolve(a: map<string, Token>, b: map<string, Token>) {
    forall h :: h in a ==> h in b && (b[h] == a[h] || b[h] == a[h].(used := true))
  }

  ghost predicate SharesEvolve(a: map<Id, ShareRow>, b: map<Id, ShareRow>) {
    forall s :: s in a ==> s in b && (b[s] == a[s] || b[s] == a[s].(used := true))
  }

  ghost predicate TablesEvolve(a: Db, b: Db) {
    && UsersEvolve(a.users, b.users)
    && NetworksEvolve(a.networks, b.networks)
    && DevicesEvolve(a.devices, b.devices)
    && a.links <= b.links
    && TokensEvolve(a.tokens, b.tokens)
    && SharesEvolve(a.shares, b.shares)
  }

  ghost predicate Evolves(a: Db, b: Db) {
    TablesEvolve(a, b) && PairsEvolve(a.pairs, b.pairs)
  }

  lemma EvolvesTransitive(a: Db, b: Db, c: Db)
    requires Evolves(a, b) && Evolves(b, c)
    ensures Evolves(a, c)
  {
  }

  ghost predicate Advances(a: Db, b: Db) {
    TablesEvolve(a, b) && PairsStep(a.pairs, b.pairs)
  }

  lemma AdvancesReflexive(db: Db)
    ensures Advances(db, db)
  {
  }

  lemma StepsEvolve(a: Db, b: Db)
    requires Advances(a, b)
    ensures Evolves(a, b)
  {
  }
}
