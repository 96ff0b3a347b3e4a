// Why the operations of the store with more than two errors are refused: for each
// error the exact condition under which it is the answer, read off the rows as in
// StoreContracts.
module StoreRefusals {
  import opened Wrappers
  import opened Tables
  import opened Transactions
  import opened StoreInvariants
  import opened StoreCalls
  import opened Messages
  import opened StoreContracts
  import Runs = StoreRuns

  // ---- memberships ----

  predicate BindRefuses(error: Error, db: Db, user: Id, network: Id, device: Id) {
    var own := OwnNetwork(db, user, network);
    var theirs := DeviceOn(db, device) && db.devices[device].user == user;
    match error
    case NetworkUnauthorized => !own
    case DeviceUnauthorized => own && !theirs
    case NetworkFull => own && theirs && !BoundOn(db, network, device) && !HasRoom(db, network)
    case _ => false
  }

  lemma BindingIsRefused(db: Db, user: Id, network: Id, device: Id, error: Error)
    ensures BindDevice(db, user, network, device) == Refused(error)
            <==> BindRefuses(error, db, user, network, device)
  {
    RoomIsCounted(db, network);
  }

  // ---- devices and certificates ----

  // Another device has the request id, or the id itself, of a machine on record or new.
  ghost predicate RegisterRefuses(error: Error, devices: map<Id, Device>, id: Id, key: Key, request: Id) {
    match error
    case Internal => exists d :: OnRecord(devices, d, key) && !RequestFree(devices, d, request)
    case DeviceAlreadyEnrolled =>
      (forall d :: !OnRecord(devices, d, key)) && (id in devices || !RequestFree(devices, id, request))
    case _ => false
  }

  lemma RegistrationIsRefused(db: Db, id: Id, key: Key, name: string, certificate: Certificate, request: Id,
                              user: Id, network: Id, error: Error)
    requires UniqueColumns(db.devices)
    ensures Register(db, id, key, name, certificate, request, user, network) == Refused(error)
            <==> RegisterRefuses(error, db.devices, id, key, request)
  {
    match KnownDevice(db, key)
    case None => assert RequestTaken(db, request, id) <==> !RequestFree(db.devices, id, request);
    case Some(known) =>
      assert OnRecord(db.devices, known, key);
      assert RequestTaken(db, request, known) <==> !RequestFree(db.devices, known, request);
  }

  ghost predicate EnrollRefuses(error: Error, db: Db, id: Id, key: Key, request: Id, hash: string, now: int) {
    match error
    case InvalidEnrollmentToken => !TokenOn(db, hash, now)
    case NetworkFull => TokenOn(db, hash, now) && !HasRoom(db, db.tokens[hash].network)
    case _ =>
      && TokenOn(db, hash, now) && HasRoom(db, db.tokens[hash].network)
      && RegisterRefuses(error, db.devices, id, key, request)
  }

  lemma EnrollmentIsRefused(db: Db, id: Id, key: Key, name: string, certificate: Certificate, request: Id,
                            hash: string, now: int, error: Error)
    requires UniqueColumns(db.devices)
    ensures Enroll(db, id, key, name, certificate, request, hash, now) == Refused(error)
            <==> EnrollRefuses(error, db, id, key, request, hash, now)
  {
    if TokenOn(db, hash, now) {
      var user, network := db.tokens[hash].user, db.tokens[hash].network;
      RoomIsCounted(db, network);
      RegistrationIsRefused(ConsumeToken(db, hash), id, key, name, certificate, request, user, network, error);
    }
  }

  ghost predicate JoinRefuses(error: Error, db: Db, id: Id, key: Key, request: Id, network: Id) {
    match error
    case NetworkUnauthorized => !NetworkOn(db, network)
    case NetworkFull => NetworkOn(db, network) && !HasRoom(db, network)
    case _ =>
      NetworkOn(db, network) && HasRoom(db, network) && RegisterRefuses(error, db.devices, id, key, request)
  }

  lemma JoiningIsRefused(db: Db, id: Id, key: Key, name: string, certificate: Certificate, request: Id,
                         network: Id, error: Error)
    requires UniqueColumns(db.devices)
    ensures JoinNetwork(db, id, key, name, certificate, request, network) == Refused(error)
            <==> JoinRefuses(error, db, id, key, request, network)
  {
    if NetworkOn(db, network) {
      RoomIsCounted(db, network);
      RegistrationIsRefused(db, id, key, name, certificate, request, db.networks[network].owner, network, error);
    }
  }

  predicate RenewRefuses(error: Error, db: Db, device: Id, key: Key, request: Id, due: bool) {
    match error
    case DeviceUnauthorized => !CallerOn(db, device)
    case IdentityMismatch => CallerOn(db, device) && db.devices[device].publicKey != key
    case RenewalNotDue =>
      CallerOn(db, device) && db.devices[device].publicKey == key && (device, request) !in db.renewals && !due
    case _ => false
  }

  lemma RenewalIsRefused(db: Db, device: Id, key: Key, request: Id, due: bool, certificate: Certificate, now: int,
                         error: Error)
    ensures RenewCertificate(db, device, key, request, due, certificate, now) == Refused(error)
            <==> RenewRefuses(error, db, device, key, request, due)
  {
  }

  // What a recovery finds: its caller, the device's own key, an expired certificate, a
  // usable token, the device linked to the token's account, acting in its network, and
  // the request answered before.
  datatype RecoverFound = RecoverFound(caller: bool, own: bool, late: bool, usable: bool, linked: bool, acting: bool,
                                 answered: bool)

  function RecoverFinds(db: Db, device: Id, key: Key, request: Id, hash: string, expired: bool, now: int)
    : (found: RecoverFound)
  {
    var own := CallerOn(db, device) && db.devices[device].publicKey == key;
    var usable := own && expired && TokenOn(db, hash, now);
    var linked := usable && (device, db.tokens[hash].user) in db.links;
    RecoverFound(CallerOn(db, device), own, own && expired, usable, linked,
              linked && ActsIn(db, db.tokens[hash].network, device), (device, request) in db.renewals)
  }

  predicate RecoverRefuses(error: Error, f: RecoverFound) {
    match error
    case DeviceUnauthorized => !f.caller
    case IdentityMismatch => (f.caller && !f.own) || (f.usable && !f.linked)
    case CertificateNotExpired => f.own && !f.late
    case InvalidEnrollmentToken => f.late && !f.usable
    case BindingUnauthorized => f.linked && !f.acting
    case RequestConflict => f.acting && f.answered
    case _ => false
  }

  predicate RecoverAnswers(o: Outcome<Certificate>, f: RecoverFound) {
    if !f.caller then o == Refused(DeviceUnauthorized)
    else if !f.own then o == Refused(IdentityMismatch)
    else if !f.late then o == Refused(CertificateNotExpired)
    else if !f.usable then o == Refused(InvalidEnrollmentToken)
    else if !f.linked then o == Refused(IdentityMismatch)
    else if !f.acting then o == Refused(BindingUnauthorized)
    else if f.answered then o == Refused(RequestConflict)
    else o.Committed?
  }

  lemma RecoverIsAnswered(db: Db, device: Id, key: Key, request: Id, hash: string, expired: bool,
                          certificate: Certificate, now: int)
    ensures RecoverAnswers(RecoverCertificate(db, device, key, request, hash, expired, certificate, now),
                           RecoverFinds(db, device, key, request, hash, expired, now))
  {
  }

  lemma RecoverAnswersOneError(o: Outcome<Certificate>, f: RecoverFound, error: Error)
    requires RecoverAnswers(o, f) && (f.own ==> f.caller) && (f.late ==> f.own) && (f.usable ==> f.late)
    requires (f.linked ==> f.usable) && (f.acting ==> f.linked)
    ensures o == Refused(error) <==> RecoverRefuses(error, f)
  {
  }

  lemma RecoveryIsRefused(db: Db, device: Id, key: Key, request: Id, hash: string, expired: bool,
                          certificate: Certificate, now: int, error: Error)
    ensures RecoverCertificate(db, device, key, request, hash, expired, certificate, now) == Refused(error)
            <==> RecoverRefuses(error, RecoverFinds(db, device, key, request, hash, expired, now))
  {
    RecoverIsAnswered(db, device, key, request, hash, expired, certificate, now);
    RecoverAnswersOneError(RecoverCertificate(db, device, key, request, hash, expired, certificate, now),
                           RecoverFinds(db, device, key, request, hash, expired, now), error);
  }

  // ---- pairs ----

  predicate ShareRefuses(error: Error, db: Db, device: Id, network: Id, nonce: Id) {
    match error
    case DeviceUnauthorized => !CallerOn(db, device)
    case BindingUnauthorized => CallerOn(db, device) && !ActsIn(db, network, device)
    case Internal => CallerOn(db, device) && ActsIn(db, network, device) && nonce in db.shares
    case _ => false
  }

  lemma SharingIsRefused(me: Identity, db: Db, device: Id, network: Id, nonce: Id, now: int, error: Error)
    ensures ShareDevice(me, db, device, network, nonce, now) == Refused(error)
            <==> ShareRefuses(error, db, device, network, nonce)
  {
  }

  // A share of this service for another device, over that device's own key, signed and
  // not out of date.
  predicate Genuine(me: Identity, db: Db, sender: Id, share: Share, now: int) {
    && share.deviceId in db.devices && share.deviceId != sender
    && share.version == 1 && share.serviceId == me.serviceId
    && share.fingerprint == me.keyId(db.devices[share.deviceId].publicKey)
    && me.verify(SignedShare(share), share.signature) && now < share.expiresAt <= now + 300
  }

  // What an invitation finds: two callers, a genuine share, both ends acting, a live
  // pair of the two, the share's row unused, and the id taken.
  datatype InviteFound = InviteFound(callers: bool, genuine: bool, acting: bool, related: bool, unused: bool,
                                     taken: bool)

  ghost function InviteFinds(me: Identity, db: Db, sender: Id, share: Share, id: Id, now: int): (found: InviteFound) {
    var target, network := share.deviceId, share.networkId;
    var callers := CallerOn(db, sender) && CallerOn(db, target);
    var genuine := callers && Genuine(me, db, sender, share, now);
    InviteFound(callers, genuine, genuine && ActsIn(db, network, sender) && ActsIn(db, network, target),
            Related(db, network, sender, target, now),
            share.nonce in db.shares && db.shares[share.nonce] == ShareRow(target, network, share.expiresAt, false),
            id in db.pairs)
  }

  predicate InviteRefuses(error: Error, f: InviteFound) {
    match error
    case DeviceUnauthorized => !f.callers
    case InvalidPairingCode => (f.callers && !f.genuine) || (f.acting && !f.related && !f.unused)
    case BindingUnauthorized => f.genuine && !f.acting
    case PairingBusy => f.acting && f.related
    case Internal => f.acting && !f.related && f.unused && f.taken
    case _ => false
  }

  predicate InviteAnswers(o: Outcome<Pair>, f: InviteFound) {
    if !f.callers then o == Refused(DeviceUnauthorized)
    else if !f.genuine then o == Refused(InvalidPairingCode)
    else if !f.acting then o == Refused(BindingUnauthorized)
    else if f.related then o == Refused(PairingBusy)
    else if !f.unused then o == Refused(InvalidPairingCode)
    else if f.taken then o == Refused(Internal)
    else o.Committed?
  }

  lemma InviteIsAnswered(me: Identity, db: Db, sender: Id, share: Share, id: Id, now: int)
    ensures InviteAnswers(InviteDevice(me, db, sender, share, id, now), InviteFinds(me, db, sender, share, id, now))
  {
    OwnersAgree(db, share.networkId, sender, share.deviceId);
    RelatedAgrees(db, share.networkId, sender, share.deviceId, now);
  }

  lemma InviteAnswersOneError(o: Outcome<Pair>, f: InviteFound, error: Error)
    requires InviteAnswers(o, f) && (f.genuine ==> f.callers) && (f.acting ==> f.genuine)
    ensures o == Refused(error) <==> InviteRefuses(error, f)
  {
  }

  lemma InvitationIsRefused(me: Identity, db: Db, sender: Id, share: Share, id: Id, now: int, error: Error)
    ensures InviteDevice(me, db, sender, share, id, now) == Refused(error)
            <==> InviteRefuses(error, InviteFinds(me, db, sender, share, id, now))
  {
    InviteIsAnswered(me, db, sender, share, id, now);
    InviteAnswersOneError(InviteDevice(me, db, sender, share, id, now), InviteFinds(me, db, sender, share, id, now),
                          error);
  }

  ghost predicate AdoptRefuses(error: Error, db: Db, initiator: Id, target: Id, network: Id, id: Id, now: int) {
    var acting := ActsIn(db, network, initiator) && ActsIn(db, network, target);
    var related := Related(db, network, initiator, target, now);
    match error
    case BindingUnauthorized => !acting
    case PairingBusy => acting && related
    case Internal => acting && !related && id in db.pairs
    case _ => false
  }

  lemma AdoptionIsRefused(db: Db, initiator: Id, target: Id, network: Id, id: Id, now: int, error: Error)
    ensures Adopt(db, initiator, target, network, id, now) == Refused(error)
            <==> AdoptRefuses(error, db, initiator, target, network, id, now)
  {
    OwnersAgree(db, network, initiator, target);
    RelatedAgrees(db, network, initiator, target, now);
  }

  // What a call on a pair finds: its caller, its row, both ends acting, an action that
  // suits the row, and a deadline that has passed.
  datatype ActFound = ActFound(caller: bool, known: bool, acting: bool, suits: bool, late: bool)

  function ActFinds(keyId: Key -> Id, db: Db, device: Id, id: Id, action: Action, fingerprint: Id, now: int)
    : (found: ActFound)
  {
    var known := CallerOn(db, device) && id in db.pairs
                 && (db.pairs[id].initiator == device || db.pairs[id].target == device);
    var acting := known && ActsIn(db, db.pairs[id].network, db.pairs[id].initiator)
                  && ActsIn(db, db.pairs[id].network, db.pairs[id].target);
    var suits := acting && Suits(keyId, db, db.pairs[id], device, action, fingerprint);
    ActFound(CallerOn(db, device), known, acting, suits, suits && db.pairs[id].expires <= now)
  }

  predicate ActRefuses(error: Error, action: Action, f: ActFound) {
    match error
    case DeviceUnauthorized => !f.caller
    case PairUnauthorized => f.caller && !f.known
    case BindingUnauthorized => f.known && !f.acting
    case InvalidPairAction => f.acting && action == UnknownAction
    case IdentityMismatch => f.acting && !f.suits && action == Confirm
    case PairStateConflict => f.acting && !f.suits && (action == Approve || action == Reject || action == RevokePair)
    case PairingExpired => f.late && (action == Approve || action == Reject || action == Confirm)
    case _ => false
  }

  // The action applies to the row, its deadline apart.
  predicate Suits(keyId: Key -> Id, db: Db, row: Pair, device: Id, action: Action, fingerprint: Id) {
    match action
    case Approve => row.target == device && row.state == Invited
    case Reject => row.target == device && row.state == Invited
    case Confirm =>
      && row.initiator == device && row.state == Approved
      && CallerOn(db, row.target) && fingerprint == keyId(db.devices[row.target].publicKey)
    case RevokePair => row.state == Active
    case UnknownAction => false
  }

  // What the rules of ActOnPair answer for a row whose ends both act.
  lemma MoveIsRefused(keyId: Key -> Id, db: Db, row: Pair, device: Id, action: Action, fingerprint: Id)
    requires row.initiator == device || row.target == device
    ensures var next := Move(action, row, device, Runs.Identified(keyId, db, row, fingerprint));
            && (next.None? <==> !Suits(keyId, db, row, device, action, fingerprint))
            && (next.None? ==> Refusal(action) == match action
                                                  case Confirm => IdentityMismatch
                                                  case UnknownAction => InvalidPairAction
                                                  case _ => PairStateConflict)
  {
  }

  predicate ActAnswers(o: Outcome<Pair>, action: Action, f: ActFound) {
    if !f.caller then o == Refused(DeviceUnauthorized)
    else if !f.known then o == Refused(PairUnauthorized)
    else if !f.acting then o == Refused(BindingUnauthorized)
    else if !f.suits then
      o == Refused(match action
                   case Confirm => IdentityMismatch
                   case UnknownAction => InvalidPairAction
                   case _ => PairStateConflict)
    else if f.late && action != RevokePair then o == Refused(Error.PairingExpired)
    else o.Committed?
  }

  lemma ActIsAnswered(keyId: Key -> Id, db: Db, device: Id, id: Id, action: Action, fingerprint: Id, now: int)
    ensures ActAnswers(ActOnPair(keyId, db, device, id, action, fingerprint, now), action,
                       ActFinds(keyId, db, device, id, action, fingerprint, now))
  {
    if id in db.pairs && IsEnd(db.pairs[id], device) {
      OwnersAgree(db, db.pairs[id].network, db.pairs[id].initiator, db.pairs[id].target);
      MoveIsRefused(keyId, db, db.pairs[id], device, action, fingerprint);
    }
  }

  lemma ActAnswersOneError(o: Outcome<Pair>, action: Action, f: ActFound, error: Error)
    requires ActAnswers(o, action, f) && (f.known ==> f.caller) && (f.acting ==> f.known)
    requires (f.suits ==> f.acting && action != UnknownAction) && (f.late ==> f.suits)
    ensures o == Refused(error) <==> ActRefuses(error, action, f)
  {
  }

  lemma ActionIsRefused(keyId: Key -> Id, db: Db, device: Id, id: Id, action: Action, fingerprint: Id, now: int,
                        error: Error)
    ensures ActOnPair(keyId, db, device, id, action, fingerprint, now) == Refused(error)
            <==> ActRefuses(error, action, ActFinds(keyId, db, device, id, action, fingerprint, now))
  {
    ActIsAnswered(keyId, db, device, id, action, fingerprint, now);
    ActAnswersOneError(ActOnPair(keyId, db, device, id, action, fingerprint, now), action,
                       ActFinds(keyId, db, device, id, action, fingerprint, now), error);
  }
}
