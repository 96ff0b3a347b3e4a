// The calls that read before their transaction, as one uninterrupted whole.
module StoreCalls {
  import opened Wrappers
  import opened Tables
  import opened Transactions
  import opened Messages
  import Runs = StoreRuns

  // What the store knows besides its tables: its id, its own signing key, and
  // how a key is turned into an id. Signing and verifying act on SigningBytes.
  datatype Identity = Identity(serviceId: Id, keyId: Key -> Id,
                               sign: Signed -> string, verify: (Signed, string) -> bool)

  // ---- CreateNetwork ----

  function CreateNetwork(db: Db, user: Id, name: string, network: Id): (outcome: Outcome<()>) {
    if |NetworksOf(db, user)| >= NETWORK_QUOTA then Refused(NetworkLimitReached)
    else InsertNetwork(db, user, name, network)
  }

  // ---- Share and Invite ----

  function MakeShare(me: Identity, db: Db, device: Id, network: Id, nonce: Id, now: int): (share: Share)
    requires device in db.devices
  {
    var share := Share(VERSION, me.serviceId, network, device, me.keyId(db.devices[device].publicKey), nonce,
                       now + PAIRING_SECONDS, "");
    share.(signature := me.sign(SignedShare(share)))
  }

  function ShareDevice(me: Identity, db: Db, device: Id, network: Id, nonce: Id, now: int): (outcome: Outcome<Share>) {
    if !Admitted(db, device) then Refused(DeviceUnauthorized)
    else
      match RecordShare(db, device, network, nonce, now + PAIRING_SECONDS)
      case Refused(error) => Refused(error)
      case Committed(next, _) => Committed(next, MakeShare(me, db, device, network, nonce, now))
  }

  // The checks of a share that need no transaction.
  predicate ShareHolds(me: Identity, db: Db, sender: Id, share: Share, now: int)
    requires share.deviceId in db.devices
  {
    && share.version == VERSION && share.serviceId == me.serviceId && share.deviceId != sender
    && share.fingerprint == me.keyId(db.devices[share.deviceId].publicKey)
    && now < share.expiresAt <= now + PAIRING_SECONDS
    && me.verify(SignedShare(share), share.signature)
  }

  function InviteDevice(me: Identity, db: Db, sender: Id, share: Share, id: Id, now: int): (outcome: Outcome<Pair>) {
    if !Admitted(db, sender) || !Admitted(db, share.deviceId) then Refused(DeviceUnauthorized)
    else if !ShareHolds(me, db, sender, share, now) then Refused(InvalidPairingCode)
    else Invite(db, sender, share.deviceId, share.networkId, share.nonce, share.expiresAt, id, now)
  }

  // A share taken to an unpaired device of the same owner can be redeemed from
  // the second it was made until five minutes later, and at no other time.
  lemma ShareRedeemsForFiveMinutes(me: Identity, db: Db, device: Id, sender: Id, network: Id, nonce: Id,
                                   made: int, id: Id, now: int)
    requires LawfulSigning(me.sign, me.verify) && ShareDevice(me, db, device, network, nonce, made).Committed?
    requires Admitted(db, sender) && sender != device && CoOwned(db, network, sender, device)
    requires !PairingExists(db, network, sender, device, now) && id !in db.pairs
    ensures var shared := ShareDevice(me, db, device, network, nonce, made);
            var invited := InviteDevice(me, shared.db, sender, shared.value, id, now);
            && (invited.Committed? <==> made <= now < made + PAIRING_SECONDS)
            && (invited.Committed? ==>
                  && id in invited.db.pairs
                  && invited.db.pairs[id] == Pair(network, sender, device, Invited, now + PAIRING_SECONDS, 1))
  {
    var share := MakeShare(me, db, device, network, nonce, made);
    assert SameStatement(SignedShare(share), SignedShare(share.(signature := "")));
    assert ShareDevice(me, db, device, network, nonce, made).value == share;
  }

  // ---- certificates ----

  // `due` says the certificate presented has a week or less to run.
  function RenewCertificate(db: Db, device: Id, key: Key, request: Id, due: bool,
                            certificate: Certificate, now: int): (outcome: Outcome<Certificate>)
  {
    if !Admitted(db, device) then Refused(DeviceUnauthorized)
    else if key != db.devices[device].publicKey then Refused(IdentityMismatch)
    else if (device, request) in db.renewals then Committed(db, db.renewals[(device, request)])
    else if !due then Refused(RenewalNotDue)
    else ReplaceCertificate(db, device, request, None, certificate, now)
  }

  // `expired` says the certificate on record has run out.
  function RecoverCertificate(db: Db, device: Id, key: Key, request: Id, hash: string, expired: bool,
                              certificate: Certificate, now: int): (outcome: Outcome<Certificate>)
  {
    if !Admitted(db, device) then Refused(DeviceUnauthorized)
    else if key != db.devices[device].publicKey then Refused(IdentityMismatch)
    else if !expired then Refused(CertificateNotExpired)
    else ReplaceCertificate(db, device, request, Some(hash), certificate, now)
  }

  // Repeating a renewal request answers with the certificate already issued,
  // whatever was issued meanwhile for the repeat, and changes nothing; a recovery
  // under the same request id is refused and leaves its token unused.
  lemma RenewalRepeats(db: Db, device: Id, key: Key, request: Id, due: bool, certificate: Certificate, now: int,
                       dueAgain: bool, unused: Certificate, later: int, hash: string, expired: bool)
    requires RenewCertificate(db, device, key, request, due, certificate, now).Committed?
    ensures var first := RenewCertificate(db, device, key, request, due, certificate, now);
            && RenewCertificate(first.db, device, key, request, dueAgain, unused, later)
               == Committed(first.db, first.value)
            && RecoverCertificate(first.db, device, key, request, hash, expired, unused, later).Refused?
  {
  }

  // ---- ActOnPair ----

  // Why an action does not apply to a row.
  function Refusal(action: Action): (error: Error) {
    match action
    case Confirm => IdentityMismatch
    case UnknownAction => InvalidPairAction
    case _ => PairStateConflict
  }

  function ActOnPair(keyId: Key -> Id, db: Db, device: Id, id: Id, action: Action, fingerprint: Id, now: int)
    : (outcome: Outcome<Pair>)
  {
    if !Admitted(db, device) then Refused(DeviceUnauthorized)
    else if id !in db.pairs || !IsEnd(db.pairs[id], device) then
      Refused(PairUnauthorized)
    else
      var row := db.pairs[id];
      if !CoOwned(db, row.network, row.initiator, row.target) then Refused(BindingUnauthorized)
      else
        var next := Move(action, row, device, Runs.Identified(keyId, db, row, fingerprint));
        if next.None? then Refused(Refusal(action))
        else if action != RevokePair && row.expires <= now then Refused(Error.PairingExpired)
        else CompareAndSwap(db, id, row, next.value)
  }

  // ---- the uninterrupted call is the run of its own steps ----

  function StepsLeft(phase: Runs.Phase): (n: nat) {
    match phase
    case Entered => 7
    case CallerRead => 6
    case RowRead(_) => 5
    case InitiatorOwned(_, _) => 4
    case BothOwned(_) => 3
    case Ready(_, _) => 2
    case Swapped(_) => 1
    case Rechecked(_) => 0
  }

  // The database and the answer of a pending call that runs to its end with
  // nothing in between; no answer is a refusal.
  function Finish(keyId: Key -> Id, db: Db, p: Runs.Pending): (r: (Db, Option<Pair>))
    decreases StepsLeft(p.phase)
  {
    match p.phase
    case Ready(_, _) =>
      (match Runs.Swap(db, p)
       case Committed(next, row) => Finish(keyId, next, p.(phase := Runs.Swapped(row)))
       case Refused(_) => (db, None))
    case Rechecked(_) => (db, Runs.OwnRow(db, p.call))
    case _ =>
      match Runs.NextPhase(keyId, db, p)
      case None => (db, None)
      case Some(phase) => Finish(keyId, db, p.(phase := phase))
  }

  function Ended<T>(db: Db, outcome: Outcome<T>): (r: (Db, Option<T>)) {
    match outcome
    case Committed(next, value) => (next, Some(value))
    case Refused(_) => (db, None)
  }

  function Called(keyId: Key -> Id, db: Db, call: Runs.Call): (outcome: Outcome<Pair>) {
    ActOnPair(keyId, db, call.device, call.pair, call.action, call.fingerprint, call.now)
  }

  ghost function Steps(keyId: Key -> Id, w: Runs.World, t: nat, n: nat): (v: Runs.World)
    decreases n
  {
    if n == 0 then w else Steps(keyId, Runs.Exec(keyId, w, Runs.Proceed(t)), t, n - 1)
  }

  lemma {:induction false} StepsFinish(keyId: Key -> Id, w: Runs.World, t: nat, n: nat)
    requires t in w.pending ==> StepsLeft(w.pending[t].phase) < n
    ensures var v := Steps(keyId, w, t, n);
            t !in v.pending && v.db == if t in w.pending then Finish(keyId, w.db, w.pending[t]).0 else w.db
    decreases n
  {
    if n > 0 {
      StepsFinish(keyId, Runs.Exec(keyId, w, Runs.Proceed(t)), t, n - 1);
    }
  }

  // After the swap the caller and its row are still there to be read.
  lemma FinishFromReady(keyId: Key -> Id, db: Db, call: Runs.Call, row: Pair, next: PairState)
    requires Admitted(db, call.device) && Runs.OwnRow(db, call) == Some(row)
    ensures Finish(keyId, db, Runs.Pending(call, Runs.Ready(row, next)))
            == Ended(db, CompareAndSwap(db, call.pair, row, next))
  {
    var swapped := CompareAndSwap(db, call.pair, row, next);
    if swapped.Committed? {
      var done := Runs.Pending(call, Runs.Rechecked(swapped.value));
      assert Finish(keyId, swapped.db, done) == (swapped.db, Some(swapped.value));
      assert Finish(keyId, swapped.db, done.(phase := Runs.Swapped(swapped.value))) == Finish(keyId, swapped.db, done);
    }
  }

  lemma FinishFromBothOwned(keyId: Key -> Id, db: Db, call: Runs.Call, row: Pair)
    requires Admitted(db, call.device) && Runs.OwnRow(db, call) == Some(row)
    requires CoOwned(db, row.network, row.initiator, row.target)
    ensures Finish(keyId, db, Runs.Pending(call, Runs.BothOwned(row))) == Ended(db, Called(keyId, db, call))
  {
    var both := Runs.Pending(call, Runs.BothOwned(row));
    var next := Runs.NextPhase(keyId, db, both);
    if next.Some? {
      FinishFromReady(keyId, db, call, row, next.value.next);
      assert Finish(keyId, db, both) == Finish(keyId, db, both.(phase := next.value));
    }
  }

  lemma FinishFromRow(keyId: Key -> Id, db: Db, call: Runs.Call, row: Pair)
    requires Admitted(db, call.device) && Runs.OwnRow(db, call) == Some(row)
    ensures Finish(keyId, db, Runs.Pending(call, Runs.RowRead(row))) == Ended(db, Called(keyId, db, call))
  {
    var read := Runs.Pending(call, Runs.RowRead(row));
    var owner := BindingOwner(db, row.network, row.initiator);
    if owner.Some? {
      var owned := Runs.Pending(call, Runs.InitiatorOwned(row, owner.value));
      assert Finish(keyId, db, read) == Finish(keyId, db, owned);
      if BindingOwner(db, row.network, row.target) == owner {
        assert Finish(keyId, db, owned) == Finish(keyId, db, Runs.Pending(call, Runs.BothOwned(row)));
        FinishFromBothOwned(keyId, db, call, row);
      } else {
        assert Finish(keyId, db, owned) == (db, None);
      }
    }
  }

  lemma FinishFromEntered(keyId: Key -> Id, db: Db, call: Runs.Call)
    ensures Finish(keyId, db, Runs.Pending(call, Runs.Entered)) == Ended(db, Called(keyId, db, call))
  {
    var entered, read := Runs.Pending(call, Runs.Entered), Runs.Pending(call, Runs.CallerRead);
    if Admitted(db, call.device) {
      assert Finish(keyId, db, entered) == Finish(keyId, db, read);
      if Runs.OwnRow(db, call).Some? {
        FinishFromRow(keyId, db, call, Runs.OwnRow(db, call).value);
      }
    }
  }

  // Entering, five reads, the swap and two more reads, with nothing in between,
  // leave the database the call leaves, and the last read is its answer.
  lemma ActOnPairIsItsSteps(keyId: Key -> Id, w: Runs.World, t: nat, call: Runs.Call)
    requires t !in w.pending && call.now <= w.clock
    ensures Steps(keyId, Runs.Exec(keyId, w, Runs.Enter(t, call)), t, 8).db == After(w.db, Called(keyId, w.db, call))
    ensures Finish(keyId, w.db, Runs.Pending(call, Runs.Entered)) == Ended(w.db, Called(keyId, w.db, call))
  {
    StepsFinish(keyId, Runs.Exec(keyId, w, Runs.Enter(t, call)), t, 8);
    FinishFromEntered(keyId, w.db, call);
  }
}
