// Why Begin, Renew, End and Admit are refused: for each error the exact condition
// under which it is the answer, read off what is stored as in SessionContracts.
module SessionRefusals {
  import opened Wrappers
  import opened Tables
  import opened Messages
  import opened SessionRules
  import opened StoreContracts
  import opened SessionContracts

  // ---- Begin ----

  // What Begin finds: a proper target that shares a network with the sender, a
  // generation in range, both ends admitted and answering in turn, no attempt in the
  // way, the sender still admitted, and the network that both are still bound to.
  datatype BeginFound = BeginFound(other: bool, meets: bool, counts: bool, sender: bool, senderHeard: bool,
                                   target: bool, targetHeard: bool, free: bool, still: bool, bound: bool)

  ghost function BeginFinds(v: Views, s: Sessions, sender: Id, target: Id, generation: nat, now: int, network: Id)
    : (found: BeginFound)
    requires |v| == BEGIN_READS
  {
    BeginFound(HexId(target) && target != sender, Meet(v[0], sender, target),
               1 <= generation <= 9_007_199_254_740_991, CallerOn(v[1], sender), Answering(v[1], s, sender, now),
               CallerOn(v[2], target), Answering(v[2], s, target, now), Free(s, sender, target, now),
               CallerOn(v[3], sender), BoundOn(v[4], network, sender) && BoundOn(v[4], network, target))
  }

  predicate BeginRefuses(error: Error, f: BeginFound) {
    var proper := f.other && f.meets && f.counts;
    var answered := proper && f.senderHeard && f.targetHeard;
    match error
    case InvalidRequest => !f.other
    case PairUnauthorized => (f.other && !f.meets) || (answered && f.free && f.still && !f.bound)
    case InvalidGeneration => f.other && f.meets && !f.counts
    case DeviceUnauthorized =>
      || (proper && !f.sender) || (proper && f.senderHeard && !f.target) || (answered && f.free && !f.still)
    case PeerOffline =>
      || (proper && f.sender && !f.senderHeard) || (proper && f.senderHeard && f.target && !f.targetHeard)
    case ConnectionBusy => answered && !f.free
    case _ => false
  }

  predicate BeginAnswers(r: Result<Lease, Error>, f: BeginFound) {
    if !f.other then r == Failure(InvalidRequest)
    else if !f.meets then r == Failure(PairUnauthorized)
    else if !f.counts then r == Failure(InvalidGeneration)
    else if !f.sender then r == Failure(DeviceUnauthorized)
    else if !f.senderHeard then r == Failure(PeerOffline)
    else if !f.target then r == Failure(DeviceUnauthorized)
    else if !f.targetHeard then r == Failure(PeerOffline)
    else if !f.free then r == Failure(ConnectionBusy)
    else if !f.still then r == Failure(DeviceUnauthorized)
    else if !f.bound then r == Failure(PairUnauthorized)
    else r.Success?
  }

  lemma BeginIsAnswered(env: Env, v: Views, s: Sessions, sender: Id, target: Id, generation: nat, now: int,
                        attempt: Id, network: Id)
    requires |v| == BEGIN_READS
    ensures BeginAnswers(Begin(env, v, s, sender, target, generation, now, attempt, network).1,
                         BeginFinds(v, s, sender, target, generation, now, network))
  {
    SharingAgrees(v[0], sender, target);
    IdsAgree(target);
    FreeAgrees(s, sender, target, now);
  }

  lemma BeginAnswersOneError(r: Result<Lease, Error>, f: BeginFound, error: Error)
    requires BeginAnswers(r, f) && (f.senderHeard ==> f.sender) && (f.targetHeard ==> f.target)
    ensures r == Failure(error) <==> BeginRefuses(error, f)
  {
  }

  lemma BeginIsRefused(env: Env, v: Views, s: Sessions, sender: Id, target: Id, generation: nat, now: int,
                       attempt: Id, network: Id, error: Error)
    requires |v| == BEGIN_READS
    ensures Begin(env, v, s, sender, target, generation, now, attempt, network).1 == Failure(error)
            <==> BeginRefuses(error, BeginFinds(v, s, sender, target, generation, now, network))
  {
    BeginIsAnswered(env, v, s, sender, target, generation, now, attempt, network);
    BeginAnswersOneError(Begin(env, v, s, sender, target, generation, now, attempt, network).1,
                         BeginFinds(v, s, sender, target, generation, now, network), error);
  }

  // ---- Renew and End ----

  // The attempt is stored under the id asked for and its lease is running.
  predicate Stands(s: Sessions, k: Id, attempt: Id, now: int) {
    k in s.attempts && s.attempts[k].lease.attemptId == attempt && Running(s.attempts[k].lease, now)
  }

  ghost predicate AuthorizeRefuses(error: Error, v: Views, s: Sessions, sender: Id, k: Id, attempt: Id, now: int)
    requires |v| >= RENEW_READS
  {
    match error
    case LeaseExpired => !Stands(s, k, attempt, now)
    case PairRevoked => Stands(s, k, attempt, now) && !Meet(v[0], sender, k)
    case DeviceUnauthorized =>
      && Stands(s, k, attempt, now) && Meet(v[0], sender, k)
      && !(CallerOn(v[1], s.attempts[k].lease.fromDeviceId) && CallerOn(v[2], s.attempts[k].lease.toDeviceId))
    case _ => false
  }

  lemma AuthorizationIsRefused(v: Views, s: Sessions, sender: Id, k: Id, attempt: Id, now: int, error: Error)
    requires |v| >= RENEW_READS
    ensures Authorize(v, s, sender, k, attempt, now) == Failure(error)
            <==> AuthorizeRefuses(error, v, s, sender, k, attempt, now)
  {
    SharingAgrees(v[0], sender, k);
  }

  lemma RenewalIsRefused(env: Env, v: Views, s: Sessions, sender: Id, k: Id, attempt: Id, now: int, error: Error)
    requires |v| == RENEW_READS
    ensures Renew(env, v, s, sender, k, attempt, now).1 == Failure(error)
            <==> AuthorizeRefuses(error, v, s, sender, k, attempt, now)
  {
    AuthorizationIsRefused(v, s, sender, k, attempt, now, error);
  }

  // ---- Admit ----

  // What an admission finds, each on top of the one before: a standing attempt, a
  // common network, both ends admitted, the sender admitted, the protocol's version
  // and numbers, the attempt's own scope, a deadline within the minute, a payload of
  // its kind, the sender's signature, room and a fresh message id, and a description
  // or candidate that is due.
  datatype AdmitFound = AdmitFound(stands: bool, meets: bool, ends: bool, sender: bool, numbered: bool, scoped: bool,
                                   timely: bool, carried: bool, genuine: bool, counted: bool, due: bool)

  predicate Numbered(s: Signal) {
    && s.version == 1 && 1 <= s.generation <= 9_007_199_254_740_991 && 1 <= s.sequence <= 9_007_199_254_740_991
    && HexId(s.messageId)
  }

  predicate Scoped(a: Attempt, s: Signal, sender: Id) {
    && HexId(s.attemptId) && HexId(s.fromDeviceId) && HexId(s.toDeviceId) && HexId(s.pairId)
    && s.attemptId == a.lease.attemptId && s.generation == a.lease.generation
    && s.fromDeviceId == sender && s.fromDeviceId != s.toDeviceId
    && s.toDeviceId == (if sender == a.lease.toDeviceId then a.lease.fromDeviceId else a.lease.toDeviceId)
    && s.sequence == (if sender in a.sequence then a.sequence[sender] else 0) + 1
  }

  ghost function AdmitFinds(env: Env, v: Views, s: Sessions, sender: Id, signal: Signal, now: int)
    : (found: AdmitFound)
    requires |v| == ADMIT_READS
  {
    var k := signal.pairId;
    var stands := Stands(s, k, signal.attemptId, now);
    var meets := stands && Meet(v[0], sender, k);
    var ends := meets && CallerOn(v[1], s.attempts[k].lease.fromDeviceId)
                && CallerOn(v[2], s.attempts[k].lease.toDeviceId);
    var known := ends && CallerOn(v[3], sender);
    var numbered := known && Numbered(signal);
    var scoped := numbered && Scoped(s.attempts[k], signal, sender);
    var timely := scoped && now / 1_000_000_000 < signal.expiresAt <= now / 1_000_000_000 + 60;
    var carried := timely && CarriesItsKind(env, signal);
    var genuine := carried && env.verify(v[3].devices[sender].publicKey, SignedSignal(signal), signal.signature);
    var counted := genuine && signal.messageId !in s.attempts[k].messageIds && s.attempts[k].count < 512;
    AdmitFound(stands, meets, ends, known, numbered, scoped, timely, carried, genuine, counted,
               counted && (|| Offers(env, s.attempts[k], sender, signal) || Answers(env, s.attempts[k], sender, signal)
                           || AddsCandidate(env, s.attempts[k], sender, signal)))
  }

  predicate AdmitRefuses(error: Error, sdp: bool, f: AdmitFound) {
    match error
    case LeaseExpired => !f.stands
    case PairRevoked => f.stands && !f.meets
    case DeviceUnauthorized => f.meets && !f.sender
    case ProtocolMismatch => f.sender && !f.numbered
    case ScopeMismatch => f.numbered && !f.scoped
    case SignalExpired => f.scoped && !f.timely
    case InvalidPayload => f.timely && !f.carried
    case IdentityMismatch => f.carried && !f.genuine
    case SignalLimit => f.genuine && !f.counted
    case SignalStateConflict => f.counted && !f.due && sdp
    case SdpBindingMismatch => f.counted && !f.due && !sdp
    case _ => false
  }

  predicate AdmitAnswers(r: Result<(), Error>, sdp: bool, f: AdmitFound) {
    if !f.stands then r == Failure(LeaseExpired)
    else if !f.meets then r == Failure(PairRevoked)
    else if !f.sender then r == Failure(DeviceUnauthorized)
    else if !f.numbered then r == Failure(ProtocolMismatch)
    else if !f.scoped then r == Failure(ScopeMismatch)
    else if !f.timely then r == Failure(SignalExpired)
    else if !f.carried then r == Failure(InvalidPayload)
    else if !f.genuine then r == Failure(IdentityMismatch)
    else if !f.counted then r == Failure(SignalLimit)
    else if !f.due then r == Failure(if sdp then SignalStateConflict else SdpBindingMismatch)
    else r.Success?
  }

  lemma VerificationIsAnswered(env: Env, a: Attempt, sender: Id, key: Key, s: Signal, now: int)
    ensures var r := VerifySignal(env, key, s, ScopeOf(a, sender, s.pairId), now);
            if !Numbered(s) then r == Failure(ProtocolMismatch)
            else if !Scoped(a, s, sender) then r == Failure(ScopeMismatch)
            else if !(now / 1_000_000_000 < s.expiresAt <= now / 1_000_000_000 + 60) then r == Failure(SignalExpired)
            else if !CarriesItsKind(env, s) then r == Failure(InvalidPayload)
            else if !env.verify(key, SignedSignal(s), s.signature) then r == Failure(IdentityMismatch)
            else r.Success?
  {
    PayloadsAgree(env, s);
  }

  lemma DescriptionIsAnswered(env: Env, a: Attempt, sender: Id, s: Signal)
    requires CarriesItsKind(env, s)
    ensures var r := AdmitSdp(env, a, sender, s);
            if Offers(env, a, sender, s) || Answers(env, a, sender, s) || AddsCandidate(env, a, sender, s)
            then r.Success?
            else r == Failure(if s.kind == Offer || s.kind == Answer then SignalStateConflict else SdpBindingMismatch)
  {
  }

  lemma AcceptanceIsAnswered(env: Env, v: Views, s: Sessions, sender: Id, signal: Signal, now: int)
    requires |v| == ADMIT_READS && AdmitFinds(env, v, s, sender, signal, now).sender
    ensures var r := Accept(env, s.attempts[signal.pairId], sender, v[3].devices[sender].publicKey, signal, now);
            var f, sdp := AdmitFinds(env, v, s, sender, signal, now), signal.kind == Offer || signal.kind == Answer;
            AdmitAnswers(if r.Success? then Success(()) else Failure(r.error), sdp, f)
  {
    var a := s.attempts[signal.pairId];
    VerificationIsAnswered(env, a, sender, v[3].devices[sender].publicKey, signal, now);
    if CarriesItsKind(env, signal) {
      DescriptionIsAnswered(env, a, sender, signal);
    }
  }

  lemma AdmitIsAnswered(env: Env, v: Views, s: Sessions, sender: Id, signal: Signal, now: int)
    requires |v| == ADMIT_READS
    ensures AdmitAnswers(Admit(env, v, s, sender, signal, now).1, signal.kind == Offer || signal.kind == Answer,
                         AdmitFinds(env, v, s, sender, signal, now))
  {
    SharingAgrees(v[0], sender, signal.pairId);
    if AdmitFinds(env, v, s, sender, signal, now).sender {
      AcceptanceIsAnswered(env, v, s, sender, signal, now);
    }
  }

  lemma AdmitAnswersOneError(r: Result<(), Error>, sdp: bool, f: AdmitFound, error: Error)
    requires AdmitAnswers(r, sdp, f) && (f.meets ==> f.stands) && (f.sender ==> f.meets) && (f.numbered ==> f.sender)
    requires (f.scoped ==> f.numbered) && (f.timely ==> f.scoped) && (f.carried ==> f.timely)
    requires (f.genuine ==> f.carried) && (f.counted ==> f.genuine) && (f.due ==> f.counted)
    ensures r == Failure(error) <==> AdmitRefuses(error, sdp, f)
  {
  }

  lemma AdmissionIsRefused(env: Env, v: Views, s: Sessions, sender: Id, signal: Signal, now: int, error: Error)
    requires |v| == ADMIT_READS
    ensures Admit(env, v, s, sender, signal, now).1 == Failure(error)
            <==> AdmitRefuses(error, signal.kind == Offer || signal.kind == Answer,
                              AdmitFinds(env, v, s, sender, signal, now))
  {
    AdmitIsAnswered(env, v, s, sender, signal, now);
    AdmitAnswersOneError(Admit(env, v, s, sender, signal, now).1, signal.kind == Offer || signal.kind == Answer,
                         AdmitFinds(env, v, s, sender, signal, now), error);
  }
}
