// Presence, connection attempts and signal admission, as rules on values.
//
// Times are nanoseconds; leases and signals compare whole Unix seconds. What
// cryptography and payload decoding answer is a parameter, Env: every theorem
// holds for all answers, except where a law of theirs is required.
module SessionRules {
  import opened Wrappers
  import opened Tables
  import opened Messages
  import opened Clock

  const PRESENCE := 30 * SECOND
  const SEEN_INTERVAL := 60 * SECOND
  const LEASE_SECONDS := 60
  const SIGNAL_SECONDS := 60
  const MAX_SIGNALS := 512
  const MAX_EXACT := 9_007_199_254_740_991

  datatype CandidateBody = CandidateBody(sdpHash: string, candidate: string, mid: string)

  // Signing and verifying are given the record itself. They act on its
  // SigningBytes, which Messages.SigningBytesInjective shows to determine it.
  datatype Env = Env(
    serviceId: string,
    sign: Signed -> string,                          // with the coordinator's key
    verify: (Key, Signed, string) -> bool,           // key, record, signature
    sha256: string -> string,                        // as lower-case hexadecimal
    sdpOf: string -> Option<string>,                 // strict decoding of a payload as SDP
    candidateOf: string -> Option<CandidateBody>)    // and as a candidate

  function Verifier(env: Env, public: Key): (verify: (Signed, string) -> bool) {
    (m, signature) => env.verify(public, m, signature)
  }

  // ---- Signal.Verify ----

  datatype Scope = Scope(attemptId: Id, fromDeviceId: Id, toDeviceId: Id, pairId: Id,
                         generation: nat, nextSequence: nat)

  predicate HexText(s: string) {
    |s| % 2 == 0 && forall c :: c in s ==> LowerHex(c) || 'A' <= c <= 'F'
  }

  predicate ValidPayload(env: Env, s: Signal) {
    && |s.payload| <= 48 * 1024
    && match s.kind
       case UnknownKind(_) => false
       case Offer => env.sdpOf(s.payload).Some? && 0 < |env.sdpOf(s.payload).value| <= 32 * 1024
       case Answer => env.sdpOf(s.payload).Some? && 0 < |env.sdpOf(s.payload).value| <= 32 * 1024
       case _ =>
         && env.candidateOf(s.payload).Some?
         && var body := env.candidateOf(s.payload).value;
            && |body.sdpHash| == 64 && HexText(body.sdpHash)
            && |body.candidate| <= 2048 && |body.mid| <= 64
            && (s.kind == Candidate <==> body.candidate != "")
  }

  predicate InScope(s: Signal, scope: Scope) {
    && ValidID(s.attemptId) && ValidID(s.fromDeviceId) && ValidID(s.toDeviceId) && ValidID(s.pairId)
    && s.fromDeviceId != s.toDeviceId
    && s.attemptId == scope.attemptId && s.fromDeviceId == scope.fromDeviceId
    && s.toDeviceId == scope.toDeviceId && s.pairId == scope.pairId
    && s.generation == scope.generation && s.sequence == scope.nextSequence
  }

  function VerifySignal(env: Env, key: Key, s: Signal, scope: Scope, now: int): (r: Result<(), Error>) {
    if || s.version != VERSION || s.generation == 0 || s.generation > MAX_EXACT
       || s.sequence == 0 || s.sequence > MAX_EXACT || !ValidID(s.messageId)
    then Failure(ProtocolMismatch)
    else if !InScope(s, scope) then Failure(ScopeMismatch)
    else if s.expiresAt <= Unix(now) || s.expiresAt > Unix(now) + SIGNAL_SECONDS then Failure(SignalExpired)
    else if !ValidPayload(env, s) then Failure(InvalidPayload)
    else if !env.verify(key, SignedSignal(s), s.signature) then Failure(IdentityMismatch)
    else Success(())
  }

  // ---- Lease.Verify, as the two ends run it ----

  // `service` is the id of the public key; the other arguments are what the
  // verifier has pinned, not what it was sent.
  function VerifyLease(env: Env, public: Key, service: Id, lease: Lease, scope: Scope, user: Id, network: Id,
                       revision: nat, now: int): (r: Result<(), Error>)
  {
    if || !ValidID(user) || !ValidID(network) || lease.userId != user || lease.networkId != network
       || lease.version != VERSION || lease.serviceId != service || lease.permission != "dsh-session"
       || lease.generation != scope.generation || lease.revision != revision || revision == 0
       || lease.attemptId != scope.attemptId || lease.pairId != scope.pairId
       || lease.fromDeviceId != scope.fromDeviceId || lease.toDeviceId != scope.toDeviceId
       || !ValidID(lease.attemptId) || !ValidID(lease.pairId) || !ValidID(lease.fromDeviceId)
       || !ValidID(lease.toDeviceId) || lease.fromDeviceId == lease.toDeviceId
    then Failure(ScopeMismatch)
    else if lease.expiresAt <= Unix(now) || lease.expiresAt > Unix(now) + LEASE_SECONDS then Failure(LeaseExpired)
    else if !env.verify(public, SignedLease(lease), lease.signature) then Failure(IdentityMismatch)
    else Success(())
  }

  // ---- attempts ----

  datatype Attempt = Attempt(lease: Lease, sequence: map<Id, nat>, sdpHash: map<Id, string>,
                             messageIds: set<Id>, count: nat)

  datatype Sessions = Sessions(attempts: map<Id, Attempt>,
                               presence: map<(Id, Id), int>,   // (device, account) to last report
                               seenSaved: map<Id, int>)

  const NO_SESSIONS := Sessions(map[], map[], map[])

  // Go's map lookups: a missing counter is zero, a missing hash is empty.
  function Counter(a: Attempt, sender: Id): (n: nat) {
    if sender in a.sequence then a.sequence[sender] else 0
  }

  function HashOf(a: Attempt, sender: Id): (text: string) {
    if sender in a.sdpHash then a.sdpHash[sender] else ""
  }

  function Reported(s: Sessions, device: Id, user: Id): (value: int) {
    if (device, user) in s.presence then s.presence[(device, user)] else ZERO_TIME
  }

  predicate Present(s: Sessions, device: Id, user: Id, now: int) {
    Reported(s, device, user) + PRESENCE > now
  }

  function Unexpired(attempts: map<Id, Attempt>, now: int): (unexpired: map<Id, Attempt>) {
    map k | k in attempts && attempts[k].lease.expiresAt > Unix(now) :: attempts[k]
  }

  predicate Links(lease: Lease, a: Id, b: Id) {
    (lease.fromDeviceId == a && lease.toDeviceId == b) || (lease.fromDeviceId == b && lease.toDeviceId == a)
  }

  predicate Busy(attempts: map<Id, Attempt>, sender: Id, target: Id) {
    target in attempts || exists k :: k in attempts && Links(attempts[k].lease, sender, target)
  }

  function SignLease(env: Env, lease: Lease): (signed: Lease) {
    lease.(signature := env.sign(SignedLease(lease)))
  }

  function NewLease(env: Env, user: Id, network: Id, attempt: Id, sender: Id, target: Id,
                    generation: nat, now: int): (lease: Lease)
  {
    SignLease(env, Lease(VERSION, env.serviceId, user, network, target, attempt, sender, target,
                      generation, 1, Unix(now) + LEASE_SECONDS, "dsh-session", ""))
  }

  // ---- the calls that hold the lock ----

  // Begin, Renew and Admit hold the lock on the sessions and query the database
  // several times meanwhile. `v[i]` is the database as the i-th query found it, and
  // `now` the clock as it was read before the lock was taken.
  type Views = seq<Db>

  const BEGIN_READS := 5
  const RENEW_READS := 3
  const ADMIT_READS := 4

  // The views of a call with nothing in between.
  function AtOnce(db: Db, n: nat): (v: Views)
    ensures |v| == n && forall i :: 0 <= i < n ==> v[i] == db
  {
    seq(n, _ => db)
  }

  // Why Begin refuses before it looks at the attempts, if it does.
  function Unreachable(v: Views, s: Sessions, sender: Id, target: Id, generation: nat, now: int)
    : (refusal: Option<Error>)
    requires |v| == BEGIN_READS
  {
    if !ValidID(target) || target == sender then Some(InvalidRequest)
    else if !SameNetwork(v[0], sender, target) then Some(PairUnauthorized)
    else if generation == 0 || generation > MAX_EXACT then Some(InvalidGeneration)
    else if !Admitted(v[1], sender) then Some(DeviceUnauthorized)
    else if !Present(s, sender, v[1].devices[sender].user, now) then Some(PeerOffline)
    else if !Admitted(v[2], target) then Some(DeviceUnauthorized)
    else if !Present(s, target, v[2].devices[target].user, now) then Some(PeerOffline)
    else None
  }

  // `attempt` is the fresh id; `network` the common network the last query returned.
  function Begin(env: Env, v: Views, s: Sessions, sender: Id, target: Id, generation: nat, now: int,
                 attempt: Id, network: Id): (r: (Sessions, Result<Lease, Error>))
    requires |v| == BEGIN_READS
  {
    var refusal := Unreachable(v, s, sender, target, generation, now);
    if refusal.Some? then (s, Failure(refusal.value))
    else
      var purged := s.(attempts := Unexpired(s.attempts, now));
      if Busy(purged.attempts, sender, target) then (purged, Failure(ConnectionBusy))
      else if !Admitted(v[3], sender) then (purged, Failure(DeviceUnauthorized))
      else if !Bound(v[4], network, sender) || !Bound(v[4], network, target) then (purged, Failure(PairUnauthorized))
      else
        var lease := NewLease(env, v[3].devices[sender].user, network, attempt, sender, target, generation, now);
        (purged.(attempts := purged.attempts[target := Opening(lease)]), Success(lease))
  }

  // An attempt that has accepted nothing yet.
  function Opening(lease: Lease): (a: Attempt) { Attempt(lease, map[], map[], {}, 0) }

  // Authorization of Renew and Admit. `sender` need not be one of the two ends.
  function Authorize(v: Views, s: Sessions, sender: Id, pairId: Id, attemptId: Id, now: int)
    : (r: Result<Attempt, Error>)
    requires |v| >= RENEW_READS
    ensures r.Success? ==> pairId in s.attempts && r.value == s.attempts[pairId]
  {
    if || pairId !in s.attempts || s.attempts[pairId].lease.attemptId != attemptId
       || s.attempts[pairId].lease.expiresAt <= Unix(now)
    then Failure(LeaseExpired)
    else if !SameNetwork(v[0], sender, pairId) then Failure(PairRevoked)
    else if !Admitted(v[1], s.attempts[pairId].lease.fromDeviceId) then Failure(DeviceUnauthorized)
    else if !Admitted(v[2], s.attempts[pairId].lease.toDeviceId) then Failure(DeviceUnauthorized)
    else Success(s.attempts[pairId])
  }

  function Extended(env: Env, lease: Lease, now: int): (extended: Lease) {
    SignLease(env, lease.(expiresAt := Unix(now) + LEASE_SECONDS))
  }

  function Renew(env: Env, v: Views, s: Sessions, sender: Id, pairId: Id, attemptId: Id, now: int)
    : (r: (Sessions, Result<Lease, Error>))
    requires |v| == RENEW_READS
  {
    match Authorize(v, s, sender, pairId, attemptId, now)
    case Failure(error) => (s, Failure(error))
    case Success(current) =>
      var lease := Extended(env, current.lease, now);
      (s.(attempts := s.attempts[pairId := current.(lease := lease)]), Success(lease))
  }

  function End(s: Sessions, sender: Id, pairId: Id, attemptId: Id): (r: (Sessions, Result<(), Error>)) {
    if || pairId !in s.attempts || s.attempts[pairId].lease.attemptId != attemptId
       || (s.attempts[pairId].lease.fromDeviceId != sender && s.attempts[pairId].lease.toDeviceId != sender)
    then (s, Failure(AttemptNotFound))
    else (s.(attempts := s.attempts - {pairId}), Success(()))
  }

  // The offer comes from the initiator, an answer from anyone else once the offer
  // is in, one SDP per sender; a candidate names the hash of its sender's SDP.
  function AdmitSdp(env: Env, a: Attempt, sender: Id, s: Signal): (r: Result<Attempt, Error>) {
    if s.kind == Offer || s.kind == Answer then
      if HashOf(a, sender) != "" || (s.kind == Offer) != (sender == a.lease.fromDeviceId) then
        Failure(SignalStateConflict)
      else if s.kind == Answer && HashOf(a, a.lease.fromDeviceId) == "" then Failure(SignalStateConflict)
      else if env.sdpOf(s.payload).None? then Failure(InvalidPayload)
      else Success(a.(sdpHash := a.sdpHash[sender := env.sha256(env.sdpOf(s.payload).value)]))
    else if env.candidateOf(s.payload).None? then Failure(InvalidPayload)
    else if HashOf(a, sender) == "" || HashOf(a, sender) != env.candidateOf(s.payload).value.sdpHash then
      Failure(SdpBindingMismatch)
    else Success(a)
  }

  function OtherEnd(lease: Lease, sender: Id): (id: Id) {
    if lease.toDeviceId == sender then lease.fromDeviceId else lease.toDeviceId
  }

  function ScopeOf(a: Attempt, sender: Id, pairId: Id): (scope: Scope) {
    Scope(a.lease.attemptId, sender, OtherEnd(a.lease, sender), pairId, a.lease.generation, Counter(a, sender) + 1)
  }

  // The attempt once the signal is accepted, or why it is not.
  function Accept(env: Env, a: Attempt, sender: Id, key: Key, s: Signal, now: int): (r: Result<Attempt, Error>) {
    var verified := VerifySignal(env, key, s, ScopeOf(a, sender, s.pairId), now);
    if verified.Failure? then Failure(verified.error)
    else if s.messageId in a.messageIds || a.count >= MAX_SIGNALS then Failure(SignalLimit)
    else
      match AdmitSdp(env, a, sender, s)
      case Failure(error) => Failure(error)
      case Success(b) => Success(b.(sequence := b.sequence[sender := s.sequence],
                                    messageIds := b.messageIds + {s.messageId}, count := b.count + 1))
  }

  function Admit(env: Env, v: Views, s: Sessions, sender: Id, signal: Signal, now: int)
    : (r: (Sessions, Result<(), Error>))
    requires |v| == ADMIT_READS
  {
    match Authorize(v, s, sender, signal.pairId, signal.attemptId, now)
    case Failure(error) => (s, Failure(error))
    case Success(current) =>
      if !Admitted(v[3], sender) then (s, Failure(DeviceUnauthorized))
      else
        match Accept(env, current, sender, v[3].devices[sender].publicKey, signal, now)
        case Failure(error) => (s, Failure(error))
        case Success(next) => (s.(attempts := s.attempts[signal.pairId := next]), Success(()))
  }

  // ---- presence ----

  predicate SeenDue(s: Sessions, device: Id, now: int) {
    device !in s.seenSaved || s.seenSaved[device] + SEEN_INTERVAL <= now
  }

  // What a heartbeat records once its queries have passed, and whether it is saved.
  // `user` is None for a machine signed in nowhere.
  function Record(s: Sessions, device: Id, user: Option<Id>, now: int): (r: (Sessions, bool)) {
    var due := SeenDue(s, device, now);
    (s.(presence := if user.Some? then s.presence[(device, user.value) := now] else s.presence,
        seenSaved := if due then s.seenSaved[device := now] else s.seenSaved), due)
  }

  function Heartbeat(db: Db, s: Sessions, device: Id, user: Option<Id>, now: int)
    : (r: (Sessions, Result<bool, Error>))
  {
    if !Admitted(db, device) then (s, Failure(DeviceUnauthorized))
    else if user.Some? && !LinkedTo(db, device, user.value) then (s, Failure(DeviceUnauthorized))
    else (Record(s, device, user, now).0, Success(Record(s, device, user, now).1))
  }

  function Offline(s: Sessions, device: Id, user: Option<Id>): (after: Sessions) {
    s.(presence := map k | k in s.presence && !(k.0 == device && (user.None? || k.1 == user.value)) :: s.presence[k],
       seenSaved := s.seenSaved - {device})
  }

  datatype Liveness = Unreported | Stale | Online

  function Presence(s: Sessions, device: Id, user: Id, now: int): (liveness: Liveness) {
    if (device, user) !in s.presence then Unreported
    else if s.presence[(device, user)] + PRESENCE <= now then Stale
    else Online
  }
}
