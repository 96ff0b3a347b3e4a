// What each call on the sessions promises, read off what is stored.
//
// As in StoreContracts, a predicate per call says exactly when it succeeds and what
// it leaves, over presence reports, leases, counters, message ids and the rows of
// the database at each query, with every limit written out.
module SessionContracts {
  import opened Wrappers
  import opened Tables
  import opened Messages
  import opened SessionRules
  import opened StoreContracts

  // ---- what is stored ----

  predicate HexId(id: Id) {
    |id| == 12 && forall c :: c in id ==> '0' <= c <= '9' || 'a' <= c <= 'f'
  }

  ghost predicate Meet(db: Db, a: Id, b: Id) {
    exists n :: BoundOn(db, n, a) && BoundOn(db, n, b)
  }

  // The device reported for the account less than half a minute ago. One that never
  // did counts as last heard of at the beginning of the year 1.
  predicate Heard(s: Sessions, device: Id, user: Id, now: int) {
    if (device, user) in s.presence then now < s.presence[(device, user)] + 30_000_000_000
    else now < -62_135_596_770_000_000_000
  }

  // Admitted, and heard of for its primary account.
  predicate Answering(db: Db, s: Sessions, device: Id, now: int) {
    CallerOn(db, device) && Heard(s, device, db.devices[device].user, now)
  }

  // The lease ends in a later second than the current one.
  predicate Running(lease: Lease, now: int) { lease.expiresAt > now / 1_000_000_000 }

  predicate Ends(lease: Lease, a: Id, b: Id) {
    (lease.fromDeviceId, lease.toDeviceId) == (a, b) || (lease.fromDeviceId, lease.toDeviceId) == (b, a)
  }

  // Exactly the attempts whose lease is running are left.
  ghost predicate Purged(a: map<Id, Attempt>, b: map<Id, Attempt>, now: int) {
    && (forall k :: k in b <==> k in a && Running(a[k].lease, now))
    && forall k :: k in b ==> b[k] == a[k]
  }

  // ---- Begin ----

  // No running attempt is on the target or joins the two devices.
  ghost predicate Free(s: Sessions, sender: Id, target: Id, now: int) {
    forall k :: k in s.attempts && Running(s.attempts[k].lease, now) ==>
      k != target && !Ends(s.attempts[k].lease, sender, target)
  }

  // A well-formed other device that shares a network with the sender.
  ghost predicate Proper(db: Db, sender: Id, target: Id, generation: nat) {
    HexId(target) && target != sender && Meet(db, sender, target) && 1 <= generation <= 9_007_199_254_740_991
  }

  ghost predicate MayBegin(v: Views, s: Sessions, sender: Id, target: Id, generation: nat, now: int, network: Id)
    requires |v| == BEGIN_READS
  {
    && Proper(v[0], sender, target, generation)
    && Answering(v[1], s, sender, now) && Answering(v[2], s, target, now)
    && Free(s, sender, target, now)
    && CallerOn(v[3], sender)
    && BoundOn(v[4], network, sender) && BoundOn(v[4], network, target)
  }

  // One of the two ends is admitted and not heard of, and nothing earlier is amiss.
  ghost predicate FindsOffline(v: Views, s: Sessions, sender: Id, target: Id, generation: nat, now: int)
    requires |v| == BEGIN_READS
  {
    && Proper(v[0], sender, target, generation)
    && CallerOn(v[1], sender)
    && if Heard(s, sender, v[1].devices[sender].user, now)
       then CallerOn(v[2], target) && !Heard(s, target, v[2].devices[target].user, now)
       else true
  }

  // The lease of one minute that Begin issues, signed by this service.
  ghost predicate Issues(env: Env, lease: Lease, user: Id, network: Id, attempt: Id, sender: Id, target: Id,
                         generation: nat, now: int)
  {
    && lease == Lease(1, env.serviceId, user, network, target, attempt, sender, target, generation, 1,
                      now / 1_000_000_000 + 60, "dsh-session", lease.signature)
    && lease.signature == env.sign(SignedLease(lease.(signature := "")))
  }

  ghost predicate Begins(env: Env, v: Views, a: Sessions, b: Sessions, r: Result<Lease, Error>, sender: Id,
                         target: Id, generation: nat, now: int, attempt: Id, network: Id)
    requires |v| == BEGIN_READS
  {
    && (r.Success? <==> MayBegin(v, a, sender, target, generation, now, network))
    && (r == Failure(PeerOffline) <==> FindsOffline(v, a, sender, target, generation, now))
    && b == a.(attempts := b.attempts)
    && (r.Failure? ==> b == a || Purged(a.attempts, b.attempts, now))
    && (r.Success? ==>
          && Issues(env, r.value, v[3].devices[sender].user, network, attempt, sender, target, generation, now)
          && target in b.attempts && b.attempts[target] == Attempt(r.value, map[], map[], {}, 0)
          && Purged(a.attempts, b.attempts - {target}, now))
  }

  // ---- Renew and End ----

  // The attempt of that id is running, the sender shares a network with the target,
  // and both ends are admitted.
  ghost predicate Authorized(v: Views, s: Sessions, sender: Id, k: Id, attempt: Id, now: int)
    requires |v| >= RENEW_READS
  {
    && k in s.attempts && s.attempts[k].lease.attemptId == attempt && Running(s.attempts[k].lease, now)
    && Meet(v[0], sender, k)
    && CallerOn(v[1], s.attempts[k].lease.fromDeviceId) && CallerOn(v[2], s.attempts[k].lease.toDeviceId)
  }

  ghost predicate Renews(env: Env, v: Views, a: Sessions, b: Sessions, r: Option<Lease>, sender: Id, k: Id,
                         attempt: Id, now: int)
    requires |v| == RENEW_READS
  {
    && (r.Some? <==> Authorized(v, a, sender, k, attempt, now))
    && (r.None? ==> b == a)
    && (r.Some? ==>
          && r.value == a.attempts[k].lease.(expiresAt := now / 1_000_000_000 + 60, signature := r.value.signature)
          && r.value.signature
             == env.sign(SignedLease(a.attempts[k].lease.(expiresAt := now / 1_000_000_000 + 60)))
          && b == a.(attempts := a.attempts[k := a.attempts[k].(lease := r.value)]))
  }

  ghost predicate EndsAttempt(a: Sessions, b: Sessions, ok: bool, sender: Id, k: Id, attempt: Id) {
    && (ok <==> k in a.attempts && a.attempts[k].lease.attemptId == attempt
                && (sender == a.attempts[k].lease.fromDeviceId || sender == a.attempts[k].lease.toDeviceId))
    && b == if ok then a.(attempts := a.attempts - {k}) else a
  }

  // ---- Admit ----

  predicate HexHash(text: string) {
    |text| == 64 && forall c :: c in text ==> '0' <= c <= '9' || 'a' <= c <= 'f' || 'A' <= c <= 'F'
  }

  predicate CarriesSdp(env: Env, payload: string) {
    && |payload| <= 49_152
    && env.sdpOf(payload).Some? && 1 <= |env.sdpOf(payload).value| <= 32_768
  }

  // A candidate's line, or an empty one for the end of the candidates.
  predicate CarriesCandidate(env: Env, payload: string, last: bool) {
    && |payload| <= 49_152 && env.candidateOf(payload).Some?
    && var body := env.candidateOf(payload).value;
       && HexHash(body.sdpHash) && |body.candidate| <= 2_048 && |body.mid| <= 64
       && (last <==> body.candidate == "")
  }

  predicate CarriesItsKind(env: Env, s: Signal) {
    match s.kind
    case Offer => CarriesSdp(env, s.payload)
    case Answer => CarriesSdp(env, s.payload)
    case Candidate => CarriesCandidate(env, s.payload, false)
    case EndOfCandidates => CarriesCandidate(env, s.payload, true)
    case UnknownKind(_) => false
  }

  // What the signal says of itself: its version, the ids and the numbers.
  predicate WellFormed(s: Signal, now: int) {
    && s.version == 1 && 1 <= s.generation <= 9_007_199_254_740_991 && 1 <= s.sequence <= 9_007_199_254_740_991
    && HexId(s.messageId) && HexId(s.attemptId) && HexId(s.fromDeviceId) && HexId(s.toDeviceId) && HexId(s.pairId)
    && now / 1_000_000_000 < s.expiresAt <= now / 1_000_000_000 + 60
  }

  // It goes from the sender to the recipient, under the lease, as the sender's next.
  predicate Belongs(a: Attempt, s: Signal, sender: Id, recipient: Id) {
    && s.attemptId == a.lease.attemptId && s.generation == a.lease.generation
    && s.fromDeviceId == sender && s.toDeviceId == recipient && sender != recipient
    && s.sequence == (if sender in a.sequence then a.sequence[sender] else 0) + 1
    && s.messageId !in a.messageIds && a.count < 512
  }

  predicate Described(a: Attempt, device: Id) { device in a.sdpHash && a.sdpHash[device] != "" }

  // A candidate is of the description its sender gave.
  predicate AddsCandidate(env: Env, a: Attempt, sender: Id, s: Signal) {
    && (s.kind == Candidate || s.kind == EndOfCandidates)
    && CarriesCandidate(env, s.payload, s.kind == EndOfCandidates)
    && Described(a, sender) && env.candidateOf(s.payload).value.sdpHash == a.sdpHash[sender]
  }

  // The initiator offers, once.
  predicate Offers(env: Env, a: Attempt, sender: Id, s: Signal) {
    && s.kind == Offer && sender == a.lease.fromDeviceId
    && CarriesSdp(env, s.payload) && !Described(a, sender)
  }

  // Anyone else answers, once, and after the offer.
  predicate Answers(env: Env, a: Attempt, sender: Id, s: Signal) {
    && s.kind == Answer && sender != a.lease.fromDeviceId
    && CarriesSdp(env, s.payload) && !Described(a, sender) && Described(a, a.lease.fromDeviceId)
  }

  predicate MaySignal(env: Env, a: Attempt, sender: Id, recipient: Id, key: Key, s: Signal, now: int) {
    && WellFormed(s, now) && Belongs(a, s, sender, recipient)
    && (Offers(env, a, sender, s) || Answers(env, a, sender, s) || AddsCandidate(env, a, sender, s))
    && env.verify(key, SignedSignal(s), s.signature)
  }

  // The target writes to the initiator, and whoever else may write to the target.
  ghost predicate MayAdmit(env: Env, v: Views, a: Sessions, sender: Id, s: Signal, now: int)
    requires |v| == ADMIT_READS
  {
    && Authorized(v, a, sender, s.pairId, s.attemptId, now) && CallerOn(v[3], sender)
    && var attempt := a.attempts[s.pairId];
       (sender == attempt.lease.toDeviceId
        && MaySignal(env, attempt, sender, attempt.lease.fromDeviceId, v[3].devices[sender].publicKey, s, now))
       || (sender != attempt.lease.toDeviceId
           && MaySignal(env, attempt, sender, attempt.lease.toDeviceId, v[3].devices[sender].publicKey, s, now))
  }

  // The attempt with one signal more.
  ghost predicate Records(env: Env, a: Attempt, b: Attempt, sender: Id, s: Signal) {
    && b == Attempt(a.lease, a.sequence[sender := s.sequence], b.sdpHash, a.messageIds + {s.messageId}, a.count + 1)
    && if s.kind == Offer || s.kind == Answer
       then env.sdpOf(s.payload).Some? && b.sdpHash == a.sdpHash[sender := env.sha256(env.sdpOf(s.payload).value)]
       else b.sdpHash == a.sdpHash
  }

  ghost predicate Admits(env: Env, v: Views, a: Sessions, b: Sessions, ok: bool, sender: Id, s: Signal, now: int)
    requires |v| == ADMIT_READS
  {
    && (ok <==> MayAdmit(env, v, a, sender, s, now))
    && (!ok ==> b == a)
    && (ok ==>
          && s.pairId in b.attempts && b == a.(attempts := a.attempts[s.pairId := b.attempts[s.pairId]])
          && Records(env, a.attempts[s.pairId], b.attempts[s.pairId], sender, s))
  }

  // ---- presence ----

  // A report of an admitted device, for an account it is linked to or for none. The
  // answer says whether the last saved one is a minute old.
  ghost predicate Beats(db: Db, a: Sessions, b: Sessions, r: Option<bool>, device: Id, user: Option<Id>, now: int) {
    && (r.Some? <==>
          CallerOn(db, device) && (user.Some? ==> (device, user.value) in db.links && UserOn(db, user.value)))
    && (r.None? ==> b == a)
    && (r.Some? ==>
          && (r.value <==> device !in a.seenSaved || now - a.seenSaved[device] >= 60_000_000_000)
          && b.attempts == a.attempts
          && b.presence == (if user.Some? then a.presence[(device, user.value) := now] else a.presence)
          && b.seenSaved == if r.value then a.seenSaved[device := now] else a.seenSaved)
  }

  // The device's report for the account is gone, or all of its reports, and the next
  // report of it is saved whenever it comes.
  ghost predicate Leaves(a: Sessions, b: Sessions, device: Id, user: Option<Id>) {
    && b.attempts == a.attempts
    && (forall k :: k in b.presence <==> k in a.presence && !(k.0 == device && (user == Some(k.1) || user == None)))
    && (forall k :: k in b.presence ==> b.presence[k] == a.presence[k])
    && (forall d :: d in b.seenSaved <==> d in a.seenSaved && d != device)
    && (forall d :: d in b.seenSaved ==> b.seenSaved[d] == a.seenSaved[d])
  }

  // ---- every call keeps its promise ----

  lemma SharingAgrees(db: Db, a: Id, b: Id)
    ensures Meet(db, a, b) <==> SameNetwork(db, a, b)
  {
    if Meet(db, a, b) {
      var n :| BoundOn(db, n, a) && BoundOn(db, n, b);
      assert (n, a) in db.bindings && Bound(db, n, b);
    }
    if SameNetwork(db, a, b) {
      var k :| k in db.bindings && k.1 == a && db.bindings[k] && Bound(db, k.0, b);
      assert k == (k.0, a) && BoundOn(db, k.0, a) && BoundOn(db, k.0, b);
    }
  }

  lemma IdsAgree(id: Id)
    ensures HexId(id) <==> ValidID(id)
  {
  }

  lemma UnexpiredArePurged(attempts: map<Id, Attempt>, now: int)
    ensures Purged(attempts, Unexpired(attempts, now), now)
  {
  }

  lemma FreeAgrees(s: Sessions, sender: Id, target: Id, now: int)
    ensures Free(s, sender, target, now) <==> !Busy(Unexpired(s.attempts, now), sender, target)
  {
    var left := Unexpired(s.attempts, now);
    UnexpiredArePurged(s.attempts, now);
    if Free(s, sender, target, now) {
      forall k | k in left ensures !Links(left[k].lease, sender, target) {
        assert !Ends(s.attempts[k].lease, sender, target);
      }
    }
    if !Busy(left, sender, target) {
      forall k | k in s.attempts && Running(s.attempts[k].lease, now)
        ensures k != target && !Ends(s.attempts[k].lease, sender, target)
      {
        assert k in left && !Links(left[k].lease, sender, target);
      }
    }
  }

  lemma ReachableExactly(v: Views, s: Sessions, sender: Id, target: Id, generation: nat, now: int)
    requires |v| == BEGIN_READS
    ensures var refusal := Unreachable(v, s, sender, target, generation, now);
            && (refusal.None? <==>
                  && Proper(v[0], sender, target, generation)
                  && Answering(v[1], s, sender, now) && Answering(v[2], s, target, now))
            && (refusal == Some(PeerOffline) <==> FindsOffline(v, s, sender, target, generation, now))
  {
    SharingAgrees(v[0], sender, target);
    IdsAgree(target);
  }

  lemma LeaseIsIssued(env: Env, user: Id, network: Id, attempt: Id, sender: Id, target: Id, generation: nat, now: int)
    ensures Issues(env, NewLease(env, user, network, attempt, sender, target, generation, now), user, network, attempt,
                   sender, target, generation, now)
  {
  }

  // What Begin leaves once nothing keeps it from looking at the attempts.
  ghost predicate Dials(env: Env, v: Views, a: Sessions, b: Sessions, r: Result<Lease, Error>, sender: Id,
                        target: Id, generation: nat, now: int, attempt: Id, network: Id)
    requires |v| == BEGIN_READS
  {
    var left := Unexpired(a.attempts, now);
    && r != Failure(PeerOffline)
    && (r.Success? <==>
          && !Busy(left, sender, target) && Admitted(v[3], sender)
          && Bound(v[4], network, sender) && Bound(v[4], network, target))
    && (r.Failure? ==> b == a.(attempts := left))
    && (r.Success? ==>
          && r.value == NewLease(env, v[3].devices[sender].user, network, attempt, sender, target, generation, now)
          && b == a.(attempts := left[target := Opening(r.value)]))
  }

  lemma ReachableDials(env: Env, v: Views, s: Sessions, sender: Id, target: Id, generation: nat, now: int,
                       attempt: Id, network: Id)
    requires |v| == BEGIN_READS && Unreachable(v, s, sender, target, generation, now).None?
    ensures var (after, r) := Begin(env, v, s, sender, target, generation, now, attempt, network);
            Dials(env, v, s, after, r, sender, target, generation, now, attempt, network)
  {
  }

  lemma DialsBegins(env: Env, v: Views, a: Sessions, b: Sessions, r: Result<Lease, Error>, sender: Id, target: Id,
                    generation: nat, now: int, attempt: Id, network: Id)
    requires |v| == BEGIN_READS && Unreachable(v, a, sender, target, generation, now).None?
    requires Dials(env, v, a, b, r, sender, target, generation, now, attempt, network)
    ensures Begins(env, v, a, b, r, sender, target, generation, now, attempt, network)
  {
    ReachableExactly(v, a, sender, target, generation, now);
    FreeAgrees(a, sender, target, now);
    UnexpiredArePurged(a.attempts, now);
    if r.Success? {
      LeaseIsIssued(env, v[3].devices[sender].user, network, attempt, sender, target, generation, now);
      assert b.attempts - {target} == Unexpired(a.attempts, now);
    }
  }

  lemma AttemptBegins(env: Env, v: Views, s: Sessions, sender: Id, target: Id, generation: nat, now: int,
                      attempt: Id, network: Id)
    requires |v| == BEGIN_READS
    ensures var (after, r) := Begin(env, v, s, sender, target, generation, now, attempt, network);
            Begins(env, v, s, after, r, sender, target, generation, now, attempt, network)
  {
    var (after, r) := Begin(env, v, s, sender, target, generation, now, attempt, network);
    var refusal := Unreachable(v, s, sender, target, generation, now);
    if refusal.Some? {
      ReachableExactly(v, s, sender, target, generation, now);
      assert after == s && r == Failure(refusal.value);
    } else {
      ReachableDials(env, v, s, sender, target, generation, now, attempt, network);
      DialsBegins(env, v, s, after, r, sender, target, generation, now, attempt, network);
    }
  }

  lemma AuthorizedExactly(v: Views, s: Sessions, sender: Id, k: Id, attempt: Id, now: int)
    requires |v| >= RENEW_READS
    ensures Authorize(v, s, sender, k, attempt, now).Success? <==> Authorized(v, s, sender, k, attempt, now)
  {
    SharingAgrees(v[0], sender, k);
  }

  lemma LeaseIsRenewed(env: Env, v: Views, s: Sessions, sender: Id, k: Id, attempt: Id, now: int)
    requires |v| == RENEW_READS
    ensures var (after, r) := Renew(env, v, s, sender, k, attempt, now);
            Renews(env, v, s, after, Given(r), sender, k, attempt, now)
  {
    AuthorizedExactly(v, s, sender, k, attempt, now);
  }

  lemma PayloadsAgree(env: Env, s: Signal)
    ensures ValidPayload(env, s) <==> CarriesItsKind(env, s)
  {
  }

  // What Signal.Verify checks, against the scope of the attempt.
  lemma VerifiesExactly(env: Env, a: Attempt, sender: Id, recipient: Id, key: Key, s: Signal, now: int)
    requires recipient == if sender == a.lease.toDeviceId then a.lease.fromDeviceId else a.lease.toDeviceId
    requires s.messageId !in a.messageIds && a.count < MAX_SIGNALS
    ensures VerifySignal(env, key, s, ScopeOf(a, sender, s.pairId), now).Success?
            <==> WellFormed(s, now) && Belongs(a, s, sender, recipient) && CarriesItsKind(env, s)
                 && env.verify(key, SignedSignal(s), s.signature)
  {
    PayloadsAgree(env, s);
  }

  // What is asked of a description, or of a candidate for one.
  lemma DescribesExactly(env: Env, a: Attempt, sender: Id, s: Signal)
    requires CarriesItsKind(env, s)
    ensures AdmitSdp(env, a, sender, s).Success?
            <==> Offers(env, a, sender, s) || Answers(env, a, sender, s) || AddsCandidate(env, a, sender, s)
  {
  }

  // The recipient is the initiator for the target's signals, and the target for all
  // others.
  lemma AcceptsExactly(env: Env, a: Attempt, sender: Id, recipient: Id, key: Key, s: Signal, now: int)
    requires recipient == if sender == a.lease.toDeviceId then a.lease.fromDeviceId else a.lease.toDeviceId
    ensures var r := Accept(env, a, sender, key, s, now);
            && (r.Success? <==> MaySignal(env, a, sender, recipient, key, s, now))
            && (r.Success? ==> Records(env, a, r.value, sender, s))
  {
    if s.messageId !in a.messageIds && a.count < MAX_SIGNALS {
      VerifiesExactly(env, a, sender, recipient, key, s, now);
      if CarriesItsKind(env, s) {
        DescribesExactly(env, a, sender, s);
      }
    }
  }

  lemma SignalIsAdmitted(env: Env, v: Views, s: Sessions, sender: Id, signal: Signal, now: int)
    requires |v| == ADMIT_READS
    ensures var (after, r) := Admit(env, v, s, sender, signal, now);
            Admits(env, v, s, after, r.Success?, sender, signal, now)
  {
    AuthorizedExactly(v, s, sender, signal.pairId, signal.attemptId, now);
    if Authorized(v, s, sender, signal.pairId, signal.attemptId, now) && CallerOn(v[3], sender) {
      var a := s.attempts[signal.pairId];
      var recipient := if sender == a.lease.toDeviceId then a.lease.fromDeviceId else a.lease.toDeviceId;
      AcceptsExactly(env, a, sender, recipient, v[3].devices[sender].publicKey, signal, now);
    }
  }

  // What the two ends of a lease check of it: every field, its minute and its
  // signature.
  lemma LeaseVerifiesExactly(env: Env, public: Key, service: Id, lease: Lease, scope: Scope, user: Id, network: Id,
                             revision: nat, now: int)
    ensures VerifyLease(env, public, service, lease, scope, user, network, revision, now).Success?
            <==>
              && lease == Lease(1, service, user, network, scope.pairId, scope.attemptId, scope.fromDeviceId,
                                scope.toDeviceId, scope.generation, revision, lease.expiresAt, "dsh-session",
                                lease.signature)
              && HexId(user) && HexId(network) && HexId(scope.pairId) && HexId(scope.attemptId)
              && HexId(scope.fromDeviceId) && HexId(scope.toDeviceId)
              && scope.fromDeviceId != scope.toDeviceId && revision >= 1
              && now / 1_000_000_000 < lease.expiresAt <= now / 1_000_000_000 + 60
              && env.verify(public, SignedLease(lease), lease.signature)
  {
  }

  lemma DeviceBeats(db: Db, s: Sessions, device: Id, user: Option<Id>, now: int)
    ensures var (after, r) := Heartbeat(db, s, device, user, now);
            Beats(db, s, after, Given(r), device, user, now)
  {
  }

  lemma DeviceLeaves(s: Sessions, device: Id, user: Option<Id>)
    ensures Leaves(s, Offline(s, device, user), device, user)
  {
  }
}
