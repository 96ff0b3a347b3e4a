// Sessions and the signal hub as the program holds them: maps updated in place,
// loops that purge and scan, and bounded queues.
module SessionService {
  import opened Wrappers
  import opened Tables
  import opened Messages
  import opened Clock
  import opened SessionRules
  import opened AttemptGrammar
  import opened StoreService
  import Contracts = SessionContracts
  import Coordinator

  // What Renew and Admit ask before anything else.
  predicate Authorizes(attempts: map<Id, Attempt>, db: Db, sender: Id, pairId: Id, attemptId: Id, now: int) {
    && pairId in attempts && attempts[pairId].lease.attemptId == attemptId
    && attempts[pairId].lease.expiresAt > Unix(now)
    && SameNetwork(db, sender, pairId)
    && Admitted(db, attempts[pairId].lease.fromDeviceId) && Admitted(db, attempts[pairId].lease.toDeviceId)
  }

  // An admitted device that its primary account sees online.
  predicate Reporting(db: Db, s: Sessions, device: Id, now: int) {
    Admitted(db, device) && Present(s, device, db.devices[device].user, now)
  }

  // One more signal of the sender for the other end, and nothing of anyone else's.
  ghost predicate Advanced(a: Attempt, b: Attempt, sender: Id, signal: Signal) {
    && b.lease == a.lease
    && Counter(b, sender) == Counter(a, sender) + 1 == signal.sequence
    && (forall x :: x != sender ==> Counter(b, x) == Counter(a, x) && HashOf(b, x) == HashOf(a, x))
    && signal.messageId !in a.messageIds && b.messageIds == a.messageIds + {signal.messageId}
    && b.count == a.count + 1 <= MAX_SIGNALS
    && signal.fromDeviceId == sender
    && signal.toDeviceId == if sender == a.lease.toDeviceId then a.lease.fromDeviceId else a.lease.toDeviceId
  }

  lemma AcceptAdvances(env: Env, a: Attempt, sender: Id, key: Key, signal: Signal, now: int)
    ensures var r := Accept(env, a, sender, key, signal, now);
            r.Success? ==>
              env.verify(key, SignedSignal(signal), signal.signature) && Advanced(a, r.value, sender, signal)
  {
    if Accept(env, a, sender, key, signal, now).Success? {
      AcceptIsStep(env, a, sender, key, signal, now);
    }
  }

  // Whichever common network the last query returns.
  lemma EveryDialBegins(env: Env, v: Views, s: Sessions, sender: Id, target: Id, generation: nat, now: int,
                        attempt: Id)
    requires |v| == BEGIN_READS
    ensures forall network: Id ::
              var (after, r) := SessionRules.Begin(env, v, s, sender, target, generation, now, attempt, network);
              Contracts.Begins(env, v, s, after, r, sender, target, generation, now, attempt, network)
  {
    forall network: Id
      ensures var (after, r) := SessionRules.Begin(env, v, s, sender, target, generation, now, attempt, network);
              Contracts.Begins(env, v, s, after, r, sender, target, generation, now, attempt, network)
    {
      Contracts.AttemptBegins(env, v, s, sender, target, generation, now, attempt, network);
    }
  }

  class SessionTable {
    const store: Store
    const env: Env
    var attempts: map<Id, Attempt>
    var presence: map<(Id, Id), int>
    var seenSaved: map<Id, int>

    constructor (store: Store, env: Env)
      ensures Snapshot() == NO_SESSIONS && this.store == store && this.env == env
    {
      this.store, this.env := store, env;
      attempts, presence, seenSaved := map[], map[], map[];
    }

    function Snapshot(): (s: Sessions)
      reads this
    {
      Sessions(attempts, presence, seenSaved)
    }

    // The loop over the attempts that deletes the expired ones while it ranges.
    method Purge(now: int)
      modifies `attempts
      ensures attempts == Unexpired(old(attempts), now)
    {
      var pending := attempts.Keys;
      while pending != {}
        invariant pending <= attempts.Keys <= old(attempts).Keys
        invariant forall k :: k in attempts ==> attempts[k] == old(attempts)[k]
        invariant forall k :: k in old(attempts) && k !in pending ==>
                    (k in attempts <==> old(attempts)[k].lease.expiresAt > Unix(now))
        decreases pending
      {
        var id :| id in pending;
        pending := pending - {id};
        if attempts[id].lease.expiresAt <= Unix(now) {
          attempts := attempts - {id};
        }
      }
    }

    // Whether some attempt joins the two devices, in either direction.
    method FindLink(sender: Id, target: Id) returns (found: bool)
      ensures found <==> exists k :: k in attempts && Links(attempts[k].lease, sender, target)
    {
      var pending := attempts.Keys;
      while pending != {}
        invariant pending <= attempts.Keys
        invariant forall k :: k in attempts && k !in pending ==> !Links(attempts[k].lease, sender, target)
        decreases pending
      {
        var id :| id in pending;
        pending := pending - {id};
        if Links(attempts[id].lease, sender, target) {
          return true;
        }
      }
      return false;
    }

    // One of the networks both devices are actively bound to, as LIMIT 1 returns it.
    method SharedNetwork(a: Id, b: Id) returns (network: Option<Id>)
      ensures network.Some? <==> SameNetwork(store.db, a, b)
      ensures network.Some? ==> Bound(store.db, network.value, a) && Bound(store.db, network.value, b)
    {
      if SameNetwork(store.db, a, b) {
        var k :| k in store.db.bindings && k.1 == a && store.db.bindings[k] && Bound(store.db, k.0, b);
        assert k == (k.0, a);
        return Some(k.0);
      }
      return None;
    }

    // Why the first end that is not admitted and online is not, if there is one.
    method FindAbsent(ends: seq<Id>, now: int) returns (refusal: Option<Error>)
      ensures refusal.None? <==> forall j :: 0 <= j < |ends| ==> Reporting(store.db, Snapshot(), ends[j], now)
      ensures refusal.Some? ==> exists i ::
                && 0 <= i < |ends| && !Reporting(store.db, Snapshot(), ends[i], now)
                && (forall j :: 0 <= j < i ==> Reporting(store.db, Snapshot(), ends[j], now))
                && refusal.value == if Admitted(store.db, ends[i]) then PeerOffline else DeviceUnauthorized
    {
      var i := 0;
      while i < |ends|
        invariant 0 <= i <= |ends|
        invariant forall j :: 0 <= j < i ==> Reporting(store.db, Snapshot(), ends[j], now)
      {
        if !Admitted(store.db, ends[i]) {
          return Some(DeviceUnauthorized);
        }
        var user := store.db.devices[ends[i]].user;
        var last := if (ends[i], user) in presence then presence[(ends[i], user)] else ZERO_TIME;
        if last + PRESENCE <= now {
          return Some(PeerOffline);
        }
        i := i + 1;
      }
      return None;
    }

    // The queries all see the database as it is when the method runs.
    method Begin(sender: Id, target: Id, generation: nat, now: int, attempt: Id)
      returns (r: Result<Lease, Error>, ghost network: Id)
      modifies this
      ensures (Snapshot(), r) == SessionRules.Begin(env, AtOnce(store.db, BEGIN_READS), old(Snapshot()), sender, target,
                                                    generation, now, attempt, network)
      ensures r == Failure(PairUnauthorized) ==> !SameNetwork(store.db, sender, target)
      ensures forall k :: k in old(attempts) && old(attempts)[k].lease.expiresAt > Unix(now) && k != target ==>
                k in attempts && attempts[k] == old(attempts)[k]
      ensures r.Success? ==>
                && attempts == Unexpired(old(attempts), now)[target := Opening(r.value)]
                && r.value.fromDeviceId == sender && r.value.toDeviceId == target && r.value.attemptId == attempt
                && r.value.expiresAt == Unix(now) + LEASE_SECONDS
                && Bound(store.db, r.value.networkId, sender) && Bound(store.db, r.value.networkId, target)
      ensures r.Success? ==>
                && Contracts.Answering(store.db, old(Snapshot()), sender, now)
                && Contracts.Answering(store.db, old(Snapshot()), target, now)
      ensures Contracts.Begins(env, AtOnce(store.db, BEGIN_READS), old(Snapshot()), Snapshot(), r, sender, target,
                               generation, now, attempt, network)
    {
      EveryDialBegins(env, AtOnce(store.db, BEGIN_READS), Snapshot(), sender, target, generation, now, attempt);
      network := "";
      if !ValidID(target) || target == sender {
        return Failure(InvalidRequest), network;
      }
      if !SameNetwork(store.db, sender, target) {
        return Failure(PairUnauthorized), network;
      }
      if generation == 0 || generation > MAX_EXACT {
        return Failure(InvalidGeneration), network;
      }
      var ends := [sender, target];
      var absent := FindAbsent(ends, now);
      assert ends[0] == sender && ends[1] == target;
      if absent.Some? {
        return Failure(absent.value), network;
      }
      Purge(now);
      if target in attempts {
        return Failure(ConnectionBusy), network;
      }
      var linked := FindLink(sender, target);
      if linked {
        return Failure(ConnectionBusy), network;
      }
      var shared := SharedNetwork(sender, target);
      var common := shared.value;
      network := common;
      var lease := Lease(VERSION, env.serviceId, store.db.devices[sender].user, common, target, attempt, sender, target,
                         generation, 1, Unix(now) + LEASE_SECONDS, "dsh-session", "");
      lease := lease.(signature := env.sign(SignedLease(lease)));
      attempts := attempts[target := Attempt(lease, map[], map[], {}, 0)];
      return Success(lease), network;
    }

    method Authorized(sender: Id, pairId: Id, attemptId: Id, now: int) returns (r: Result<Attempt, Error>)
      ensures r == Authorize(AtOnce(store.db, RENEW_READS), Snapshot(), sender, pairId, attemptId, now)
      ensures r.Success? <==> Authorizes(attempts, store.db, sender, pairId, attemptId, now)
      ensures r.Success? ==> r.value == attempts[pairId]
    {
      if pairId !in attempts {
        return Failure(LeaseExpired);
      }
      var current := attempts[pairId];
      if current.lease.attemptId != attemptId || current.lease.expiresAt <= Unix(now) {
        return Failure(LeaseExpired);
      }
      if !SameNetwork(store.db, sender, pairId) {
        return Failure(PairRevoked);
      }
      var ends := [current.lease.fromDeviceId, current.lease.toDeviceId];
      var i := 0;
      while i < |ends|
        invariant 0 <= i <= 2 && ends == [current.lease.fromDeviceId, current.lease.toDeviceId]
        invariant forall j :: 0 <= j < i ==> Admitted(store.db, ends[j])
      {
        if !Admitted(store.db, ends[i]) {
          return Failure(DeviceUnauthorized);
        }
        i := i + 1;
      }
      assert Admitted(store.db, ends[0]) && Admitted(store.db, ends[1]);
      return Success(current);
    }

    // A renewed lease ends a minute from now and differs from the old one in its
    // deadline and signature only; a refusal changes nothing.
    method Renew(sender: Id, pairId: Id, attemptId: Id, now: int) returns (r: Result<Lease, Error>)
      modifies `attempts
      ensures (Snapshot(), r) == SessionRules.Renew(env, AtOnce(store.db, RENEW_READS), old(Snapshot()), sender, pairId,
                                                    attemptId, now)
      ensures r.Success? <==> Authorizes(old(attempts), store.db, sender, pairId, attemptId, now)
      ensures r.Success? ==>
                && attempts == old(attempts)[pairId := old(attempts)[pairId].(lease := r.value)]
                && r.value == old(attempts)[pairId].lease.(expiresAt := Unix(now) + LEASE_SECONDS,
                                                           signature := r.value.signature)
      ensures r.Failure? ==> attempts == old(attempts)
      ensures Contracts.Renews(env, AtOnce(store.db, RENEW_READS), old(Snapshot()), Snapshot(), Given(r), sender,
                               pairId, attemptId, now)
    {
      Contracts.LeaseIsRenewed(env, AtOnce(store.db, RENEW_READS), Snapshot(), sender, pairId, attemptId, now);
      var current := Authorized(sender, pairId, attemptId, now);
      if current.Failure? {
        return Failure(current.error);
      }
      var lease := current.value.lease.(expiresAt := Unix(now) + LEASE_SECONDS);
      lease := lease.(signature := env.sign(SignedLease(lease)));
      attempts := attempts[pairId := current.value.(lease := lease)];
      return Success(lease);
    }

    // Only an end of the attempt, naming its id, ends it, and nothing else goes.
    method End(sender: Id, pairId: Id, attemptId: Id) returns (r: Result<(), Error>)
      modifies `attempts
      ensures (Snapshot(), r) == SessionRules.End(old(Snapshot()), sender, pairId, attemptId)
      ensures r.Success? <==>
                && pairId in old(attempts) && old(attempts)[pairId].lease.attemptId == attemptId
                && sender in {old(attempts)[pairId].lease.fromDeviceId, old(attempts)[pairId].lease.toDeviceId}
      ensures attempts == if r.Success? then old(attempts) - {pairId} else old(attempts)
      ensures Contracts.EndsAttempt(old(Snapshot()), Snapshot(), r.Success?, sender, pairId, attemptId)
    {
      if pairId !in attempts {
        return Failure(AttemptNotFound);
      }
      var lease := attempts[pairId].lease;
      if lease.attemptId != attemptId || (lease.fromDeviceId != sender && lease.toDeviceId != sender) {
        return Failure(AttemptNotFound);
      }
      attempts := attempts - {pairId};
      return Success(());
    }

    // A refused signal leaves everything. An accepted one is authorized and signed by
    // its sender, carries its sender's next number and an id not seen before, and
    // raises that sender's counter and the total by one.
    method Admit(sender: Id, signal: Signal, now: int) returns (r: Result<(), Error>)
      modifies `attempts
      ensures (Snapshot(), r) == SessionRules.Admit(env, AtOnce(store.db, ADMIT_READS), old(Snapshot()), sender, signal,
                                                    now)
      ensures r.Failure? ==> attempts == old(attempts)
      ensures r.Success? ==>
                && Authorizes(old(attempts), store.db, sender, signal.pairId, signal.attemptId, now)
                && Admitted(store.db, sender)
                && env.verify(store.db.devices[sender].publicKey, SignedSignal(signal), signal.signature)
                && attempts.Keys == old(attempts).Keys
                && (forall k :: k in attempts && k != signal.pairId ==> attempts[k] == old(attempts)[k])
                && Advanced(old(attempts)[signal.pairId], attempts[signal.pairId], sender, signal)
      ensures Contracts.Admits(env, AtOnce(store.db, ADMIT_READS), old(Snapshot()), Snapshot(), r.Success?, sender,
                               signal, now)
    {
      Contracts.SignalIsAdmitted(env, AtOnce(store.db, ADMIT_READS), Snapshot(), sender, signal, now);
      var authorized := Authorized(sender, signal.pairId, signal.attemptId, now);
      if authorized.Failure? {
        return Failure(authorized.error);
      }
      var current := authorized.value;
      if !Admitted(store.db, sender) {
        return Failure(DeviceUnauthorized);
      }
      var next := Considered(current, sender, store.db.devices[sender].publicKey, signal, now);
      if next.Failure? {
        return Failure(next.error);
      }
      attempts := attempts[signal.pairId := next.value];
      return Success(());
    }

    // The checks of the signal itself, and the attempt once it is accepted.
    method Considered(a: Attempt, sender: Id, key: Key, signal: Signal, now: int) returns (r: Result<Attempt, Error>)
      ensures r == Accept(env, a, sender, key, signal, now)
      ensures r.Success? ==>
                env.verify(key, SignedSignal(signal), signal.signature) && Advanced(a, r.value, sender, signal)
    {
      var target := a.lease.toDeviceId;
      if target == sender {
        target := a.lease.fromDeviceId;
      }
      var scope := Scope(a.lease.attemptId, sender, target, signal.pairId, a.lease.generation, Counter(a, sender) + 1);
      assert scope == ScopeOf(a, sender, signal.pairId);
      var verified := VerifySignal(env, key, signal, scope, now);
      if verified.Failure? {
        return Failure(verified.error);
      }
      if signal.messageId in a.messageIds || a.count >= MAX_SIGNALS {
        return Failure(SignalLimit);
      }
      var described := AdmitDescription(a, sender, signal);
      if described.Failure? {
        return Failure(described.error);
      }
      var next := described.value;
      next := next.(sequence := next.sequence[sender := signal.sequence]);
      next := next.(messageIds := next.messageIds + {signal.messageId});
      next := next.(count := next.count + 1);
      AcceptAdvances(env, a, sender, key, signal, now);
      return Success(next);
    }

    // One description per sender, the initiator's an offer and any other's an answer
    // after it; a candidate names the hash of its sender's description.
    method AdmitDescription(current: Attempt, sender: Id, signal: Signal) returns (r: Result<Attempt, Error>)
      ensures r == AdmitSdp(env, current, sender, signal)
      ensures !signal.kind.UnknownKind? ==> (r.Success? <==> SdpAllowed(env, current, sender, signal))
      ensures !signal.kind.UnknownKind? && r.Success? ==>
                r.value == current.(sdpHash := WithSdp(env, current, Entry(sender, signal)))
    {
      if signal.kind == Offer || signal.kind == Answer {
        if HashOf(current, sender) != "" || (signal.kind == Offer) != (sender == current.lease.fromDeviceId) {
          return Failure(SignalStateConflict);
        }
        if signal.kind == Answer && HashOf(current, current.lease.fromDeviceId) == "" {
          return Failure(SignalStateConflict);
        }
        var sdp := env.sdpOf(signal.payload);
        if sdp.None? {
          return Failure(InvalidPayload);
        }
        return Success(current.(sdpHash := current.sdpHash[sender := env.sha256(sdp.value)]));
      }
      var body := env.candidateOf(signal.payload);
      if body.None? {
        return Failure(InvalidPayload);
      }
      if HashOf(current, sender) == "" || HashOf(current, sender) != body.value.sdpHash {
        return Failure(SdpBindingMismatch);
      }
      return Success(current);
    }

    // A heartbeat of an admitted device, for an account it is linked to or for none.
    // The account sees it online for half a minute, no other presence changes, and
    // after a save the next one is a minute away.
    method Heartbeat(device: Id, user: Option<Id>, now: int) returns (r: Result<bool, Error>)
      modifies `presence, `seenSaved
      ensures (Snapshot(), r) == SessionRules.Heartbeat(store.db, old(Snapshot()), device, user, now)
      ensures r.Success? <==> Admitted(store.db, device) && (user.Some? ==> LinkedTo(store.db, device, user.value))
      ensures r.Failure? ==> Snapshot() == old(Snapshot())
      ensures forall k :: r.Failure? || user.None? || k != (device, user.value) ==>
                (k in presence <==> k in old(presence)) && (k in presence ==> presence[k] == old(presence)[k])
      ensures r.Success? && user.Some? ==>
                forall t :: now <= t ==>
                  Presence(Snapshot(), device, user.value, t) == if t < now + PRESENCE then Online else Stale
      ensures r == Success(true) ==> forall t :: t < now + SEEN_INTERVAL ==> !SeenDue(Snapshot(), device, t)
      ensures Contracts.Beats(store.db, old(Snapshot()), Snapshot(), Given(r), device, user, now)
    {
      Contracts.DeviceBeats(store.db, Snapshot(), device, user, now);
      if !Admitted(store.db, device) {
        return Failure(DeviceUnauthorized);
      }
      if user.Some? {
        if !LinkedTo(store.db, device, user.value) {
          return Failure(DeviceUnauthorized);
        }
        presence := presence[(device, user.value) := now];
      }
      var due := device !in seenSaved || seenSaved[device] + SEEN_INTERVAL <= now;
      if due {
        seenSaved := seenSaved[device := now];
      }
      return Success(due);
    }

    method Offline(device: Id, user: Option<Id>)
      modifies this
      ensures Snapshot() == SessionRules.Offline(old(Snapshot()), device, user)
      ensures Contracts.Leaves(old(Snapshot()), Snapshot(), device, user)
    {
      Contracts.DeviceLeaves(Snapshot(), device, user);
      if user.Some? {
        presence := presence - {(device, user.value)};
      } else {
        var pending := presence.Keys;
        while pending != {}
          invariant pending <= presence.Keys <= old(presence).Keys
          invariant attempts == old(attempts) && seenSaved == old(seenSaved)
          invariant forall k :: k in presence ==> presence[k] == old(presence)[k]
          invariant forall k :: k in old(presence) && k !in pending ==> (k in presence <==> k.0 != device)
          decreases pending
        {
          var key :| key in pending;
          pending := pending - {key};
          if key.0 == device {
            presence := presence - {key};
          }
        }
      }
      seenSaved := seenSaved - {device};
    }

    method ReadPresence(device: Id, user: Id, now: int) returns (liveness: Liveness)
      ensures liveness == Presence(Snapshot(), device, user, now)
      ensures liveness == Unreported <==> (device, user) !in presence
      ensures liveness == Online <==> (device, user) in presence && now < presence[(device, user)] + 30_000_000_000
    {
      if (device, user) !in presence {
        return Unreported;
      }
      if presence[(device, user)] + PRESENCE <= now {
        return Stale;
      }
      return Online;
    }
  }

  // The table of connected peers. One socket per device; a queue holds 32
  // messages, and a message for a full queue is refused, not kept.
  class SignalHub {
    var peers: map<Id, Coordinator.Peer>

    constructor ()
      ensures peers == map[]
    {
      peers := map[];
    }

    method Register(device: Id) returns (ok: bool)
      modifies this
      ensures ok <==> device !in old(peers)
      ensures peers == if ok then old(peers)[device := Coordinator.Peer([], Coordinator.Idle)] else old(peers)
    {
      ok := device !in peers;
      if ok {
        peers := peers[device := Coordinator.Peer([], Coordinator.Idle)];
      }
    }

    // `fits` says the encoded message is within 64 KiB. A message that goes out is
    // the last of its recipient's queue; one that does not changes nothing.
    method Send(id: Id, message: Coordinator.Message, fits: bool) returns (r: Result<(), Error>)
      modifies this
      ensures r.Success? <==> fits && id in old(peers) && |old(peers)[id].outgoing| < Coordinator.QUEUE_LIMIT
      ensures r.Success? ==> Coordinator.Sent(old(peers), id, message) == Some(peers)
      ensures r.Success? ==>
                && peers.Keys == old(peers).Keys && peers[id].outgoing == old(peers)[id].outgoing + [message]
                && forall d :: d in peers ==>
                     peers[d].reader == old(peers)[d].reader && (d != id ==> peers[d] == old(peers)[d])
      ensures r.Failure? ==>
                && peers == old(peers)
                && r.error == if !fits then ProtocolLimit else if id in old(peers) then SignalLimit else PeerOffline
    {
      if !fits {
        return Failure(ProtocolLimit);
      }
      if id !in peers {
        return Failure(PeerOffline);
      }
      var peer := peers[id];
      if |peer.outgoing| >= Coordinator.QUEUE_LIMIT {
        return Failure(SignalLimit);
      }
      peers := peers[id := peer.(outgoing := peer.outgoing + [message])];
      return Success(());
    }

    method Remove(device: Id)
      modifies this
      ensures peers == old(peers) - {device}
    {
      peers := peers - {device};
    }
  }
}
