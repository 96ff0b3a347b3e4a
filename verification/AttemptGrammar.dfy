// The log of signals one attempt has accepted, and the grammar it obeys.
module AttemptGrammar {
  import opened Tables
  import opened Messages
  import opened SessionRules

  datatype Entry = Entry(sender: Id, signal: Signal)

  predicate IsSdp(e: Entry) { e.signal.kind == Offer || e.signal.kind == Answer }

  function CountBy(log: seq<Entry>, sender: Id): (n: nat) {
    if log == [] then 0
    else CountBy(log[..|log| - 1], sender) + (if log[|log| - 1].sender == sender then 1 else 0)
  }

  function SdpHash(env: Env, e: Entry): (text: string) {
    if env.sdpOf(e.signal.payload).Some? then env.sha256(env.sdpOf(e.signal.payload).value) else ""
  }

  function NamedHash(env: Env, e: Entry): (text: string) {
    if env.candidateOf(e.signal.payload).Some? then env.candidateOf(e.signal.payload).value.sdpHash else ""
  }

  predicate HasSdp(log: seq<Entry>, sender: Id) {
    exists j :: 0 <= j < |log| && log[j].sender == sender && IsSdp(log[j])
  }

  predicate Carries(log: seq<Entry>, messageId: Id) {
    exists j :: 0 <= j < |log| && log[j].signal.messageId == messageId
  }

  // The target, whose id is the pair id, writes to the initiator, and whoever else to
  // the target.
  predicate Addressed(from: Id, e: Entry) {
    && e.signal.fromDeviceId == e.sender != e.signal.toDeviceId
    && e.signal.toDeviceId == if e.sender == e.signal.pairId then from else e.signal.pairId
  }

  predicate OfOneAttempt(log: seq<Entry>, attempt: Id, pairId: Id, generation: nat) {
    forall j :: 0 <= j < |log| ==>
      log[j].signal.attemptId == attempt && log[j].signal.pairId == pairId && log[j].signal.generation == generation
  }

  // What the entry after `log` must look like.
  ghost predicate MayFollow(env: Env, from: Id, log: seq<Entry>, e: Entry) {
    && Addressed(from, e) && OfOneAttempt(log, e.signal.attemptId, e.signal.pairId, e.signal.generation)
    && e.signal.sequence == CountBy(log, e.sender) + 1
    && !Carries(log, e.signal.messageId)
    && match e.signal.kind
       case Offer => e.sender == from && !HasSdp(log, e.sender)
       case Answer => e.sender != from && !HasSdp(log, e.sender) && HasSdp(log, from)
       case UnknownKind(_) => false
       case _ => exists j :: 0 <= j < |log| && log[j].sender == e.sender && IsSdp(log[j])
                             && SdpHash(env, log[j]) == NamedHash(env, e)
  }

  ghost predicate Grammar(env: Env, from: Id, log: seq<Entry>) {
    forall i :: 0 <= i < |log| ==> MayFollow(env, from, log[..i], log[i])
  }

  // What the running attempt remembers of its log.
  ghost predicate Remembers(env: Env, a: Attempt, log: seq<Entry>) {
    && a.count == |log| == |a.messageIds| <= MAX_SIGNALS
    && OfOneAttempt(log, a.lease.attemptId, a.lease.toDeviceId, a.lease.generation)
    && (forall s :: Counter(a, s) == CountBy(log, s))
    && (forall m :: m in a.messageIds <==> Carries(log, m))
    && (forall s :: HasSdp(log, s) <==> s in a.sdpHash)
    && (forall i :: 0 <= i < |log| && IsSdp(log[i]) ==>
          log[i].sender in a.sdpHash && a.sdpHash[log[i].sender] == SdpHash(env, log[i]))
    && (forall s :: s in a.sdpHash ==> a.sdpHash[s] != "")
  }

  ghost predicate Lawful(env: Env) {
    forall text :: env.sha256(text) != ""
  }

  lemma CountByStep(log: seq<Entry>, e: Entry, sender: Id)
    ensures CountBy(log + [e], sender) == CountBy(log, sender) + (if e.sender == sender then 1 else 0)
  {
  }

  lemma HasSdpStep(log: seq<Entry>, e: Entry, sender: Id)
    ensures HasSdp(log + [e], sender) <==> HasSdp(log, sender) || (e.sender == sender && IsSdp(e))
  {
    var next := log + [e];
    assert next[|log|] == e;
    if HasSdp(log, sender) {
      var j :| 0 <= j < |log| && log[j].sender == sender && IsSdp(log[j]);
      assert next[j] == log[j];
    }
  }

  lemma CarriesStep(log: seq<Entry>, e: Entry, messageId: Id)
    ensures Carries(log + [e], messageId) <==> Carries(log, messageId) || e.signal.messageId == messageId
  {
    var next := log + [e];
    assert next[|log|] == e;
    if Carries(log, messageId) {
      var j :| 0 <= j < |log| && log[j].signal.messageId == messageId;
      assert next[j] == log[j];
    }
  }

  // What the description rules checked.
  predicate SdpAllowed(env: Env, a: Attempt, sender: Id, s: Signal) {
    match s.kind
    case Offer => HashOf(a, sender) == "" && sender == a.lease.fromDeviceId && env.sdpOf(s.payload).Some?
    case Answer =>
      && HashOf(a, sender) == "" && sender != a.lease.fromDeviceId && env.sdpOf(s.payload).Some?
      && HashOf(a, a.lease.fromDeviceId) != ""
    case UnknownKind(_) => false
    case _ => HashOf(a, sender) != "" && HashOf(a, sender) == NamedHash(env, Entry(sender, s))
  }

  function WithSdp(env: Env, a: Attempt, e: Entry): (updated: map<Id, string>) {
    if IsSdp(e) then a.sdpHash[e.sender := SdpHash(env, e)] else a.sdpHash
  }

  // What acceptance checked and changed, without the checks that leave no trace.
  predicate Step(env: Env, a: Attempt, sender: Id, s: Signal, b: Attempt) {
    && s.attemptId == a.lease.attemptId && s.generation == a.lease.generation && s.fromDeviceId == sender
    && s.toDeviceId == (if sender == a.lease.toDeviceId then a.lease.fromDeviceId else a.lease.toDeviceId) != sender
    && s.sequence == Counter(a, sender) + 1 && s.messageId !in a.messageIds && a.count < MAX_SIGNALS
    && SdpAllowed(env, a, sender, s)
    && b == Attempt(a.lease, a.sequence[sender := s.sequence], WithSdp(env, a, Entry(sender, s)),
                    a.messageIds + {s.messageId}, a.count + 1)
  }

  lemma AcceptIsStep(env: Env, a: Attempt, sender: Id, key: Key, s: Signal, now: int)
    requires Accept(env, a, sender, key, s, now).Success?
    ensures Step(env, a, sender, s, Accept(env, a, sender, key, s, now).value)
  {
  }

  lemma StepMayFollow(env: Env, a: Attempt, log: seq<Entry>, sender: Id, s: Signal, b: Attempt)
    requires Remembers(env, a, log) && Step(env, a, sender, s, b)
    requires s.pairId == a.lease.toDeviceId
    ensures MayFollow(env, a.lease.fromDeviceId, log, Entry(sender, s))
  {
  }

  lemma GrammarStep(env: Env, from: Id, log: seq<Entry>, e: Entry)
    requires Grammar(env, from, log) && MayFollow(env, from, log, e)
    ensures Grammar(env, from, log + [e])
  {
    var next := log + [e];
    forall i | 0 <= i < |next| ensures MayFollow(env, from, next[..i], next[i]) {
      assert next[..i] == if i < |log| then log[..i] else log;
      assert i < |log| ==> next[i] == log[i];
    }
  }

  lemma StepIsRemembered(env: Env, a: Attempt, log: seq<Entry>, sender: Id, s: Signal, b: Attempt)
    requires Lawful(env) && Remembers(env, a, log) && Step(env, a, sender, s, b)
    requires s.pairId == a.lease.toDeviceId
    ensures Remembers(env, b, log + [Entry(sender, s)])
  {
    StepKeepsAttempt(env, a, log, sender, s, b);
    StepCounters(env, a, log, sender, s, b);
    StepDescriptions(env, a, log, sender, s, b);
    StepHashes(env, a, log, sender, s, b);
    StepMessageIds(env, a, log, sender, s, b);
  }

  lemma StepKeepsAttempt(env: Env, a: Attempt, log: seq<Entry>, sender: Id, s: Signal, b: Attempt)
    requires Remembers(env, a, log) && Step(env, a, sender, s, b) && s.pairId == a.lease.toDeviceId
    ensures OfOneAttempt(log + [Entry(sender, s)], b.lease.attemptId, b.lease.toDeviceId, b.lease.generation)
    ensures b.count == |log + [Entry(sender, s)]| == |b.messageIds| <= MAX_SIGNALS
  {
  }

  lemma StepCounters(env: Env, a: Attempt, log: seq<Entry>, sender: Id, s: Signal, b: Attempt)
    requires Remembers(env, a, log) && Step(env, a, sender, s, b)
    ensures forall x :: Counter(b, x) == CountBy(log + [Entry(sender, s)], x)
  {
    forall x ensures Counter(b, x) == CountBy(log + [Entry(sender, s)], x) {
      CountByStep(log, Entry(sender, s), x);
    }
  }

  lemma StepDescriptions(env: Env, a: Attempt, log: seq<Entry>, sender: Id, s: Signal, b: Attempt)
    requires Lawful(env) && Remembers(env, a, log) && Step(env, a, sender, s, b)
    ensures forall x :: HasSdp(log + [Entry(sender, s)], x) <==> x in b.sdpHash
    ensures forall x :: x in b.sdpHash ==> b.sdpHash[x] != ""
  {
    forall x ensures HasSdp(log + [Entry(sender, s)], x) <==> x in b.sdpHash {
      HasSdpStep(log, Entry(sender, s), x);
    }
  }

  lemma StepMessageIds(env: Env, a: Attempt, log: seq<Entry>, sender: Id, s: Signal, b: Attempt)
    requires Remembers(env, a, log) && Step(env, a, sender, s, b)
    ensures forall m :: m in b.messageIds <==> Carries(log + [Entry(sender, s)], m)
  {
    forall m ensures m in b.messageIds <==> Carries(log + [Entry(sender, s)], m) {
      CarriesStep(log, Entry(sender, s), m);
    }
  }

  lemma StepHashes(env: Env, a: Attempt, log: seq<Entry>, sender: Id, s: Signal, b: Attempt)
    requires Remembers(env, a, log) && Step(env, a, sender, s, b)
    ensures var next := log + [Entry(sender, s)];
            forall i :: 0 <= i < |next| && IsSdp(next[i]) ==>
              next[i].sender in b.sdpHash && b.sdpHash[next[i].sender] == SdpHash(env, next[i])
  {
  }

  // Accepting a signal extends the log by an entry the grammar allows, and the
  // attempt goes on remembering its log.
  lemma AcceptanceFollowsGrammar(env: Env, a: Attempt, log: seq<Entry>, sender: Id, key: Key, s: Signal, now: int)
    requires Lawful(env) && Remembers(env, a, log) && Grammar(env, a.lease.fromDeviceId, log)
    requires s.pairId == a.lease.toDeviceId
    requires Accept(env, a, sender, key, s, now).Success?
    ensures var b := Accept(env, a, sender, key, s, now).value;
            && b.lease == a.lease
            && Remembers(env, b, log + [Entry(sender, s)])
            && Grammar(env, a.lease.fromDeviceId, log + [Entry(sender, s)])
  {
    var b := Accept(env, a, sender, key, s, now).value;
    AcceptIsStep(env, a, sender, key, s, now);
    StepMayFollow(env, a, log, sender, s, b);
    StepIsRemembered(env, a, log, sender, s, b);
    GrammarStep(env, a.lease.fromDeviceId, log, Entry(sender, s));
  }

  // ---- what the grammar means for a whole log ----

  // The first entry is an offer of the initiator, and no later entry is one.
  lemma {:induction false} FirstIsTheOnlyOffer(env: Env, from: Id, log: seq<Entry>, i: nat)
    requires Grammar(env, from, log) && i < |log|
    ensures (log[i].signal.kind == Offer) <==> i == 0
    ensures log[0].sender == from
  {
    assert MayFollow(env, from, log[..0], log[0]) && log[..0] == [];
    if i > 0 {
      assert MayFollow(env, from, log[..i], log[i]);
      assert log[..i][0] == log[0];
    }
  }

  // Every other sender's first entry is an answer, and its only one.
  lemma OthersStartWithTheirOnlyAnswer(env: Env, from: Id, log: seq<Entry>, i: nat)
    requires Grammar(env, from, log) && i < |log| && log[i].sender != from
    ensures log[i].signal.kind == Answer <==> CountBy(log[..i], log[i].sender) == 0
  {
    assert MayFollow(env, from, log[..i], log[i]);
    FirstIsTheOnlyOffer(env, from, log, i);
    if CountBy(log[..i], log[i].sender) > 0 {
      var first := FirstBy(log[..i], log[i].sender);
      assert log[..i][..first] == log[..first] && log[..i][first] == log[first];
      assert MayFollow(env, from, log[..first], log[first]);
      FirstIsTheOnlyOffer(env, from, log, first);
      NoneBy(log[..first], log[i].sender);
      assert IsSdp(log[..i][first]);
    } else {
      NoneBy(log[..i], log[i].sender);
    }
  }

  // The first entry of a sender.
  lemma {:induction false} FirstBy(log: seq<Entry>, sender: Id) returns (i: nat)
    requires CountBy(log, sender) > 0
    ensures i < |log| && log[i].sender == sender && CountBy(log[..i], sender) == 0
  {
    var earlier := log[..|log| - 1];
    if CountBy(earlier, sender) > 0 {
      i := FirstBy(earlier, sender);
      assert log[..i] == earlier[..i];
    } else {
      i := |log| - 1;
    }
  }

  lemma {:induction false} NoneBy(log: seq<Entry>, sender: Id)
    requires CountBy(log, sender) == 0
    ensures forall j :: 0 <= j < |log| ==> log[j].sender != sender
  {
    if log != [] {
      var earlier := log[..|log| - 1];
      NoneBy(earlier, sender);
      assert forall j :: 0 <= j < |earlier| ==> earlier[j] == log[j];
    }
  }

  // A sender has one SDP at most, so a candidate carries the hash of the one
  // description its sender gave before it.
  lemma CandidatesNameTheOnlySdp(env: Env, from: Id, log: seq<Entry>, i: nat) returns (j: nat)
    requires Grammar(env, from, log) && i < |log| && !IsSdp(log[i])
    ensures j < i && log[j].sender == log[i].sender && IsSdp(log[j])
    ensures SdpHash(env, log[j]) == NamedHash(env, log[i])
    ensures forall k :: 0 <= k < |log| && log[k].sender == log[i].sender && IsSdp(log[k]) ==> k == j
  {
    assert MayFollow(env, from, log[..i], log[i]);
    var m :| 0 <= m < |log[..i]| && log[..i][m].sender == log[i].sender && IsSdp(log[..i][m])
             && SdpHash(env, log[..i][m]) == NamedHash(env, log[i]);
    j := m;
    forall k | 0 <= k < |log| && log[k].sender == log[i].sender && IsSdp(log[k]) ensures k == j {
      OneSdpPerSender(env, from, log, k, j);
    }
  }

  lemma OneSdpPerSender(env: Env, from: Id, log: seq<Entry>, i: nat, j: nat)
    requires Grammar(env, from, log) && i < |log| && j < |log|
    requires log[i].sender == log[j].sender && IsSdp(log[i]) && IsSdp(log[j])
    ensures i == j
  {
    if i < j {
      LaterSdpIsAnothers(env, from, log, i, j);
      assert false;
    } else if j < i {
      LaterSdpIsAnothers(env, from, log, j, i);
      assert false;
    }
  }

  lemma LaterSdpIsAnothers(env: Env, from: Id, log: seq<Entry>, i: nat, j: nat)
    requires Grammar(env, from, log) && i < j < |log| && IsSdp(log[i]) && IsSdp(log[j])
    ensures log[i].sender != log[j].sender
  {
    assert MayFollow(env, from, log[..j], log[j]);
    assert log[..j][i] == log[i];
  }

  // Each sender numbers its signals 1, 2, 3 and so on without a gap, and no two
  // entries share a message id.
  lemma SequencesHaveNoGaps(env: Env, from: Id, log: seq<Entry>, sender: Id, n: nat) returns (i: nat)
    requires Grammar(env, from, log) && 1 <= n <= CountBy(log, sender)
    ensures i < |log| && log[i].sender == sender && log[i].signal.sequence == n
    ensures forall k :: 0 <= k < |log| && log[k].sender == sender && log[k].signal.sequence == n ==> k == i
  {
    i := NthBy(log, sender, n);
    assert MayFollow(env, from, log[..i], log[i]);
    forall k | 0 <= k < |log| && log[k].sender == sender && log[k].signal.sequence == n ensures k == i {
      assert MayFollow(env, from, log[..k], log[k]);
      if k < i {
        CountGrows(log, sender, k, i);
      } else if i < k {
        CountGrows(log, sender, i, k);
      }
    }
  }

  lemma {:induction false} NthBy(log: seq<Entry>, sender: Id, n: nat) returns (i: nat)
    requires 1 <= n <= CountBy(log, sender)
    ensures i < |log| && log[i].sender == sender && CountBy(log[..i], sender) == n - 1
  {
    var earlier := log[..|log| - 1];
    if n <= CountBy(earlier, sender) {
      i := NthBy(earlier, sender, n);
      assert log[..i] == earlier[..i];
    } else {
      i := |log| - 1;
    }
  }

  lemma {:induction false} CountGrows(log: seq<Entry>, sender: Id, i: nat, j: nat)
    requires i < j <= |log| && log[i].sender == sender
    ensures CountBy(log[..i], sender) < CountBy(log[..j], sender)
    decreases j
  {
    assert log[..j][..j - 1] == log[..j - 1];
    if i < j - 1 {
      CountGrows(log, sender, i, j - 1);
    }
  }

  lemma MessageIdsDistinct(env: Env, from: Id, log: seq<Entry>, i: nat, j: nat)
    requires Grammar(env, from, log) && i < j < |log|
    ensures log[i].signal.messageId != log[j].signal.messageId
  {
    assert MayFollow(env, from, log[..j], log[j]);
    assert log[..j][i] == log[i];
  }

  // The counts of the listed senders, in all.
  function SumBy(log: seq<Entry>, senders: seq<Id>): (total: nat) {
    if senders == [] then 0 else CountBy(log, senders[0]) + SumBy(log, senders[1..])
  }

  // The attempt's own counters of the listed senders, in all.
  function CounterSum(a: Attempt, senders: seq<Id>): (total: nat) {
    if senders == [] then 0 else Counter(a, senders[0]) + CounterSum(a, senders[1..])
  }

  // The list names every sender the attempt has a counter for, each once.
  predicate Senders(a: Attempt, senders: seq<Id>) {
    && (forall i, j :: 0 <= i < j < |senders| ==> senders[i] != senders[j])
    && (forall x :: x in a.sequence ==> x in senders)
  }

  // The attempt's total is the sum of its counters.
  lemma TotalIsTheSum(env: Env, a: Attempt, log: seq<Entry>, senders: seq<Id>)
    requires Remembers(env, a, log) && Senders(a, senders)
    ensures a.count == CounterSum(a, senders)
  {
    forall i | 0 <= i < |log| ensures log[i].sender in senders {
      CountsEntry(log, i);
      assert Counter(a, log[i].sender) == CountBy(log, log[i].sender);
    }
    LogIsTheSum(log, senders);
    SumsAgree(env, a, log, senders);
  }

  lemma {:induction false} CountsEntry(log: seq<Entry>, i: nat)
    requires i < |log|
    ensures CountBy(log, log[i].sender) > 0
  {
    if i < |log| - 1 {
      CountsEntry(log[..|log| - 1], i);
    }
  }

  lemma {:induction false} SumsAgree(env: Env, a: Attempt, log: seq<Entry>, senders: seq<Id>)
    requires Remembers(env, a, log)
    ensures CounterSum(a, senders) == SumBy(log, senders)
  {
    if senders != [] {
      SumsAgree(env, a, log, senders[1..]);
    }
  }

  lemma {:induction false} LogIsTheSum(log: seq<Entry>, senders: seq<Id>)
    requires forall i, j :: 0 <= i < j < |senders| ==> senders[i] != senders[j]
    requires forall i :: 0 <= i < |log| ==> log[i].sender in senders
    ensures |log| == SumBy(log, senders)
  {
    if log == [] {
      SumOfNone(senders);
    } else {
      var earlier, e := log[..|log| - 1], log[|log| - 1];
      assert forall i :: 0 <= i < |earlier| ==> earlier[i] == log[i];
      LogIsTheSum(earlier, senders);
      SumStep(log, senders);
    }
  }

  lemma {:induction false} SumOfNone(senders: seq<Id>)
    ensures SumBy([], senders) == 0
  {
    if senders != [] {
      SumOfNone(senders[1..]);
    }
  }

  lemma {:induction false} SumStep(log: seq<Entry>, senders: seq<Id>)
    requires log != []
    requires forall i, j :: 0 <= i < j < |senders| ==> senders[i] != senders[j]
    ensures SumBy(log, senders)
            == SumBy(log[..|log| - 1], senders) + (if log[|log| - 1].sender in senders then 1 else 0)
  {
    if senders != [] {
      SumStep(log, senders[1..]);
      assert senders == [senders[0]] + senders[1..];
    }
  }
}
