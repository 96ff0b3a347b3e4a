// CreateNetwork's limit of two networks an account.
//
// The count and the insert are two statements, so the count may be out of date
// when the insert runs.
module NetworkQuota {
  import opened Wrappers
  import opened Tables
  import opened Transactions
  import opened StoreInvariants
  import opened StoreSteps
  import opened StoreRuns
  import PairRace

  ghost predicate WithinQuota(db: Db) {
    forall u :: |NetworksOf(db, u)| <= NETWORK_QUOTA
  }

  // The insert of a creation whose account has reached the quota since it counted.
  ghost predicate LateCreation(w: World, e: Event) {
    && e.InsertCounted? && e.thread in w.creating
    && var c := w.creating[e.thread];
       && InsertNetwork(w.db, c.user, c.name, c.network).Committed?
       && |NetworksOf(w.db, c.user)| >= NETWORK_QUOTA
  }

  lemma FewerNetworks(a: Db, b: Db)
    requires WithinQuota(a) && b.networks.Keys == a.networks.Keys && NetworksEvolve(a.networks, b.networks)
    ensures WithinQuota(b)
  {
    forall u ensures |NetworksOf(b, u)| <= NETWORK_QUOTA {
      SubsetIsSmaller(NetworksOf(b, u), NetworksOf(a, u));
    }
  }

  // No other transaction adds a network.
  lemma NoNewNetworks(keyId: Key -> Id, db: Db, op: Operation)
    requires !op.OpInsertNetwork?
    ensures Apply(keyId, db, op).networks.Keys == db.networks.Keys
  {
    if op.OpUpdateNetworkLimit? {
      assert Apply(keyId, db, op) == After(db, UpdateNetworkLimit(db, op.user, op.network, op.limit));
    } else if op.OpDeleteNetwork? {
      assert Apply(keyId, db, op) == After(db, DeleteNetwork(db, op.user, op.network));
    } else {
      NetworksUntouched(keyId, db, op);
    }
  }

  lemma InsertCounts(db: Db, c: Creation)
    requires InsertNetwork(db, c.user, c.name, c.network).Committed?
    ensures var b := InsertNetwork(db, c.user, c.name, c.network).db;
            forall u :: NetworksOf(b, u) == NetworksOf(db, u) + (if u == c.user then {c.network} else {})
    ensures c.network !in NetworksOf(db, c.user)
  {
  }

  lemma InsertWithinQuota(db: Db, c: Creation)
    requires WithinQuota(db) && InsertNetwork(db, c.user, c.name, c.network).Committed?
    ensures WithinQuota(InsertNetwork(db, c.user, c.name, c.network).db)
            <==> |NetworksOf(db, c.user)| < NETWORK_QUOTA
  {
    InsertCounts(db, c);
    var b := InsertNetwork(db, c.user, c.name, c.network).db;
    assert |NetworksOf(b, c.user)| == |NetworksOf(db, c.user)| + 1;
    forall u | u != c.user ensures |NetworksOf(b, u)| <= NETWORK_QUOTA {
      assert NetworksOf(b, u) == NetworksOf(db, u);
    }
  }

  // One event keeps every account within its quota exactly when it is not a late
  // creation.
  lemma QuotaExactlyWithoutLateCreation(keyId: Key -> Id, w: World, e: Event)
    requires Inv(keyId, w) && WithinQuota(w.db)
    ensures WithinQuota(Exec(keyId, w, e).db) <==> !LateCreation(w, e)
  {
    DbAfter(keyId, w, e);
    if e.InsertCounted? && e.thread in w.creating {
      var c := w.creating[e.thread];
      if InsertNetwork(w.db, c.user, c.name, c.network).Committed? {
        InsertWithinQuota(w.db, c);
      }
    } else {
      OtherEventsKeepQuota(keyId, w, e);
    }
  }

  lemma OtherEventsKeepQuota(keyId: Key -> Id, w: World, e: Event)
    requires Inv(keyId, w) && WithinQuota(w.db) && !(e.InsertCounted? && e.thread in w.creating)
    ensures WithinQuota(Exec(keyId, w, e).db)
  {
    DbAfter(keyId, w, e);
    ExecKeeps(keyId, w, e);
    if Transaction(w, e).Some? {
      NoNewNetworks(keyId, w.db, Transaction(w, e).value);
    }
    FewerNetworks(w.db, Exec(keyId, w, e).db);
  }

  ghost predicate QuotaAt(keyId: Key -> Id, events: seq<Event>, i: nat)
    requires i <= |events|
  {
    WithinQuota(At(keyId, events, i).db)
  }

  ghost predicate LateAt(keyId: Key -> Id, events: seq<Event>, i: nat)
    requires i < |events|
  {
    LateCreation(At(keyId, events, i), events[i])
  }

  lemma QuotaStep(keyId: Key -> Id, events: seq<Event>, i: nat)
    requires i < |events| && QuotaAt(keyId, events, i)
    ensures QuotaAt(keyId, events, i + 1) <==> !LateAt(keyId, events, i)
  {
    Reachable(keyId, events, i);
    AtStep(keyId, events, i);
    QuotaExactlyWithoutLateCreation(keyId, At(keyId, events, i), events[i]);
  }

  // No account has more than two networks at any point of a run exactly when no
  // event of it is a late creation.
  lemma QuotaHolds(keyId: Key -> Id, events: seq<Event>)
    ensures (forall i :: 0 <= i <= |events| ==> QuotaAt(keyId, events, i))
            <==> (forall i :: 0 <= i < |events| ==> !LateAt(keyId, events, i))
  {
    var holds := (i: nat) => i <= |events| && QuotaAt(keyId, events, i);
    var bad := (i: nat) => i < |events| && LateAt(keyId, events, i);
    assert holds(0) by {
      assert forall u :: NetworksOf(EMPTY_DB, u) == {};
    }
    forall i: nat | i < |events| && holds(i) ensures holds(i + 1) <==> !bad(i) {
      QuotaStep(keyId, events, i);
    }
    HoldsExactlyWithoutBadSteps(holds, bad, |events|);
    assert forall i :: 0 <= i <= |events| ==> (holds(i) <==> QuotaAt(keyId, events, i));
    assert forall i :: 0 <= i < |events| ==> (bad(i) <==> LateAt(keyId, events, i));
  }

  // ---- three networks of one account ----

  function Home(network: Id): (c: Creation) { Creation("u", "home", network) }

  function Networked(networks: set<Id>): (db: Db) {
    EMPTY_DB.(users := map["u" := User(false)],
             networks := map n | n in networks :: Network("u", "home", false, DEFAULT_NETWORK_LIMIT))
  }

  function Counting(db: Db, creating: map<nat, Creation>): (w: World) { World(db, 0, map[], creating, map[]) }

  const COUNTED: map<nat, Creation> := map[0 := Home("a"), 1 := Home("b"), 2 := Home("c")]

  // Three creations count before the first of them inserts.
  lemma ThreeNetworksAreReachable(keyId: Key -> Id)
    ensures exists events: seq<Event> :: NetworksOf(Run(keyId, START, events).db, "u") == {"a", "b", "c"}
  {
    SecondInserts(keyId);
    var left := map[2 := Home("c")];
    Insert(keyId, {"a", "b"}, left, 2);
    assert {"a", "b"} + {"c"} == {"a", "b", "c"};
    ThreeListed(keyId, left - {2});
  }

  lemma FirstInserts(keyId: Key -> Id)
    ensures Reached(keyId, Counting(Networked({"a"}), map[1 := Home("b"), 2 := Home("c")]))
  {
    ThreeCount(keyId);
    Insert(keyId, {}, COUNTED, 0);
    assert {} + {"a"} == {"a"} && COUNTED - {0} == map[1 := Home("b"), 2 := Home("c")];
  }

  lemma SecondInserts(keyId: Key -> Id)
    ensures Reached(keyId, Counting(Networked({"a", "b"}), map[2 := Home("c")]))
  {
    FirstInserts(keyId);
    var left := map[1 := Home("b"), 2 := Home("c")];
    Insert(keyId, {"a"}, left, 1);
    assert {"a"} + {"b"} == {"a", "b"} && left - {1} == map[2 := Home("c")];
  }

  lemma ThreeListed(keyId: Key -> Id, creating: map<nat, Creation>)
    requires Reached(keyId, Counting(Networked({"a", "b", "c"}), creating))
    ensures exists events: seq<Event> :: NetworksOf(Run(keyId, START, events).db, "u") == {"a", "b", "c"}
  {
    var w := Counting(Networked({"a", "b", "c"}), creating);
    assert NetworksOf(w.db, "u") == {"a", "b", "c"};
    var events: seq<Event> :| Run(keyId, START, events) == w;
  }

  lemma ThreeCount(keyId: Key -> Id)
    ensures Reached(keyId, Counting(Networked({}), COUNTED))
  {
    PairRace.AccountExists(keyId);
    assert PairRace.Quiet(PairRace.ACCOUNT) == Counting(Networked({}), map[]);
    Count(keyId, map[], 0, "a");
    Count(keyId, map[0 := Home("a")], 1, "b");
    Count(keyId, map[0 := Home("a"), 1 := Home("b")], 2, "c");
    assert COUNTED == map[0 := Home("a"), 1 := Home("b")][2 := Home("c")];
  }

  lemma Count(keyId: Key -> Id, creating: map<nat, Creation>, t: nat, network: Id)
    requires Reached(keyId, Counting(Networked({}), creating)) && t !in creating
    ensures Reached(keyId, Counting(Networked({}), creating[t := Home(network)]))
  {
    var w := Counting(Networked({}), creating);
    assert NetworksOf(w.db, "u") == {};
    Then(keyId, w, CountNetworks(t, Home(network)));
    assert Exec(keyId, w, CountNetworks(t, Home(network))) == w.(creating := creating[t := Home(network)]);
  }

  lemma Insert(keyId: Key -> Id, networks: set<Id>, creating: map<nat, Creation>, t: nat)
    requires Reached(keyId, Counting(Networked(networks), creating))
    requires t in creating && creating[t] == Home(creating[t].network) && creating[t].network !in networks
    ensures Reached(keyId, Counting(Networked(networks + {creating[t].network}), creating - {t}))
  {
    var w := Counting(Networked(networks), creating);
    Then(keyId, w, InsertCounted(t));
    assert Exec(keyId, w, InsertCounted(t)).db == Networked(networks + {creating[t].network});
  }
}
