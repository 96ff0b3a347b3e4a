// The relay's port allocator: a walk round a fixed range from an arbitrary
// start, binding the first port that can be bound.
module RelayPorts {
  import opened Wrappers

  const MAX_PORT := 65535

  // The range check the allocator's Validate makes.
  predicate ValidRange(min: int, max: int) {
    1 <= min <= max <= MAX_PORT
  }

  // The port tried at one offset of a walk.
  function Probe(min: int, max: int, start: int, offset: int): (port: int)
    requires ValidRange(min, max) && 0 <= start && 0 <= offset
    ensures min <= port <= max
  {
    min + (start + offset) % (max - min + 1)
  }

  // The offset at which a walk reaches a port.
  function OffsetOf(min: int, max: int, start: int, port: int): (offset: int)
    requires ValidRange(min, max) && 0 <= start < max - min + 1 && min <= port <= max
    ensures 0 <= offset < max - min + 1
  {
    if port - min >= start then port - min - start else port - min - start + (max - min + 1)
  }

  lemma WrapOnce(x: int, span: int)
    requires span > 0 && 0 <= x < 2 * span
    ensures x % span == if x < span then x else x - span
  {
  }

  // A full walk visits every port of the range exactly once: the probes at
  // offsets 0..span and the ports of the range are in one-to-one correspondence.
  lemma WalkVisitsEachPortOnce(min: int, max: int, start: int)
    requires ValidRange(min, max) && 0 <= start < max - min + 1
    ensures forall port :: min <= port <= max ==> Probe(min, max, start, OffsetOf(min, max, start, port)) == port
    ensures forall offset :: 0 <= offset < max - min + 1 ==>
              OffsetOf(min, max, start, Probe(min, max, start, offset)) == offset
  {
    var span := max - min + 1;
    forall port | min <= port <= max ensures Probe(min, max, start, OffsetOf(min, max, start, port)) == port {
      WrapOnce(start + OffsetOf(min, max, start, port), span);
    }
    forall offset | 0 <= offset < span
      ensures OffsetOf(min, max, start, Probe(min, max, start, offset)) == offset
    {
      WrapOnce(start + offset, span);
    }
  }

  // It starts at the start port and goes up, from the last port of the range to the
  // first.
  lemma WalkGoesUp(min: int, max: int, start: int, offset: int)
    requires ValidRange(min, max) && 0 <= start < max - min + 1 && 0 <= offset < max - min + 1
    ensures Probe(min, max, start, 0) == min + start
    ensures var port := Probe(min, max, start, offset);
            Probe(min, max, start, offset + 1) == if port == max then min else port + 1
  {
    var span := max - min + 1;
    WrapOnce(start, span);
    WrapOnce(start + offset, span);
    WrapAgain(start + offset + 1, span);
  }

  lemma WrapAgain(x: int, span: int)
    requires span > 0 && 0 <= x <= 2 * span
    ensures x % span == if x < span then x else if x < 2 * span then x - span else 0
  {
  }

  // `held` is the set of ports of live allocations; `foreign` the ports some
  // other socket of the host occupies while one allocation runs.
  class PortRange {
    const min: int
    const max: int
    var held: set<int>

    predicate Valid()
      reads this
    {
      ValidRange(min, max) && forall port :: port in held ==> min <= port <= max
    }

    constructor (min: int, max: int)
      requires ValidRange(min, max)
      ensures Valid() && held == {} && this.min == min && this.max == max
    {
      this.min, this.max, held := min, max, {};
    }

    // Binding succeeds exactly on a port nobody has bound.
    method BindOne(port: int, foreign: set<int>) returns (ok: bool)
      requires Valid() && min <= port <= max
      modifies this
      ensures Valid()
      ensures ok <==> port !in old(held) && port !in foreign
      ensures held == if ok then old(held) + {port} else old(held)
    {
      ok := port !in held && port !in foreign;
      if ok {
        held := held + {port};
      }
    }

    // Allocation takes the requested port when it is in range and free, any free
    // port of the range otherwise, and fails only when every port is taken.
    method Allocate(requested: int, nanosecond: nat, foreign: set<int>) returns (port: Option<int>)
      requires Valid()
      modifies this
      ensures Valid()
      ensures port.Some? ==>
                && min <= port.value <= max
                && port.value !in old(held) && port.value !in foreign
                && held == old(held) + {port.value}
      ensures min <= requested <= max && requested !in old(held) && requested !in foreign ==> port == Some(requested)
      ensures port.Some? && port.value != requested ==>
                var start := nanosecond % (max - min + 1);
                forall i :: 0 <= i < OffsetOf(min, max, start, port.value) ==>
                  Probe(min, max, start, i) in old(held) || Probe(min, max, start, i) in foreign
      ensures port.None? <==> forall p :: min <= p <= max ==> p in old(held) || p in foreign
      ensures port.None? ==> held == old(held)
    {
      if min <= requested <= max {
        var ok := BindOne(requested, foreign);
        if ok {
          return Some(requested);
        }
      }
      var span := max - min + 1;
      var start := nanosecond % span;
      WalkVisitsEachPortOnce(min, max, start);
      var offset := 0;
      while offset < span
        invariant 0 <= offset <= span && Valid() && held == old(held)
        invariant forall i :: 0 <= i < offset ==>
                    Probe(min, max, start, i) in held || Probe(min, max, start, i) in foreign
      {
        var ok := BindOne(Probe(min, max, start, offset), foreign);
        if ok {
          return Some(Probe(min, max, start, offset));
        }
        offset := offset + 1;
      }
      forall p | min <= p <= max ensures p in held || p in foreign {
        assert p == Probe(min, max, start, OffsetOf(min, max, start, p));
      }
      return None;
    }

    method Release(port: int)
      requires Valid()
      modifies this
      ensures Valid() && held == old(held) - {port}
    {
      held := held - {port};
    }
  }

  // ---- histories of allocations and releases ----

  datatype Request = Allocation(requested: int, nanosecond: nat, foreign: set<int>) | Closing(port: int)

  // One request, with what the allocator answered.
  datatype Event =
    | Allocated(port: int, foreign: set<int>)
    | Exhausted(foreign: set<int>)
    | Released(port: int)

  function Held(history: seq<Event>): (held: set<int>) {
    if history == [] then {}
    else
      var earlier := Held(history[..|history| - 1]);
      match history[|history| - 1]
      case Allocated(port, _) => earlier + {port}
      case Released(port) => earlier - {port}
      case Exhausted(_) => earlier
  }

  // Each allocation got a free port of the range, unless every port was taken.
  predicate Possible(min: int, max: int, history: seq<Event>) {
    forall i :: 0 <= i < |history| ==> PossibleNext(min, max, Held(history[..i]), history[i])
  }

  predicate PossibleNext(min: int, max: int, held: set<int>, e: Event) {
    match e
    case Allocated(port, foreign) => min <= port <= max && port !in held && port !in foreign
    case Exhausted(foreign) => forall p :: min <= p <= max ==> p in held || p in foreign
    case Released(_) => true
  }

  predicate Answers(r: Request, e: Event) {
    match r
    case Allocation(_, _, foreign) => !e.Released? && e.foreign == foreign
    case Closing(port) => e == Released(port)
  }

  // The allocation has not been released since.
  predicate Live(history: seq<Event>, i: nat)
    requires i < |history|
  {
    history[i].Allocated? && forall j :: i < j < |history| ==> history[j] != Released(history[i].port)
  }

  lemma {:induction false} LiveIsHeld(history: seq<Event>, i: nat)
    requires i < |history| && Live(history, i)
    ensures history[i].port in Held(history)
  {
    var earlier := history[..|history| - 1];
    if i < |earlier| {
      assert Live(earlier, i) by {
        assert forall j :: i < j < |earlier| ==> earlier[j] == history[j];
      }
      LiveIsHeld(earlier, i);
    }
  }

  // Allocations live at the same time hold distinct ports of the range.
  ghost predicate LiveAreDistinct(min: int, max: int, history: seq<Event>) {
    forall i, j :: 0 <= i < j < |history| && Live(history, i) && Live(history, j) ==>
      history[i].port != history[j].port && min <= history[i].port <= max && min <= history[j].port <= max
  }

  lemma LiveAllocationsAreDistinct(min: int, max: int, history: seq<Event>)
    requires Possible(min, max, history)
    ensures LiveAreDistinct(min, max, history)
  {
    forall i, j | 0 <= i < j < |history| && Live(history, i) && Live(history, j)
      ensures history[i].port != history[j].port && min <= history[i].port <= max && min <= history[j].port <= max
    {
      var earlier := history[..j];
      assert Live(earlier, i) by {
        assert forall k :: i < k < |earlier| ==> earlier[k] == history[k];
      }
      LiveIsHeld(earlier, i);
      assert PossibleNext(min, max, Held(history[..i]), history[i]);
      assert PossibleNext(min, max, Held(earlier), history[j]);
    }
  }

  // Whatever allocations and releases a range is asked for, in whatever order: the
  // answers are possible ones, the range holds exactly the ports they leave held,
  // and live allocations never share a port.
  method Serve(range: PortRange, requests: seq<Request>) returns (history: seq<Event>)
    requires range.Valid() && range.held == {}
    modifies range
    ensures range.Valid() && range.held == Held(history)
    ensures |history| == |requests| && forall i :: 0 <= i < |requests| ==> Answers(requests[i], history[i])
    ensures Possible(range.min, range.max, history) && LiveAreDistinct(range.min, range.max, history)
  {
    history := [];
    while |history| < |requests|
      invariant range.Valid() && range.held == Held(history) && |history| <= |requests|
      invariant forall i :: 0 <= i < |history| ==> Answers(requests[i], history[i])
      invariant Possible(range.min, range.max, history)
    {
      var e := ServeOne(range, requests[|history|]);
      PossibleStep(range.min, range.max, history, e);
      history := history + [e];
    }
    LiveAllocationsAreDistinct(range.min, range.max, history);
  }

  method ServeOne(range: PortRange, r: Request) returns (e: Event)
    requires range.Valid()
    modifies range
    ensures range.Valid() && Answers(r, e) && PossibleNext(range.min, range.max, old(range.held), e)
    ensures range.held == match e
                          case Allocated(port, _) => old(range.held) + {port}
                          case Released(port) => old(range.held) - {port}
                          case Exhausted(_) => old(range.held)
  {
    match r {
      case Allocation(requested, nanosecond, foreign) =>
        var port := range.Allocate(requested, nanosecond, foreign);
        e := if port.Some? then Allocated(port.value, foreign) else Exhausted(foreign);
      case Closing(port) =>
        range.Release(port);
        e := Released(port);
    }
  }

  lemma PossibleStep(min: int, max: int, history: seq<Event>, e: Event)
    requires Possible(min, max, history) && PossibleNext(min, max, Held(history), e)
    ensures Possible(min, max, history + [e])
    ensures (history + [e])[..|history|] == history
  {
    var next := history + [e];
    forall i | 0 <= i < |next| ensures PossibleNext(min, max, Held(next[..i]), next[i]) {
      assert next[..i] == history[..i];
      if i == |history| {
        assert history[..i] == history;
      } else {
        assert PossibleNext(min, max, Held(history[..i]), history[i]);
      }
    }
  }
}
