/**
 * A model of package splash: a bounded pool of shared resources.
 *
 * The pool's buffered channel becomes a sequence field (oldest entry first)
 * that never holds more than the channel's capacity. Every operation is
 * modelled as one atomic step; the background maintainer goroutine becomes
 * an explicit step method and a bounded run of its loop. The user's
 * allocator and deallocator callbacks are objects that record how often,
 * and with what, they were invoked.
 */
module Splash {

  datatype Option<+T> = None | Some(value: T)

  datatype Result<+T, +E> = Success(value: T) | Failure(error: E)

  function Min(a: int, b: int): int { if a <= b then a else b }

  function Max(a: int, b: int): int { if a <= b then b else a }

  /** One answer of the user's allocator: a resource and whether an error came with it. */
  datatype Allocation<R> = Allocation(resource: R, failed: bool)

  /** The errors NewPool hands back to its caller. */
  datatype PoolError =
    | CapacityTooSmall            // the requested capacity is below 10
    | OptionFailed(cause: string) // an option reported `cause`; construction was abandoned

  /**
   * A configuration option given to NewPool. `Minimum(m)` is the package's own
   * option, which calls setMinimum. An option written outside the package cannot
   * reach the pool's unexported fields; it is modelled only by the error it reports.
   */
  datatype PoolOption =
    | Minimum(m: int)
    | External(err: Option<string>)

  predicate Fails(o: PoolOption) { o.External? && o.err.Some? }

  // ---------------------------------------------------------------------------
  // Collaborators supplied by the embedding program
  // ---------------------------------------------------------------------------

  /** The user-supplied allocator callback, seen from outside. */
  class Allocator<R> {
    /** What the callback answers on its n-th invocation (counting from 0). */
    const outcome: nat -> Allocation<R>
    /** How many times the callback has been invoked so far. */
    var calls: nat

    constructor (outcome: nat -> Allocation<R>)
      ensures this.outcome == outcome && calls == 0
    {
      this.outcome := outcome;
      calls := 0;
    }

    method Allocate() returns (r: R, failed: bool)
      modifies this
      ensures calls == old(calls) + 1
      ensures r == outcome(old(calls)).resource && failed == outcome(old(calls)).failed
    {
      var a := outcome(calls);
      r, failed := a.resource, a.failed;
      calls := calls + 1;
    }
  }

  /** The user-supplied deallocator callback; `disposed` lists what it was handed, in order. */
  class Deallocator<R> {
    var disposed: seq<R>

    constructor ()
      ensures disposed == []
    {
      disposed := [];
    }

    method Deallocate(r: R)
      modifies this
      ensures disposed == old(disposed) + [r]
    {
      disposed := disposed + [r];
    }
  }

  // ---------------------------------------------------------------------------
  // Specification of the store and of the maintainer
  // ---------------------------------------------------------------------------

  datatype Taken<R> = Taken(got: Option<R>, rest: seq<R>)

  /** A non-blocking receive from the channel: one resource when there is one. */
  function Take<R>(store: seq<R>): (t: Taken<R>)
    ensures t.got.None? <==> store == []
    ensures t.got.None? ==> t.rest == store
    ensures t.got.Some? ==>
      |t.rest| == |store| - 1 && multiset(t.rest) + multiset{t.got.value} == multiset(store)
  {
    if store == [] then Taken(None, store)
    else
      assert store == [store[0]] + store[1..];
      Taken(Some(store[0]), store[1..])
  }

  datatype Offered<R> = Offered(kept: seq<R>, dropped: seq<R>)

  /**
   * A non-blocking send to a channel of the given capacity: the resource is kept
   * when there is room and dropped (handed to the deallocator) otherwise.
   */
  function Offer<R>(store: seq<R>, capacity: nat, r: R): (o: Offered<R>)
    requires |store| <= capacity
    ensures |o.kept| <= capacity
    ensures store <= o.kept
    ensures o.dropped == [] <==> |store| < capacity
    ensures multiset(o.kept) + multiset(o.dropped) == multiset(store) + multiset{r}
  {
    if |store| < capacity then Offered(store + [r], []) else Offered(store, [r])
  }

  /** Offering the resources `rs` one after another, as a run of Return calls does. */
  function OfferAll<R>(store: seq<R>, capacity: nat, rs: seq<R>): Offered<R>
    requires |store| <= capacity
    decreases |rs|
  {
    if rs == [] then Offered(store, [])
    else
      var first := Offer(store, capacity, rs[0]);
      var more := OfferAll(first.kept, capacity, rs[1..]);
      Offered(more.kept, first.dropped + more.dropped)
  }

  /**
   * Returning resources in succession to an otherwise idle pool: the first ones
   * fill the free room, in order, and every later one goes to the deallocator.
   * Returning capacity + k resources to an empty pool leaves it full with k disposed.
   */
  lemma {:induction false} ReturnsFillThenOverflow<R>(store: seq<R>, capacity: nat, rs: seq<R>)
    requires |store| <= capacity
    ensures OfferAll(store, capacity, rs).kept == store + rs[..Min(|rs|, capacity - |store|)]
    ensures OfferAll(store, capacity, rs).dropped == rs[Min(|rs|, capacity - |store|)..]
    decreases |rs|
  {
    if rs != [] {
      var k := Min(|rs|, capacity - |store|);
      var tail := rs[1..];
      if |store| < capacity {
        var kept := store + [rs[0]];
        assert Offer(store, capacity, rs[0]) == Offered(kept, []);
        ReturnsFillThenOverflow(kept, capacity, tail);
        assert Min(|tail|, capacity - |kept|) == k - 1;
        SplitAfterFirst(store, rs, k);
      } else {
        assert Offer(store, capacity, rs[0]) == Offered(store, [rs[0]]);
        ReturnsFillThenOverflow(store, capacity, tail);
        assert [rs[0]] + tail == rs;
      }
    }
  }

  lemma SplitAfterFirst<R>(store: seq<R>, rs: seq<R>, k: nat)
    requires 1 <= k <= |rs|
    ensures store + [rs[0]] + rs[1..][..k - 1] == store + rs[..k]
    ensures rs[1..][k - 1..] == rs[k..]
  {
    assert rs[..k] == [rs[0]] + rs[1..][..k - 1];
  }

  /** A fetch followed by returning the fetched resource leaves the same resources resident. */
  lemma FetchThenReturnKeepsResources<R>(store: seq<R>, capacity: nat)
    requires 0 < |store| <= capacity
    ensures var t := Take(store);
      t.got.Some? &&
      var o := Offer(t.rest, capacity, t.got.value);
      o.dropped == [] && multiset(o.kept) == multiset(store)
  {
  }

  /** The resources produced by `count` allocator invocations starting at invocation `from`. */
  function Produced<R>(outcome: nat -> Allocation<R>, from: nat, count: nat): (rs: seq<R>)
    ensures |rs| == count
    ensures forall j :: 0 <= j < count ==> rs[j] == outcome(from + j).resource
  {
    if count == 0 then [] else Produced(outcome, from, count - 1) + [outcome(from + count - 1).resource]
  }

  /** The fill level after one maintainer iteration that saw no quit signal. */
  function Replenished(available: nat, minimum: int): (r: nat)
    ensures available <= r <= Max(available, minimum)
    ensures r == available + 1 <==> available < minimum
  {
    if available < minimum then available + 1 else available
  }

  /** The fill level after `iterations` maintainer iterations with no quit signal and no other caller. */
  function FillAfter(iterations: nat, available: nat, minimum: int): (r: nat)
    ensures available <= r <= Max(available, minimum)
    ensures r - available <= iterations
  {
    if iterations == 0 then available
    else Replenished(FillAfter(iterations - 1, available, minimum), minimum)
  }

  /**
   * The maintainer drives the fill level up to the minimum, one resource per
   * iteration, and never past the larger of where it started and the minimum.
   */
  lemma {:induction false} MaintainerConverges(iterations: nat, available: nat, minimum: int)
    ensures FillAfter(iterations, available, minimum)
      == if available >= minimum then available else Min(available + iterations, minimum)
    ensures available <= FillAfter(iterations, available, minimum) <= Max(available, minimum)
    ensures iterations >= minimum - available ==>
      FillAfter(iterations, available, minimum) == Max(available, minimum)
  {
    if iterations > 0 {
      MaintainerConverges(iterations - 1, available, minimum);
    }
  }

  // ---------------------------------------------------------------------------
  // Configuration
  // ---------------------------------------------------------------------------

  /** The option loop of NewPool, starting from `minimum`: stops at the first option that reports an error. */
  function ApplyOptions(minimum: int, options: seq<PoolOption>): (r: Result<int, string>)
    ensures r.Failure? ==> exists j :: 0 <= j < |options| && options[j] == External(Some(r.error))
    ensures r.Success? && (forall j :: 0 <= j < |options| ==> !options[j].Minimum?) ==> r.value == minimum
    decreases |options|
  {
    if options == [] then Success(minimum)
    else match options[0]
      case Minimum(m) => ApplyOptions(m, options[1..])
      case External(None) => ApplyOptions(minimum, options[1..])
      case External(Some(e)) => Failure(e)
  }

  /** An independent reading of an option list, from its end: the last Minimum wins, else `fallback`. */
  function LastMinimum(fallback: int, options: seq<PoolOption>): int
    decreases |options|
  {
    if options == [] then fallback
    else if options[|options| - 1].Minimum? then options[|options| - 1].m
    else LastMinimum(fallback, options[..|options| - 1])
  }

  lemma {:induction false} LastMinimumFirst(fallback: int, o: PoolOption, rest: seq<PoolOption>)
    ensures LastMinimum(fallback, [o] + rest) == LastMinimum(if o.Minimum? then o.m else fallback, rest)
    decreases |rest|
  {
    var s := [o] + rest;
    if rest == [] {
      assert s[..|s| - 1] == [];
    } else {
      assert s[|s| - 1] == rest[|rest| - 1];
      assert s[..|s| - 1] == [o] + rest[..|rest| - 1];
      LastMinimumFirst(fallback, o, rest[..|rest| - 1]);
    }
  }

  /** With no failing option, the configured minimum is the last Minimum given, or the default. */
  lemma {:induction false} NoFailureKeepsLastMinimum(minimum: int, options: seq<PoolOption>)
    requires forall j :: 0 <= j < |options| ==> !Fails(options[j])
    ensures ApplyOptions(minimum, options) == Success(LastMinimum(minimum, options))
    decreases |options|
  {
    if options != [] {
      var o := options[0];
      var next := if o.Minimum? then o.m else minimum;
      NoFailureKeepsLastMinimum(next, options[1..]);
      LastMinimumFirst(minimum, o, options[1..]);
      assert [o] + options[1..] == options;
    }
  }

  /** The first option that reports an error aborts configuration with exactly that error. */
  lemma {:induction false} FirstFailureAborts(minimum: int, options: seq<PoolOption>, i: nat)
    requires i < |options| && Fails(options[i])
    requires forall j :: 0 <= j < i ==> !Fails(options[j])
    ensures ApplyOptions(minimum, options) == Failure(options[i].err.value)
    decreases i
  {
    if i > 0 {
      var o := options[0];
      FirstFailureAborts(if o.Minimum? then o.m else minimum, options[1..], i - 1);
    }
  }

  /** Configuration fails exactly when some option reports an error. */
  lemma {:induction false} ApplyOptionsFailsIff(minimum: int, options: seq<PoolOption>)
    ensures ApplyOptions(minimum, options).Failure?
      <==> exists j :: 0 <= j < |options| && Fails(options[j])
    decreases |options|
  {
    if options != [] {
      var o := options[0];
      ApplyOptionsFailsIff(if o.Minimum? then o.m else minimum, options[1..]);
      if exists j :: 0 <= j < |options| && Fails(options[j]) {
        var j :| 0 <= j < |options| && Fails(options[j]);
        if j > 0 && !Fails(o) {
          assert Fails(options[1..][j - 1]);
        }
      }
      if exists j :: 0 <= j < |options| - 1 && Fails(options[1..][j]) {
        var j :| 0 <= j < |options| - 1 && Fails(options[1..][j]);
        assert Fails(options[j + 1]);
      }
    }
  }

  /** What NewPool decides before it allocates anything: the configured minimum or the error. */
  function Configure(capacity: int, options: seq<PoolOption>): (c: Result<int, PoolError>)
    ensures c == Failure(CapacityTooSmall) <==> capacity < 10
    ensures capacity >= 10 && options == [] ==> c == Success(capacity / 10)
    ensures capacity >= 10 ==> (c.Failure? <==> ApplyOptions(capacity / 10, options).Failure?)
  {
    // capacity is at least 10 here, so Go's truncating division agrees with Dafny's
    if capacity < 10 then Failure(CapacityTooSmall)
    else match ApplyOptions(capacity / 10, options)
      case Success(m) => Success(m)
      case Failure(e) => Failure(OptionFailed(e))
  }

  /**
   * The configured minimum does not exceed the capacity. The source does not
   * check this; when it fails, pre-filling blocks forever on a full channel.
   */
  predicate MinimumFits(capacity: int, options: seq<PoolOption>)
  {
    Configure(capacity, options).Success? ==> Configure(capacity, options).value <= capacity
  }

  /**
   * The number of iterations of NewPool's pre-fill loop `i := 0; i < minimum; i++`:
   * the first index the guard rejects, so every earlier index passed it.
   */
  function PrefillCount(minimum: int): (n: nat)
    ensures minimum <= n
    ensures n == 0 || n - 1 < minimum
  {
    if minimum > 0 then minimum else 0
  }

  // ---------------------------------------------------------------------------
  // The pool
  // ---------------------------------------------------------------------------

  class Pool<R> {
    /** The buffered channel's contents, oldest first. */
    var resources: seq<R>
    /** The channel's capacity, fixed when the pool is made. */
    const capacity: nat
    /** The fill level the maintainer works towards. */
    var minimum: int
    /** Whether the maintainer goroutine received the quit command and returned. */
    var maintainerStopped: bool
    const allocator: Allocator<R>
    const deallocator: Deallocator<R>

    /**
     * The channel never holds more than its capacity. The minimum is not part of
     * the invariant: the exported Minimum option can be applied to a live pool
     * and setMinimum accepts any value.
     */
    ghost predicate Valid()
      reads this
    {
      10 <= capacity && |resources| <= capacity
    }

    /**
     * The maintainer's send completes at once: either the channel has room or the
     * maintainer will not allocate. It always holds while minimum <= capacity.
     */
    ghost predicate MaintainerCanSend()
      reads this
    {
      |resources| < capacity || minimum <= |resources|
    }

    /** The fresh pool NewPool starts from: an empty channel and the default minimum. */
    constructor (capacity: nat, allocator: Allocator<R>, deallocator: Deallocator<R>)
      requires 10 <= capacity
      ensures Valid()
      ensures this.capacity == capacity && this.allocator == allocator && this.deallocator == deallocator
      ensures resources == [] && minimum == capacity / 10 && !maintainerStopped
    {
      this.capacity := capacity;
      this.allocator := allocator;
      this.deallocator := deallocator;
      resources := [];
      minimum := capacity / 10;
      maintainerStopped := false;
    }

    method SetMinimum(m: int) returns (err: Option<string>)
      modifies this`minimum
      ensures minimum == m && err == None
      ensures Valid() == old(Valid())
    {
      minimum := m;
      err := None;
    }

    /** Runs one option against this pool under construction. */
    method Apply(option: PoolOption) returns (err: Option<string>)
      modifies this`minimum
      ensures Valid() == old(Valid())
      ensures minimum == (if option.Minimum? then option.m else old(minimum))
      ensures err == (if option.External? then option.err else None)
    {
      match option
      case Minimum(m) =>
        err := SetMinimum(m);
      case External(e) =>
        err := e;
    }

    /**
     * Takes a resource without blocking; on an empty pool the allocator is called
     * once and its resource handed out even when it reported an error.
     * The error result is always nil.
     */
    method Fetch() returns (r: R, err: Option<string>)
      requires Valid()
      modifies this`resources, allocator
      ensures Valid() && err == None
      ensures var t := Take(old(resources));
        && resources == t.rest
        && (t.got.Some? ==> r == t.got.value && allocator.calls == old(allocator.calls))
        && (t.got.None? ==>
              allocator.calls == old(allocator.calls) + 1
              && r == allocator.outcome(old(allocator.calls)).resource)
    {
      if |resources| > 0 {
        r := resources[0];
        resources := resources[1..];
      } else {
        var failed;
        r, failed := allocator.Allocate();
      }
      err := None;
    }

    /** Puts a resource back without blocking; on a full pool it goes to the deallocator instead. */
    method Return(resource: R)
      requires Valid()
      modifies this`resources, deallocator
      ensures Valid()
      ensures var o := Offer(old(resources), capacity, resource);
        resources == o.kept && deallocator.disposed == old(deallocator.disposed) + o.dropped
    {
      if |resources| < capacity {
        resources := resources + [resource];
      } else {
        deallocator.Deallocate(resource);
      }
    }

    method GetAvailable() returns (n: int)
      requires Valid()
      ensures n == |resources| && 0 <= n <= capacity
    {
      n := |resources|;
    }

    /**
     * One iteration of the maintainer's loop. `quitSignalled` says whether a quit
     * command is waiting; once it has been received the maintainer is gone for good.
     * A step whose send would wait on a full channel for a Fetch to free a slot
     * is not modelled.
     */
    method MaintainerStep(quitSignalled: bool) returns (running: bool)
      requires Valid()
      requires maintainerStopped || quitSignalled || MaintainerCanSend()
      modifies this`resources, this`maintainerStopped, allocator
      ensures Valid()
      ensures running == (!old(maintainerStopped) && !quitSignalled)
      ensures maintainerStopped == !running
      ensures !running || |old(resources)| >= minimum ==>
        resources == old(resources) && allocator.calls == old(allocator.calls)
      ensures running && |old(resources)| < minimum ==>
        && allocator.calls == old(allocator.calls) + 1
        && resources == old(resources) + [allocator.outcome(old(allocator.calls)).resource]
      ensures running ==> |resources| == Replenished(|old(resources)|, minimum)
    {
      if maintainerStopped || quitSignalled {
        maintainerStopped := true;
        running := false;
        return;
      }
      running := true;
      if |resources| < minimum {
        var r, failed := allocator.Allocate();
        resources := resources + [r];
      }
    }

    /**
     * The maintainer's loop run for `iterations` iterations with no quit signal and
     * no other caller. No send of the run waits: the minimum fits the capacity, or the
     * pool is already at the minimum, or the run ends before the channel fills up.
     */
    method RunMaintainer(iterations: nat)
      requires Valid() && !maintainerStopped
      requires minimum <= capacity || minimum <= |resources| || |resources| + iterations <= capacity
      modifies this`resources, this`maintainerStopped, allocator
      ensures Valid() && !maintainerStopped
      ensures |resources| == FillAfter(iterations, |old(resources)|, minimum)
      ensures var added := |resources| - |old(resources)|;
        && added >= 0
        && allocator.calls == old(allocator.calls) + added
        && resources == old(resources) + Produced(allocator.outcome, old(allocator.calls), added)
    {
      ghost var start := |resources|;
      ghost var calls := allocator.calls;
      var i := 0;
      while i < iterations
        invariant 0 <= i <= iterations
        invariant Valid() && !maintainerStopped
        invariant |resources| == FillAfter(i, start, minimum)
        invariant start <= |resources| && |resources| - start <= i
        invariant minimum <= capacity || minimum <= start || start + iterations <= capacity
        invariant allocator.calls == calls + (|resources| - start)
        invariant resources == old(resources) + Produced(allocator.outcome, calls, |resources| - start)
      {
        var running := MaintainerStep(false);
        i := i + 1;
      }
    }
  }

  /**
   * Makes a pool: rejects a capacity below 10, applies the options in order
   * (the first failing one aborts), then pre-fills `minimum` resources from the
   * allocator, keeping each one whether or not the allocator reported an error.
   */
  method NewPool<R>(capacity: int, options: seq<PoolOption>, allocator: Allocator<R>, deallocator: Deallocator<R>)
    returns (p: Pool?<R>, err: Option<PoolError>)
    requires MinimumFits(capacity, options)
    modifies allocator
    ensures Configure(capacity, options).Failure? ==>
      p == null && err == Some(Configure(capacity, options).error)
      && allocator.calls == old(allocator.calls)
    ensures Configure(capacity, options).Success? ==>
      var m := Configure(capacity, options).value;
      && p != null && fresh(p) && err == None && p.Valid() && p.minimum <= capacity
      && p.capacity == capacity && p.minimum == m && !p.maintainerStopped
      && p.allocator == allocator && p.deallocator == deallocator
      && p.resources == Produced(allocator.outcome, old(allocator.calls), PrefillCount(m))
      && allocator.calls == old(allocator.calls) + PrefillCount(m)
  {
    if capacity < 10 {
      return null, Some(CapacityTooSmall);
    }
    var q := new Pool(capacity, allocator, deallocator);
    var i := 0;
    while i < |options|
      invariant 0 <= i <= |options|
      invariant q.resources == [] && !q.maintainerStopped
      invariant allocator.calls == old(allocator.calls)
      invariant ApplyOptions(capacity / 10, options) == ApplyOptions(q.minimum, options[i..])
    {
      assert options[i..] == [options[i]] + options[i + 1..];
      var e := q.Apply(options[i]);
      if e.Some? {
        return null, Some(OptionFailed(e.value));
      }
      i := i + 1;
    }
    assert options[i..] == [];

    // pre-fill: each allocator answer goes into the channel, failed or not
    ghost var start := allocator.calls;
    ghost var m := q.minimum;
    var n := 0;
    while n < q.minimum
      invariant 0 <= n <= PrefillCount(m)
      invariant q.minimum == m && q.resources == Produced(allocator.outcome, start, n)
      invariant allocator.calls == start + n && !q.maintainerStopped
    {
      var r, failed := allocator.Allocate();
      q.resources := q.resources + [r];
      n := n + 1;
    }
    p, err := q, None;
  }
}
