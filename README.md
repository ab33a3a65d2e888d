# splash: a verified model of a bounded resource pool

Package splash keeps a pool of shared resources, such as database handles, in
a Go buffered channel of fixed capacity. `NewPool` rejects a capacity below 10,
sets the default minimum to a tenth of the capacity, and applies the caller's
options in order. It then pre-fills the channel with `minimum` resources from
the user's allocator and starts a maintainer goroutine. On each turn of its
loop the maintainer either exits on a quit command, or adds one resource when
the pool holds fewer than `minimum`, or sleeps. `Fetch` takes a resource
without blocking and calls the allocator when the pool is empty. `Return` puts a
resource back without blocking and hands it to the deallocator when the pool is
full. `GetAvailable` reports how many resources are resident.

The model, in `splash.dfy` (module `Splash`), works as follows:

- `Pool` is a class. Its field `resources: seq<R>` stands for the channel's
  contents, oldest first. `capacity` is fixed. `minimum` and
  `maintainerStopped` are updated in place. `Valid()` is the invariant
  `10 <= capacity` and `|resources| <= capacity`. The constructor and
  `NewPool` establish it. `Fetch`, `Return`, `GetAvailable`,
  `MaintainerStep` and `RunMaintainer` keep it, and `SetMinimum` and `Apply`
  leave it as it was. `minimum <= capacity` is not part of it: `NewPool`
  guarantees it, but the exported `Minimum(m)` option can be applied to a live
  pool afterwards, and `setMinimum` accepts any value. `Fetch` and `Return` do
  not depend on the minimum. The maintainer step is modelled where its send completes at once
  (`MaintainerCanSend`), which holds whenever `minimum <= capacity`.
- The user's allocator is an `Allocator` object. `outcome(n)` is its answer on
  its n-th call: a resource and whether an error came with it. `calls` counts
  the invocations. The deallocator is a `Deallocator` object that records each
  resource it is handed. With these two, the contracts can say "the allocator
  was called exactly once" and "the deallocator received this resource".
- The methods are proved against pure specification functions:
  - `Take` is a non-blocking receive. `Offer` is a non-blocking send.
  - `Produced` lists the resources of consecutive allocator calls.
  - `Replenished` and `FillAfter` give the fill level after maintainer
    iterations.
  - `ApplyOptions` and `Configure` give the outcome of the validation and
    option phase of `NewPool`.
- Lemmas state what holds across several calls:
  - A run of returns fills the free room and overflows the rest.
  - The maintainer converges to the minimum.
  - The first failing option decides the error.
  - With no failing option, the last `Minimum` wins.

The allocator's error flag never decides whether a resource is stored or
handed out. The contracts of `NewPool`, `MaintainerStep` and `Fetch` store or
return `outcome(n).resource` whether or not the allocation failed. That is the
source's pass-through behaviour.

The minimum is not validated, and the model follows the code:

- `setMinimum` (splash.go:31-34) checks neither `m >= 0` nor `m <= capacity`.
  A negative minimum is accepted: it pre-fills nothing (`PrefillCount`), and
  the maintainer never allocates.
- A minimum above the capacity makes the pre-fill send block forever.
  `NewPool` excludes that case with its precondition (see Left out).

## Model

| member | source | states |
|---|---|---|
| `Splash.Configure` | splash.go:44-65 | construction fails with CapacityTooSmall exactly when capacity < 10; with capacity >= 10 and no options the minimum is capacity / 10; with capacity >= 10 it fails exactly when the option loop fails |
| `Splash.FirstFailureAborts` | splash.go:60-65 | the first option that reports an error aborts configuration with exactly that error; the options after it are never run |
| `Splash.NoFailureKeepsLastMinimum` | splash.go:31-41 | when no option fails, options are applied in order, so the configured minimum is the last `Minimum(m)` given, or the default when there is none |
| `Splash.ApplyOptionsFailsIff` | splash.go:60-65 | the option loop fails if and only if some option reports an error |
| `Splash.ApplyOptions` | splash.go:60-65 | the option loop: a failure carries the error of one of the options given, and a list with no `Minimum` option leaves the default minimum. `FirstFailureAborts`, `NoFailureKeepsLastMinimum` and `ApplyOptionsFailsIff` state which error and which minimum |
| `Splash.PrefillCount` | splash.go:68 | the iteration count of the pre-fill loop: the first index the guard `i < minimum` rejects, with every earlier index accepted; so max(minimum, 0) |
| `Splash.Pool.constructor` | splash.go:49-58 | for a capacity of at least 10 (checked at splash.go:45-47 before the pool is made), a new pool has an empty channel of that capacity, minimum = capacity / 10 and a maintainer that has not stopped; it satisfies the invariant |
| `Splash.Pool.SetMinimum` | splash.go:31-34 | sets the minimum to m without any check and returns no error |
| `Splash.Pool.Apply` | splash.go:36-41 | `Minimum(m)` sets the minimum and reports no error; an option from outside the package leaves the pool alone and reports its own error |
| `Splash.NewPool` | splash.go:44-102 | on a configuration error, returns no pool, returns that error and makes no allocator call. Otherwise returns a fresh valid pool with the configured minimum and a running maintainer. The allocator was called exactly max(minimum, 0) times, and the channel holds those answers' resources in order, failed allocations included |
| `Splash.Produced` | splash.go:68-76 | the resources of `count` consecutive allocator calls: exactly `count` of them, the j-th being the resource of call from + j whether or not that call failed |
| `Splash.Take` | splash.go:107-110 | a non-blocking receive yields nothing exactly when the channel is empty and leaves it unchanged then; otherwise it yields one resident resource, and the rest plus that resource is the old contents |
| `Splash.Offer` | splash.go:122-125 | a non-blocking send keeps the resource exactly when the channel has room. Otherwise it drops the resource. Resident resources stay in place, the bound holds, and nothing is lost or invented |
| `Splash.Pool.Fetch` | splash.go:106-118 | on a non-empty pool, removes and returns the oldest resource and does not call the allocator. On an empty pool, leaves the pool unchanged, calls the allocator exactly once and returns its resource even if it failed. The error is always nil, and the invariant holds |
| `Splash.Pool.Return` | splash.go:121-137 | with room, appends the resource and leaves the deallocator untouched; when full, leaves the pool unchanged and hands the resource to the deallocator exactly once; the invariant holds |
| `Splash.Pool.GetAvailable` | splash.go:140-142 | returns the number of resident resources, which is between 0 and the capacity |
| `Splash.ReturnsFillThenOverflow` | splash.go:121-137 | a run of returns to an otherwise idle pool stores the first min(n, free room) resources in order and sends every later one to the deallocator. So capacity + k returns to an empty pool leave it full and deallocate k |
| `Splash.FetchThenReturnKeepsResources` | splash.go:106-137 | fetching from a non-empty pool and returning the same resource drops nothing and leaves the same multiset of resources resident |
| `Splash.Pool.MaintainerStep` | splash.go:80-97 | after the quit signal the maintainer stops for good and allocates nothing. Otherwise, below the minimum it calls the allocator once and stores its resource, failed or not. At or above the minimum it changes nothing. The invariant holds. The step is modelled only where its send completes at once: the channel has room, or no allocation is due |
| `Splash.Replenished` | splash.go:86-96 | one iteration without a quit signal adds a resource exactly when the fill level is below the minimum, and never goes past the larger of the two |
| `Splash.FillAfter` | splash.go:80-97 | repeated iterations never lower the fill level, never take it past max(level, minimum), and add at most one resource per iteration; `MaintainerConverges` gives its closed form |
| `Splash.MaintainerConverges` | splash.go:80-97 | after n iterations the fill level is c when c >= minimum, else min(c + n, minimum): it never drops, never exceeds max(c, minimum), and reaches max(c, minimum) once n >= minimum - c |
| `Splash.Pool.RunMaintainer` | splash.go:79-99 | n iterations of the loop leave the fill level at `FillAfter(n, c, minimum)`. Each added resource came from exactly one allocator call, in call order, and nothing else changes |
| `Splash.Allocator.Allocate` | splash.go:24 | one invocation of the user's allocator: the call count goes up by one and the answer is that call's outcome |
| `Splash.Deallocator.Deallocate` | splash.go:25 | one invocation of the user's deallocator, recorded with the resource it was given |

## Left out

- Splash.NewPool: requires that the configured minimum not exceed the capacity. The source does not check this: with a larger minimum the pre-fill send at splash.go:75 blocks forever. A non-terminating call is not modelled.
- Splash.Pool.MaintainerStep: requires that the step's send complete at once. A running maintainer below the minimum with a full channel waits at splash.go:93 until a `Fetch` (splash.go:108) frees a slot. Its pending resource then refills the channel at once, and the maintainer goes on allocating. That can only happen after `Minimum(m)` with m > capacity is applied to a live pool. The waiting send, and the refill it makes after each `Fetch`, are not modelled.
- Splash.Pool.RunMaintainer: requires that no step of the run waits on a full channel. Either the minimum fits the capacity, or the pool is already at the minimum, or the run ends before the channel fills.
- Applying `Minimum(m)` to an already-constructed pool is modelled by `Pool.Apply`/`Pool.SetMinimum` and may break `minimum <= capacity`. The only effect on the model is the maintainer's precondition above; `Fetch`, `Return` and `GetAvailable` keep working.
- Splash.Pool.RunMaintainer: models a bounded number of iterations of the maintainer's unbounded loop (splash.go:80). Convergence is stated for every bound by `MaintainerConverges`.
- Splash.Pool.Return: the deallocation runs at once rather than in a new goroutine (splash.go:129-134). Only "the deallocator receives the resource exactly once" is modelled. The deallocator's error is only logged, so the model has none.
- Goroutines and `select` scheduling are not modelled. Each operation is one atomic step, and the maintainer runs only when stepped explicitly. Interleavings of concurrent callers with the maintainer are not captured.
- The channel's first-in-first-out order is modelled: `Fetch` hands out the oldest resource. Callers are not promised any order, and no lemma relies on it.
- The quit command is a parameter of `MaintainerStep`, because the source never sends on `quitCommand`.
- `time.Sleep` in the idle branch (splash.go:95) is a no-op.
- Logging is not modelled. This covers the default error and message handlers (splash.go:52-57) and the messages at splash.go:71-73, 83, 89-91, 114 and 132. It has no effect on the pool's state.
- The text of the returned errors is not modelled. `PoolError` names the two cases, and `OptionFailed` carries the option's own error.
- The allocator and deallocator are parameters of `NewPool`. In the source no option sets `allocator` or `deallocator`, so both stay nil (splash.go:24-25, 49). Any allocation would panic, and so would the overflow goroutine of a `Return` to a full pool (splash.go:130). These panics are not modelled.
- The unused `timeout` field (splash.go:23) is not modelled.
- Options from outside the package are modelled only by the error they report. Such an option could also call the pool's exported methods during construction; that is not modelled.
