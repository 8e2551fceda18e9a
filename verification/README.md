# VM lifecycle engine of the simulated cloud backend

This project models the core of a small simulated infrastructure backend: a
fleet of virtual machines kept in numbered slots, each VM moving around the
lifecycle Stopped → Starting → Running → Stopping → Stopped.

- `vms.dfy` (module `Vms`) holds the VM value, the all-zero "empty VM" that
  stands for "no VM here", the transition table, and `WithState`, the rule
  that moves a VM to a new state or refuses. It also holds the helpers over a
  list of VMs: `Lookup`, which reads a slot with bounds checks; `Clone`, which
  takes a snapshot; and `Hashized`/`Hashize`, which build an index → VM map
  without the empty slots. `Unset` is the empty state string. It is the state
  of the empty VM, and the table gives it for any state it has no entry for.
  The clock, a single-precision float, is kept as its bit pattern and is only
  compared.
- `cloud.dfy` (module `Registry`) holds the `Cloud` registry. It is a class
  over an array of slots that `Launch`, `Stop` and `Delete` change in place;
  `List` and `Inspect` only read. Each of `Launch` and `Stop` arms a timer.
  The two timer callbacks are the methods `CompleteLaunch` and `CompleteStop`,
  called explicitly with the `Timer` (slot id and captured VM) that the first
  phase returned. Errors are the datatype `NotFound(id)` |
  `IllegalTransition(from, to)`.
- `cloud_test.dfy` (module `CloudTests`) restates the registry's unit tests
  on the default fleet. It also holds multi-step scenarios, proved from the
  operations' contracts alone.

Every mutating method also keeps `WellFormed`: every slot holds either the
empty VM or a VM in one of the four states.

### Behaviour of the code worth knowing

- The timer callbacks move the VM *captured* when the first phase committed
  to Running (Stopped) and write it into the slot without re-reading the
  slot and without taking the lock (cloud.go:49-53, cloud.go:67-71). The
  captured VM is always Starting (Stopping), so the write always happens. A
  VM deleted while its timer is pending therefore comes back Running
  (Stopped); see `CloudTests.DeleteBeforeLaunchCompletes`.
- `Launch` on a Starting VM succeeds, because `WithState` treats the same
  state as a no-op (vms.go:147-148). The slot is rewritten unchanged and
  one more timer is armed. `Stop` on a Stopping VM behaves the same way.
- `emptyVM`, used by `cloud.go`, is defined in neither vms.go nor cloud.go;
  vms_test.go:65 uses `VM{}` under that name, and so does this model.

## Model

| member | source | states |
|---|---|---|
| `Vms.IsValid` | vms.go:69-71 | a VM is invalid exactly when every field is zero and the state is the empty state |
| `Vms.TableKeys` | vms.go:74-79 | the transition table has an entry for each of the four states and none for the empty state |
| `Vms.Successor` | vms.go:74-79 | reading the table (empty state on a miss) gives, for each real state, its unique legal successor on the cycle; the empty state has none |
| `Vms.WithState` | vms.go:146-155 | same state: the VM unchanged, no error; otherwise success iff the move is one step forward on the cycle, and then only the state changes; any other move gives the empty VM and `IllegalTransition(from, to)` |
| `Vms.AdvanceFour` | vms.go:74-79 | following the table four more times returns to the same state |
| `Vms.AdvanceModFour` | vms.go:74-79 | following the table `k` times is the same as following it `k mod 4` times |
| `Vms.CycleOfFour` | vms.go:74-79 | the table is a single cycle of length exactly four: a real state returns to itself after `k` steps iff `k` is a multiple of four |
| `Vms.Lookup` | vms.go:103-108 | slot `id` when `0 <= id < len`, the empty VM otherwise; the result is valid iff the slot exists and is valid |
| `Vms.Hashized` | vms.go:92-100 | the map's keys are exactly the indices of the non-empty slots, each mapped to its VM |
| `Vms.Hashize` | vms.go:92-100 | the loop over the slots builds exactly that map |
| `Vms.Clone` | vms.go:85-89 | a new array of the same length holding the same VMs slot by slot |
| `Vms.DefaultVMList` | vms.go:117-142 | the default fleet has three VMs, all present and all Stopped |
| `Registry.Vm2State` | cloud.go:88-98 | `NotFound(id)` iff slot `id` is missing or empty; success iff the slot's VM may move to the target, and then the result is that VM with the new state; on failure the empty VM and, for a present VM, `IllegalTransition(state, target)` |
| `Registry.Cloud.constructor` | cloud.go:11-14 | a new registry whose slots hold the given VMs |
| `Registry.Cloud.List` | cloud.go:24-29 | a fresh array equal to the current slots, so later writes to the registry cannot reach it |
| `Registry.Cloud.Inspect` | cloud.go:32-37 | the VM in slot `id`, or the empty VM when `id` is out of range; nothing changes |
| `Registry.Cloud.Launch` | cloud.go:40-55 | succeeds iff slot `id` holds a Stopped or Starting VM, then rewrites only that slot to Starting and arms a timer capturing it; otherwise `NotFound(id)` or `IllegalTransition(state, Starting)` and every slot unchanged; keeps `WellFormed` |
| `Registry.Cloud.CompleteLaunch` | cloud.go:49-53 | stores the captured VM moved to Running in slot `id`, whatever the slot holds; no other slot changes; keeps `WellFormed` |
| `Registry.Cloud.Stop` | cloud.go:58-73 | succeeds iff slot `id` holds a Running or Stopping VM, then rewrites only that slot to Stopping and arms a timer; otherwise `NotFound(id)` or `IllegalTransition(state, Stopping)` and every slot unchanged; keeps `WellFormed` |
| `Registry.Cloud.CompleteStop` | cloud.go:67-71 | stores the captured VM moved to Stopped in slot `id`, whatever the slot holds; keeps `WellFormed` |
| `Registry.Cloud.Delete` | cloud.go:77-86 | true iff slot `id` held a VM, and then only that slot becomes empty; false with nothing changed otherwise; keeps `WellFormed` |
| `CloudTests.TestList` | cloud_test.go:31-38 | listing a fresh default registry gives the default fleet |
| `CloudTests.TestInspect` | cloud_test.go:40-56 | the good id gives its default VM; the bad id gives no valid VM |
| `CloudTests.TestLaunch` | cloud_test.go:71-80 | launching the stopped good VM succeeds and leaves it Starting |
| `CloudTests.TestBadVMLaunch` | cloud_test.go:89-95 | launching the bad id is `NotFound(10000)` |
| `CloudTests.TestBadStateLaunch` | cloud_test.go:97-105 | launching a Running VM is `IllegalTransition(Running, Starting)` |
| `CloudTests.TestStop` | cloud_test.go:107-117 | stopping the running good VM succeeds and leaves it Stopping |
| `CloudTests.TestBadVMStop` | cloud_test.go:125-132 | stopping the bad id is `NotFound(10000)` |
| `CloudTests.TestBadStateStop` | cloud_test.go:134-141 | stopping a Stopped VM is `IllegalTransition(Stopped, Stopping)` |
| `CloudTests.TestDelete` | cloud_test.go:143-157 | deleting the good id returns true; deleting the bad id returns false |
| `CloudTests.LaunchThenComplete` | cloud.go:44-53 | a launch of a Stopped VM shows Starting at once and Running after its timer fires; no other slot changes |
| `CloudTests.StopThenComplete` | cloud.go:62-71 | a stop of a Running VM shows Stopping at once and Stopped after its timer fires; no other slot changes |
| `CloudTests.DeleteTwice` | cloud.go:75-86 | the first delete reports whether a VM was there; the second always reports false |
| `CloudTests.DeleteBeforeLaunchCompletes` | cloud.go:49-53 | a VM deleted while its launch is pending is present and Running after the timer fires |
| `CloudTests.ListIsSnapshot` | cloud.go:24-29 | a listing keeps its contents through later launch, stop, completion and delete calls |
| `CloudTests.TimerStaysInRange` | cloud.go:48-51 | the slots are a fixed array, so after a stop and a delete of any id, an accepted launch's timer still writes in range and leaves the launched VM Running |

## Left out

- Locking (`sync.RWMutex`) is not modelled. Every operation is one sequential step, so concurrent interleavings are outside the model. So is the unlocked write made by the timer callbacks.
- Timer scheduling (`time.AfterFunc`) and the `StartDelay`/`StopDelay` durations are left out. A completion happens when the caller invokes `CompleteLaunch`/`CompleteStop`, so any order of completions and other operations can be expressed, but elapsed time cannot. The model over-approximates the timers: a caller may fire a `Timer` twice, never fire it, or build one itself, whereas each armed closure fires exactly once.
- The `String()` methods of `VM`, `VMList` and `Cloud` are left out, and so is `dieOnError`. They serialize to JSON and abort the process on failure.
- The exact error-message strings are left out. Errors are structured values carrying the id or the `(from, to)` pair.
- State strings other than the four lifecycle states and the empty state are left out. Such strings can only come from JSON input, which is not part of this model.
- The clock is compared by bit pattern. Floating-point equality differs for NaN (never equal to itself) and for negative zero (equal to zero), and the model does not capture either case.
- The integer fields are only copied and compared. No arithmetic is done on them, so Go's 64-bit width plays no part.
- `server.go` (HTTP routing and status codes), `main.go` (JSON load/save, flags, serving) and `cors.go` are not part of this model. The same goes for the `VMs` type and the `defaultVMs` value they use.
