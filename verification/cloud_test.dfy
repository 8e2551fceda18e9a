/** The registry's behaviour as its unit tests exercise it, proved from the
    operations' contracts alone: on the default fleet with a good and a bad
    id, and over whole sequences of operations on any registry. */
module CloudTests {
  import opened Vms
  import opened Registry

  const GoodID := 1
  const BadID := 10000

  /** A listing of a fresh default registry equals the default fleet. */
  method TestList() returns (listed: seq<VM>)
    ensures listed == DefaultVMList()
  {
    var c := new Cloud(DefaultVMList());
    var snapshot := c.List();
    listed := snapshot[..];
  }

  /** Inspecting the good id yields its default VM; the bad id, no VM. */
  method TestInspect() returns (good: VM, bad: VM)
    ensures good == DefaultVMList()[GoodID]
    ensures !IsValid(bad)
  {
    var c := new Cloud(DefaultVMList());
    good := c.Inspect(GoodID);
    bad := c.Inspect(BadID);
  }

  /** Launching the stopped good VM succeeds and leaves it Starting. */
  method TestLaunch() returns (err: Option<Error>, now: VM)
    ensures err == None
    ensures now == DefaultVMList()[GoodID].(state := Starting)
  {
    var c := new Cloud(DefaultVMList());
    var timer;
    err, timer := c.Launch(GoodID);
    now := c.vms[GoodID];
  }

  /** Launching the bad id is not found. */
  method TestBadVMLaunch() returns (err: Option<Error>)
    ensures err == Some(NotFound(BadID))
  {
    var c := new Cloud(DefaultVMList());
    var timer;
    err, timer := c.Launch(BadID);
  }

  /** Launching a running VM is an illegal move from Running to Starting. */
  method TestBadStateLaunch() returns (err: Option<Error>)
    ensures err == Some(IllegalTransition(Running, Starting))
  {
    var c := new Cloud(DefaultVMList());
    c.vms[GoodID] := c.vms[GoodID].(state := Running);
    var timer;
    err, timer := c.Launch(GoodID);
  }

  /** Stopping a running VM succeeds and leaves it Stopping. */
  method TestStop() returns (err: Option<Error>, now: VM)
    ensures err == None
    ensures now == DefaultVMList()[GoodID].(state := Stopping)
  {
    var c := new Cloud(DefaultVMList());
    c.vms[GoodID] := c.vms[GoodID].(state := Running);
    var timer;
    err, timer := c.Stop(GoodID);
    now := c.vms[GoodID];
  }

  /** Stopping the bad id is not found. */
  method TestBadVMStop() returns (err: Option<Error>)
    ensures err == Some(NotFound(BadID))
  {
    var c := new Cloud(DefaultVMList());
    c.vms[GoodID] := c.vms[GoodID].(state := Running);
    var timer;
    err, timer := c.Stop(BadID);
  }

  /** Stopping a stopped VM is an illegal move from Stopped to Stopping. */
  method TestBadStateStop() returns (err: Option<Error>)
    ensures err == Some(IllegalTransition(Stopped, Stopping))
  {
    var c := new Cloud(DefaultVMList());
    var timer;
    err, timer := c.Stop(GoodID);
  }

  /** Deleting the good id deletes something; deleting the bad id does not. */
  method TestDelete() returns (good: bool, bad: bool)
    ensures good && !bad
  {
    var c := new Cloud(DefaultVMList());
    good := c.Delete(GoodID);
    bad := c.Delete(BadID);
  }

  /** Both phases of a launch on a stopped VM: Starting at once, Running
      once the timer fires, and no other slot touched. */
  method LaunchThenComplete(c: Cloud, id: int) returns (starting: VM, running: VM)
    requires 0 <= id < c.vms.Length && IsValid(c.vms[id]) && c.vms[id].state == Stopped
    modifies c.vms
    ensures starting == old(c.vms[id]).(state := Starting)
    ensures running == old(c.vms[id]).(state := Running)
    ensures c.vms[..] == old(c.vms[..])[id := running]
  {
    var err, timer := c.Launch(id);
    starting := c.Inspect(id);
    c.CompleteLaunch(timer.value);
    running := c.Inspect(id);
  }

  /** Both phases of a stop on a running VM: Stopping, then Stopped. */
  method StopThenComplete(c: Cloud, id: int) returns (stopping: VM, stopped: VM)
    requires 0 <= id < c.vms.Length && IsValid(c.vms[id]) && c.vms[id].state == Running
    modifies c.vms
    ensures stopping == old(c.vms[id]).(state := Stopping)
    ensures stopped == old(c.vms[id]).(state := Stopped)
    ensures c.vms[..] == old(c.vms[..])[id := stopped]
  {
    var err, timer := c.Stop(id);
    stopping := c.Inspect(id);
    c.CompleteStop(timer.value);
    stopped := c.Inspect(id);
  }

  /** Deleting is idempotent: the second delete of an id finds nothing. */
  method DeleteTwice(c: Cloud, id: int) returns (first: bool, second: bool)
    modifies c.vms
    ensures first <==> IsValid(Lookup(old(c.vms[..]), id))
    ensures !second
    ensures !IsValid(Lookup(c.vms[..], id))
  {
    first := c.Delete(id);
    second := c.Delete(id);
  }

  /** A VM deleted while its launch is pending is back, Running, once the
      timer fires: the completion does not look at the slot again. */
  method DeleteBeforeLaunchCompletes(c: Cloud, id: int) returns (deleted: bool, after: VM)
    requires 0 <= id < c.vms.Length && IsValid(c.vms[id]) && c.vms[id].state == Stopped
    modifies c.vms
    ensures deleted
    ensures IsValid(after) && after == old(c.vms[id]).(state := Running)
  {
    var err, timer := c.Launch(id);
    deleted := c.Delete(id);
    c.CompleteLaunch(timer.value);
    after := c.Inspect(id);
  }

  /** A listing is a snapshot: later launches, stops, completions and
      deletes leave it as it was. */
  method ListIsSnapshot(c: Cloud, id: int) returns (snapshot: array<VM>)
    modifies c.vms
    ensures snapshot[..] == old(c.vms[..])
  {
    snapshot := c.List();
    var err, timer := c.Launch(id);
    if timer.Some? {
      c.CompleteLaunch(timer.value);
    }
    err, timer := c.Stop(id);
    if timer.Some? {
      c.CompleteStop(timer.value);
    }
    var deleted := c.Delete(id);
  }

  /** The slots are a fixed array, so the id accepted by a Launch is still
      in range when its timer fires after a Stop and a Delete of any id,
      and the slot then holds the launched VM, Running. */
  method TimerStaysInRange(c: Cloud, id: int, other: int) returns (err: Option<Error>)
    modifies c.vms
    ensures err == None ==> 0 <= id < c.vms.Length && c.vms[id] == old(c.vms[id]).(state := Running)
  {
    var timer;
    err, timer := c.Launch(id);
    var stopErr, stopTimer := c.Stop(other);
    var deleted := c.Delete(other);
    if timer.Some? {
      c.CompleteLaunch(timer.value);
    }
  }
}
