/** The registry of VMs: a fixed row of slots, changed one slot at a time
    by the lifecycle operations and by the deferred completions they arm. */
module Registry {
  import opened Vms

  /** A completion armed by Launch or Stop: the slot it will write and the
      VM it captured when the first phase committed. */
  datatype Timer = Timer(id: int, captured: VM)

  /** Every slot holds either the empty VM or a VM in one of the four
      lifecycle states. */
  predicate WellFormed(vms: seq<VM>)
  {
    forall i :: 0 <= i < |vms| ==> vms[i] == EmptyVM || vms[i].state != Unset
  }

  /** The reading half of Launch and Stop, given the current slots: find
      slot `id`, then move its VM to `to`. */
  function Vm2State(vms: seq<VM>, id: int, to: VMState): (r: Reply)
    ensures r.err == Some(NotFound(id)) <==> !(0 <= id < |vms| && IsValid(vms[id]))
    ensures r.err == None <==>
      0 <= id < |vms| && IsValid(vms[id]) && (to == vms[id].state || Legal(vms[id].state, to))
    ensures r.err == None ==> r.vm == vms[id].(state := to)
    ensures r.err != None ==> r.vm == EmptyVM
    ensures 0 <= id < |vms| && IsValid(vms[id]) && r.err != None ==>
      r.err == Some(IllegalTransition(vms[id].state, to))
  {
    var vm := Lookup(vms, id);
    if vm == EmptyVM then Reply(EmptyVM, Some(NotFound(id)))
    else
      var mutated := WithState(vm, to);
      if mutated.err != None then Reply(EmptyVM, mutated.err) else Reply(mutated.vm, None)
  }

  class Cloud {
    const vms: array<VM>

    /** A registry holding the given VMs, slot `i` for the `i`-th. */
    constructor (initial: seq<VM>)
      ensures fresh(vms) && vms[..] == initial
    {
      vms := new VM[|initial|](i requires 0 <= i < |initial| => initial[i]);
    }

    /** A snapshot of every slot, in a new array the registry never writes. */
    method List() returns (snapshot: array<VM>)
      ensures fresh(snapshot)
      ensures snapshot[..] == vms[..]
    {
      snapshot := Clone(vms);
    }

    /** The VM in slot `id`, or the empty VM when there is no such slot. */
    method Inspect(id: int) returns (vm: VM)
      ensures 0 <= id < vms.Length ==> vm == vms[id]
      ensures id < 0 || vms.Length <= id ==> vm == EmptyVM
    {
      vm := Lookup(vms[..], id);
    }

    /** Moves the VM in slot `id` to Starting and arms the timer that will
        complete the launch. A stopped VM starts; a starting one is left as
        it is and gets one more timer; an empty or missing slot is not found;
        any other state is an illegal transition, and then nothing changes. */
    method Launch(id: int) returns (err: Option<Error>, timer: Option<Timer>)
      modifies vms
      ensures err == None <==>
        0 <= id < vms.Length && IsValid(old(vms[id])) && old(vms[id]).state in {Stopped, Starting}
      ensures !(0 <= id < vms.Length && IsValid(old(vms[id]))) ==> err == Some(NotFound(id))
      ensures 0 <= id < vms.Length && IsValid(old(vms[id])) && err != None ==>
        err == Some(IllegalTransition(old(vms[id]).state, Starting))
      ensures err == None ==>
        && vms[..] == old(vms[..])[id := old(vms[id]).(state := Starting)]
        && timer == Some(Timer(id, vms[id]))
      ensures err != None ==> vms[..] == old(vms[..]) && timer == None
      ensures WellFormed(old(vms[..])) ==> WellFormed(vms[..])
    {
      var r := Vm2State(vms[..], id, Starting);
      if r.err != None {
        return r.err, None;
      }
      vms[id] := r.vm;
      return None, Some(Timer(id, r.vm));
    }

    /** The deferred half of Launch, run when its timer fires. It moves the
        VM captured at launch time, not the slot's current content, to
        Running and stores it in the slot without looking at what is there:
        a VM deleted in between comes back. */
    method CompleteLaunch(timer: Timer)
      requires 0 <= timer.id < vms.Length
      modifies vms
      ensures timer.captured.state in {Starting, Running} ==>
        vms[..] == old(vms[..])[timer.id := timer.captured.(state := Running)]
      ensures timer.captured.state !in {Starting, Running} ==> vms[..] == old(vms[..])
      ensures WellFormed(old(vms[..])) ==> WellFormed(vms[..])
    {
      var r := WithState(timer.captured, Running);
      if r.err == None {
        vms[timer.id] := r.vm;
      }
    }

    /** Moves the VM in slot `id` to Stopping and arms the timer that will
        complete the stop; the mirror image of Launch. */
    method Stop(id: int) returns (err: Option<Error>, timer: Option<Timer>)
      modifies vms
      ensures err == None <==>
        0 <= id < vms.Length && IsValid(old(vms[id])) && old(vms[id]).state in {Running, Stopping}
      ensures !(0 <= id < vms.Length && IsValid(old(vms[id]))) ==> err == Some(NotFound(id))
      ensures 0 <= id < vms.Length && IsValid(old(vms[id])) && err != None ==>
        err == Some(IllegalTransition(old(vms[id]).state, Stopping))
      ensures err == None ==>
        && vms[..] == old(vms[..])[id := old(vms[id]).(state := Stopping)]
        && timer == Some(Timer(id, vms[id]))
      ensures err != None ==> vms[..] == old(vms[..]) && timer == None
      ensures WellFormed(old(vms[..])) ==> WellFormed(vms[..])
    {
      var r := Vm2State(vms[..], id, Stopping);
      if r.err != None {
        return r.err, None;
      }
      vms[id] := r.vm;
      return None, Some(Timer(id, r.vm));
    }

    /** The deferred half of Stop: stores the captured VM, moved to Stopped,
        in slot `id`, whatever the slot holds by then. */
    method CompleteStop(timer: Timer)
      requires 0 <= timer.id < vms.Length
      modifies vms
      ensures timer.captured.state in {Stopping, Stopped} ==>
        vms[..] == old(vms[..])[timer.id := timer.captured.(state := Stopped)]
      ensures timer.captured.state !in {Stopping, Stopped} ==> vms[..] == old(vms[..])
      ensures WellFormed(old(vms[..])) ==> WellFormed(vms[..])
    {
      var r := WithState(timer.captured, Stopped);
      if r.err == None {
        vms[timer.id] := r.vm;
      }
    }

    /** Empties slot `id`. Answers whether there was a VM to delete; when
        there was none, nothing changes. */
    method Delete(id: int) returns (deleted: bool)
      modifies vms
      ensures deleted <==> 0 <= id < vms.Length && IsValid(old(vms[id]))
      ensures deleted ==> vms[..] == old(vms[..])[id := EmptyVM]
      ensures !deleted ==> vms[..] == old(vms[..])
      ensures WellFormed(old(vms[..])) ==> WellFormed(vms[..])
    {
      if Lookup(vms[..], id) == EmptyVM {
        return false;
      }
      vms[id] := EmptyVM;
      return true;
    }
  }
}
