/** The VM value, its lifecycle states, the transition rule it obeys, and
    the helpers over a list of VMs (a `VMList`, here a sequence of slots). */
module Vms {

  /** Lifecycle state of a VM. `Unset` stands for the zero (empty) state
      string: it is the state of the empty VM, and it is what the transition
      table answers for a state it has no entry for. */
  datatype VMState = Unset | Stopped | Starting | Running | Stopping

  /** Clock frequency in MHz, a single-precision float, kept as its bit
      pattern: the model never computes with it, it only compares it. */
  datatype Clock = Clock(bits: bv32)

  /** A virtual machine: a plain value, changed only by building a new one. */
  datatype VM = VM(vcpus: int, clock: Clock, ram: int, storage: int, network: int, state: VMState)

  /** The all-zero VM, which stands for "no VM here". */
  const EmptyVM: VM := VM(0, Clock(0), 0, 0, 0, Unset)

  datatype Option<T> = None | Some(value: T)

  datatype Error =
    | NotFound(id: int)
    | IllegalTransition(from: VMState, to: VMState)

  /** A VM together with the error that accompanies it, as Go's
      `(VM, error)` results of `WithState` and `vm2state`. */
  datatype Reply = Reply(vm: VM, err: Option<Error>)

  /** A VM is valid when it is not the all-zero VM. */
  function IsValid(vm: VM): (valid: bool)
    ensures !valid <==>
      && vm.vcpus == 0 && vm.clock.bits == 0 && vm.ram == 0
      && vm.storage == 0 && vm.network == 0 && vm.state == Unset
  {
    vm != EmptyVM
  }

  /** The transition table: each state mapped to the one it may move to. */
  const AllowedTransition: map<VMState, VMState> :=
    map[Stopped := Starting, Starting := Running, Running := Stopping, Stopping := Stopped]

  /** The table has an entry for every state but the zero one. */
  lemma TableKeys(s: VMState)
    ensures s in AllowedTransition <==> s != Unset
  {
    match s
    case Unset =>
    case Stopped =>
    case Starting =>
    case Running =>
    case Stopping =>
  }

  /** Where a state sits on the lifecycle cycle; -1 for the zero state. */
  function Position(s: VMState): (p: int)
  {
    match s
    case Stopped => 0
    case Starting => 1
    case Running => 2
    case Stopping => 3
    case Unset => -1
  }

  /** Reference definition of the lifecycle: a legal move goes one step
      forward around the cycle Stopped, Starting, Running, Stopping. */
  predicate Legal(from: VMState, to: VMState)
  {
    from != Unset && to != Unset && Position(to) == (Position(from) + 1) % 4
  }

  /** Reading the transition table, with the zero state for a missing key.
      Every real state has exactly one legal successor, and it is this one;
      the zero state has none. */
  function Successor(s: VMState): (next: VMState)
    ensures forall t :: Legal(s, t) <==> s != Unset && t == next
    ensures next == Unset <==> s == Unset
  {
    TableKeys(s);
    if s in AllowedTransition then AllowedTransition[s] else Unset
  }

  /** Moving a VM to a state: a no-op on the same state, one step along the
      table otherwise, and the empty VM with an error for any other move. */
  function WithState(vm: VM, to: VMState): (r: Reply)
    ensures to == vm.state ==> r == Reply(vm, None)
    ensures r.err == None <==> to == vm.state || Legal(vm.state, to)
    ensures r.err == None ==> r.vm == vm.(state := to)
    ensures r.err != None ==> r == Reply(EmptyVM, Some(IllegalTransition(vm.state, to)))
  {
    if to == vm.state then Reply(vm, None)
    else if Successor(vm.state) != to then Reply(EmptyVM, Some(IllegalTransition(vm.state, to)))
    else Reply(vm.(state := to), None)
  }

  /** The state reached by following the table `k` times. */
  function Advance(s: VMState, k: nat): (t: VMState)
  {
    if k == 0 then s else Successor(Advance(s, k - 1))
  }

  /** Four steps along the table come back to where they started. */
  lemma {:induction false} AdvanceFour(s: VMState, k: nat)
    ensures Advance(s, k + 4) == Advance(s, k)
  {
    if k == 0 {
      assert Advance(s, 2) == Successor(Successor(s));
      assert Advance(s, 4) == Successor(Successor(Advance(s, 2)));
    } else {
      AdvanceFour(s, k - 1);
    }
  }

  /** Only the number of steps modulo four matters. */
  lemma {:induction false} AdvanceModFour(s: VMState, k: nat)
    ensures Advance(s, k) == Advance(s, k % 4)
  {
    if k >= 4 {
      AdvanceFour(s, k - 4);
      AdvanceModFour(s, k - 4);
    }
  }

  /** The table is one cycle of length exactly four: a real state comes back
      to itself after `k` steps if and only if `k` is a multiple of four. */
  lemma {:induction false} CycleOfFour(s: VMState, k: nat)
    requires s != Unset
    ensures Advance(s, k) == s <==> k % 4 == 0
  {
    AdvanceModFour(s, k);
    assert Advance(s, 1) == Successor(s);
    assert Advance(s, 2) == Successor(Successor(s));
    assert Advance(s, 3) == Successor(Successor(Successor(s)));
  }

  /** Reading slot `id`, with the empty VM when `id` is out of range. */
  function Lookup(vms: seq<VM>, id: int): (vm: VM)
    ensures 0 <= id < |vms| ==> vm == vms[id]
    ensures id < 0 || |vms| <= id ==> vm == EmptyVM
    ensures IsValid(vm) <==> 0 <= id < |vms| && IsValid(vms[id])
  {
    if id < 0 || id > |vms| - 1 then EmptyVM else vms[id]
  }

  /** The list as a map from index to VM, leaving out the empty slots. */
  function Hashized(vms: seq<VM>): (h: map<int, VM>)
    ensures forall i :: i in h <==> 0 <= i < |vms| && IsValid(vms[i])
    ensures forall i :: i in h ==> h[i] == vms[i]
  {
    if vms == [] then map[]
    else
      var last := |vms| - 1;
      var front := Hashized(vms[..last]);
      if IsValid(vms[last]) then front[last := vms[last]] else front
  }

  /** Builds the map of `Hashized` slot by slot. */
  method Hashize(vms: seq<VM>) returns (h: map<int, VM>)
    ensures h == Hashized(vms)
  {
    h := map[];
    for index := 0 to |vms|
      invariant h == Hashized(vms[..index])
    {
      assert vms[..index + 1][..index] == vms[..index];
      if IsValid(vms[index]) {
        h := h[index := vms[index]];
      }
    }
    assert vms[..|vms|] == vms;
  }

  /** A snapshot: a new array holding the same VMs, slot by slot. */
  method Clone(vms: array<VM>) returns (copy: array<VM>)
    ensures fresh(copy)
    ensures copy[..] == vms[..]
  {
    copy := new VM[vms.Length];
    for i := 0 to vms.Length
      invariant forall j :: 0 <= j < i ==> copy[j] == vms[j]
    {
      copy[i] := vms[i];
    }
  }

  /** The three VMs a fresh installation starts from, all stopped. */
  function DefaultVMList(): (vms: seq<VM>)
    ensures |vms| == 3
    ensures forall i :: 0 <= i < |vms| ==> IsValid(vms[i]) && vms[i].state == Stopped
  {
    [ VM(1, Clock(0x44BB_8000), 4096, 128, 1000, Stopped),   // 1500 MHz
      VM(4, Clock(0x4561_0000), 32768, 512, 10000, Stopped), // 3600 MHz
      VM(2, Clock(0x4509_8000), 8192, 256, 1000, Stopped) ]  // 2200 MHz
  }
}
