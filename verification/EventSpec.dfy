// Memory events and their transactions (hygcn/hardware/coordinator.cpp, the two
// callbacks of hygcn/hygcn.h and the counters of dataflow/event.h). An event is a
// number; its counters are kept by number, as all holders of the shared object
// see them.
module EventSpec {
  import opened Basics

  datatype Dir = Dram | Edram | NoDir
  datatype Access = Write | Read | ReadAggr
  datatype Data = Edge | Weight | InputFeature | AggrFeature | OutputFeature | NoData

  datatype Event = Event(address: nat, bytes: nat, dir: Dir, access: Access, data: Data) {
    // ceil(bytes / block)
    function NumTrans(block: nat): nat
      requires 0 < block
    {
      (bytes + block - 1) / block
    }

    // The events that AddEvent has a queue for; any other one ends the program.
    predicate Routable() {
      || (dir == Dram && (data == Edge || data == Weight || data == InputFeature || data == OutputFeature))
      || (dir == Edram && data == AggrFeature)
    }
  }

  // One transaction on its way: an entry of events or edram_events.
  datatype Entry = Entry(addr: nat, id: nat)

  datatype Counters = Counters(event: Event, trans: nat, confirm: nat)

  // block and capacity are Event::sz_block and cap_edram. busy holds the addresses
  // the DRAM has accepted and not answered, edramTrans the queue of the
  // aggregation buffer. handled records the events popped from the return queues.
  datatype State = State(
    failed: bool, block: nat, capacity: nat,
    counters: seq<Counters>,
    edges: seq<nat>, inputs: seq<nat>, weights: seq<nat>, outputs: seq<nat>, tmps: seq<nat>,
    pending: seq<Entry>, edramPending: seq<Entry>,
    busy: multiset<nat>, edramTrans: seq<nat>,
    dramReturn: seq<nat>, edramReturn: seq<nat>, handled: seq<nat>)
  {
    function Num(id: nat): nat
      requires 0 < block && id < |counters|
    {
      counters[id].event.NumTrans(block)
    }

    predicate AllIssued(id: nat)
      requires 0 < block && id < |counters|
    {
      counters[id].trans == Num(id)
    }

    predicate AllConfirmed(id: nat)
      requires 0 < block && id < |counters|
    {
      counters[id].confirm == Num(id)
    }
  }

  const TransPerClock: nat := 2

  // --------------------------------------------------------------- AddEvent

  function AddEvent(s: State, e: Event): State {
    var id := |s.counters|;
    var s1 := s.(counters := s.counters + [Counters(e, 0, 0)]);
    if !e.Routable() then s1.(failed := true)
    else
      match e.data
      case Edge => s1.(edges := s.edges + [id])
      case Weight => s1.(weights := s.weights + [id])
      case InputFeature => s1.(inputs := s.inputs + [id])
      case OutputFeature => s1.(outputs := s.outputs + [id])
      case _ => s1.(tmps := s.tmps + [id])
  }

  // -------------------------------------------------------------- IssueEvent

  datatype Choice = FromEdges | FromInputs | FromWeights | FromOutputs | FromNone

  // Edges go first, then inputs, weights and outputs.
  function Chosen(s: State): Choice {
    if s.edges != [] then FromEdges
    else if s.inputs != [] then FromInputs
    else if s.weights != [] then FromWeights
    else if s.outputs != [] then FromOutputs
    else FromNone
  }

  function QueueOf(s: State, c: Choice): seq<nat> {
    match c
    case FromEdges => s.edges
    case FromInputs => s.inputs
    case FromWeights => s.weights
    case FromOutputs => s.outputs
    case FromNone => []
  }

  function PopFrom(s: State, c: Choice): State
    requires QueueOf(s, c) != []
  {
    match c
    case FromEdges => s.(edges := s.edges[1..])
    case FromInputs => s.(inputs := s.inputs[1..])
    case FromWeights => s.(weights := s.weights[1..])
    case FromOutputs => s.(outputs := s.outputs[1..])
  }

  // The address of the next transaction of an event.
  function NextAddr(s: State, id: nat): nat
    requires id < |s.counters|
  {
    s.counters[id].event.address + s.block * s.counters[id].trans
  }

  function Count(s: State, id: nat): State
    requires id < |s.counters|
  {
    s.(counters := s.counters[id := s.counters[id].(trans := s.counters[id].trans + 1)])
  }

  function IssueOne(s: State, id: nat): State
    requires id < |s.counters|
  {
    var a := NextAddr(s, id);
    Count(s, id).(pending := s.pending + [Entry(a, id)], busy := s.busy + multiset{a})
  }

  // Issue transactions of one event until all are out or the memory, which takes
  // `room` more, refuses.
  function IssueSome(s: State, id: nat, room: nat): (s': State)
    requires 0 < s.block && id < |s.counters|
    ensures s'.block == s.block && |s'.counters| == |s.counters| && s'.failed == s.failed
    decreases room
  {
    if s.AllIssued(id) || room == 0 then s else IssueSome(IssueOne(s, id), id, room - 1)
  }

  predicate QueuesKnown(s: State) {
    && (forall i :: 0 <= i < |s.edges| ==> s.edges[i] < |s.counters|)
    && (forall i :: 0 <= i < |s.inputs| ==> s.inputs[i] < |s.counters|)
    && (forall i :: 0 <= i < |s.weights| ==> s.weights[i] < |s.counters|)
    && (forall i :: 0 <= i < |s.outputs| ==> s.outputs[i] < |s.counters|)
    && (forall i :: 0 <= i < |s.tmps| ==> s.tmps[i] < |s.counters|)
  }

  function IssueDram(s: State, room: nat): State
    requires 0 < s.block && QueuesKnown(s)
  {
    var c := Chosen(s);
    if c == FromNone then s
    else
      var id := QueueOf(s, c)[0];
      var s1 := IssueSome(s, id, room);
      if s1.AllIssued(id) && QueueOf(s1, c) != [] then PopFrom(s1, c) else s1
  }

  // Addresses of the aggregation buffer wrap around.
  function EdramAddr(s: State, id: nat): nat
    requires id < |s.counters|
  {
    var a := NextAddr(s, id);
    if a >= s.capacity && s.capacity > 0 then (a + s.capacity) % s.capacity else a
  }

  function IssueOneEdram(s: State, id: nat): State
    requires id < |s.counters|
  {
    var a := EdramAddr(s, id);
    Count(s, id).(edramPending := s.edramPending + [Entry(a, id)], edramTrans := s.edramTrans + [a])
  }

  function IssueSomeEdram(s: State, id: nat): (s': State)
    requires 0 < s.block && id < |s.counters|
    ensures s'.block == s.block && |s'.counters| == |s.counters| && s'.failed == s.failed && s'.tmps == s.tmps
    ensures s'.AllIssued(id) || |s'.edramTrans| >= TransPerClock
    decreases TransPerClock - |s.edramTrans|
  {
    if s.AllIssued(id) || |s.edramTrans| >= TransPerClock then s else IssueSomeEdram(IssueOneEdram(s, id), id)
  }

  function IssueEdram(s: State): State
    requires 0 < s.block && forall i :: 0 <= i < |s.tmps| ==> s.tmps[i] < |s.counters|
    decreases |s.tmps|
  {
    if s.tmps == [] then s
    else
      var id := s.tmps[0];
      var s1 := IssueSomeEdram(s, id);
      if !s1.AllIssued(id) then s1
      else
        var s2 := s1.(tmps := s1.tmps[1..]);
        if |s2.edramTrans| >= TransPerClock then s2 else IssueEdram(s2)
  }

  // --------------------------------------------------------------- callbacks

  predicate EntriesKnown(s: State) {
    && (forall i :: 0 <= i < |s.pending| ==> s.pending[i].id < |s.counters|)
    && (forall i :: 0 <= i < |s.edramPending| ==> s.edramPending[i].id < |s.counters|)
  }

  function Confirm(s: State, id: nat): State
    requires id < |s.counters|
  {
    s.(counters := s.counters[id := s.counters[id].(confirm := s.counters[id].confirm + 1)])
  }

  // MemCallback(addr), where find(addr) returns the entry at index i.
  function MemCallback(s: State, addr: nat, i: nat): State
    requires 0 < s.block && EntriesKnown(s) && i < |s.pending| && s.pending[i].addr == addr
  {
    var id := s.pending[i].id;
    var s1 := Confirm(s, id).(pending := Remove(s.pending, i), busy := s.busy - multiset{addr});
    if !s1.AllConfirmed(id) then s1
    else if s.counters[id].event.dir == Dram then s1.(dramReturn := s1.dramReturn + [id])
    else s1.(failed := true)
  }

  // BufCallback for the front of the aggregation buffer's queue.
  function BufCallback(s: State, i: nat): State
    requires 0 < s.block && EntriesKnown(s) && s.edramTrans != []
    requires i < |s.edramPending| && s.edramPending[i].addr == s.edramTrans[0]
  {
    var id := s.edramPending[i].id;
    var s1 := Confirm(s, id).(edramPending := Remove(s.edramPending, i), edramTrans := s.edramTrans[1..]);
    if !s1.AllConfirmed(id) then s1
    else if s.counters[id].event.dir == Edram then s1.(edramReturn := s1.edramReturn + [id])
    else s1.(failed := true)
  }

  predicate Finds(pending: seq<Entry>, addr: nat) { exists i :: 0 <= i < |pending| && pending[i].addr == addr }

  // ------------------------------------------------------------------- runs

  // The DRAM answers any address it holds, in any order; pick is the entry that
  // the unordered lookup finds.
  datatype Op =
    | OpAdd(event: Event)
    | OpIssue(room: nat)
    | OpDramReply(addr: nat, pick: nat)
    | OpEdramReply(pick: nat)
    | OpHandle

  function Step(s: State, op: Op): State
    requires 0 < s.block && QueuesKnown(s) && EntriesKnown(s)
  {
    if s.failed then s
    else
      match op
      case OpAdd(event) => AddEvent(s, event)
      case OpIssue(room) => IssueDramThenEdram(s, room)
      case OpDramReply(addr, pick) =>
        if addr !in s.busy then s
        else if !Finds(s.pending, addr) then s.(failed := true)
        else if pick < |s.pending| && s.pending[pick].addr == addr then MemCallback(s, addr, pick) else s
      case OpEdramReply(pick) =>
        if s.edramTrans == [] then s
        else if !Finds(s.edramPending, s.edramTrans[0]) then s.(failed := true)
        else if pick < |s.edramPending| && s.edramPending[pick].addr == s.edramTrans[0] then BufCallback(s, pick) else s
      case OpHandle =>
        if s.dramReturn != [] then s.(dramReturn := s.dramReturn[1..], handled := s.handled + [s.dramReturn[0]])
        else if s.edramReturn != [] then s.(edramReturn := s.edramReturn[1..], handled := s.handled + [s.edramReturn[0]])
        else s
  }

  lemma {:induction false} IssueSomeFrame(s: State, id: nat, room: nat)
    requires 0 < s.block && id < |s.counters|
    ensures var s' := IssueSome(s, id, room);
            && s'.edges == s.edges && s'.inputs == s.inputs && s'.weights == s.weights && s'.outputs == s.outputs && s'.tmps == s.tmps
    decreases room
  {
    if !s.AllIssued(id) && room > 0 {
      IssueSomeFrame(IssueOne(s, id), id, room - 1);
    }
  }

  function IssueDramThenEdram(s: State, room: nat): State
    requires 0 < s.block && QueuesKnown(s)
  {
    var s1 := IssueDram(s, room);
    IssueDramKnown(s, room);
    IssueEdram(s1)
  }

  lemma IssueDramKnown(s: State, room: nat)
    requires 0 < s.block && QueuesKnown(s)
    ensures var s1 := IssueDram(s, room);
            && 0 < s1.block && QueuesKnown(s1) && s1.tmps == s.tmps && |s1.counters| == |s.counters| && s1.failed == s.failed
  {
    hide IssueSome;
    var c := Chosen(s);
    if c != FromNone {
      IssueSomeFrame(s, QueueOf(s, c)[0], room);
    }
  }

  ghost predicate Known(s: State) { 0 < s.block && QueuesKnown(s) && EntriesKnown(s) }

  lemma {:induction false} IssueSomeKnown(s: State, id: nat, room: nat)
    requires Known(s) && id < |s.counters|
    ensures Known(IssueSome(s, id, room))
    decreases room
  {
    if !s.AllIssued(id) && room > 0 {
      IssueSomeKnown(IssueOne(s, id), id, room - 1);
    }
  }

  lemma {:induction false} IssueSomeEdramKnown(s: State, id: nat)
    requires Known(s) && id < |s.counters|
    ensures Known(IssueSomeEdram(s, id))
    decreases TransPerClock - |s.edramTrans|
  {
    if !s.AllIssued(id) && |s.edramTrans| < TransPerClock {
      IssueSomeEdramKnown(IssueOneEdram(s, id), id);
    }
  }

  lemma {:induction false} IssueEdramKnown(s: State)
    requires Known(s)
    ensures Known(IssueEdram(s))
    decreases |s.tmps|
  {
    if s.tmps != [] {
      var s1 := IssueSomeEdram(s, s.tmps[0]);
      IssueSomeEdramKnown(s, s.tmps[0]);
      if s1.AllIssued(s.tmps[0]) && |s1.edramTrans| < TransPerClock {
        IssueEdramKnown(s1.(tmps := s1.tmps[1..]));
      }
    }
  }

  lemma IssueKnown(s: State, room: nat)
    requires Known(s)
    ensures Known(IssueDramThenEdram(s, room))
  {
    var c := Chosen(s);
    if c != FromNone {
      IssueSomeKnown(s, QueueOf(s, c)[0], room);
    }
    IssueDramKnown(s, room);
    IssueEdramKnown(IssueDram(s, room));
  }

  lemma AddKnown(s: State, e: Event)
    requires Known(s)
    ensures Known(AddEvent(s, e))
  {
  }

  lemma CallbackKnown(s: State, addr: nat, i: nat)
    requires Known(s)
    ensures i < |s.pending| && s.pending[i].addr == addr ==> Known(MemCallback(s, addr, i))
    ensures s.edramTrans != [] && i < |s.edramPending| && s.edramPending[i].addr == s.edramTrans[0] ==> Known(BufCallback(s, i))
  {
    hide MemCallback, BufCallback, Known;
    if i < |s.pending| && s.pending[i].addr == addr {
      MemCallbackKnown(s, addr, i);
    }
    if s.edramTrans != [] && i < |s.edramPending| && s.edramPending[i].addr == s.edramTrans[0] {
      BufCallbackKnown(s, i);
    }
  }

  lemma MemCallbackKnown(s: State, addr: nat, i: nat)
    requires Known(s) && i < |s.pending| && s.pending[i].addr == addr
    ensures Known(MemCallback(s, addr, i))
  {
  }

  lemma BufCallbackKnown(s: State, i: nat)
    requires Known(s) && s.edramTrans != [] && i < |s.edramPending| && s.edramPending[i].addr == s.edramTrans[0]
    ensures Known(BufCallback(s, i))
  {
  }

  lemma StepKnown(s: State, op: Op)
    requires Known(s)
    ensures Known(Step(s, op))
  {
    match op {
      case OpAdd(event) => AddKnown(s, event);
      case OpIssue(room) => IssueKnown(s, room);
      case OpDramReply(addr, pick) => CallbackKnown(s, addr, pick);
      case OpEdramReply(pick) => CallbackKnown(s, 0, pick);
      case OpHandle =>
    }
  }

  function Run(s: State, ops: seq<Op>): (s': State)
    requires Known(s)
    ensures Known(s')
  {
    if ops == [] then s
    else
      var before := Run(s, ops[..|ops| - 1]);
      StepKnown(before, ops[|ops| - 1]);
      Step(before, ops[|ops| - 1])
  }

  function Init(block: nat, capacity: nat): State {
    State(false, block, capacity, [], [], [], [], [], [], [], [], multiset{}, [], [], [], [])
  }
}
