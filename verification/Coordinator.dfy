// The coordinator with its loops (hygcn/hardware/coordinator.cpp) and the two
// callbacks (hygcn/hygcn.h), proved against EventSpec.
module CoordinatorClass {
  import opened EventSpec
  import opened EventAccounting

  // What an arrival does to each queue.
  lemma ArrivalQueues(s: State, e: Event)
    ensures var id, dram := |s.counters|, e.dir == Dram;
            EventSpec.AddEvent(s, e)
            == s.(counters := s.counters + [Counters(e, 0, 0)],
                  edges := if dram && e.data == Edge then s.edges + [id] else s.edges,
                  inputs := if dram && e.data == InputFeature then s.inputs + [id] else s.inputs,
                  weights := if dram && e.data == Weight then s.weights + [id] else s.weights,
                  outputs := if dram && e.data == OutputFeature then s.outputs + [id] else s.outputs,
                  tmps := if e.dir == Edram && e.data == AggrFeature then s.tmps + [id] else s.tmps,
                  failed := s.failed || !e.Routable())
  {
  }

  class Coordinator {
    const block: nat
    const capacity: nat
    var counters: seq<Counters>
    var edges: seq<nat>
    var inputs: seq<nat>
    var weights: seq<nat>
    var outputs: seq<nat>
    var tmps: seq<nat>
    var events: seq<Entry>
    var edramEvents: seq<Entry>
    // The addresses the DRAM holds and the queue of the aggregation buffer.
    var busy: multiset<nat>
    var edramTrans: seq<nat>
    var dramReturnQueue: seq<nat>
    var edramReturnQueue: seq<nat>
    var handled: seq<nat>
    // Where the source exits.
    var failed: bool

    ghost function View(): State
      reads this
    {
      State(failed, block, capacity, counters, edges, inputs, weights, outputs, tmps, events, edramEvents, busy, edramTrans,
            dramReturnQueue, edramReturnQueue, handled)
    }

    // StepInv shows that every method below keeps this.
    ghost predicate Valid()
      reads this
    {
      Inv(View())
    }

    constructor (block: nat, capacity: nat)
      requires 0 < block
      ensures View() == Init(block, capacity) && Valid()
    {
      this.block, this.capacity := block, capacity;
      counters := [];
      edges, inputs, weights, outputs, tmps := [], [], [], [], [];
      events, edramEvents := [], [];
      busy, edramTrans := multiset{}, [];
      dramReturnQueue, edramReturnQueue, handled := [], [], [];
      failed := false;
      new;
      RunInv(block, capacity, []);
    }

    method AddEvent(event: Event)
      modifies this
      ensures View() == EventSpec.AddEvent(old(View()), event)
    {
      hide EventSpec.AddEvent;
      ArrivalQueues(View(), event);
      var id := |counters|;
      counters := counters + [Counters(event, 0, 0)];
      if event.dir == Dram {
        AddToDram(id, event.data);
      } else if event.dir == Edram && event.data == AggrFeature {
        tmps := tmps + [id];
      } else {
        failed := true;
      }
    }

    method AddToDram(id: nat, data: Data)
      modifies `edges, `inputs, `weights, `outputs, `failed
      ensures edges == if data == Edge then old(edges) + [id] else old(edges)
      ensures inputs == if data == InputFeature then old(inputs) + [id] else old(inputs)
      ensures weights == if data == Weight then old(weights) + [id] else old(weights)
      ensures outputs == if data == OutputFeature then old(outputs) + [id] else old(outputs)
      ensures failed == (old(failed) || data == AggrFeature || data == NoData)
    {
      match data {
        case Edge => edges := edges + [id];
        case Weight => weights := weights + [id];
        case InputFeature => inputs := inputs + [id];
        case OutputFeature => outputs := outputs + [id];
        case AggrFeature => failed := true;
        case NoData => failed := true;
      }
    }

    // One transaction of the event at the head of a DRAM queue.
    method SendDram(id: nat)
      requires id < |counters|
      modifies `counters, `events, `busy
      ensures View() == IssueOne(old(View()), id)
    {
      var addr := counters[id].event.address + block * counters[id].trans;
      events := events + [Entry(addr, id)];
      busy := busy + multiset{addr};
      counters := counters[id := counters[id].(trans := counters[id].trans + 1)];
    }

    // `room` is how many more transactions the DRAM accepts in this cycle.
    method SendAll(id: nat, room: nat)
      requires 0 < block && id < |counters|
      modifies `counters, `events, `busy
      ensures View() == IssueSome(old(View()), id, room)
    {
      ghost var goal := IssueSome(View(), id, room);
      var left := room;
      while counters[id].trans != counters[id].event.NumTrans(block)
        invariant id < |counters| && goal == IssueSome(View(), id, left)
        decreases left
      {
        if left == 0 {
          break;
        }
        SendDram(id);
        left := left - 1;
      }
    }

    method IssueEvent(room: nat)
      requires Valid()
      modifies this
      ensures View() == IssueDramThenEdram(old(View()), room) && Valid()
    {
      StepInv(View(), OpIssue(room));
      IssueToDram(room);
      IssueToEdram();
    }

    method IssueToDram(room: nat)
      requires Valid()
      modifies `counters, `events, `busy, `edges, `inputs, `weights, `outputs
      ensures View() == IssueDram(old(View()), room) && Valid()
    {
      IssueDramInv(View(), room);
      var c := if edges != [] then FromEdges else if inputs != [] then FromInputs
               else if weights != [] then FromWeights else if outputs != [] then FromOutputs else FromNone;
      if c == FromNone {
        return;
      }
      var queue := match c case FromEdges => edges case FromInputs => inputs case FromWeights => weights case _ => outputs;
      var id := queue[0];
      IssueSomeFrame(View(), id, room);
      SendAll(id, room);
      if counters[id].trans == counters[id].event.NumTrans(block) {
        PopQueue(c);
      }
    }

    method PopQueue(c: Choice)
      requires QueueOf(View(), c) != []
      modifies `edges, `inputs, `weights, `outputs
      ensures View() == PopFrom(old(View()), c)
    {
      match c {
        case FromEdges => edges := edges[1..];
        case FromInputs => inputs := inputs[1..];
        case FromWeights => weights := weights[1..];
        case FromOutputs => outputs := outputs[1..];
        case FromNone =>
      }
    }

    method SendEdram(id: nat)
      requires id < |counters|
      modifies `counters, `edramEvents, `edramTrans
      ensures View() == IssueOneEdram(old(View()), id)
    {
      var addr := counters[id].event.address + block * counters[id].trans;
      if addr >= capacity && capacity > 0 {
        addr := (addr + capacity) % capacity;
      }
      edramEvents := edramEvents + [Entry(addr, id)];
      edramTrans := edramTrans + [addr];
      counters := counters[id := counters[id].(trans := counters[id].trans + 1)];
    }

    method SendAllEdram(id: nat)
      requires 0 < block && id < |counters|
      modifies `counters, `edramEvents, `edramTrans
      ensures View() == IssueSomeEdram(old(View()), id)
    {
      ghost var goal := IssueSomeEdram(View(), id);
      while counters[id].trans != counters[id].event.NumTrans(block)
        invariant id < |counters| && goal == IssueSomeEdram(View(), id)
        decreases TransPerClock - |edramTrans|
      {
        if |edramTrans| >= TransPerClock {
          break;
        }
        SendEdram(id);
      }
    }

    method IssueToEdram()
      requires Valid()
      modifies `counters, `edramEvents, `edramTrans, `tmps
      ensures View() == IssueEdram(old(View())) && Valid()
    {
      ghost var goal := IssueEdram(View());
      IssueEdramInv(View());
      var going := true;
      while going && tmps != []
        invariant Valid() && goal == if going then IssueEdram(View()) else View()
        decreases going, |tmps|
      {
        going := EdramRound();
      }
    }

    // One round: the head of the queue; whether the loop goes on.
    method EdramRound() returns (going: bool)
      requires Valid() && tmps != []
      modifies `counters, `edramEvents, `edramTrans, `tmps
      ensures Valid() && (going ==> |tmps| < |old(tmps)|)
      ensures IssueEdram(old(View())) == if going then IssueEdram(View()) else View()
    {
      var id := tmps[0];
      TmpDir(View());
      IssueSomeEdramInv(View(), id);
      SendAllEdram(id);
      if counters[id].trans != counters[id].event.NumTrans(block) {
        return false;
      }
      PopTmpInv(View());
      tmps := tmps[1..];
      return |edramTrans| < TransPerClock;
    }

    // Event::ConfirmTrans; whether the event is complete now.
    method ConfirmTrans(id: nat) returns (done: bool)
      requires 0 < block && id < |counters|
      modifies `counters
      ensures View() == Confirm(old(View()), id) && |counters| == |old(counters)| && done == View().AllConfirmed(id)
      ensures counters[id].event == old(counters)[id].event
    {
      counters := counters[id := counters[id].(confirm := counters[id].confirm + 1)];
      done := counters[id].confirm == counters[id].event.NumTrans(block);
    }

    // The reply for an address, where the lookup finds the entry at pick.
    // A completed event goes back to whoever asked the memory.
    method ReturnToDram(id: nat)
      requires id < |counters|
      modifies `dramReturnQueue, `failed
      ensures dramReturnQueue == if counters[id].event.dir == Dram then old(dramReturnQueue) + [id] else old(dramReturnQueue)
      ensures failed == (old(failed) || counters[id].event.dir != Dram)
    {
      if counters[id].event.dir == Dram {
        dramReturnQueue := dramReturnQueue + [id];
      } else {
        failed := true;
      }
    }

    method MemCallback(addr: nat, pick: nat)
      requires 0 < block && EntriesKnown(View()) && pick < |events| && events[pick].addr == addr
      modifies this
      ensures View() == EventSpec.MemCallback(old(View()), addr, pick)
    {
      var id := events[pick].id;
      hide Confirm;
      var done := ConfirmTrans(id);
      if done {
        ReturnToDram(id);
      }
      events := events[..pick] + events[pick + 1..];
      busy := busy - multiset{addr};
    }

    method BufCallback(pick: nat)
      requires 0 < block && EntriesKnown(View()) && edramTrans != []
      requires pick < |edramEvents| && edramEvents[pick].addr == edramTrans[0]
      modifies this
      ensures View() == EventSpec.BufCallback(old(View()), pick)
    {
      var id := edramEvents[pick].id;
      hide Confirm;
      var done := ConfirmTrans(id);
      if done {
        if counters[id].event.dir == Edram {
          edramReturnQueue := edramReturnQueue + [id];
        } else {
          failed := true;
        }
      }
      edramEvents := edramEvents[..pick] + edramEvents[pick + 1..];
      edramTrans := edramTrans[1..];
    }
  }
}
