// Clocking the SIMDs keeps the engine's invariant.
module AggrSimds {
  import opened EdgePartition
  import opened AggrSpec
  import opened AggrTasks
  import opened AggrInvariant

  // ------------------------------------------------------------- counting on

  lemma OneMoreOp(macs: int, total: int, left: int, w: int)
    requires macs == (total - left) * w
    ensures macs + w == (total - (left - 1)) * w
  {
  }

  // One cycle of a computing SIMD, whether it is done with its job or not.
  lemma MacsTick(cfg: Setup, simds: seq<Simd>, started: seq<Task>, i: nat, d: Simd)
    requires MacsOk(cfg, simds, started) && i < |simds|
    requires simds[i].state == Computing && simds[i].depth > 0
    requires d.macs == simds[i].macs + cfg.width && LeftOf(d) == simds[i].depth - 1
    ensures MacsOk(cfg, simds[i := d], started)
  {
    LeftReplaced(simds, i, d);
    MacsReplaced(simds, i, d);
    OneMoreOp(Macs(simds), Depth(started), Left(simds), cfg.width);
  }

  // Everything about the buffers; the SIMDs do not enter.
  lemma SimdsSwap(cfg: Setup, s: Engine, simds: seq<Simd>, mid: bool)
    requires cfg.Valid() && Core(cfg, s, mid)
    requires SimdsOk(cfg, s.ready.vertex, s.inbuf, simds) && EventsOk(cfg, s.inbuf, simds)
    requires BagOk(simds, s.started, s.finished) && MacsOk(cfg, simds, s.started)
    ensures Core(cfg, s.(simds := simds), mid)
  {
  }

  lemma SimdsOkSet(cfg: Setup, ready: int, inbuf: seq<Spm>, simds: seq<Simd>, i: nat, d: Simd)
    requires SimdsOk(cfg, ready, inbuf, simds) && i < |simds| && SimdOk(cfg, ready, inbuf, d)
    ensures SimdsOk(cfg, ready, inbuf, simds[i := d])
  {
  }

  lemma RunningSame(simds: seq<Simd>, i: nat, d: Simd)
    requires i < |simds| && JobOf(simds[i]) == JobOf(d)
    ensures Running(simds[i := d]) == Running(simds)
  {
    RunningReplaced(simds, i, d);
    forall t
      ensures Running(simds[i := d])[t] == Running(simds)[t]
    {
      assert (Running(simds[i := d]) + JobOf(d))[t] == (Running(simds) + JobOf(d))[t];
    }
  }

  lemma RunsOn(cfg: Setup, s: Engine, i: nat)
    requires cfg.Valid() && Core(cfg, s, false) && i < |s.simds|
    requires s.simds[i].state == Computing && s.simds[i].depth > 1
    ensures StepSimd(cfg, s, i) == s.(simds := s.simds[i := s.simds[i].ClockTick()])
    ensures Core(cfg, StepSimd(cfg, s, i), false) && SameToDo(cfg, s, StepSimd(cfg, s, i))
  {
    var d := s.simds[i].ClockTick();
    assert SimdOk(cfg, s.ready.vertex, s.inbuf, s.simds[i]);
    SimdsOkSet(cfg, s.ready.vertex, s.inbuf, s.simds, i, d);
    BusyReplaced(s.simds, i, d);
    RunningSame(s.simds, i, d);
    MacsTick(cfg, s.simds, s.started, i, d);
    SimdsSwap(cfg, s, s.simds[i := d], false);
  }

  // ------------------------------------------------------------ a job is done

  lemma FinishedBag(simds: seq<Simd>, started: seq<Task>, finished: seq<Task>, i: nat, d: Simd)
    requires BagOk(simds, started, finished) && i < |simds| && simds[i].state == Computing && d.state == Free
    ensures BagOk(simds[i := d], started, finished + [simds[i].Job()])
  {
    RunningReplaced(simds, i, d);
    assert Running(simds) == Running(simds[i := d]) + multiset{simds[i].Job()};
  }

  // The released SIMD after its last cycle.
  function Released(d: Simd): Simd { d.ClockTick().Release() }

  lemma FinishesJob(cfg: Setup, s: Engine, i: nat)
    requires cfg.Valid() && Core(cfg, s, false) && i < |s.simds|
    requires s.simds[i].state == Computing && s.simds[i].depth <= 1
    ensures var simds' := s.simds[i := Released(s.simds[i])];
            && MacsOk(cfg, simds', s.started)
            && BagOk(simds', s.started, s.finished + [s.simds[i].Job()])
            && Busy(simds') == Busy(s.simds) - 1
            && SimdsOk(cfg, s.ready.vertex, s.inbuf, simds')
  {
    var d := Released(s.simds[i]);
    assert SimdOk(cfg, s.ready.vertex, s.inbuf, s.simds[i]);
    BusyReplaced(s.simds, i, d);
    FinishedBag(s.simds, s.started, s.finished, i, d);
    MacsTick(cfg, s.simds, s.started, i, d);
  }

  // --------------------------------------------- the part goes on

  // Counting an event of the draining input buffer changes nothing else.
  lemma CountDown(cfg: Setup, ebuf: seq<Spm>, inbuf: seq<Spm>, inputsOut: nat, p: nat, b: Spm)
    requires InputsOk(cfg, ebuf, inbuf, inputsOut, false) && p < 2 && inbuf[p].state == Draining
    requires b == inbuf[p].(events := b.events)
    ensures InputsOk(cfg, ebuf, inbuf[p := b], inputsOut, false)
    ensures Target(inbuf[p := b], Draining) == Target(inbuf, Draining) == p
  {
    DrainingInput(cfg, ebuf, inbuf, inputsOut, false, p);
    TargetOfTwo(inbuf[p := b], Draining);
    InputsFromPair(cfg, ebuf, inbuf, inputsOut, false, p, b);
  }

  lemma CountDownToDo(cfg: Setup, ebuf: seq<Spm>, inbuf: seq<Spm>, confirmed: nat, p: nat, b: Spm)
    requires cfg.Valid() && p < |inbuf| && b == inbuf[p].(events := b.events)
    requires Target(inbuf[p := b], Draining) == Target(inbuf, Draining) == p
    ensures ToDo(cfg, ebuf, inbuf[p := b], confirmed) == ToDo(cfg, ebuf, inbuf, confirmed)
    ensures Remaining(cfg, b) == Remaining(cfg, inbuf[p])
  {
    RemainingSame(cfg, inbuf[p], b);
    hide Remaining, PartsTasks, ChunksTasks, PartTasks, Target, RestOfChunk, Has;
    CurrentSame(cfg, ebuf, inbuf, p, b);
  }

  lemma CurrentSame(cfg: Setup, ebuf: seq<Spm>, inbuf: seq<Spm>, p: nat, b: Spm)
    requires cfg.Valid() && p < |inbuf| && Remaining(cfg, b) == Remaining(cfg, inbuf[p])
    requires Target(inbuf[p := b], Draining) == Target(inbuf, Draining) == p
    ensures forall eb :: RestOfChunk(cfg, eb, inbuf[p := b]) == RestOfChunk(cfg, eb, inbuf)
  {
    hide Remaining, PartsTasks, PartTasks, Target;
  }

  lemma RemainingSame(cfg: Setup, a: Spm, b: Spm)
    requires b == a.(events := b.events)
    ensures Remaining(cfg, b) == Remaining(cfg, a)
  {
  }

  lemma SimdsKeepInbuf(cfg: Setup, ready: int, inbuf: seq<Spm>, inbuf': seq<Spm>, simds: seq<Simd>)
    requires SimdsOk(cfg, ready, inbuf, simds)
    requires |inbuf'| == |inbuf| && forall p :: 0 <= p < |inbuf| && inbuf[p].state == Draining ==> inbuf'[p].state == Draining
    ensures SimdsOk(cfg, ready, inbuf', simds)
  {
    forall i | 0 <= i < |simds|
      ensures SimdOk(cfg, ready, inbuf', simds[i])
    {
      assert SimdOk(cfg, ready, inbuf, simds[i]);
    }
  }

  // The state after a job's write-back, before its input buffer counts it.
  function AfterJob(s: Engine, i: nat): Engine
    requires i < |s.simds|
  {
    s.(eventOut := s.eventOut + 1, finished := s.finished + [s.simds[i].Job()], simds := s.simds[i := Released(s.simds[i])])
  }

  lemma PartGoesOn(cfg: Setup, s: Engine, i: nat, p: nat, b: Spm)
    requires cfg.Valid() && Core(cfg, s, false) && i < |s.simds|
    requires s.simds[i].state == Computing && s.simds[i].depth <= 1
    requires p < 2 && s.inbuf[p].state == Draining && b == s.inbuf[p].(events := s.inbuf[p].events - 1)
    ensures Core(cfg, AfterJob(s, i).(inbuf := s.inbuf[p := b]), false)
    ensures SameToDo(cfg, s, AfterJob(s, i).(inbuf := s.inbuf[p := b]))
  {
    FinishesJob(cfg, s, i);
    CountDown(cfg, s.ebuf, s.inbuf, s.inputsOut, p, b);
    CountDownToDo(cfg, s.ebuf, s.inbuf, s.confirmed, p, b);
    SimdsKeepInbuf(cfg, s.ready.vertex, s.inbuf, s.inbuf[p := b], s.simds[i := Released(s.simds[i])]);
  }
}
