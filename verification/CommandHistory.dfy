// The commands a channel has issued, and what the DRAM protocol asks of them.
// Nothing here looks at the controller's own bookkeeping: the earliest times,
// the open rows and the activation spacing are all read off the history.
module CommandHistory {
  import opened Basics
  import opened DramTypes
  import opened Banks
  import opened ChannelSpec

  datatype Issued = Issued(cmd: Command, clk: nat)

  // The earliest time at which a command of this kind may go to this bank: the
  // largest, over all commands ever issued, of issue time plus gap.
  function Earliest(tables: Tables, h: seq<Issued>, id: BankId, kind: CmdKind): nat {
    if h == [] then 0
    else
      var last := h[|h| - 1];
      Max(Earliest(tables, h[..|h| - 1], id, kind), Stamp(ListFor(tables, last.cmd, id), kind, last.clk))
  }

  predicate ClosesRow(kind: CmdKind) {
    kind == Precharge || kind == ReadPrecharge || kind == WritePrecharge
  }

  // The row most recently activated in the bank and not closed since.
  function RowOf(h: seq<Issued>, id: BankId): Option<int> {
    if h == [] then None
    else
      var last := h[|h| - 1].cmd;
      if !Reaches(last, id) then RowOf(h[..|h| - 1], id)
      else if last.kind == Activate then Some(last.addr.row)
      else if ClosesRow(last.kind) then None
      else RowOf(h[..|h| - 1], id)
  }

  // The times of the activates to a rank, oldest first.
  function Activations(h: seq<Issued>, rank: int): seq<nat> {
    if h == [] then []
    else
      var last := h[|h| - 1];
      Activations(h[..|h| - 1], rank) +
      (if last.cmd.kind == Activate && last.cmd.addr.rank == rank then [last.clk] else [])
  }

  // After `size` activates the next one waits until the first is `span` old.
  predicate Spaced(acts: seq<nat>, size: nat, span: nat) {
    forall i, j :: 0 <= i && i + size <= j < |acts| ==> acts[i] + span <= acts[j]
  }

  // The command may follow the history, as far as one bank is concerned.
  predicate EntryAllowed(tables: Tables, h: seq<Issued>, e: Issued, id: BankId) {
    && Earliest(tables, h, id, e.cmd.kind) <= e.clk
    && (e.cmd.IsReadWrite() ==> RowOf(h, id) == Some(e.cmd.addr.row))
    && (e.cmd.IsRefresh() || e.cmd.kind == Activate ==> RowOf(h, id) == None)
    && (e.cmd.kind == Precharge ==> RowOf(h, id).Some?)
  }

  ghost predicate Allowed(cfg: Config, h: seq<Issued>, e: Issued) {
    && (!e.cmd.IsRankCommand() ==> cfg.ValidBank(e.cmd.Bank()))
    && (h != [] ==> h[|h| - 1].clk <= e.clk)
    && forall id :: cfg.ValidBank(id) && Reaches(e.cmd, id) ==> EntryAllowed(cfg.tables, h, e, id)
  }

  // Every command was allowed when it was issued.
  ghost predicate Protocol(cfg: Config, h: seq<Issued>) {
    h != [] ==> Protocol(cfg, h[..|h| - 1]) && Allowed(cfg, h[..|h| - 1], h[|h| - 1])
  }

  ghost predicate WindowsHold(cfg: Config, h: seq<Issued>) {
    forall rank :: 0 <= rank < cfg.ranks ==>
      && Spaced(Activations(h, rank), FourWindow, cfg.tFAW)
      && (cfg.gddr ==> Spaced(Activations(h, rank), ThirtyTwoWindow, cfg.t32AW))
  }

  // ------------------------------------------------------------- consequences

  lemma {:induction false} ProtocolAt(cfg: Config, h: seq<Issued>, n: nat)
    requires Protocol(cfg, h) && n < |h|
    ensures Allowed(cfg, h[..n], h[n])
  {
    if n < |h| - 1 {
      ProtocolAt(cfg, h[..|h| - 1], n);
      assert h[..|h| - 1][..n] == h[..n];
    }
  }

  lemma {:induction false} StampBound(list: seq<Entry>, n: nat, clk: nat)
    requires n < |list|
    ensures AddCycles(clk, list[n].1) <= Stamp(list, list[n].0, clk)
  {
    if n < |list| - 1 {
      StampBound(list[..|list| - 1], n, clk);
    }
  }

  lemma {:induction false} EarliestBound(tables: Tables, h: seq<Issued>, id: BankId, kind: CmdKind, i: nat)
    requires i < |h|
    ensures Stamp(ListFor(tables, h[i].cmd, id), kind, h[i].clk) <= Earliest(tables, h, id, kind)
  {
    if i < |h| - 1 {
      EarliestBound(tables, h[..|h| - 1], id, kind, i);
    }
  }

  // Any two commands of a history that follows the protocol are at least as far
  // apart as every gap that the table for their two banks lists.
  lemma GapsRespected(cfg: Config, h: seq<Issued>, i: nat, j: nat, id: BankId, n: nat)
    requires Protocol(cfg, h) && i < j < |h|
    requires cfg.ValidBank(id) && Reaches(h[j].cmd, id)
    requires n < |ListFor(cfg.tables, h[i].cmd, id)|
    requires ListFor(cfg.tables, h[i].cmd, id)[n].0 == h[j].cmd.kind
    ensures h[i].clk + ListFor(cfg.tables, h[i].cmd, id)[n].1 <= h[j].clk
  {
    ProtocolAt(cfg, h, j);
    assert h[..j][i] == h[i];
    EarliestBound(cfg.tables, h[..j], id, h[j].cmd.kind, i);
    StampBound(ListFor(cfg.tables, h[i].cmd, id), n, h[i].clk);
  }

  // A column command goes to the row of the last activate of its bank, and no
  // command since then has closed it.
  lemma {:induction false} RowWasActivated(h: seq<Issued>, id: BankId) returns (a: nat)
    requires RowOf(h, id).Some?
    ensures a < |h| && Reaches(h[a].cmd, id) && h[a].cmd.kind == Activate
    ensures RowOf(h, id) == Some(h[a].cmd.addr.row)
    ensures forall i :: a < i < |h| && Reaches(h[i].cmd, id) ==>
              h[i].cmd.kind != Activate && !ClosesRow(h[i].cmd.kind)
  {
    var last := h[|h| - 1].cmd;
    if Reaches(last, id) && last.kind == Activate {
      a := |h| - 1;
    } else {
      a := RowWasActivated(h[..|h| - 1], id);
    }
  }

  lemma ColumnHitsOpenRow(cfg: Config, h: seq<Issued>, j: nat) returns (a: nat)
    requires Protocol(cfg, h) && j < |h| && h[j].cmd.IsReadWrite()
    ensures a < j && h[a].cmd.kind == Activate && h[a].cmd.Bank() == h[j].cmd.Bank()
    ensures h[a].cmd.addr.row == h[j].cmd.addr.row
    ensures forall i :: a < i < j && Reaches(h[i].cmd, h[j].cmd.Bank()) ==>
              h[i].cmd.kind != Activate && !ClosesRow(h[i].cmd.kind)
  {
    ProtocolAt(cfg, h, j);
    a := RowWasActivated(h[..j], h[j].cmd.Bank());
  }

  // ------------------------------------- the channel's bookkeeping agrees

  ghost predicate TimesAgree(cfg: Config, h: seq<Issued>, ch: Channel) {
    forall id, kind {:trigger ch.banks[id].times[kind]} :: id in ch.banks ==>
      ch.banks[id].times[kind] == Earliest(cfg.tables, h, id, kind)
  }

  predicate RowAgrees(h: seq<Issued>, id: BankId, b: BankState) {
    && b.status != SelfRefresh
    && RowOf(h, id) == if b.status == Open then Some(b.openRow) else None
  }

  ghost predicate RowsAgree(h: seq<Issued>, ch: Channel) {
    forall id :: id in ch.banks ==> RowAgrees(h, id, ch.banks[id])
  }

  // The window holds the deadlines of the latest activates; those it has let go
  // of had passed when a later activate went out.
  predicate WindowAgrees(acts: seq<nat>, window: seq<nat>, size: nat, span: nat) {
    && |window| <= size && |window| <= |acts|
    && (forall i :: 0 <= i < |window| ==> window[i] == acts[|acts| - |window| + i] + span)
    && (forall i :: 0 <= i < |acts| - |window| ==> acts[i] + span <= acts[|acts| - 1])
    && (forall i, j :: 0 <= i < j < |acts| ==> acts[i] <= acts[j])
    && Spaced(acts, size, span)
  }

  ghost predicate WindowsAgree(cfg: Config, h: seq<Issued>, ch: Channel) {
    forall rank :: 0 <= rank < cfg.ranks ==>
      && WindowAgrees(Activations(h, rank), WindowOf(ch.fourAw, rank), FourWindow, cfg.tFAW)
      && (cfg.gddr ==> WindowAgrees(Activations(h, rank), WindowOf(ch.thirtyTwoAw, rank), ThirtyTwoWindow, cfg.t32AW))
  }

  ghost predicate Agrees(cfg: Config, h: seq<Issued>, ch: Channel) {
    && Shaped(cfg, ch)
    && TimesAgree(cfg, h, ch)
    && RowsAgree(h, ch)
    && WindowsAgree(cfg, h, ch)
    && Protocol(cfg, h)
  }

  lemma BankKeepsTimes(tables: Tables, h: seq<Issued>, b: BankState, cmd: Command, clk: nat, id: BankId, kind: CmdKind)
    requires b.times[kind] == Earliest(tables, h, id, kind)
    requires Reaches(cmd, id) ==> b.UpdateState(cmd).Some?
    ensures ApplyToBank(tables, b, cmd, clk, id).times[kind] == Earliest(tables, h + [Issued(cmd, clk)], id, kind)
  {
    var h' := h + [Issued(cmd, clk)];
    assert h'[..|h'| - 1] == h;
    var moved := if Reaches(cmd, id) then b.UpdateState(cmd).value else b;
    assert moved.times == b.times;
  }

  lemma ApplyKeepsTimes(cfg: Config, h: seq<Issued>, ch: Channel, cmd: Command, clk: nat)
    requires TimesAgree(cfg, h, ch) && StateAccepts(ch, cmd)
    ensures TimesAgree(cfg, h + [Issued(cmd, clk)], Apply(cfg, ch, cmd, clk))
  {
    ApplyKeys(cfg, ch, cmd, clk);
    var banks' := Apply(cfg, ch, cmd, clk).banks;
    forall id, kind | id in banks'
      ensures banks'[id].times[kind] == Earliest(cfg.tables, h + [Issued(cmd, clk)], id, kind)
    {
      ApplyAt(cfg, ch, cmd, clk, id);
      BankKeepsTimes(cfg.tables, h, ch.banks[id], cmd, clk, id, kind);
    }
  }

  lemma BankKeepsRow(tables: Tables, h: seq<Issued>, b: BankState, cmd: Command, clk: nat, id: BankId)
    requires RowAgrees(h, id, b)
    requires Reaches(cmd, id) ==> b.UpdateState(cmd).Some? && cmd.kind != SrefEnter
    ensures RowAgrees(h + [Issued(cmd, clk)], id, ApplyToBank(tables, b, cmd, clk, id))
  {
    var h' := h + [Issued(cmd, clk)];
    assert h'[..|h'| - 1] == h;
  }

  lemma ApplyKeepsRows(cfg: Config, h: seq<Issued>, ch: Channel, cmd: Command, clk: nat)
    requires RowsAgree(h, ch) && StateAccepts(ch, cmd) && cmd.kind != SrefEnter
    ensures RowsAgree(h + [Issued(cmd, clk)], Apply(cfg, ch, cmd, clk))
  {
    ApplyKeys(cfg, ch, cmd, clk);
    var banks' := Apply(cfg, ch, cmd, clk).banks;
    forall id | id in banks'
      ensures RowAgrees(h + [Issued(cmd, clk)], id, banks'[id])
    {
      ApplyAt(cfg, ch, cmd, clk, id);
      BankKeepsRow(cfg.tables, h, ch.banks[id], cmd, clk, id);
    }
  }

  // Dropping at most one passed deadline per activate is enough: what has left
  // the window had passed, so the activate after a full window keeps its distance.
  lemma PushPasses(acts: seq<nat>, window: seq<nat>, size: nat, span: nat, clk: nat)
    requires WindowAgrees(acts, window, size, span) && 0 < size
    requires WindowReady(window, size, clk)
    requires acts != [] ==> acts[|acts| - 1] <= clk
    ensures var window' := PushWindow(window, span, clk);
            && |window'| <= size && |window'| <= |acts| + 1
            && forall i :: 0 <= i < |acts| + 1 - |window'| ==> acts[i] + span <= clk
  {
    var window' := PushWindow(window, span, clk);
    forall i | 0 <= i < |acts| + 1 - |window'|
      ensures acts[i] + span <= clk
    {
      if i == |acts| - |window| {
        assert window[0] == acts[i] + span;
      }
    }
  }

  lemma PushSpaced(acts: seq<nat>, size: nat, span: nat, clk: nat)
    requires Spaced(acts, size, span) && 0 < size
    requires forall i :: 0 <= i && i + size <= |acts| ==> acts[i] + span <= clk
    ensures Spaced(acts + [clk], size, span)
  {
  }

  lemma PushHolds(acts: seq<nat>, window: seq<nat>, size: nat, span: nat, clk: nat)
    requires WindowAgrees(acts, window, size, span) && 0 < size
    ensures var acts', window' := acts + [clk], PushWindow(window, span, clk);
            |window'| <= |window| + 1 && forall i :: 0 <= i < |window'| ==> window'[i] == acts'[|acts'| - |window'| + i] + span
  {
    var acts', window' := acts + [clk], PushWindow(window, span, clk);
    forall i | 0 <= i < |window'|
      ensures window'[i] == acts'[|acts'| - |window'| + i] + span
    {
      if i < |window'| - 1 {
        assert window'[i] == window[|window| - |window'| + 1 + i];
      }
    }
  }

  lemma PushAgrees(acts: seq<nat>, window: seq<nat>, size: nat, span: nat, clk: nat)
    requires WindowAgrees(acts, window, size, span) && 0 < size
    requires WindowReady(window, size, clk)
    requires acts != [] ==> acts[|acts| - 1] <= clk
    ensures WindowAgrees(acts + [clk], PushWindow(window, span, clk), size, span)
  {
    PushHolds(acts, window, size, span, clk);
    PushPasses(acts, window, size, span, clk);
    PushSpaced(acts, size, span, clk);
  }

  lemma {:induction false} LastActivation(cfg: Config, h: seq<Issued>, rank: int)
    requires Protocol(cfg, h)
    ensures var acts := Activations(h, rank);
            acts != [] ==> h != [] && acts[|acts| - 1] <= h[|h| - 1].clk
  {
    if h != [] {
      LastActivation(cfg, h[..|h| - 1], rank);
    }
  }

  lemma RankKeepsWindow(cfg: Config, h: seq<Issued>, windows: map<int, seq<nat>>, size: nat, span: nat,
                        cmd: Command, clk: nat, rank: int)
    requires WindowAgrees(Activations(h, rank), WindowOf(windows, rank), size, span) && 0 < size
    requires Protocol(cfg, h)
    requires h != [] ==> h[|h| - 1].clk <= clk
    requires cmd.kind == Activate ==> WindowReady(WindowOf(windows, cmd.addr.rank), size, clk)
    ensures WindowAgrees(Activations(h + [Issued(cmd, clk)], rank),
                         WindowOf(if cmd.kind == Activate then PushRank(windows, cmd.addr.rank, span, clk) else windows, rank),
                         size, span)
  {
    assert (h + [Issued(cmd, clk)])[..|h|] == h;
    if cmd.kind == Activate && cmd.addr.rank == rank {
      LastActivation(cfg, h, rank);
      PushAgrees(Activations(h, rank), WindowOf(windows, rank), size, span, clk);
    } else {
      assert Activations(h + [Issued(cmd, clk)], rank) == Activations(h, rank);
    }
  }

  lemma ApplyKeepsWindows(cfg: Config, h: seq<Issued>, ch: Channel, cmd: Command, clk: nat)
    requires WindowsAgree(cfg, h, ch) && Protocol(cfg, h)
    requires StateAccepts(ch, cmd)
    requires h != [] ==> h[|h| - 1].clk <= clk
    requires cmd.kind == Activate ==> ActivationWindowOk(cfg, ch, cmd.addr.rank, clk)
    ensures WindowsAgree(cfg, h + [Issued(cmd, clk)], Apply(cfg, ch, cmd, clk))
  {
    var h' := h + [Issued(cmd, clk)];
    forall rank | 0 <= rank < cfg.ranks
      ensures WindowAgrees(Activations(h', rank), WindowOf(Apply(cfg, ch, cmd, clk).fourAw, rank), FourWindow, cfg.tFAW)
      ensures cfg.gddr ==>
                WindowAgrees(Activations(h', rank), WindowOf(Apply(cfg, ch, cmd, clk).thirtyTwoAw, rank), ThirtyTwoWindow, cfg.t32AW)
    {
      RankKeepsWindow(cfg, h, ch.fourAw, FourWindow, cfg.tFAW, cmd, clk, rank);
      if cfg.gddr {
        RankKeepsWindow(cfg, h, ch.thirtyTwoAw, ThirtyTwoWindow, cfg.t32AW, cmd, clk, rank);
      }
    }
  }

  lemma LegalIsAllowed(cfg: Config, h: seq<Issued>, ch: Channel, cmd: Command, clk: nat)
    requires Shaped(cfg, ch) && TimesAgree(cfg, h, ch) && RowsAgree(h, ch)
    requires Legal(ch, cmd, clk)
    requires h != [] ==> h[|h| - 1].clk <= clk
    ensures Allowed(cfg, h, Issued(cmd, clk))
  {
    forall id | cfg.ValidBank(id) && Reaches(cmd, id)
      ensures EntryAllowed(cfg.tables, h, Issued(cmd, clk), id)
    {
      assert id in ch.banks;
      assert Fits(ch.banks[id], cmd, clk);
      assert RowAgrees(h, id, ch.banks[id]);
      assert ch.banks[id].times[cmd.kind] == Earliest(cfg.tables, h, id, cmd.kind);
    }
  }

  // Issuing any legal command keeps the channel's arrays, rows and windows in
  // agreement with the history, and the history within the protocol.
  lemma ApplyAgrees(cfg: Config, h: seq<Issued>, ch: Channel, cmd: Command, clk: nat)
    requires Agrees(cfg, h, ch) && Legal(ch, cmd, clk) && cmd.kind != SrefEnter
    requires h != [] ==> h[|h| - 1].clk <= clk
    requires cmd.kind == Activate ==> ActivationWindowOk(cfg, ch, cmd.addr.rank, clk)
    requires cmd.IsRankCommand() ==> 0 <= cmd.addr.rank < cfg.ranks
    ensures StateAccepts(ch, cmd)
    ensures Agrees(cfg, h + [Issued(cmd, clk)], Apply(cfg, ch, cmd, clk))
  {
    var h' := h + [Issued(cmd, clk)];
    assert h'[..|h|] == h;
    LegalIsAllowed(cfg, h, ch, cmd, clk);
    ApplyKeepsTimes(cfg, h, ch, cmd, clk);
    ApplyKeepsRows(cfg, h, ch, cmd, clk);
    ApplyKeepsWindows(cfg, h, ch, cmd, clk);
    assert Protocol(cfg, h');
  }
}
