// What the gaps of timing.cc are for, in the parameters of the standard alone: the
// data bursts of the column commands share one bus without meeting, reads wait for
// written data, and a bank is precharged and activated only when its data is done.
module DataBus {
  import opened Basics
  import opened DramTypes
  import opened Banks
  import opened ChannelSpec
  import opened CommandHistory
  import opened TimingTables
  import opened TimingFacts
  import opened ControllerSpec
  import opened ControllerRuns
  import opened ControllerTheorems
  import opened ControllerSafety
  import opened QueueSpec
  import opened QueueSafety
  import opened BankRefreshGap

  // ------------------------------------------------------------------ the bursts

  // A column command's data is on the bus from its latency on, for burst cycles.
  function DataStart(p: Params, e: Issued): int { e.clk + p.AL + if e.cmd.IsRead() then p.CL else p.CWL }

  function DataEnd(p: Params, e: Issued): int { DataStart(p, e) + p.burst }

  // The bus turns around from a read to a write, and between ranks unless both write.
  function Turnaround(p: Params, a: Command, b: Command): int {
    if (a.IsRead() && b.IsWrite()) || (a.addr.rank != b.addr.rank && (a.IsRead() || b.IsRead())) then p.tRTRS else 0
  }

  // The wait of a read behind written data of its rank.
  function WriteToRead(p: Params, a: Command, b: Command): int {
    if a.addr.bankgroup == b.addr.bankgroup && p.bankgroups != 1 then p.tWTRL else p.tWTRS
  }

  predicate Follows(p: Params, a: Issued, b: Issued) {
    && DataEnd(p, a) + Turnaround(p, a.cmd, b.cmd) <= DataStart(p, b)
    && (a.cmd.IsWrite() && b.cmd.IsRead() && a.cmd.addr.rank == b.cmd.addr.rank ==>
          DataEnd(p, a) + WriteToRead(p, a.cmd, b.cmd) <= b.clk)
  }

  // Every later burst keeps clear of every earlier one.
  predicate BusFree(p: Params, h: seq<Issued>) {
    forall i, j :: 0 <= i < j < |h| && h[i].cmd.IsReadWrite() && h[j].cmd.IsReadWrite() ==> Follows(p, h[i], h[j])
  }

  predicate Closes(c: Command) { c.kind == ReadPrecharge || c.kind == WritePrecharge }

  lemma IsRaw(p: Params, a: Issued, b: Issued, gap: int)
    requires a.cmd.IsReadWrite() && b.cmd.IsReadWrite() && !(Closes(a.cmd) && a.cmd.Bank() == b.cmd.Bank())
    requires Spacing(p, a.cmd, b.cmd.kind, b.cmd.Bank()) == Some(gap) && a.clk + gap <= b.clk
    ensures Follows(p, a, b)
  {
  }

  lemma HasGapTo(p: Params, a: Command, b: Command)
    requires a.IsReadWrite() && b.IsReadWrite() && !(Closes(a) && a.Bank() == b.Bank())
    ensures Spacing(p, a, b.kind, b.Bank()).Some?
  {
    hide ColumnSpacing;
  }

  // Unless the first command closes the bank of the second, this is what the listed
  // gaps make of it.
  lemma ListedPair(p: Params, cfg: Config, h: seq<Issued>, i: nat, j: nat)
    requires cfg.tables == TablesOf(p) && Protocol(cfg, h) && i < j < |h|
    requires h[i].cmd.IsReadWrite() && h[j].cmd.IsReadWrite()
    requires !(Closes(h[i].cmd) && h[i].cmd.Bank() == h[j].cmd.Bank())
    ensures Follows(p, h[i], h[j])
  {
    hide Follows, Spacing, TablesOf, Protocol;
    ValidIssued(cfg, h, j);
    NamedGaps(p, cfg, h, i, j, h[j].cmd.Bank());
    HasGapTo(p, h[i].cmd, h[j].cmd);
    IsRaw(p, h[i], h[j], Spacing(p, h[i].cmd, h[j].cmd.kind, h[j].cmd.Bank()).value);
  }

  lemma ValidIssued(cfg: Config, h: seq<Issued>, j: nat)
    requires Protocol(cfg, h) && j < |h| && !h[j].cmd.IsRankCommand()
    ensures cfg.ValidBank(h[j].cmd.Bank()) && Reaches(h[j].cmd, h[j].cmd.Bank())
  {
    ProtocolAt(cfg, h, j);
  }

  // ------------------------------------------------- after a command that closes

  // From an activate to a column command of its bank.
  function ActivateWait(p: Params, read: bool): int {
    if p.gddr || p.hbm then (if read then p.tRCDRD else p.tRCDWR) else p.tRCD - p.AL
  }

  // A bank that closed itself has been activated again before its next column command.
  lemma ActivatedBetween(cfg: Config, h: seq<Issued>, i: nat, j: nat) returns (a: nat)
    requires Protocol(cfg, h) && i < j < |h| && Closes(h[i].cmd) && h[j].cmd.IsReadWrite() && h[i].cmd.Bank() == h[j].cmd.Bank()
    ensures i < a < j && h[a].cmd.kind == Activate && h[a].cmd.Bank() == h[j].cmd.Bank()
  {
    a := ColumnHitsOpenRow(cfg, h, j);
    hide Protocol;
  }

  lemma InOrder(cfg: Config, h: seq<Issued>, i: nat, j: nat)
    requires Protocol(cfg, h) && i <= j < |h|
    ensures h[i].clk <= h[j].clk
    decreases j
  {
    if i < j {
      InOrder(cfg, h, i, j - 1);
      ProtocolAt(cfg, h, j);
      assert h[..j][j - 1] == h[j - 1];
    }
  }

  lemma ReopenWaits(p: Params, cfg: Config, h: seq<Issued>, i: nat, j: nat)
    requires cfg.tables == TablesOf(p) && Protocol(cfg, h) && i < j < |h| && Closes(h[i].cmd) && h[j].cmd.IsReadWrite()
    requires h[i].cmd.Bank() == h[j].cmd.Bank()
    ensures h[i].clk + ToPrecharge(p, h[i].cmd.IsRead()) + (if h[i].cmd.IsRead() then p.burst else 0) + p.tRP
            + Max(0, ActivateWait(p, h[j].cmd.IsRead())) <= h[j].clk
  {
    hide Protocol, TablesOf, ToPrecharge;
    var a := ActivatedBetween(cfg, h, i, j);
    ValidIssued(cfg, h, a);
    ValidIssued(cfg, h, j);
    NamedGaps(p, cfg, h, i, a, h[a].cmd.Bank());
    NamedGaps(p, cfg, h, a, j, h[j].cmd.Bank());
    InOrder(cfg, h, a, j);
  }

  // What the tables leave to the parameters: that a bank reopens slowly enough for the
  // bus to turn around, and for written data to settle before a read.
  predicate ReopensInTime(p: Params) {
    && p.CL + p.tRTRS <= p.AL + p.CWL + p.tRTP + p.tRP + Max(0, ActivateWait(p, false))
    && (if p.bankgroups == 1 then p.tWTRS else p.tWTRL) <= p.tWR + p.tRP + Max(0, ActivateWait(p, true))
  }

  lemma ReopenedPair(p: Params, cfg: Config, h: seq<Issued>, i: nat, j: nat)
    requires cfg.tables == TablesOf(p) && Protocol(cfg, h) && i < j < |h| && Closes(h[i].cmd) && h[j].cmd.IsReadWrite()
    requires h[i].cmd.Bank() == h[j].cmd.Bank() && ReopensInTime(p)
    ensures Follows(p, h[i], h[j])
  {
    ReopenWaits(p, cfg, h, i, j);
    hide Protocol, TablesOf;
  }

  lemma BusKept(p: Params, cfg: Config, h: seq<Issued>)
    requires cfg.tables == TablesOf(p) && Protocol(cfg, h) && ReopensInTime(p)
    ensures BusFree(p, h)
  {
    hide Protocol, TablesOf, Follows, ReopensInTime;
    forall i, j | 0 <= i < j < |h| && h[i].cmd.IsReadWrite() && h[j].cmd.IsReadWrite()
      ensures Follows(p, h[i], h[j])
    {
      if Closes(h[i].cmd) && h[i].cmd.Bank() == h[j].cmd.Bank() {
        ReopenedPair(p, cfg, h, i, j);
      } else {
        ListedPair(p, cfg, h, i, j);
      }
    }
  }

  // ------------------------------------------------- and otherwise it fails

  lemma EarliestMore(p: Params, cfg: Config, h: seq<Issued>, e: Issued, id: BankId, kind: CmdKind)
    requires cfg.tables == TablesOf(p)
    ensures Earliest(cfg.tables, [], id, kind) == 0
    ensures Earliest(cfg.tables, h + [e], id, kind)
         == Max(Earliest(cfg.tables, h, id, kind), After(Spacing(p, e.cmd, kind, id), e.clk))
  {
    assert (h + [e])[..|h|] == h;
    StampIsSpacing(p, e.cmd, kind, id, e.clk);
    hide TablesOf, Spacing, After, Stamp, ListFor;
  }

  lemma RowMore(h: seq<Issued>, e: Issued)
    requires !e.cmd.IsRankCommand()
    ensures RowOf([], e.cmd.Bank()) == None
    ensures e.cmd.kind == Activate ==> RowOf(h + [e], e.cmd.Bank()) == Some(e.cmd.addr.row)
    ensures Closes(e.cmd) ==> RowOf(h + [e], e.cmd.Bank()) == None
  {
    assert (h + [e])[..|h|] == h;
  }

  lemma ProtocolMore(cfg: Config, h: seq<Issued>, e: Issued)
    requires Protocol(cfg, h) && cfg.ValidBank(e.cmd.Bank()) && (e.cmd.kind == Activate || Closes(e.cmd))
    requires h != [] ==> h[|h| - 1].clk <= e.clk
    requires Earliest(cfg.tables, h, e.cmd.Bank(), e.cmd.kind) <= e.clk
    requires RowOf(h, e.cmd.Bank()) == if e.cmd.kind == Activate then None else Some(e.cmd.addr.row)
    ensures Protocol(cfg, h + [e])
  {
    assert (h + [e])[..|h|] == h;
    hide Earliest, RowOf;
  }

  const Cell: Address := Address(0, 0, 0, 0, 0, 0)

  // Activate, a column command that closes the bank, activate again, and the next
  // column command, each as early as the tables allow.
  function Reopening(p: Params, write: bool): (h: seq<Issued>)
    ensures |h| == 4
  {
    var first := if write then WritePrecharge else ReadPrecharge;
    var t1 := Early(p);
    var t2 := t1 + ToPrecharge(p, !write) + (if write then 0 else p.burst) + p.tRP;
    [Issued(Command(Activate, Cell, 0), p.AL), Issued(Command(first, Cell, 0), t1), Issued(Command(Activate, Cell, 0), t2),
     Issued(Command(if write then ReadPrecharge else WritePrecharge, Cell, 0), t2 + Max(0, ActivateWait(p, write)))]
  }

  function Early(p: Params): nat { p.AL + p.tRAS + p.tRP + p.tRCD + p.tRCDRD + p.tRCDWR }

  function Opening(): Command { Command(Activate, Cell, 0) }

  function Closing(write: bool): Command { Command(if write then WritePrecharge else ReadPrecharge, Cell, 0) }

  function ClosingWait(p: Params, write: bool): int { ToPrecharge(p, !write) + (if write then 0 else p.burst) + p.tRP }

  // The gaps among these commands.
  lemma ReopeningGaps(p: Params, write: bool, kind: CmdKind)
    requires IsColumn(kind)
    ensures var id := BankId(0, 0, 0);
            && Opening().Bank() == Closing(write).Bank() == id
            && Spacing(p, Opening(), kind, id) == Some(ActivateWait(p, kind == ReadPrecharge || kind == Read))
            && Spacing(p, Opening(), Activate, id) == Some(p.tRAS + p.tRP)
            && Spacing(p, Closing(write), Activate, id) == Some(ClosingWait(p, write))
            && Spacing(p, Closing(write), kind, id) == None
  {
  }

  lemma ReopeningIs(p: Params, write: bool)
    ensures var h := Reopening(p, write);
            && h[0] == Issued(Opening(), p.AL) && h[1] == Issued(Closing(write), Early(p))
            && h[2] == Issued(Opening(), Early(p) + ClosingWait(p, write))
            && 0 <= ClosingWait(p, write) && p.AL + p.tRAS + p.tRP <= Early(p)
            && p.AL + ActivateWait(p, true) <= Early(p) && p.AL + ActivateWait(p, false) <= Early(p)
            && 0 <= p.AL + ActivateWait(p, true) && 0 <= p.AL + ActivateWait(p, false)
            && 0 <= ClosingWait(p, !write)
  {
  }

  lemma AfterIs(gap: int, clk: nat)
    ensures 0 <= clk + gap ==> After(Some(gap), clk) == clk + gap
    ensures After(None, clk) == 0
  {
  }

  // The first three are allowed, and this is what they ask of a column command.
  lemma ReopenedAllowed(p: Params, cfg: Config, write: bool, kind: CmdKind)
    requires cfg.tables == TablesOf(p) && cfg.ValidBank(BankId(0, 0, 0)) && IsColumn(kind)
    ensures var h := Reopening(p, write);
            && Protocol(cfg, [h[0], h[1], h[2]])
            && RowOf([h[0], h[1], h[2]], BankId(0, 0, 0)) == Some(0)
            && Earliest(cfg.tables, [h[0], h[1], h[2]], BankId(0, 0, 0), kind)
               == Max(p.AL + ActivateWait(p, kind == ReadPrecharge || kind == Read),
                      h[2].clk + ActivateWait(p, kind == ReadPrecharge || kind == Read))
  {
    hide TablesOf, Protocol, Earliest, RowOf, Spacing, After, ActivateWait, ToPrecharge, ClosingWait, Reopening, Early;
    ReopeningIs(p, write);
    ReopeningGaps(p, write, kind);
    ReopeningGaps(p, write, Closing(write).kind);
    ClosesBank(p, cfg, write);
    var h, id := Reopening(p, write), BankId(0, 0, 0);
    var h1, h2 := [h[0]], [h[0], h[1]];
    assert [] + [h[0]] == h1 && h1 + [h[1]] == h2 && h2 + [h[2]] == [h[0], h[1], h[2]];
    RowMore(h2, h[2]);
    EarliestMore(p, cfg, [], h[0], id, Activate);
    EarliestMore(p, cfg, h1, h[1], id, Activate);
    AfterIs(p.tRAS + p.tRP, p.AL);
    AfterIs(ClosingWait(p, write), Early(p));
    ProtocolMore(cfg, h2, h[2]);
    var wait := ActivateWait(p, kind == ReadPrecharge || kind == Read);
    EarliestMore(p, cfg, [], h[0], id, kind);
    EarliestMore(p, cfg, h1, h[1], id, kind);
    EarliestMore(p, cfg, h2, h[2], id, kind);
    AfterIs(wait, p.AL);
    AfterIs(wait, h[2].clk);
    AfterIs(0, Early(p));
  }

  lemma ClosesBank(p: Params, cfg: Config, write: bool)
    requires cfg.tables == TablesOf(p) && cfg.ValidBank(BankId(0, 0, 0))
    ensures var h := Reopening(p, write);
            Protocol(cfg, [h[0], h[1]]) && RowOf([h[0], h[1]], BankId(0, 0, 0)) == None
  {
    hide TablesOf, Protocol, Earliest, RowOf, Spacing, After, ActivateWait, ToPrecharge, ClosingWait, Reopening, Early;
    ReopeningIs(p, write);
    ReopeningGaps(p, write, Closing(write).kind);
    var h, id := Reopening(p, write), BankId(0, 0, 0);
    assert [] + [h[0]] == [h[0]] && [h[0]] + [h[1]] == [h[0], h[1]];
    Nothing(cfg);
    RowMore([], h[0]);
    EarliestMore(p, cfg, [], h[0], id, Activate);
    ProtocolMore(cfg, [], h[0]);
    RowMore([h[0]], h[1]);
    EarliestMore(p, cfg, [], h[0], id, h[1].cmd.kind);
    AfterIs(ActivateWait(p, !write), p.AL);
    ProtocolMore(cfg, [h[0]], h[1]);
  }

  lemma ReopeningAllowed(p: Params, cfg: Config, write: bool)
    requires cfg.tables == TablesOf(p) && cfg.ValidBank(BankId(0, 0, 0))
    ensures Protocol(cfg, Reopening(p, write))
  {
    hide TablesOf, Protocol, Earliest, RowOf, ActivateWait, ToPrecharge, Early;
    ReopeningIs(p, write);
    var h := Reopening(p, write);
    assert [h[0], h[1], h[2]] + [h[3]] == h;
    ReopenedAllowed(p, cfg, write, h[3].cmd.kind);
    ProtocolMore(cfg, [h[0], h[1], h[2]], h[3]);
  }

  lemma Nothing(cfg: Config)
    ensures Protocol(cfg, [])
  {
  }

  lemma ReopeningMeets(p: Params, write: bool)
    ensures var h := Reopening(p, write);
            Follows(p, h[1], h[3]) <==>
              if write then (if p.bankgroups == 1 then p.tWTRS else p.tWTRL) <= p.tWR + p.tRP + Max(0, ActivateWait(p, true))
              else p.CL + p.tRTRS <= p.AL + p.CWL + p.tRTP + p.tRP + Max(0, ActivateWait(p, false))
  {
    hide ActivateWait;
  }

  // On every history that follows the protocol the bursts keep clear of each other and
  // reads wait for written data, if and only if a bank that closed itself reopens
  // slowly enough: for that one pair the tables list no gap between column commands.
  lemma BusFreeIff(p: Params, cfg: Config)
    requires cfg.tables == TablesOf(p) && cfg.ValidBank(BankId(0, 0, 0))
    ensures (forall h :: Protocol(cfg, h) ==> BusFree(p, h)) <==> ReopensInTime(p)
  {
    hide TablesOf, Protocol, Follows, ActivateWait;
    if ReopensInTime(p) {
      forall h | Protocol(cfg, h)
        ensures BusFree(p, h)
      {
        BusKept(p, cfg, h);
      }
    } else {
      var write := p.CL + p.tRTRS <= p.AL + p.CWL + p.tRTP + p.tRP + Max(0, ActivateWait(p, false));
      var h := Reopening(p, write);
      ReopeningAllowed(p, cfg, write);
      ReopeningMeets(p, write);
      assert h[1].cmd.IsReadWrite() && h[3].cmd.IsReadWrite();
      assert !BusFree(p, h);
    }
  }

  // Without self-closing commands it holds whatever the parameters.
  lemma BusFreeOpenPage(p: Params, cfg: Config, h: seq<Issued>)
    requires cfg.tables == TablesOf(p) && Protocol(cfg, h) && forall i :: 0 <= i < |h| ==> !Closes(h[i].cmd)
    ensures BusFree(p, h)
  {
    hide Protocol, TablesOf, Follows;
    forall i, j | 0 <= i < j < |h| && h[i].cmd.IsReadWrite() && h[j].cmd.IsReadWrite()
      ensures Follows(p, h[i], h[j])
    {
      ListedPair(p, cfg, h, i, j);
    }
  }

  // A closed-page configuration in which they meet: latency 30 against a bank that
  // reopens in 7 cycles.
  const Slow: Params :=
    Params(bankgroups := 1, gddr := false, hbm := false, lpddr4 := false, burst := 4, AL := 0, CL := 30, CWL := 2,
           tCCDL := 4, tCCDS := 4, tRTRS := 1, tRTP := 3, tWTRL := 4, tWTRS := 4, tWR := 6, tRP := 4, tRRDL := 4, tRRDS := 4,
           tRAS := 12, tRCD := 4, tRCDRD := 4, tRCDWR := 4, tRFC := 50, tRFCb := 20, tREFI := 400, tPPD := 0, tCKESR := 4, tXS := 60)

  lemma SlowMeets(cfg: Config)
    requires cfg.tables == TablesOf(Slow) && cfg.ValidBank(BankId(0, 0, 0))
    ensures Protocol(cfg, Reopening(Slow, false)) && !BusFree(Slow, Reopening(Slow, false))
  {
    hide TablesOf, Protocol;
    ReopeningAllowed(Slow, cfg, false);
    ReopeningMeets(Slow, false);
    var h := Reopening(Slow, false);
    assert !Follows(Slow, h[1], h[3]);
  }

  // ------------------------------------------------------------------ the banks

  // A precharge waits for the row to have been open long enough, for a read's tRTP and
  // for tWR behind the last written data.
  lemma PrechargeWaits(p: Params, cfg: Config, h: seq<Issued>, i: nat, j: nat)
    requires cfg.tables == TablesOf(p) && Protocol(cfg, h) && i < j < |h| && h[j].cmd.kind == Precharge
    requires !h[i].cmd.IsRankCommand() && h[i].cmd.Bank() == h[j].cmd.Bank()
    ensures h[i].cmd.kind == Write ==> DataEnd(p, h[i]) + p.tWR <= h[j].clk
    ensures h[i].cmd.kind == Read ==> h[i].clk + p.AL + p.tRTP <= h[j].clk
    ensures h[i].cmd.kind == Activate ==> h[i].clk + p.tRAS <= h[j].clk
  {
    hide Protocol, TablesOf;
    ValidIssued(cfg, h, j);
    NamedGaps(p, cfg, h, i, j, h[j].cmd.Bank());
  }

  // An activate waits tRP for the bank to be precharged, by a command of its own or by
  // one that closed the bank, tRFC for a rank refresh, and tRRD for the rest of its rank.
  lemma ActivateWaits(p: Params, cfg: Config, h: seq<Issued>, i: nat, j: nat)
    requires cfg.tables == TablesOf(p) && Protocol(cfg, h) && i < j < |h| && h[j].cmd.kind == Activate
    requires h[i].cmd.addr.rank == h[j].cmd.addr.rank
    ensures h[i].cmd.kind == Refresh ==> h[i].clk + p.tRFC <= h[j].clk
    ensures h[i].cmd.kind == Activate ==>
              h[i].clk + (if h[i].cmd.addr.bankgroup == h[j].cmd.addr.bankgroup && p.bankgroups != 1 then Least(p.tRRDL, h[i], h[j], p)
                          else Least(p.tRRDS, h[i], h[j], p)) <= h[j].clk
    ensures h[i].cmd.Bank() == h[j].cmd.Bank() ==>
              && (h[i].cmd.kind == WritePrecharge ==> DataEnd(p, h[i]) + p.tWR + p.tRP <= h[j].clk)
              && (h[i].cmd.kind == ReadPrecharge ==> h[i].clk + p.AL + p.tRTP + p.tRP <= h[j].clk)
              && (h[i].cmd.kind == Precharge ==> h[i].clk + p.tRP <= h[j].clk)
  {
    hide Protocol, TablesOf;
    ValidIssued(cfg, h, j);
    NamedGaps(p, cfg, h, i, j, h[j].cmd.Bank());
  }

  // Two activates of one bank are a whole row cycle apart.
  function Least(rrd: int, a: Issued, b: Issued, p: Params): int {
    if a.cmd.Bank() == b.cmd.Bank() then p.tRAS + p.tRP else rrd
  }

  // A column command waits for its row to be open.
  lemma ColumnWaits(p: Params, cfg: Config, h: seq<Issued>, i: nat, j: nat)
    requires cfg.tables == TablesOf(p) && Protocol(cfg, h) && i < j < |h| && h[j].cmd.IsReadWrite()
    requires h[i].cmd.kind == Activate && h[i].cmd.Bank() == h[j].cmd.Bank()
    ensures if !p.gddr && !p.hbm then h[i].clk + p.tRCD - p.AL <= h[j].clk
            else h[i].clk + (if h[j].cmd.IsRead() then p.tRCDRD else p.tRCDWR) <= h[j].clk
  {
    hide Protocol, TablesOf;
    ValidIssued(cfg, h, j);
    NamedGaps(p, cfg, h, i, j, h[j].cmd.Bank());
  }

  // ------------------------------------------------------------------ every run

  // The controller issues column commands of one sort only, by its page policy.
  predicate KindsOk(cfg: Config, h: seq<Issued>) {
    forall i :: 0 <= i < |h| && h[i].cmd.IsReadWrite() ==> h[i].cmd.kind == KindFor(cfg, h[i].cmd.IsWrite())
  }

  lemma FetchKind(cfg: Config, s: Ctrl)
    requires ConfigOk(cfg) && Sound(cfg, s)
    ensures var pick := Fetch(cfg, s.channel, s.queues, |s.queues.lanes|).1;
            pick.Chosen? && pick.cmd.IsReadWrite() ==> pick.cmd.kind == KindFor(cfg, pick.cmd.IsWrite())
  {
    hide Fetch;
    var l, i := FetchSafe(cfg, s);
    var pick := Fetch(cfg, s.channel, s.queues, |s.queues.lanes|).1;
    if pick.Chosen? && pick.cmd.IsReadWrite() {
      assert LaneOk(cfg, s.queues.lanes[l], l);
      assert Placed(cfg, s.queues.lanes[l][i], l);
    }
  }

  lemma OneMoreKind(cfg: Config, s: Ctrl, c: Command)
    requires KindsOk(cfg, s.issued) && (c.IsReadWrite() ==> c.kind == KindFor(cfg, c.IsWrite()))
    ensures KindsOk(cfg, Issue(cfg, s, c).issued)
  {
    hide Issue;
    var tail := IssueAdds(cfg, s, c);
  }

  lemma FirstPickKind(cfg: Config, s: Ctrl)
    requires RunsOk(cfg) && Sound(cfg, s)
    ensures var pick := FirstPick(cfg, s.channel, s.queues).1;
            pick.Chosen? && pick.cmd.IsReadWrite() ==> pick.cmd.kind == KindFor(cfg, pick.cmd.IsWrite())
  {
    hide Fetch, FinishRefresh, Sound, Safe;
    if s.channel.refreshQ != [] {
      RefreshStepSound(cfg, s);
      SoundIsSafe(cfg, s);
      FinishRefreshMeaning(cfg, s);
      var (q, pick) := FinishRefresh(cfg, s.channel, s.queues);
      if pick.Nothing? {
        FetchKind(cfg, s.(queues := q));
      }
    } else {
      FetchKind(cfg, s);
    }
  }

  lemma SoundIsSafe(cfg: Config, s: Ctrl)
    requires Sound(cfg, s)
    ensures Safe(cfg, s) && !s.halted
  {
  }

  lemma IssueStepKinds(cfg: Config, s: Ctrl)
    requires RunsOk(cfg) && Sound(cfg, s) && KindsOk(cfg, s.issued)
    ensures KindsOk(cfg, IssueStep(cfg, s).issued)
  {
    hide Fetch, FirstPick, Sound, Issue, KindsOk;
    FirstPickSound(cfg, s);
    FirstPickKind(cfg, s);
    var (q, pick) := FirstPick(cfg, s.channel, s.queues);
    if pick.Chosen? {
      OneMoreKind(cfg, s.(queues := q), pick.cmd);
      var s2 := Issue(cfg, s.(queues := q), pick.cmd);
      FetchKind(cfg, s2);
      var (q', second) := Fetch(cfg, s2.channel, s2.queues, |s2.queues.lanes|);
      if second.Chosen? {
        OneMoreKind(cfg, s2.(queues := q'), second.cmd);
      }
    }
  }

  lemma StepKinds(cfg: Config, s: Ctrl, op: Op)
    requires RunsOk(cfg) && Sound(cfg, s) && KindsOk(cfg, s.issued)
    ensures KindsOk(cfg, Step(cfg, s, op).issued)
  {
    hide Sound, IssueStep, Schedule, KindsOk;
    if op == OpTick {
      TickRefreshSound(cfg, s);
      IssueStepKinds(cfg, TickRefresh(cfg, s));
      ScheduleKeepsHistory(cfg, IssueStep(cfg, TickRefresh(cfg, s)));
    }
  }

  lemma {:induction false} RunKinds(cfg: Config, ops: seq<Op>)
    requires RunsOk(cfg)
    ensures KindsOk(cfg, Run(cfg, Init(cfg), ops).issued)
  {
    if ops != [] {
      RunKinds(cfg, ops[..|ops| - 1]);
      RunSound(cfg, ops[..|ops| - 1]);
      StepKinds(cfg, Run(cfg, Init(cfg), ops[..|ops| - 1]), ops[|ops| - 1]);
    }
  }

  // On every run the bus is free for each burst: always with open pages, and with
  // closed pages if a bank reopens slowly enough.
  lemma RunsKeepBus(p: Params, cfg: Config, ops: seq<Op>)
    requires RunsOk(cfg) && cfg.tables == TablesOf(p) && (cfg.closePage ==> ReopensInTime(p))
    ensures BusFree(p, Run(cfg, Init(cfg), ops).issued)
  {
    hide Run, Init, RunsOk, Protocol, TablesOf, BusFree;
    HardwareRules(cfg, ops);
    var h := Run(cfg, Init(cfg), ops).issued;
    if cfg.closePage {
      BusKept(p, cfg, h);
    } else {
      RunKinds(cfg, ops);
      BusFreeOpenPage(p, cfg, h);
    }
  }
}
