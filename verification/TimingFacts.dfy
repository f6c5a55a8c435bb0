// What the tables of timing.cc mean for the commands of a run: the named gaps,
// when the column gaps are positive, and how long a refresh can be held up.
module TimingFacts {
  import opened Basics
  import opened DramTypes
  import opened Banks
  import opened ChannelSpec
  import opened CommandHistory
  import opened TimingTables
  import opened ControllerSpec
  import opened ControllerRuns
  import opened RefreshBound

  // ------------------------------------------------------------ the named gaps

  // How two commands' banks lie to each other.
  datatype Distance = OwnBank | OwnGroup | OwnRank | OtherRank

  function DistanceOf(a: Command, id: BankId): Distance {
    if id.rank != a.addr.rank then OtherRank
    else if id.bankgroup != a.addr.bankgroup then OwnRank
    else if id.bank != a.addr.bank then OwnGroup
    else OwnBank
  }

  // The gap between two column commands, by direction and distance, in the parameters
  // of the standard: data bursts follow one another, with tRTRS from a read to a write
  // and between ranks unless both write, and a read waits tWTR behind written data.
  function ColumnSpacing(p: Params, read: bool, toRead: bool, d: Distance): int {
    var short := d == OwnRank || p.bankgroups == 1;
    if d == OtherRank then
      p.burst + (if read || toRead then p.tRTRS else 0)
      + (if read then p.CL else p.CWL) - (if toRead then p.CL else p.CWL)
    else if read == toRead then Max(p.burst, if short then p.tCCDS else p.tCCDL)
    else if read then p.CL + p.burst + p.tRTRS - p.CWL
    else p.AL + p.CWL + p.burst + (if short then p.tWTRS else p.tWTRL)
  }

  // From a column command to the precharge of its bank: tRTP after the read, or tWR
  // after the last data written.
  function ToPrecharge(p: Params, read: bool): int {
    if read then p.AL + p.tRTP else p.AL + p.CWL + p.burst + p.tWR
  }

  // The gap that the standard's parameters ask for between a command and a later one
  // to bank `id`; None where the source's tables ask for nothing. (From a read that
  // closes its bank to the next activate the source adds the burst.)
  function Spacing(p: Params, a: Command, kind: CmdKind, id: BankId): Option<int> {
    var d := DistanceOf(a, id);
    var column := kind == Read || kind == Write || kind == ReadPrecharge || kind == WritePrecharge;
    var toRead := kind == Read || kind == ReadPrecharge;
    match a.kind
    case Activate =>
      if kind == Activate then
        (match d
         case OwnBank => Some(p.tRAS + p.tRP)
         case OwnGroup => Some(if p.bankgroups == 1 then p.tRRDS else p.tRRDL)
         case OwnRank => Some(p.tRRDS)
         case OtherRank => None)
      else if column && d == OwnBank then
        Some(if p.gddr || p.hbm then (if toRead then p.tRCDRD else p.tRCDWR) else p.tRCD - p.AL)
      else if kind == Precharge && d == OwnBank then Some(p.tRAS)
      else if kind == RefreshBank && (d == OwnGroup || d == OwnRank) then Some(p.tRAS + p.tRP)
      else None
    case Precharge =>
      if d == OwnBank && (kind == Activate || kind == Refresh || kind == RefreshBank || kind == SrefEnter) then Some(p.tRP)
      else if kind == Precharge && (d == OwnGroup || d == OwnRank) && (p.gddr || p.lpddr4) then Some(p.tPPD)
      else None
    case Read | Write =>
      if column then Some(ColumnSpacing(p, a.kind == Read, toRead, d))
      else if kind == Precharge && d == OwnBank then Some(ToPrecharge(p, a.kind == Read))
      else None
    case ReadPrecharge | WritePrecharge =>
      if column && d != OwnBank then Some(ColumnSpacing(p, a.kind == ReadPrecharge, toRead, d))
      else if d == OwnBank && kind == Activate then
        Some(ToPrecharge(p, a.kind == ReadPrecharge) + p.tRP + if a.kind == ReadPrecharge then p.burst else 0)
      else if d == OwnBank && (kind == Refresh || kind == RefreshBank || kind == SrefEnter) then
        Some(ToPrecharge(p, a.kind == ReadPrecharge) + p.tRP)
      else None
    case Refresh =>
      if d != OtherRank && (kind == Activate || kind == Refresh || kind == SrefEnter) then Some(p.tRFC) else None
    case RefreshBank =>
      if (d == OwnGroup || d == OwnRank) && kind == Activate then Some(p.tRFC)
      else if (d == OwnGroup || d == OwnRank) && kind == RefreshBank then Some(p.tREFI)
      else None
    case SrefEnter => if d != OtherRank && kind == SrefExit then Some(p.tCKESR) else None
    case SrefExit =>
      if d != OtherRank && (kind == Activate || kind == Refresh || kind == RefreshBank || kind == SrefEnter) then Some(p.tXS) else None
  }

  // ------------------------------------------ the tables list exactly these

  function After(gap: Option<int>, clk: nat): nat {
    match gap case Some(g) => AddCycles(clk, g) case None => 0
  }

  function One(e: Entry, kind: CmdKind): Option<int> {
    if e.0 == kind then Some(e.1) else None
  }

  lemma StampMore(list: seq<Entry>, e: Entry, kind: CmdKind, clk: nat)
    ensures Stamp(list + [e], kind, clk) == Max(Stamp(list, kind, clk), After(One(e, kind), clk))
  {
    assert (list + [e])[..|list|] == list;
  }

  lemma StampOne(a: Entry, kind: CmdKind, clk: nat)
    ensures Stamp([a], kind, clk) == After(One(a, kind), clk)
  {
    assert [a][..0] == [];
  }

  lemma StampTwo(a: Entry, b: Entry, kind: CmdKind, clk: nat)
    ensures Stamp([a, b], kind, clk) == Max(After(One(a, kind), clk), After(One(b, kind), clk))
  {
    StampOne(a, kind, clk);
    assert [a] + [b] == [a, b];
    StampMore([a], b, kind, clk);
  }

  lemma StampFour(a: Entry, b: Entry, c: Entry, d: Entry, kind: CmdKind, clk: nat)
    ensures Stamp([a, b, c, d], kind, clk) ==
              Max(Max(After(One(a, kind), clk), After(One(b, kind), clk)), Max(After(One(c, kind), clk), After(One(d, kind), clk)))
  {
    StampTwo(a, b, kind, clk);
    assert [a, b] + [c] == [a, b, c];
    StampMore([a, b], c, kind, clk);
    assert [a, b, c] + [d] == [a, b, c, d];
    StampMore([a, b, c], d, kind, clk);
  }

  function ColumnGap(r: int, w: int, kind: CmdKind): Option<int> {
    match kind
    case Read | ReadPrecharge => Some(r)
    case Write | WritePrecharge => Some(w)
    case _ => None
  }

  lemma StampColumns(r: int, w: int, kind: CmdKind, clk: nat)
    ensures Stamp(Columns(r, w), kind, clk) == After(ColumnGap(r, w, kind), clk)
  {
    StampFour((Read, r), (Write, w), (ReadPrecharge, r), (WritePrecharge, w), kind, clk);
  }

  function ReopenGap(toActivate: int, toRefresh: int, kind: CmdKind): Option<int> {
    match kind
    case Activate => Some(toActivate)
    case Refresh | RefreshBank | SrefEnter => Some(toRefresh)
    case _ => None
  }

  lemma StampReopen(a: int, r: int, kind: CmdKind, clk: nat)
    ensures Stamp(Reopen(a, r), kind, clk) == After(ReopenGap(a, r, kind), clk)
  {
    StampFour((Activate, a), (Refresh, r), (RefreshBank, r), (SrefEnter, r), kind, clk);
  }

  lemma ColumnLists(p: Params, a: Command, id: BankId)
    requires a.kind == Read || a.kind == Write || (DistanceOf(a, id) != OwnBank && (a.kind == ReadPrecharge || a.kind == WritePrecharge))
    ensures var read, d := a.kind == Read || a.kind == ReadPrecharge, DistanceOf(a, id);
            ListFor(TablesOf(p), a, id) ==
              Columns(ColumnSpacing(p, read, true, d), ColumnSpacing(p, read, false, d))
              + (if d == OwnBank then [(Precharge, ToPrecharge(p, read))] else [])
  {
    hide Columns;
  }

  lemma ColumnStamps(p: Params, a: Command, kind: CmdKind, id: BankId, clk: nat)
    requires a.kind == Read || a.kind == Write
    ensures Stamp(ListFor(TablesOf(p), a, id), kind, clk) == After(Spacing(p, a, kind, id), clk)
  {
    hide ListFor, TablesOf, Columns, ColumnSpacing, ToPrecharge, Stamp;
    var d := DistanceOf(a, id);
    var r := ColumnSpacing(p, a.kind == Read, true, d);
    var w := ColumnSpacing(p, a.kind == Read, false, d);
    ColumnLists(p, a, id);
    StampColumns(r, w, kind, clk);
    StampMore(Columns(r, w), (Precharge, ToPrecharge(p, a.kind == Read)), kind, clk);
    assert Columns(r, w) + [] == Columns(r, w);
  }

  lemma AutoPrechargeStamps(p: Params, a: Command, kind: CmdKind, id: BankId, clk: nat)
    requires a.kind == ReadPrecharge || a.kind == WritePrecharge
    ensures Stamp(ListFor(TablesOf(p), a, id), kind, clk) == After(Spacing(p, a, kind, id), clk)
  {
    hide ListFor, TablesOf, Columns, ColumnSpacing, ToPrecharge, Stamp;
    var d := DistanceOf(a, id);
    if d == OwnBank {
      OwnAutoPrecharge(p, a, kind, id, clk);
    } else {
      var r := ColumnSpacing(p, a.kind == ReadPrecharge, true, d);
      var w := ColumnSpacing(p, a.kind == ReadPrecharge, false, d);
      ColumnLists(p, a, id);
      StampColumns(r, w, kind, clk);
      assert Columns(r, w) + [] == Columns(r, w);
    }
  }

  lemma ReopenList(p: Params, a: Command, id: BankId)
    requires (a.kind == ReadPrecharge || a.kind == WritePrecharge) && DistanceOf(a, id) == OwnBank
    ensures var read := a.kind == ReadPrecharge;
            ListFor(TablesOf(p), a, id) ==
              Reopen(ToPrecharge(p, read) + p.tRP + (if read then p.burst else 0), ToPrecharge(p, read) + p.tRP)
  {
    hide Reopen;
  }

  lemma OwnAutoPrecharge(p: Params, a: Command, kind: CmdKind, id: BankId, clk: nat)
    requires (a.kind == ReadPrecharge || a.kind == WritePrecharge) && DistanceOf(a, id) == OwnBank
    ensures Stamp(ListFor(TablesOf(p), a, id), kind, clk) == After(Spacing(p, a, kind, id), clk)
  {
    hide ListFor, TablesOf, Reopen, ToPrecharge, Stamp;
    var read := a.kind == ReadPrecharge;
    ReopenList(p, a, id);
    StampReopen(ToPrecharge(p, read) + p.tRP + (if read then p.burst else 0), ToPrecharge(p, read) + p.tRP, kind, clk);
  }

  lemma OwnActivate(p: Params, a: Command, kind: CmdKind, id: BankId, clk: nat)
    requires a.kind == Activate && DistanceOf(a, id) == OwnBank
    ensures Stamp(ListFor(TablesOf(p), a, id), kind, clk) == After(Spacing(p, a, kind, id), clk)
  {
    var first, columns, last := (Activate, p.TRC()), Columns(p.ActivateToRead(), p.ActivateToWrite()), (Precharge, p.tRAS);
    assert ListFor(TablesOf(p), a, id) == [first] + columns + [last];
    StampColumns(p.ActivateToRead(), p.ActivateToWrite(), kind, clk);
    StampFirst(first, columns, kind, clk);
    StampMore([first] + columns, last, kind, clk);
  }

  lemma {:induction false} StampFirst(e: Entry, list: seq<Entry>, kind: CmdKind, clk: nat)
    ensures Stamp([e] + list, kind, clk) == Max(After(One(e, kind), clk), Stamp(list, kind, clk))
  {
    if list == [] {
      assert [e] + list == [e];
      StampOne(e, kind, clk);
    } else {
      StampFirst(e, list[..|list| - 1], kind, clk);
      assert ([e] + list)[..|list|] == [e] + list[..|list| - 1];
    }
  }

  lemma ActivateStamps(p: Params, a: Command, kind: CmdKind, id: BankId, clk: nat)
    requires a.kind == Activate
    ensures Stamp(ListFor(TablesOf(p), a, id), kind, clk) == After(Spacing(p, a, kind, id), clk)
  {
    match DistanceOf(a, id)
    case OwnBank => OwnActivate(p, a, kind, id, clk);
    case OwnGroup => StampTwo((Activate, p.RrdL()), (RefreshBank, p.TRC()), kind, clk);
    case OwnRank => StampTwo((Activate, p.tRRDS), (RefreshBank, p.TRC()), kind, clk);
    case OtherRank =>
  }

  lemma PrechargeStamps(p: Params, a: Command, kind: CmdKind, id: BankId, clk: nat)
    requires a.kind == Precharge
    ensures Stamp(ListFor(TablesOf(p), a, id), kind, clk) == After(Spacing(p, a, kind, id), clk)
  {
    StampReopen(p.tRP, p.tRP, kind, clk);
    StampOne((Precharge, p.tPPD), kind, clk);
  }

  lemma RankRefreshStamps(p: Params, a: Command, kind: CmdKind, id: BankId, clk: nat)
    requires a.kind == Refresh
    ensures Stamp(ListFor(TablesOf(p), a, id), kind, clk) == After(Spacing(p, a, kind, id), clk)
  {
    var first := [(Activate, p.tRFC), (Refresh, p.tRFC)];
    StampTwo((Activate, p.tRFC), (Refresh, p.tRFC), kind, clk);
    StampMore(first, (SrefEnter, p.tRFC), kind, clk);
    assert first + [(SrefEnter, p.tRFC)] == [(Activate, p.tRFC), (Refresh, p.tRFC), (SrefEnter, p.tRFC)];
  }

  lemma BankRefreshStamps(p: Params, a: Command, kind: CmdKind, id: BankId, clk: nat)
    requires a.kind == RefreshBank
    ensures Stamp(ListFor(TablesOf(p), a, id), kind, clk) == After(Spacing(p, a, kind, id), clk)
  {
    StampTwo((Activate, p.tRFC), (RefreshBank, p.tREFI), kind, clk);
  }

  lemma SrefStamps(p: Params, a: Command, kind: CmdKind, id: BankId, clk: nat)
    requires a.kind == SrefEnter || a.kind == SrefExit
    ensures Stamp(ListFor(TablesOf(p), a, id), kind, clk) == After(Spacing(p, a, kind, id), clk)
  {
    StampOne((SrefExit, p.tCKESR), kind, clk);
    StampReopen(p.tXS, p.tXS, kind, clk);
  }

  // What a command adds to the earliest time of a kind on a bank is its named gap.
  lemma StampIsSpacing(p: Params, a: Command, kind: CmdKind, id: BankId, clk: nat)
    ensures Stamp(ListFor(TablesOf(p), a, id), kind, clk) == After(Spacing(p, a, kind, id), clk)
  {
    match a.kind
    case Read | Write => ColumnStamps(p, a, kind, id, clk);
    case ReadPrecharge | WritePrecharge => AutoPrechargeStamps(p, a, kind, id, clk);
    case Activate => ActivateStamps(p, a, kind, id, clk);
    case Precharge => PrechargeStamps(p, a, kind, id, clk);
    case Refresh => RankRefreshStamps(p, a, kind, id, clk);
    case RefreshBank => BankRefreshStamps(p, a, kind, id, clk);
    case SrefEnter | SrefExit => SrefStamps(p, a, kind, id, clk);
  }

  // So any two commands of a history that follows the protocol keep every named gap.
  lemma NamedGaps(p: Params, cfg: Config, h: seq<Issued>, i: nat, j: nat, id: BankId)
    requires cfg.tables == TablesOf(p) && Protocol(cfg, h) && i < j < |h|
    requires cfg.ValidBank(id) && Reaches(h[j].cmd, id)
    ensures match Spacing(p, h[i].cmd, h[j].cmd.kind, id)
            case Some(gap) => h[i].clk + gap <= h[j].clk
            case None => true
  {
    ProtocolAt(cfg, h, j);
    assert h[..j][i] == h[i];
    EarliestBound(cfg.tables, h[..j], id, h[j].cmd.kind, i);
    StampIsSpacing(p, h[i].cmd, h[j].cmd.kind, id, h[i].clk);
  }

  // ------------------------------------------------ when column gaps are positive

  // Where two column commands can meet, their gap is at least one cycle.
  predicate PositiveGaps(p: Params, cfg: Config) {
    && ((!cfg.closePage || cfg.banksPerGroup > 1) ==>
          && Max(p.burst, if p.bankgroups == 1 then p.tCCDS else p.tCCDL) >= 1 && p.CL + p.burst + p.tRTRS - p.CWL >= 1
          && p.AL + p.CWL + p.burst + (if p.bankgroups == 1 then p.tWTRS else p.tWTRL) >= 1)
    && (cfg.bankgroups > 1 ==>
          Max(p.burst, p.tCCDS) >= 1 && p.CL + p.burst + p.tRTRS - p.CWL >= 1 && p.AL + p.CWL + p.burst + p.tWTRS >= 1)
    && (cfg.ranks > 1 ==>
          && p.burst >= 1
          && p.CL + p.burst + p.tRTRS - p.CWL >= 1 && p.CWL + p.burst + p.tRTRS - p.CL >= 1)
  }

  predicate IsColumn(kind: CmdKind) {
    kind == Read || kind == Write || kind == ReadPrecharge || kind == WritePrecharge
  }

  lemma HasColumnGap(r: int, w: int, more: seq<Entry>, kind: CmdKind)
    requires IsColumn(kind) && forall n :: 0 <= n < |more| ==> !IsColumn(more[n].0)
    ensures HasGap(Columns(r, w) + more, kind) <==> ColumnGap(r, w, kind).value >= 1
  {
    var list := Columns(r, w) + more;
    assert list[0] == (Read, r) && list[1] == (Write, w) && list[2] == (ReadPrecharge, r) && list[3] == (WritePrecharge, w);
  }

  lemma GapIs(p: Params, cfg: Config, first: Command, id: BankId, isWrite: bool)
    requires cfg.tables == TablesOf(p) && first.kind == KindFor(cfg, first.IsWrite())
    requires cfg.closePage ==> id != first.Bank()
    ensures HasGap(ListFor(cfg.tables, first, id), KindFor(cfg, isWrite)) <==>
              ColumnSpacing(p, !first.IsWrite(), !isWrite, DistanceOf(first, id)) >= 1
  {
    hide ListFor, TablesOf, Columns, ColumnSpacing, ToPrecharge, HasGap;
    var d := DistanceOf(first, id);
    var r := ColumnSpacing(p, !first.IsWrite(), true, d);
    var w := ColumnSpacing(p, !first.IsWrite(), false, d);
    ColumnLists(p, first, id);
    HasColumnGap(r, w, [(Precharge, ToPrecharge(p, !first.IsWrite()))], KindFor(cfg, isWrite));
    HasColumnGap(r, w, [], KindFor(cfg, isWrite));
  }

  lemma PositiveSuffices(p: Params, cfg: Config)
    requires cfg.tables == TablesOf(p) && PositiveGaps(p, cfg)
    ensures ColumnGapsPositive(cfg)
  {
    forall first: Command, id: BankId, isWrite: bool |
      first.kind == KindFor(cfg, first.IsWrite()) && cfg.ValidBank(first.Bank()) && cfg.ValidBank(id)
      && (cfg.closePage ==> id != first.Bank())
      ensures HasGap(ListFor(cfg.tables, first, id), KindFor(cfg, isWrite))
    {
      GapIs(p, cfg, first, id, isWrite);
    }
  }

  // One pair of banks at each distance shows that the condition is needed.
  lemma GapNeeded(p: Params, cfg: Config, id: BankId, isWrite: bool, toWrite: bool)
    requires cfg.tables == TablesOf(p) && ColumnGapsPositive(cfg)
    requires cfg.ValidBank(BankId(0, 0, 0)) && cfg.ValidBank(id) && (cfg.closePage ==> id != BankId(0, 0, 0))
    ensures ColumnSpacing(p, !isWrite, !toWrite, DistanceOf(Command(KindFor(cfg, isWrite), Address(0, 0, 0, 0, 0, 0), 0), id)) >= 1
  {
    var first := Command(KindFor(cfg, isWrite), Address(0, 0, 0, 0, 0, 0), 0);
    assert first.Bank() == BankId(0, 0, 0);
    GapIs(p, cfg, first, id, toWrite);
    assert HasGap(ListFor(cfg.tables, first, id), KindFor(cfg, toWrite));
  }

  lemma FourGapsNeeded(p: Params, cfg: Config, id: BankId)
    requires cfg.tables == TablesOf(p) && ColumnGapsPositive(cfg)
    requires cfg.ValidBank(BankId(0, 0, 0)) && cfg.ValidBank(id) && (cfg.closePage ==> id != BankId(0, 0, 0))
    ensures var d := DistanceOf(Command(Read, Address(0, 0, 0, 0, 0, 0), 0), id);
            && ColumnSpacing(p, true, true, d) >= 1 && ColumnSpacing(p, true, false, d) >= 1
            && ColumnSpacing(p, false, true, d) >= 1 && ColumnSpacing(p, false, false, d) >= 1
  {
    GapNeeded(p, cfg, id, false, false);
    GapNeeded(p, cfg, id, false, true);
    GapNeeded(p, cfg, id, true, false);
    GapNeeded(p, cfg, id, true, true);
  }

  lemma PositiveNeeded(p: Params, cfg: Config)
    requires cfg.tables == TablesOf(p) && ColumnGapsPositive(cfg)
    requires 0 < cfg.ranks && 0 < cfg.bankgroups && 0 < cfg.banksPerGroup
    ensures PositiveGaps(p, cfg)
  {
    if !cfg.closePage {
      FourGapsNeeded(p, cfg, BankId(0, 0, 0));
    } else if cfg.banksPerGroup > 1 {
      FourGapsNeeded(p, cfg, BankId(0, 0, 1));
    }
    if cfg.bankgroups > 1 {
      FourGapsNeeded(p, cfg, BankId(0, 1, 0));
    }
    if cfg.ranks > 1 {
      FourGapsNeeded(p, cfg, BankId(1, 0, 0));
    }
  }

  // The condition under which dual command issue loses nothing, in terms of the
  // timing parameters alone.
  lemma ColumnGapsIff(p: Params, cfg: Config)
    requires cfg.tables == TablesOf(p)
    requires 0 < cfg.ranks && 0 < cfg.bankgroups && 0 < cfg.banksPerGroup
    ensures ColumnGapsPositive(cfg) <==> PositiveGaps(p, cfg)
  {
    if ColumnGapsPositive(cfg) {
      PositiveNeeded(p, cfg);
    }
    if PositiveGaps(p, cfg) {
      PositiveSuffices(p, cfg);
    }
  }

  // -------------------------------------------------- the refresh bound's gaps

  // The time between two precharges to a rank, as far as the tables ask for any.
  function PrechargeStep(p: Params): nat { if p.NeedsPpd() then Max(1, p.tPPD) else 1 }

  lemma TablesBoundRefresh(p: Params, cfg: Config)
    requires cfg.tables == TablesOf(p)
    ensures RefreshTables(cfg, PrechargeStep(p), Max(1, p.tRP))
  {
    var other := cfg.tables.otherRanks;
    forall kind
      ensures NoEntry(ListOf(other, kind), Precharge) && NoEntry(ListOf(other, kind), Refresh)
    {
      assert kind in other ==> exists r, w :: ListOf(other, kind) == Columns(r, w);
    }
  }
}
