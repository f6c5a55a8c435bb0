// The timing tables that the constructor of Timing derives from the
// configuration (dramsim3/src/timing.cc).
module TimingTables {
  import opened Basics
  import opened DramTypes
  import opened ChannelSpec
  import opened CommandHistory

  // The timing parameters of configuration.h; RL, WL, readDelay, writeDelay and
  // tRC are derived as in InitTimingParams.
  datatype Params = Params(
    bankgroups: nat, gddr: bool, hbm: bool, lpddr4: bool, burst: nat,
    AL: nat, CL: nat, CWL: nat,
    tCCDL: nat, tCCDS: nat, tRTRS: nat, tRTP: nat, tWTRL: nat, tWTRS: nat, tWR: nat,
    tRP: nat, tRRDL: nat, tRRDS: nat, tRAS: nat, tRCD: nat, tRCDRD: nat, tRCDWR: nat,
    tRFC: nat, tRFCb: nat, tREFI: nat, tPPD: nat, tCKESR: nat, tXS: nat)
  {
    function RL(): int { AL + CL }
    function WL(): int { AL + CWL }
    function ReadDelay(): int { RL() + burst }
    function WriteDelay(): int { WL() + burst }
    function TRC(): int { tRAS + tRP }

    // With a single bankgroup the short values replace the long ones.
    function CcdL(): int { Max(burst, if bankgroups == 1 then tCCDS else tCCDL) }
    function CcdS(): int { Max(burst, tCCDS) }
    function WtrL(): int { WriteDelay() + (if bankgroups == 1 then tWTRS else tWTRL) }
    function WtrS(): int { WriteDelay() + tWTRS }
    function RrdL(): int { if bankgroups == 1 then tRRDS else tRRDL }
    function ReadToWrite(): int { RL() + burst - WL() + tRTRS }
    function ReadToReadOther(): int { burst + tRTRS }
    function ReadToWriteOther(): int { ReadDelay() + burst + tRTRS - WriteDelay() }
    function WriteToReadOther(): int { WriteDelay() + burst + tRTRS - ReadDelay() }
    function ReadToPrecharge(): int { AL + tRTP }
    function WriteToPrecharge(): int { WL() + burst + tWR }
    function ReadPToActivate(): int { AL + burst + tRTP + tRP }
    function ActivateToRead(): int { if gddr || hbm then tRCDRD else tRCD - AL }
    function ActivateToWrite(): int { if gddr || hbm then tRCDWR else tRCD - AL }

    predicate NeedsPpd() { gddr || lpddr4 }
  }

  // Gaps to the four column commands: one value for reads, one for writes.
  function Columns(toRead: int, toWrite: int): seq<Entry> {
    [(Read, toRead), (Write, toWrite), (ReadPrecharge, toRead), (WritePrecharge, toWrite)]
  }

  // Gaps after which a bank that closes itself can be used again.
  function Reopen(toActivate: int, toRefresh: int): seq<Entry> {
    [(Activate, toActivate), (Refresh, toRefresh), (RefreshBank, toRefresh), (SrefEnter, toRefresh)]
  }

  function SameBankTable(p: Params): map<CmdKind, seq<Entry>> {
    map[
      Read := Columns(p.CcdL(), p.ReadToWrite()) + [(Precharge, p.ReadToPrecharge())],
      Write := Columns(p.WtrL(), p.CcdL()) + [(Precharge, p.WriteToPrecharge())],
      ReadPrecharge := Reopen(p.ReadPToActivate(), p.ReadToPrecharge() + p.tRP),
      WritePrecharge := Reopen(p.WriteToPrecharge() + p.tRP, p.WriteToPrecharge() + p.tRP),
      Activate := [(Activate, p.TRC())] + Columns(p.ActivateToRead(), p.ActivateToWrite()) + [(Precharge, p.tRAS)],
      Precharge := Reopen(p.tRP, p.tRP)]
  }

  function OtherBanksTable(p: Params): map<CmdKind, seq<Entry>> {
    map[
      Read := Columns(p.CcdL(), p.ReadToWrite()),
      Write := Columns(p.WtrL(), p.CcdL()),
      ReadPrecharge := Columns(p.CcdL(), p.ReadToWrite()),
      WritePrecharge := Columns(p.WtrL(), p.CcdL()),
      Activate := [(Activate, p.RrdL()), (RefreshBank, p.TRC())],
      Precharge := if p.NeedsPpd() then [(Precharge, p.tPPD)] else [],
      RefreshBank := [(Activate, p.tRFC), (RefreshBank, p.tREFI)]]
  }

  function OtherBankgroupsTable(p: Params): map<CmdKind, seq<Entry>> {
    map[
      Read := Columns(p.CcdS(), p.ReadToWrite()),
      Write := Columns(p.WtrS(), p.CcdS()),
      ReadPrecharge := Columns(p.CcdS(), p.ReadToWrite()),
      WritePrecharge := Columns(p.WtrS(), p.CcdS()),
      Activate := [(Activate, p.tRRDS), (RefreshBank, p.TRC())],
      Precharge := if p.NeedsPpd() then [(Precharge, p.tPPD)] else [],
      RefreshBank := [(Activate, p.tRFC), (RefreshBank, p.tREFI)]]
  }

  function OtherRanksTable(p: Params): map<CmdKind, seq<Entry>> {
    map[
      Read := Columns(p.ReadToReadOther(), p.ReadToWriteOther()),
      Write := Columns(p.WriteToReadOther(), p.burst),
      ReadPrecharge := Columns(p.ReadToReadOther(), p.ReadToWriteOther()),
      WritePrecharge := Columns(p.WriteToReadOther(), p.burst)]
  }

  function SameRankTable(p: Params): map<CmdKind, seq<Entry>> {
    map[
      RefreshBank := Reopen(p.tRFCb, p.tRFCb),
      Refresh := [(Activate, p.tRFC), (Refresh, p.tRFC), (SrefEnter, p.tRFC)],
      SrefEnter := [(SrefExit, p.tCKESR)],
      SrefExit := Reopen(p.tXS, p.tXS)]
  }

  function TablesOf(p: Params): Tables {
    Tables(SameBankTable(p), OtherBanksTable(p), OtherBankgroupsTable(p), OtherRanksTable(p), SameRankTable(p))
  }

  const NoLists: map<CmdKind, seq<Entry>> := map k: CmdKind | true :: []

  // The same lists; a missing list is an empty one.
  ghost predicate SameLists(a: map<CmdKind, seq<Entry>>, b: map<CmdKind, seq<Entry>>) {
    forall kind {:trigger ListOf(a, kind)} :: ListOf(a, kind) == ListOf(b, kind)
  }

  // The tables as the source's constructor fills them in, one list after the
  // other; with a single bankgroup the long values are overwritten first.
  class Timing {
    var sameBank: map<CmdKind, seq<Entry>>
    var otherBanksSameBankgroup: map<CmdKind, seq<Entry>>
    var otherBankgroupsSameRank: map<CmdKind, seq<Entry>>
    var otherRanks: map<CmdKind, seq<Entry>>
    var sameRank: map<CmdKind, seq<Entry>>

    constructor (p: Params)
      ensures SameLists(sameBank, SameBankTable(p))
      ensures SameLists(otherBanksSameBankgroup, OtherBanksTable(p))
      ensures SameLists(otherBankgroupsSameRank, OtherBankgroupsTable(p))
      ensures SameLists(otherRanks, OtherRanksTable(p))
      ensures SameLists(sameRank, SameRankTable(p))
    {
      sameBank, otherBanksSameBankgroup, otherBankgroupsSameRank := NoLists, NoLists, NoLists;
      otherRanks, sameRank := NoLists, NoLists;
      new;
      FillSameBank(p);
      FillSameGroup(p);
      FillSameRank(p);
      FillOthers(p);
      FillRank(p);
    }

    method FillSameBank(p: Params)
      requires sameBank == NoLists
      modifies `sameBank
      ensures SameLists(sameBank, SameBankTable(p))
    {
      FillOwnColumns(p);
      FillClosing(p);
      FillActivate(p);
      hide Columns, Reopen;
    }

    method FillClosing(p: Params)
      modifies `sameBank
      ensures sameBank == old(sameBank)[ReadPrecharge := SameBankTable(p)[ReadPrecharge]]
                                       [WritePrecharge := SameBankTable(p)[WritePrecharge]][Precharge := SameBankTable(p)[Precharge]]
    {
      hide Columns;
      var writeToPrecharge := p.WL() + p.burst + p.tWR;
      sameBank := sameBank[ReadPrecharge := Reopen(p.AL + p.burst + p.tRTP + p.tRP, p.AL + p.tRTP + p.tRP)];
      sameBank := sameBank[WritePrecharge := Reopen(writeToPrecharge + p.tRP, writeToPrecharge + p.tRP)];
      sameBank := sameBank[Precharge := Reopen(p.tRP, p.tRP)];
    }

    method FillActivate(p: Params)
      modifies `sameBank
      ensures sameBank == old(sameBank)[Activate := SameBankTable(p)[Activate]]
    {
      hide Reopen;
      var toRead, toWrite := p.tRCD - p.AL, p.tRCD - p.AL;
      if p.gddr || p.hbm {
        toRead, toWrite := p.tRCDRD, p.tRCDWR;
      }
      sameBank := sameBank[Activate := [(Activate, p.TRC())] + Columns(toRead, toWrite) + [(Precharge, p.tRAS)]];
    }

    method FillOwnColumns(p: Params)
      modifies `sameBank
      ensures sameBank == old(sameBank)[Read := SameBankTable(p)[Read]][Write := SameBankTable(p)[Write]]
    {
      var readToRead, writeToWrite := Max(p.burst, p.tCCDL), Max(p.burst, p.tCCDL);
      var writeToRead := p.WriteDelay() + p.tWTRL;
      var readToWrite := p.RL() + p.burst - p.WL() + p.tRTRS;
      if p.bankgroups == 1 {
        readToRead, writeToWrite := Max(p.burst, p.tCCDS), Max(p.burst, p.tCCDS);
        writeToRead := p.WriteDelay() + p.tWTRS;
      }
      sameBank := sameBank[Read := Columns(readToRead, readToWrite) + [(Precharge, p.AL + p.tRTP)]];
      sameBank := sameBank[Write := Columns(writeToRead, writeToWrite) + [(Precharge, p.WL() + p.burst + p.tWR)]];
    }

    method FillSameGroup(p: Params)
      requires otherBanksSameBankgroup == NoLists
      modifies `otherBanksSameBankgroup
      ensures SameLists(otherBanksSameBankgroup, OtherBanksTable(p))
    {
      var readToRead, writeToWrite := Max(p.burst, p.tCCDL), Max(p.burst, p.tCCDL);
      var writeToRead := p.WriteDelay() + p.tWTRL;
      var readToWrite := p.RL() + p.burst - p.WL() + p.tRTRS;
      var toActivate := p.tRRDL;
      if p.bankgroups == 1 {
        readToRead, writeToWrite := Max(p.burst, p.tCCDS), Max(p.burst, p.tCCDS);
        writeToRead := p.WriteDelay() + p.tWTRS;
        toActivate := p.tRRDS;
      }
      var t := otherBanksSameBankgroup[Read := Columns(readToRead, readToWrite)];
      t := t[Write := Columns(writeToRead, writeToWrite)];
      t := t[ReadPrecharge := Columns(readToRead, readToWrite)];
      t := t[WritePrecharge := Columns(writeToRead, writeToWrite)];
      t := t[Activate := [(Activate, toActivate), (RefreshBank, p.TRC())]];
      if p.gddr || p.lpddr4 {
        t := t[Precharge := [(Precharge, p.tPPD)]];
      }
      otherBanksSameBankgroup := t[RefreshBank := [(Activate, p.tRFC), (RefreshBank, p.tREFI)]];
    }

    method FillSameRank(p: Params)
      requires otherBankgroupsSameRank == NoLists
      modifies `otherBankgroupsSameRank
      ensures SameLists(otherBankgroupsSameRank, OtherBankgroupsTable(p))
    {
      var readToRead, writeToWrite := Max(p.burst, p.tCCDS), Max(p.burst, p.tCCDS);
      var writeToRead := p.WriteDelay() + p.tWTRS;
      var readToWrite := p.RL() + p.burst - p.WL() + p.tRTRS;
      var t := otherBankgroupsSameRank[Read := Columns(readToRead, readToWrite)];
      t := t[Write := Columns(writeToRead, writeToWrite)];
      t := t[ReadPrecharge := Columns(readToRead, readToWrite)];
      t := t[WritePrecharge := Columns(writeToRead, writeToWrite)];
      t := t[Activate := [(Activate, p.tRRDS), (RefreshBank, p.TRC())]];
      if p.gddr || p.lpddr4 {
        t := t[Precharge := [(Precharge, p.tPPD)]];
      }
      otherBankgroupsSameRank := t[RefreshBank := [(Activate, p.tRFC), (RefreshBank, p.tREFI)]];
    }

    method FillOthers(p: Params)
      requires otherRanks == NoLists
      modifies `otherRanks
      ensures SameLists(otherRanks, OtherRanksTable(p))
    {
      var readToRead, readToWrite := p.burst + p.tRTRS, p.ReadDelay() + p.burst + p.tRTRS - p.WriteDelay();
      var writeToRead, writeToWrite := p.WriteDelay() + p.burst + p.tRTRS - p.ReadDelay(), p.burst;
      otherRanks := otherRanks[Read := Columns(readToRead, readToWrite)];
      otherRanks := otherRanks[Write := Columns(writeToRead, writeToWrite)];
      otherRanks := otherRanks[ReadPrecharge := Columns(readToRead, readToWrite)];
      otherRanks := otherRanks[WritePrecharge := Columns(writeToRead, writeToWrite)];
    }

    method FillRank(p: Params)
      requires sameRank == NoLists
      modifies `sameRank
      ensures SameLists(sameRank, SameRankTable(p))
    {
      sameRank := sameRank[RefreshBank := Reopen(p.tRFCb, p.tRFCb)];
      sameRank := sameRank[Refresh := [(Activate, p.tRFC), (Refresh, p.tRFC), (SrefEnter, p.tRFC)]];
      sameRank := sameRank[SrefEnter := [(SrefExit, p.tCKESR)]];
      sameRank := sameRank[SrefExit := Reopen(p.tXS, p.tXS)];
    }
  }
}
