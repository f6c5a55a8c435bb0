// Commands, addresses and transactions shared by the DRAM modules
// (dramsim3/src/common.h).
module DramTypes {

  datatype CmdKind =
    | Read | ReadPrecharge | Write | WritePrecharge
    | Activate | Precharge | RefreshBank | Refresh | SrefEnter | SrefExit

  datatype Address = Address(channel: int, rank: int, bankgroup: int, bank: int, row: int, column: int)

  // The coordinates of one bank inside a channel.
  datatype BankId = BankId(rank: int, bankgroup: int, bank: int)

  // An invalid command (kind SIZE in the source) is the absence of a value of this type.
  datatype Command = Command(kind: CmdKind, addr: Address, hexAddr: int) {
    predicate IsRead() { kind == Read || kind == ReadPrecharge }

    predicate IsWrite() { kind == Write || kind == WritePrecharge }

    predicate IsReadWrite() { IsRead() || IsWrite() }

    predicate IsRefresh() { kind == Refresh || kind == RefreshBank }

    predicate IsRankCommand() { kind == Refresh || kind == SrefEnter || kind == SrefExit }

    function Bank(): BankId { BankId(addr.rank, addr.bankgroup, addr.bank) }
  }

  // One timing constraint: after the command that owns the list, the given
  // kind of command has to wait this many cycles.
  type Entry = (CmdKind, int)

  // The five tables of timing.h, each indexed by the kind of the issued
  // command. A kind that the constructor does not assign has an empty list.
  datatype Tables = Tables(
    sameBank: map<CmdKind, seq<Entry>>,
    otherBanks: map<CmdKind, seq<Entry>>,
    otherBankgroups: map<CmdKind, seq<Entry>>,
    otherRanks: map<CmdKind, seq<Entry>>,
    sameRank: map<CmdKind, seq<Entry>>)

  function ListOf(table: map<CmdKind, seq<Entry>>, kind: CmdKind): seq<Entry> {
    if kind in table then table[kind] else []
  }

  datatype RefreshPolicy = RankSimultaneous | RankStaggered | BankStaggered

  // The part of configuration.h that the controller reads. `decode` is the
  // address mapping; AddressMap proves that the mapping built from the
  // configuration text meets the only fact used about it, DecodesInRange.
  datatype Config = Config(
    ranks: nat,
    bankgroups: nat,
    banksPerGroup: nat,
    tables: Tables,
    gddr: bool,
    tFAW: nat,
    t32AW: nat,
    readDelay: nat,
    perBank: bool,
    queueSize: nat,
    unified: bool,
    transQueueSize: nat,
    closePage: bool,
    dualCommand: bool,
    policy: RefreshPolicy,
    refreshInterval: nat,
    decode: int -> Address)
  {
    predicate ValidRank(rank: int) { 0 <= rank < ranks }

    predicate ValidBank(id: BankId) {
      && ValidRank(id.rank)
      && 0 <= id.bankgroup < bankgroups
      && 0 <= id.bank < banksPerGroup
    }

    ghost predicate DecodesInRange() {
      forall hex: int {:trigger decode(hex)} ::
        ValidBank(BankId(decode(hex).rank, decode(hex).bankgroup, decode(hex).bank))
    }
  }
}
