/** Vocabulary shared by the model of the cramSim memory controller back end:
    bank commands, timing parameters, the device geometry and its wiring. */
module Dram {
  import opened Arith

  datatype Option<+T> = None | Some(value: T)

  /** The bank command mnemonics that the back end handles. */
  datatype Kind = ACT | READ | READA | WRITE | WRITEA | PRE | REF {
    predicate IsColumn() { READ? || READA? || WRITE? || WRITEA? }
    predicate IsRead() { READ? || READA? }
    predicate IsAuto() { READA? || WRITEA? }
  }

  /** A bank command with the hashed address it carries: the channel that selects the
      command bus, the linear rank and bank identifiers, and the row. */
  datatype Cmd = Cmd(kind: Kind, addr: nat, channel: nat, rank: nat, bank: nat, row: nat)

  /** Timing parameters in controller cycles, named after the configuration keys. */
  datatype Params = Params(
    nRRD_L: nat, nRRD_S: nat, nRCD: nat, nCCD_L: nat, nCCD_S: nat, nCL: nat, nCWL: nat,
    nWR: nat, nWTR: nat, nWTR_L: nat, nWTR_S: nat, nRTW: nat, nEWTR: nat, nERTW: nat,
    nEWTW: nat, nERTR: nat, nRAS: nat, nRTP: nat, nRP: nat, nRFC: nat, nREFI: nat,
    nFAW: nat, nBL: nat)
  {
    /** The state timers are loaded with `n - 2`, which the source computes on unsigned
        integers. */
    predicate Valid() { nRP >= 2 && nRFC >= 2 && nCCD_L >= 2 && nREFI >= 2 && nFAW >= 1 }
  }

  /** Sizes of the levels: channels, pseudo channels per channel, ranks per pseudo channel,
      bank groups per rank, banks per group. */
  datatype Geometry = Geometry(channels: nat, pchannels: nat, ranks: nat, groups: nat, banks: nat) {
    predicate Valid() { channels >= 1 && pchannels >= 1 && ranks >= 1 && groups >= 1 && banks >= 1 }

    function NumRanks(): nat { channels * pchannels * ranks }

    function NumBanks(): nat { channels * pchannels * ranks * groups * banks }

    /** Consecutive banks are attached to one group, groups to one rank, ranks to one
        pseudo channel. */
    function GroupOf(bank: nat): nat requires Valid() { bank / banks }

    function RankOf(bank: nat): nat requires Valid() { GroupOf(bank) / groups }

    function PseudoOf(bank: nat): nat requires Valid() { RankOf(bank) / ranks }

    function ChannelOf(rank: nat): nat requires Valid() { rank / ranks / pchannels }

    /** How the bank `other` sees a command sent to the bank `bank`. */
    function Relation(bank: nat, other: nat): Relation
      requires Valid()
    {
      if bank == other then Same
      else if GroupOf(bank) == GroupOf(other) then Group
      else if RankOf(bank) == RankOf(other) then Rank
      else if PseudoOf(bank) == PseudoOf(other) then Pseudo
      else Far
    }

    /** A command whose hashed address names an existing bank and agrees with the wiring. */
    predicate WellFormed(c: Cmd)
      requires Valid()
    {
      c.bank < NumBanks() && c.rank == RankOf(c.bank) && c.channel == ChannelOf(c.rank)
    }

    lemma RankInRange(bank: nat)
      requires Valid() && bank < NumBanks()
      ensures RankOf(bank) < NumRanks()
      ensures ChannelOf(RankOf(bank)) < channels
    {
      var r := NumRanks();
      assert NumBanks() == r * groups * banks;
      DivBound(bank, r * groups, banks);
      DivBound(GroupOf(bank), r, groups);
      DivBound(RankOf(bank), channels * pchannels, ranks);
      DivBound(PseudoOf(bank), channels, pchannels);
    }
  }

  datatype Relation = Same | Group | Rank | Pseudo | Far

  /** One cycle number per command kind, as kept by the bank's two cycle maps. */
  datatype Cycles = Cycles(act: int, read: int, reada: int, write: int, writea: int, pre: int, ref: int) {
    function At(k: Kind): int {
      match k
      case ACT => act
      case READ => read
      case READA => reada
      case WRITE => write
      case WRITEA => writea
      case PRE => pre
      case REF => ref
    }
  }

  const ZERO_CYCLES := Cycles(0, 0, 0, 0, 0, 0, 0)
}
