/** The phases of the controller's clock: the converter's pass over its input queue, and the
    per-bank command queues (c_CmdScheduler, bank round robin) that feed the driver. */
module Controller {
  import opened Arith
  import opened Dram
  import opened BankMachine
  import opened DriverMachine
  import Safety = DriverSafety
  import opened Order
  import RB = RowBuffer
  import opened Rows
  import opened Edits
  import Reopen
  import opened RefreshRows
  import Conv = Converter

  /** `capacity` is the number of entries of a command queue. */
  datatype Setup = Setup(cfg: Config, rules: Conv.Rules, capacity: nat) {
    predicate Valid() { cfg.Valid() && rules.Valid() }
  }

  /** `streams` records, per bank, every command the converter has emitted. */
  datatype System = System(
    infos: seq<Conv.RowInfo>, pending: seq<Conv.Txn>, queues: seq<seq<Cmd>>, nextQ: seq<nat>,
    drv: Driver, streams: seq<seq<Cmd>>)

  function BanksPerChannel(g: Geometry): nat { g.pchannels * g.ranks * g.groups * g.banks }

  /** The queue that c_CmdScheduler selects for an address, in the flat numbering of queues. */
  function QueueIndex(g: Geometry, channel: nat, bank: nat): nat
    requires g.Valid()
  {
    assert BanksPerChannel(g) >= 1;
    channel * BanksPerChannel(g) + bank % BanksPerChannel(g)
  }

  predicate WellFormed(su: Setup, t: Conv.Txn)
    requires su.Valid()
  {
    t.count == 1 && Queued(su.cfg, Conv.Command(t, READ, t.addr))
  }

  predicate Shape(su: Setup, s: System)
    requires su.Valid()
  {
    var n := su.cfg.g.NumBanks();
    && |s.infos| == |s.queues| == |s.streams| == n
    && |s.nextQ| == su.cfg.g.channels
    && (forall i | 0 <= i < |s.pending| :: WellFormed(su, s.pending[i]))
    && (forall b | 0 <= b < n :: QueueShape(su, b, s.queues[b]))
  }

  predicate QueueShape(su: Setup, b: nat, q: seq<Cmd>)
    requires su.Valid()
  {
    |q| <= su.capacity && forall i | 0 <= i < |q| :: Queued(su.cfg, q[i]) && q[i].bank == b
  }

  function Initial(su: Setup): System
    requires su.Valid()
  {
    var n := su.cfg.g.NumBanks();
    System(seq(n, i => Conv.RowInfo(false, 0, if su.rules.policy.POPEN? then su.rules.closeTime else 0)), [],
           seq(n, i => []), seq(su.cfg.g.channels, i => 0), DriverMachine.Initial(su.cfg), seq(n, i => []))
  }

  // ---- Conversion

  /** Push commands one by one; a full queue refuses. The flag says that none was refused. */
  function PushAll(su: Setup, q: seq<Cmd>, cmds: seq<Cmd>): (seq<Cmd>, bool)
    decreases |cmds|
  {
    if cmds == [] then (q, true)
    else if |q| < su.capacity then PushAll(su, q + [cmds[0]], cmds[1..])
    else (PushAll(su, q, cmds[1..]).0, false)
  }

  /** One transaction leaves the converter's input queue as commands. */
  function ConvertOne(su: Setup, s: System, i: nat): System
    requires su.Valid() && i < |s.pending| && |s.infos| == |s.queues| == |s.streams| && s.pending[i].bank < |s.infos|
    requires QueueIndex(su.cfg.g, s.pending[i].channel, s.pending[i].bank) < |s.queues|
  {
    var t := s.pending[i];
    var qi := QueueIndex(su.cfg.g, t.channel, t.bank);
    var (info, cmds) := Conv.Commands(su.rules, s.infos[t.bank], t, t.count);
    s.(pending := Remove(s.pending, i),
       queues := s.queues[qi := PushAll(su, s.queues[qi], cmds).0],
       streams := s.streams[t.bank := s.streams[t.bank] + cmds],
       infos := s.infos[t.bank := Conv.Note(su.rules, info, t)])
  }

  lemma QueueOfBank(su: Setup, c: Cmd)
    requires su.Valid() && Queued(su.cfg, c)
    ensures QueueIndex(su.cfg.g, c.channel, c.bank) == c.bank
  {
    var g, n := su.cfg.g, BanksPerChannel(su.cfg.g);
    DivDiv(c.bank, g.banks, g.groups);
    DivDiv(c.bank, g.banks * g.groups, g.ranks);
    DivDiv(c.bank, g.banks * g.groups * g.ranks, g.pchannels);
    assert g.banks * g.groups * g.ranks * g.pchannels == n;
    assert c.channel == c.bank / n;
  }

  predicate HasRoom(su: Setup, s: System, t: Conv.Txn)
    requires su.Valid() && QueueIndex(su.cfg.g, t.channel, t.bank) < |s.queues|
  {
    su.capacity - |s.queues[QueueIndex(su.cfg.g, t.channel, t.bank)]| >= 3
  }

  lemma PendingIndex(su: Setup, t: Conv.Txn)
    requires su.Valid() && WellFormed(su, t)
    ensures QueueIndex(su.cfg.g, t.channel, t.bank) == t.bank < su.cfg.g.NumBanks()
  {
    QueueOfBank(su, Conv.Command(t, READ, t.addr));
  }

  /** The loop of c_TxnConverter::run over the input queue from position `i`. */
  function ConvertFrom(su: Setup, s: System, i: nat): System
    requires su.Valid() && Shape(su, s) && i <= |s.pending|
    decreases |s.pending| - i
  {
    if i == |s.pending| then s
    else
      PendingIndex(su, s.pending[i]);
      if HasRoom(su, s, s.pending[i]) then
        ConvertShape(su, s, i);
        ConvertFrom(su, ConvertOne(su, s, i), i)
      else ConvertFrom(su, s, i + 1)
  }

  function AgeAll(su: Setup, infos: seq<Conv.RowInfo>): seq<Conv.RowInfo> {
    seq(|infos|, i requires 0 <= i < |infos| => Conv.Age(su.rules, infos[i]))
  }

  function Convert(su: Setup, s: System): System
    requires su.Valid() && Shape(su, s)
  {
    var s1 := ConvertFrom(su, s, 0);
    s1.(infos := AgeAll(su, s1.infos))
  }

  /** With room for all of them, pushing appends the commands and refuses none. */
  lemma {:induction false} PushAllFits(su: Setup, q: seq<Cmd>, cmds: seq<Cmd>)
    requires |q| + |cmds| <= su.capacity
    ensures PushAll(su, q, cmds) == (q + cmds, true)
    decreases |cmds|
  {
    if cmds != [] {
      PushAllFits(su, q + [cmds[0]], cmds[1..]);
      assert (q + [cmds[0]]) + cmds[1..] == q + cmds;
    } else {
      assert q + cmds == q;
    }
  }

  /** The commands of one transaction, ready for the invariants below. */
  lemma TxnCommands(su: Setup, info: Conv.RowInfo, t: Conv.Txn, s: RB.Status)
    requires su.Valid() && WellFormed(su, t) && Conv.Tracks(su.rules, info, s)
    ensures
      var (info1, cmds) := Conv.Commands(su.rules, info, t, t.count);
      && 1 <= |cmds| <= 3 && (forall i | 0 <= i < |cmds| :: Queued(su.cfg, cmds[i]) && cmds[i].bank == t.bank)
      && Conv.Tracks(su.rules, Conv.Note(su.rules, info1, t), RB.After(s, cmds))
  {
    Conv.TransactionLegal(su.rules, info, t, s);
  }

  lemma ConvertShape(su: Setup, s: System, i: nat)
    requires su.Valid() && Shape(su, s) && i < |s.pending|
    requires QueueIndex(su.cfg.g, s.pending[i].channel, s.pending[i].bank) == s.pending[i].bank < |s.queues|
    requires HasRoom(su, s, s.pending[i])
    ensures Shape(su, ConvertOne(su, s, i))
  {
    hide WellFormed, Queued, Conv.Note, Conv.Before, Conv.Behind, QueueIndex;
    var t := s.pending[i];
    var cmds := Conv.Commands(su.rules, s.infos[t.bank], t, t.count).1;
    AnyCommands(su, s.infos[t.bank], t, cmds);
    PushAllShape(su, t.bank, s.queues[t.bank], cmds);
    hide QueueShape;
    assert forall x | x in Remove(s.pending, i) :: x in s.pending;
  }

  /** Without any tracking assumption the commands still address the transaction's bank. */
  lemma AnyCommands(su: Setup, info: Conv.RowInfo, t: Conv.Txn, cmds: seq<Cmd>)
    requires su.Valid() && WellFormed(su, t) && cmds == Conv.Commands(su.rules, info, t, t.count).1
    ensures forall i | 0 <= i < |cmds| :: Queued(su.cfg, cmds[i]) && cmds[i].bank == t.bank
  {
    Conv.CommandsOne(su.rules, info, t);
    Conv.RoundShape(su.rules, info, t, t.addr);
  }

  lemma {:induction false} PushAllShape(su: Setup, b: nat, q: seq<Cmd>, cmds: seq<Cmd>)
    requires su.Valid() && QueueShape(su, b, q)
    requires forall i | 0 <= i < |cmds| :: Queued(su.cfg, cmds[i]) && cmds[i].bank == b
    ensures QueueShape(su, b, PushAll(su, q, cmds).0)
    decreases |cmds|
  {
    hide Queued;
    if cmds != [] {
      PushAllShape(su, b, if |q| < su.capacity then q + [cmds[0]] else q, cmds[1..]);
    }
  }

  // ---- Command scheduling

  /** One queue offers its head to the driver. */
  function Visit(su: Setup, s: System, qi: nat): System
    requires su.Valid() && Shape(su, s) && Shaped(su.cfg, s.drv) && qi < |s.queues|
  {
    assert QueueShape(su, qi, s.queues[qi]);
    if s.queues[qi] == [] then s
    else
      var c := s.queues[qi][0];
      var (d1, ok) := IsCmdAllowed(su.cfg, s.drv, c);
      Safety.RequestShaped(su.cfg, s.drv, c);
      if !ok then s.(drv := d1)
      else
        var (d2, pushed) := Push(su.cfg, d1, c);
        s.(drv := d2, queues := if pushed then s.queues[qi := s.queues[qi][1..]] else s.queues)
  }

  lemma VisitShape(su: Setup, s: System, qi: nat)
    requires su.Valid() && Shape(su, s) && Shaped(su.cfg, s.drv) && qi < |s.queues|
    ensures var s' := Visit(su, s, qi);
            Shape(su, s') && Shaped(su.cfg, s'.drv) && s'.nextQ == s.nextQ
  {
    hide Shaped, IsCmdAllowed, Push, WellFormed, Queued;
    assert QueueShape(su, qi, s.queues[qi]);
    if s.queues[qi] != [] {
      var c := s.queues[qi][0];
      Safety.RequestShaped(su.cfg, s.drv, c);
      Safety.RequestShaped(su.cfg, IsCmdAllowed(su.cfg, s.drv, c).0, c);
      assert QueueShape(su, qi, s.queues[qi][1..]);
    }
  }

  /** Queue `k` of a channel in the flat numbering. */
  function QueueAt(g: Geometry, ch: nat, k: nat): nat { ch * BanksPerChannel(g) + k }

  /** The round-robin successor of queue `k` within its channel. */
  function NextQueue(g: Geometry, k: nat): (r: nat)
    requires g.Valid()
    ensures r < BanksPerChannel(g)
  {
    assert BanksPerChannel(g) >= 1;
    (k + 1) % BanksPerChannel(g)
  }

  /** The remaining `n` visits of one channel, round robin from index `k`. */
  function VisitsFrom(su: Setup, s: System, ch: nat, k: nat, n: nat): System
    requires su.Valid() && Shape(su, s) && Shaped(su.cfg, s.drv) && ch < su.cfg.g.channels && k < BanksPerChannel(su.cfg.g)
    decreases n
  {
    if n == 0 then s
    else
      var qi := QueueAt(su.cfg.g, ch, k);
      ChannelQueue(su.cfg.g, ch, k);
      VisitShape(su, s, qi);
      VisitsFrom(su, Visit(su, s, qi), ch, NextQueue(su.cfg.g, k), n - 1)
  }

  lemma ChannelQueue(g: Geometry, ch: nat, k: nat)
    requires g.Valid() && ch < g.channels && k < BanksPerChannel(g)
    ensures QueueAt(g, ch, k) < g.NumBanks()
  {
    var n := BanksPerChannel(g);
    MulMono(ch + 1, g.channels, n);
    Distribute(ch, 1, n);
    assert g.NumBanks() == g.channels * n by {
      MulAssoc(g.channels, g.pchannels, g.ranks);
      MulAssoc(g.channels, g.pchannels * g.ranks, g.groups);
      MulAssoc(g.channels, g.pchannels * g.ranks * g.groups, g.banks);
    }
  }

  lemma {:induction false} VisitsShape(su: Setup, s: System, ch: nat, k: nat, n: nat)
    requires su.Valid() && Shape(su, s) && Shaped(su.cfg, s.drv) && ch < su.cfg.g.channels && k < BanksPerChannel(su.cfg.g)
    ensures var s' := VisitsFrom(su, s, ch, k, n);
            Shape(su, s') && Shaped(su.cfg, s'.drv) && s'.nextQ == s.nextQ
    decreases n
  {
    hide Shape, Shaped, Visit, BanksPerChannel, QueueAt, NextQueue;
    if n > 0 {
      var qi := QueueAt(su.cfg.g, ch, k);
      ChannelQueue(su.cfg.g, ch, k);
      ShapeQueues(su, s);
      VisitShape(su, s, qi);
      VisitsShape(su, Visit(su, s, qi), ch, NextQueue(su.cfg.g, k), n - 1);
    }
  }

  /** The queues of a channel in the order in which a round starting at `k` visits them. */
  function VisitOrder(g: Geometry, k: nat, n: nat): seq<nat>
    requires g.Valid()
    decreases n
  {
    if n == 0 then [] else [k] + VisitOrder(g, NextQueue(g, k), n - 1)
  }

  lemma {:induction false} VisitedAt(g: Geometry, k: nat, n: nat, i: nat)
    requires g.Valid() && k < BanksPerChannel(g) && i < n
    ensures |VisitOrder(g, k, n)| == n && BanksPerChannel(g) >= 1 && VisitOrder(g, k, n)[i] == (k + i) % BanksPerChannel(g)
    decreases n
  {
    var bpc := BanksPerChannel(g);
    if i > 0 {
      VisitedAt(g, NextQueue(g, k), n - 1, i - 1);
      Shifted(k + 1, i - 1, bpc);
    } else {
      DivUnique(k, bpc, 0, k);
      if n > 1 { VisitedAt(g, NextQueue(g, k), n - 1, 0); }
    }
  }

  lemma Shifted(a: nat, i: nat, n: nat)
    requires n >= 1
    ensures (a % n + i) % n == (a + i) % n
  {
    DivOffset(a / n, n, a % n + i);
    assert a == (a / n) * n + a % n;
  }

  /** A round of a channel visits every queue of the channel exactly once. */
  lemma RoundCoversAll(g: Geometry, k: nat, q: nat)
    requires g.Valid() && k < BanksPerChannel(g) && q < BanksPerChannel(g)
    ensures var order := VisitOrder(g, k, BanksPerChannel(g));
      exists i | 0 <= i < |order| :: order[i] == q && forall j | 0 <= j < |order| && order[j] == q :: j == i
  {
    var n := BanksPerChannel(g);
    var i := if q >= k then q - k else q + n - k;
    var order := VisitOrder(g, k, n);
    VisitedAt(g, k, n, i);
    Wrap(n, k, i);
    forall j | 0 <= j < |order| && order[j] == q
      ensures j == i
    {
      VisitedAt(g, k, n, j);
      Wrap(n, k, j);
    }
  }

  lemma Wrap(n: nat, k: nat, i: nat)
    requires k < n && i < n
    ensures (k + i) % n == if k + i < n then k + i else k + i - n
  {
    if k + i < n { DivUnique(k + i, n, 0, k + i); } else { DivUnique(k + i, n, 1, k + i - n); }
  }

  /** The visits of a list of queues of a channel, one after the other. */
  function VisitAll(su: Setup, s: System, ch: nat, order: seq<nat>): System
    requires su.Valid() && Shape(su, s) && Shaped(su.cfg, s.drv) && ch < su.cfg.g.channels
    requires forall i | 0 <= i < |order| :: order[i] < BanksPerChannel(su.cfg.g)
    decreases |order|
  {
    if order == [] then s
    else
      ChannelQueue(su.cfg.g, ch, order[0]);
      ShapeQueues(su, s);
      var qi := QueueAt(su.cfg.g, ch, order[0]);
      VisitShape(su, s, qi);
      VisitAll(su, Visit(su, s, qi), ch, order[1..])
  }

  lemma OrderInRange(g: Geometry, k: nat, n: nat)
    requires g.Valid() && k < BanksPerChannel(g)
    ensures var order := VisitOrder(g, k, n); forall i | 0 <= i < |order| :: order[i] < BanksPerChannel(g)
  {
    var order := VisitOrder(g, k, n);
    if n > 0 { VisitedAt(g, k, n, 0); }
    forall i | 0 <= i < |order|
      ensures order[i] < BanksPerChannel(g)
    {
      VisitedAt(g, k, n, i);
    }
  }

  /** The round of a channel is one visit per queue, in the order in which `RoundCoversAll` counts them. */
  lemma {:induction false} RoundIsOrder(su: Setup, s: System, ch: nat, k: nat, n: nat)
    requires su.Valid() && Shape(su, s) && Shaped(su.cfg, s.drv) && ch < su.cfg.g.channels && k < BanksPerChannel(su.cfg.g)
    ensures forall i | 0 <= i < |VisitOrder(su.cfg.g, k, n)| :: VisitOrder(su.cfg.g, k, n)[i] < BanksPerChannel(su.cfg.g)
    ensures VisitsFrom(su, s, ch, k, n) == VisitAll(su, s, ch, VisitOrder(su.cfg.g, k, n))
    decreases n
  {
    OrderInRange(su.cfg.g, k, n);
    if n > 0 {
      ChannelQueue(su.cfg.g, ch, k);
      ShapeQueues(su, s);
      VisitShape(su, s, QueueAt(su.cfg.g, ch, k));
      RoundIsOrder(su, Visit(su, s, QueueAt(su.cfg.g, ch, k)), ch, NextQueue(su.cfg.g, k), n - 1);
      hide Shape, Shaped, Visit, BanksPerChannel, QueueAt, NextQueue;
    }
  }

  lemma ShapeQueues(su: Setup, s: System)
    requires su.Valid() && Shape(su, s)
    ensures |s.queues| == |s.infos| == |s.streams| == su.cfg.g.NumBanks() && |s.nextQ| == su.cfg.g.channels
  {
  }

  predicate Indexed(su: Setup, s: System) {
    forall ch | 0 <= ch < |s.nextQ| :: s.nextQ[ch] < BanksPerChannel(su.cfg.g)
  }

  /** c_CmdScheduler::run from channel `ch` on. */
  function ScheduleFrom(su: Setup, s: System, ch: nat): System
    requires su.Valid() && Shape(su, s) && Shaped(su.cfg, s.drv) && Indexed(su, s) && ch <= su.cfg.g.channels
    decreases su.cfg.g.channels - ch
  {
    if ch == su.cfg.g.channels then s
    else
      var bpc := BanksPerChannel(su.cfg.g);
      VisitsShape(su, s, ch, s.nextQ[ch], bpc);
      var s1 := VisitsFrom(su, s, ch, s.nextQ[ch], bpc);
      ScheduleFrom(su, s1.(nextQ := s1.nextQ[ch := NextQueue(su.cfg.g, s1.nextQ[ch])]), ch + 1)
  }

  function Schedule(su: Setup, s: System): System
    requires su.Valid() && Shape(su, s) && Shaped(su.cfg, s.drv) && Indexed(su, s)
  {
    ScheduleFrom(su, s, 0)
  }

  // ---- What every phase keeps

  /** Per bank: the stream is accounted for, the converter tracks it, and what is queued fits the
      bank's row; with refresh off the bank follows its stream to the letter. */
  ghost predicate BankFlow(su: Setup, s: System, b: nat)
    requires su.Valid() && b < |s.queues| && b < |s.streams| && b < |s.infos| && b < |s.drv.dev.banks|
  {
    && Accounted(s.drv, b, s.queues[b], s.streams[b])
    && Conv.Tracks(su.rules, s.infos[b], RB.After(RB.Closed, s.streams[b]))
    && (if su.cfg.useRefresh then
          BankRows(s.drv, b, s.queues[b], RB.After(RB.Closed, s.streams[b]))
        else
          Pipeline(s.drv, b) + s.queues[b] == s.streams[b] && Follows(s.drv, b, s.queues[b]))
  }

  ghost predicate Inv(su: Setup, s: System)
    requires su.Valid()
  {
    && Shape(su, s) && Indexed(su, s)
    && Safety.Inv(su.cfg, s.drv)
    && |s.drv.dev.banks| == |s.queues|
    && RowsOpen(s.drv.dev.trace) && ClosedDiscards(s.drv.discarded)
    && (su.cfg.useRefresh ==> Clear(s.drv))
    && (forall b | 0 <= b < |s.queues| :: BankFlow(su, s, b))
  }

  /** Between the start of a cycle and the driver's run. */
  ghost predicate Quiet(s: System) { Safety.Quiet(s.drv) && SettledUnlessBlocked(s.drv) }

  lemma ConvertBank(su: Setup, s: System, i: nat, b: nat)
    requires su.Valid() && Inv(su, s) && i < |s.pending| && b < |s.queues|
    requires QueueIndex(su.cfg.g, s.pending[i].channel, s.pending[i].bank) == s.pending[i].bank < |s.queues|
    requires HasRoom(su, s, s.pending[i])
    ensures BankFlow(su, ConvertOne(su, s, i), b)
  {
    var t := s.pending[i];
    assert BankFlow(su, s, b) && BankFlow(su, s, t.bank) && WellFormed(su, t);
    hide Inv, Shape, QueueIndex, WellFormed, Conv.Note, Conv.Tracks, Queued, Accounted, BankRows, Follows;
    if b == t.bank {
      var (info, cmds) := Conv.Commands(su.rules, s.infos[b], t, t.count);
      ConvertOwn(su, s, t, info, cmds);
    }
  }

  /** The bank of the converted transaction. */
  lemma ConvertOwn(su: Setup, s: System, t: Conv.Txn, info: Conv.RowInfo, cmds: seq<Cmd>)
    requires su.Valid() && WellFormed(su, t) && t.bank < |s.queues| == |s.streams| == |s.infos| == |s.drv.dev.banks|
    requires BankFlow(su, s, t.bank) && |s.queues[t.bank]| + 3 <= su.capacity
    requires (info, cmds) == Conv.Commands(su.rules, s.infos[t.bank], t, t.count)
    ensures PushAll(su, s.queues[t.bank], cmds) == (s.queues[t.bank] + cmds, true)
    ensures
      var b := t.bank;
      BankFlow(su, s.(queues := s.queues[b := s.queues[b] + cmds], streams := s.streams[b := s.streams[b] + cmds],
                      infos := s.infos[b := Conv.Note(su.rules, info, t)]), b)
  {
    var b, q, line := t.bank, s.queues[t.bank], s.streams[t.bank];
    TxnCommands(su, s.infos[b], t, RB.After(RB.Closed, line));
    PushAllFits(su, q, cmds);
    hide WellFormed, Conv.Note, Queued, OfBank, SentTo, RB.Matches, Accounted, RowOf, Reopen.Fits, RB.After, RB.Next;
    RB.AfterConcat(RB.Closed, line, cmds);
    MoreStream(s.drv, b, q, line, cmds);
    TracksNotBad(su.rules, Conv.Note(su.rules, info, t), RB.After(RB.Closed, line + cmds));
    if su.cfg.useRefresh {
      Reopen.FitsMore(RowOf(s.drv.dev.trace, b), OfBank(s.drv.inputQ, b), q, RB.After(RB.Closed, line), cmds);
    } else {
      var p := Pipeline(s.drv, b);
      assert p + (q + cmds) == (p + q) + cmds;
    }
  }

  lemma TracksNotBad(r: Conv.Rules, info: Conv.RowInfo, s: RB.Status)
    requires Conv.Tracks(r, info, s)
    ensures !s.Bad?
  {
  }

  lemma ConvertInv(su: Setup, s: System, i: nat)
    requires su.Valid() && Inv(su, s) && i < |s.pending|
    requires QueueIndex(su.cfg.g, s.pending[i].channel, s.pending[i].bank) == s.pending[i].bank < |s.queues|
    requires HasRoom(su, s, s.pending[i])
    ensures Inv(su, ConvertOne(su, s, i)) && ConvertOne(su, s, i).drv == s.drv
  {
    ConvertShape(su, s, i);
    var s' := ConvertOne(su, s, i);
    hide Shape, QueueIndex, BankFlow, Safety.Inv, HasRoom, Clear, RowsOpen, ClosedDiscards;
    ShapeQueues(su, s);
    ShapeQueues(su, s');
    forall b | 0 <= b < |s.queues|
      ensures BankFlow(su, s', b)
    {
      ConvertBank(su, s, i, b);
    }
  }

  lemma {:induction false} ConvertFromInv(su: Setup, s: System, i: nat)
    requires su.Valid() && Inv(su, s) && i <= |s.pending|
    ensures Inv(su, ConvertFrom(su, s, i)) && ConvertFrom(su, s, i).drv == s.drv
    decreases |s.pending| - i
  {
    hide Safety.Inv, BankFlow, ConvertOne, QueueIndex, HasRoom, QueueShape, RowsOpen, Clear, ClosedDiscards;
    if i < |s.pending| {
      PendingIndex(su, s.pending[i]);
      if HasRoom(su, s, s.pending[i]) {
        ConvertInv(su, s, i);
        ConvertShorter(su, s, i);
        ConvertFromInv(su, ConvertOne(su, s, i), i);
      } else {
        ConvertFromInv(su, s, i + 1);
      }
    }
  }

  lemma ConvertShorter(su: Setup, s: System, i: nat)
    requires su.Valid() && i < |s.pending| && |s.infos| == |s.queues| == |s.streams| && s.pending[i].bank < |s.infos|
    requires QueueIndex(su.cfg.g, s.pending[i].channel, s.pending[i].bank) < |s.queues|
    ensures |ConvertOne(su, s, i).pending| == |s.pending| - 1
  {
  }

  lemma AgeInv(su: Setup, s: System)
    requires su.Valid() && Inv(su, s)
    ensures Inv(su, s.(infos := AgeAll(su, s.infos)))
  {
    hide Safety.Inv, RowsOpen, QueueShape, WellFormed, Conv.Age, Conv.Tracks, Follows, RB.After, Pipeline, Accounted, BankRows, Clear, ClosedDiscards;
    var s' := s.(infos := AgeAll(su, s.infos));
    forall b | 0 <= b < |s.queues|
      ensures BankFlow(su, s', b)
    {
      assert BankFlow(su, s, b);
      Conv.AgeTracks(su.rules, s.infos[b], RB.After(RB.Closed, s.streams[b]));
    }
  }

  // ---- The scheduler's visits

  /** What the driver does with an offered queue head, seen by one bank whose queue is `q`;
      `tail` is the rest of the offering queue. */
  lemma OfferFlow(su: Setup, d: Driver, c: Cmd, b: nat, q: seq<Cmd>, tail: seq<Cmd>, stream: seq<Cmd>)
    requires su.Valid() && Shaped(su.cfg, d) && Queued(su.cfg, c) && c.bank < |d.dev.banks| && b < |d.dev.banks|
    requires !su.cfg.useRefresh ==> Follows(d, c.bank, [c] + tail) && RB.Settled(d.dev.banks[c.bank])
    requires (c.bank == b ==> q == [c] + tail) && Accounted(d, b, q, stream)
    ensures
      var (d1, ok) := IsCmdAllowed(su.cfg, d, c);
      && d1.dev == d.dev && d1.discarded == d.discarded && Accounted(d1, b, q, stream)
      && (!su.cfg.useRefresh ==> d1 == d)
      && Shaped(su.cfg, d1)
      && var (d2, pushed) := Push(su.cfg, d1, c);
         var q' := if pushed && c.bank == b then tail else q;
         && d2.dev == d.dev && d2.discarded == d.discarded && Accounted(d2, b, q', stream)
         && Pipeline(d2, b) + q' == Pipeline(d1, b) + q
  {
    hide Shaped, Queued, OfBank, SentTo, Follows, BusFree, IsCmdAllowed, Push, RB.Settled, Accounted, DiscardedOf;
    var (d1, ok) := IsCmdAllowed(su.cfg, d, c);
    OfferSameDevice(su, d, c);
    AllowedAccount(su.cfg, d, c, b, q, tail, stream);
    if !su.cfg.useRefresh { AllowedInsertsNothing(su.cfg, d, c, tail); }
    OfferSameDevice(su, d1, c);
    PushPipeline(su.cfg, d1, c, b);
    PushQueue(su.cfg, d1, c, b);
    var (d2, pushed) := Push(su.cfg, d1, c);
    var mine, q' := OfBank(d1.inputQ, b), if pushed && c.bank == b then tail else q;
    assert OfBank(d2.inputQ, b) + q' == mine + q by {
      if pushed && c.bank == b { assert (mine + [c]) + tail == mine + q; }
    }
    SameAccount(d1, d2, b, q, q', stream);
    assert SentTo(d1.dev.trace, b) + (mine + q) == (SentTo(d1.dev.trace, b) + mine) + q;
    assert SentTo(d1.dev.trace, b) + (OfBank(d2.inputQ, b) + q') == (SentTo(d1.dev.trace, b) + OfBank(d2.inputQ, b)) + q';
  }

  lemma PushQueue(cfg: Config, d: Driver, c: Cmd, b: nat)
    requires cfg.Valid() && Shaped(cfg, d) && Queued(cfg, c)
    ensures var (d', pushed) := Push(cfg, d, c);
      d'.discarded == d.discarded && OfBank(d'.inputQ, b) == OfBank(d.inputQ, b) + if pushed && c.bank == b then [c] else []
  {
    hide OfBank, Shaped;
    OfBankConcat(d.inputQ, [c], b);
    OfBankOne(c, b);
  }

  lemma OfferSameDevice(su: Setup, d: Driver, c: Cmd)
    requires su.Valid() && Shaped(su.cfg, d) && Queued(su.cfg, c)
    ensures IsCmdAllowed(su.cfg, d, c).0.dev == d.dev && Push(su.cfg, d, c).0.dev == d.dev
    ensures IsCmdAllowed(su.cfg, d, c).0.discarded == d.discarded && Push(su.cfg, d, c).0.discarded == d.discarded
    ensures Shaped(su.cfg, IsCmdAllowed(su.cfg, d, c).0)
  {
    Safety.RequestShaped(su.cfg, d, c);
  }

  lemma FollowsSame(d: Driver, d': Driver, b: nat, q: seq<Cmd>, q': seq<Cmd>)
    requires b < |d.dev.banks| && d'.dev == d.dev && Follows(d, b, q) && Pipeline(d', b) + q' == Pipeline(d, b) + q
    ensures Follows(d', b, q')
  {
  }

  /** A queue head offered to the driver, seen by one bank. */
  lemma VisitBank(su: Setup, s: System, qi: nat, b: nat)
    requires su.Valid() && Inv(su, s) && Quiet(s) && qi < |s.queues| && b < |s.queues| && s.queues[qi] != []
    ensures var s' := Visit(su, s, qi); s'.drv.dev == s.drv.dev && s'.drv.discarded == s.drv.discarded && BankFlow(su, s', b)
  {
    hide Safety.Inv, Conv.Tracks, RB.Matches, RB.After, RB.Settled, Pipeline, Queued, IsCmdAllowed, Push, RowsOpen, Follows,
         Accounted, BankRows, Clear, ClosedDiscards;
    assert BankFlow(su, s, b) && BankFlow(su, s, qi) && QueueShape(su, qi, s.queues[qi]);
    SafetyShaped(su, s);
    var c, q := s.queues[qi][0], s.queues[b];
    var tail := s.queues[qi][1..];
    assert s.queues[qi] == [c] + tail;
    OfferFlow(su, s.drv, c, b, q, tail, s.streams[b]);
    var (d1, ok) := IsCmdAllowed(su.cfg, s.drv, c);
    var s' := Visit(su, s, qi);
    if su.cfg.useRefresh {
      OfferRows(su, s.drv, c, b, q, tail, RB.After(RB.Closed, s.streams[b]));
    }
    if ok {
      var (d2, pushed) := Push(su.cfg, d1, c);
      assert s'.drv == d2 && s'.queues[b] == if pushed && qi == b then tail else q;
    }
    if !su.cfg.useRefresh { FollowsSame(s.drv, s'.drv, b, q, s'.queues[b]); }
  }

  /** The same for the rows, with refresh on. */
  lemma OfferRows(su: Setup, d: Driver, c: Cmd, b: nat, q: seq<Cmd>, tail: seq<Cmd>, st: RB.Status)
    requires su.Valid() && Shaped(su.cfg, d) && Queued(su.cfg, c) && b < |d.dev.banks| && BankRows(d, b, q, st)
    requires RB.Settled(d.dev.banks[b]) && (c.bank == b ==> q == [c] + tail)
    ensures
      var (d1, ok) := IsCmdAllowed(su.cfg, d, c);
      && Shaped(su.cfg, d1) && d1.dev == d.dev && BankRows(d1, b, q, st)
      && (ok ==> var (d2, pushed) := Push(su.cfg, d1, c);
                 d2.dev == d.dev && BankRows(d2, b, if pushed && c.bank == b then tail else q, st))
  {
    hide Shaped, Queued, IsCmdAllowed, Push, BankRows, RB.Settled, Reopen.Fits, RowOf, OfBank;
    OfferSameDevice(su, d, c);
    AllowedRows(su.cfg, d, c, b, q, tail, st);
    var (d1, ok) := IsCmdAllowed(su.cfg, d, c);
    if ok { PushRows(su.cfg, d1, c, b, q, tail, st); }
  }

  lemma SafetyShaped(su: Setup, s: System)
    requires su.Valid() && Inv(su, s)
    ensures Shaped(su.cfg, s.drv)
  {
  }

  lemma VisitInv(su: Setup, s: System, qi: nat)
    requires su.Valid() && Inv(su, s) && Quiet(s) && qi < |s.queues|
    ensures Inv(su, Visit(su, s, qi)) && Quiet(Visit(su, s, qi))
  {
    hide RowsOpen, BankFlow, Visit, Quiet, Clear, ClosedDiscards, Shape, Safety.Inv, QueueShape;
    SafetyShaped(su, s);
    VisitShape(su, s, qi);
    VisitKeeps(su, s, qi);
    var s' := Visit(su, s, qi);
    ShapeQueues(su, s);
    ShapeQueues(su, s');
    if s.queues[qi] != [] {
      forall b | 0 <= b < |s.queues|
        ensures s'.drv.dev == s.drv.dev && s'.drv.discarded == s.drv.discarded && BankFlow(su, s', b)
      {
        VisitBank(su, s, qi, b);
      }
      assert BankFlow(su, s', qi);
      if su.cfg.useRefresh { OfferClear(su, s, qi); }
    }
  }

  lemma VisitKeeps(su: Setup, s: System, qi: nat)
    requires su.Valid() && Inv(su, s) && Quiet(s) && qi < |s.queues|
    ensures var s' := Visit(su, s, qi); Safety.Inv(su.cfg, s'.drv) && Quiet(s') && s'.nextQ == s.nextQ
    ensures s.queues[qi] == [] ==> Visit(su, s, qi) == s
  {
    hide RowsOpen, BankFlow, IsCmdAllowed, Push, SettledUnlessBlocked, Clear, ClosedDiscards, Safety.Inv, Safety.Quiet;
    SafetyShaped(su, s);
    assert QueueShape(su, qi, s.queues[qi]);
    if s.queues[qi] != [] { OfferKeeps(su, s.drv, s.queues[qi][0]); }
  }

  lemma OfferClear(su: Setup, s: System, qi: nat)
    requires su.Valid() && su.cfg.useRefresh && Inv(su, s) && qi < |s.queues| && s.queues[qi] != []
    ensures Clear(Visit(su, s, qi).drv)
  {
    hide Safety.Inv, Clear, IsCmdAllowed, Push, BankFlow;
    assert QueueShape(su, qi, s.queues[qi]);
    SafetyShaped(su, s);
    var c := s.queues[qi][0];
    OfferSameDevice(su, s.drv, c);
    RequestClear(su.cfg, s.drv, c);
    AllowedSame(su, s.drv, c);
  }

  lemma AllowedSame(su: Setup, d: Driver, c: Cmd)
    requires su.Valid() && Shaped(su.cfg, d) && Queued(su.cfg, c)
    ensures var (d', ok) := IsCmdAllowed(su.cfg, d, c); ok ==> d' == d
  {
    hide BusFree, Allowed, HasAct;
  }

  lemma OfferKeeps(su: Setup, d: Driver, c: Cmd)
    requires su.Valid() && Safety.Inv(su.cfg, d) && Safety.Quiet(d) && SettledUnlessBlocked(d) && Queued(su.cfg, c)
    ensures
      var d1 := IsCmdAllowed(su.cfg, d, c).0;
      && Safety.Inv(su.cfg, d1) && Safety.Quiet(d1) && SettledUnlessBlocked(d1) && d1.dev == d.dev
      && var d2 := Push(su.cfg, d1, c).0;
         Safety.Inv(su.cfg, d2) && Safety.Quiet(d2) && SettledUnlessBlocked(d2) && d2.dev == d.dev
  {
    var d1 := IsCmdAllowed(su.cfg, d, c).0;
    Safety.RequestInv(su.cfg, d, c);
    Safety.RequestInv(su.cfg, d1, c);
    hide Safety.Inv, Shaped, Queued, RB.Settled;
    assert d1.blocked == d.blocked && Push(su.cfg, d1, c).0.blocked == d.blocked;
  }

  lemma Formed(su: Setup, s: System)
    requires su.Valid() && Inv(su, s)
    ensures Shape(su, s) && Indexed(su, s)
  {
  }

  lemma {:induction false} VisitsInv(su: Setup, s: System, ch: nat, k: nat, n: nat)
    requires su.Valid() && Inv(su, s) && Quiet(s) && ch < su.cfg.g.channels && k < BanksPerChannel(su.cfg.g)
    ensures Inv(su, VisitsFrom(su, s, ch, k, n)) && Quiet(VisitsFrom(su, s, ch, k, n))
    decreases n
  {
    hide Inv, Quiet, Shape, Shaped, Visit, BanksPerChannel, QueueAt, NextQueue, Geometry.NumBanks;
    SafetyShaped(su, s);
    Formed(su, s);
    ShapeQueues(su, s);
    if n > 0 {
      var qi := QueueAt(su.cfg.g, ch, k);
      ChannelQueue(su.cfg.g, ch, k);
      VisitShape(su, s, qi);
      VisitInv(su, s, qi);
      VisitsInv(su, Visit(su, s, qi), ch, NextQueue(su.cfg.g, k), n - 1);
    }
  }

  lemma {:induction false} ScheduleFromInv(su: Setup, s: System, ch: nat)
    requires su.Valid() && Inv(su, s) && Quiet(s) && ch <= su.cfg.g.channels
    ensures Inv(su, ScheduleFrom(su, s, ch)) && Quiet(ScheduleFrom(su, s, ch))
    decreases su.cfg.g.channels - ch
  {
    hide Safety.Inv, Quiet, BankFlow, QueueShape, BanksPerChannel, NextQueue, VisitsFrom, RowsOpen, Clear, ClosedDiscards;
    if ch < su.cfg.g.channels {
      var bpc := BanksPerChannel(su.cfg.g);
      SafetyShaped(su, s);
      VisitsShape(su, s, ch, s.nextQ[ch], bpc);
      VisitsInv(su, s, ch, s.nextQ[ch], bpc);
      var s1 := VisitsFrom(su, s, ch, s.nextQ[ch], bpc);
      NextQInv(su, s1, ch);
      var s2 := s1.(nextQ := s1.nextQ[ch := NextQueue(su.cfg.g, s1.nextQ[ch])]);
      ScheduleFromInv(su, s2, ch + 1);
    }
  }

  lemma NextQInv(su: Setup, s: System, ch: nat)
    requires su.Valid() && Inv(su, s) && Quiet(s) && ch < |s.nextQ|
    ensures var s' := s.(nextQ := s.nextQ[ch := NextQueue(su.cfg.g, s.nextQ[ch])]);
            Inv(su, s') && Quiet(s')
  {
    hide Safety.Inv, RowsOpen, QueueShape, WellFormed, Conv.Tracks, Follows, RB.After, Pipeline, BanksPerChannel, NextQueue,
         Accounted, BankRows, Clear, ClosedDiscards;
    var s' := s.(nextQ := s.nextQ[ch := NextQueue(su.cfg.g, s.nextQ[ch])]);
    forall b | 0 <= b < |s.queues|
      ensures BankFlow(su, s', b)
    {
      assert BankFlow(su, s, b);
    }
  }
}
