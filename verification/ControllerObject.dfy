/** The controller object with its converter and command queues, updated in place and proved
    to do what the value-level cycle does. */
module ControllerObject {
  import opened Dram
  import opened DriverMachine
  import Conv = Converter
  import opened DriverObject
  import opened Controller
  import E = EndToEnd

  class MemController {
    const su: Setup
    const drv: DeviceDriver
    var infos: seq<Conv.RowInfo>
    var pending: seq<Conv.Txn>
    var queues: seq<seq<Cmd>>
    var nextQ: seq<nat>
    ghost var streams: seq<seq<Cmd>>

    ghost predicate Valid()
      reads this, drv, drv.dev, drv.dev.banks
    {
      su.Valid() && drv.Valid() && drv.cfg == su.cfg && Shape(su, State()) && Indexed(su, State())
    }

    ghost function State(): System
      reads this, drv, drv.dev, drv.dev.banks
    {
      System(infos, pending, queues, nextQ, drv.State(), streams)
    }

    constructor (su: Setup)
      requires su.Valid()
      ensures Valid() && this.su == su && State() == Controller.Initial(su) && Inv(su, State())
      ensures fresh(drv) && fresh(drv.dev) && fresh(drv.dev.banks)
    {
      hide Inv, Shape, Indexed, DriverMachine.Initial, Geometry.NumBanks, Shaped;
      E.InitialInv(su);
      Formed(su, Controller.Initial(su));
      var n := su.cfg.g.NumBanks();
      this.su := su;
      drv := new DeviceDriver(su.cfg);
      infos := seq(n, i => Conv.RowInfo(false, 0, if su.rules.policy.POPEN? then su.rules.closeTime else 0));
      pending, queues, nextQ := [], seq(n, i => []), seq(su.cfg.g.channels, i => 0);
      streams := seq(n, i => []);
    }

    // ---- The transaction converter

    /** getPreCommands */
    method PreCommands(t: Conv.Txn, addr: nat) returns (cmds: seq<Cmd>)
      requires t.bank < |infos|
      modifies this`infos
      ensures |infos| == |old(infos)| && infos == old(infos)[t.bank := infos[t.bank]]
      ensures (infos[t.bank], cmds) == Conv.Before(su.rules, old(infos)[t.bank], t, addr)
    {
      var info := infos[t.bank];
      if su.rules.policy.CLOSE? { return [Conv.Command(t, ACT, addr)]; }
      if info.open {
        if info.row == t.row { return []; }
        cmds := [Conv.Command(t, PRE, addr), Conv.Command(t, ACT, addr)];
      } else {
        cmds := [Conv.Command(t, ACT, addr)];
      }
      if su.rules.policy.POPEN? { infos := infos[t.bank := info.(timer := su.rules.closeTime)]; }
    }

    /** getPostCommands */
    method PostCommands(t: Conv.Txn, addr: nat) returns (cmds: seq<Cmd>)
      requires t.bank < |infos|
      ensures cmds == Conv.Behind(su.rules, infos[t.bank], t, addr)
    {
      var close := false;
      var kind;
      if su.rules.policy.CLOSE? {
        if t.read {
          kind := if su.rules.useReadA then READA else READ;
        } else {
          kind := if su.rules.useReadA then WRITEA else WRITE;
        }
        close := !su.rules.useReadA;
      } else {
        kind := if t.read then READ else WRITE;
        close := su.rules.policy.POPEN? && infos[t.bank].timer == 0;
      }
      cmds := [Conv.Command(t, kind, addr)];
      if close { cmds := cmds + [Conv.Command(t, PRE, addr)]; }
    }

    /** getCommands */
    method GetCommands(t: Conv.Txn) returns (cmds: seq<Cmd>)
      requires t.bank < |infos|
      modifies this`infos
      ensures |infos| == |old(infos)| && infos == old(infos)[t.bank := infos[t.bank]]
      ensures (infos[t.bank], cmds) == Conv.Commands(su.rules, old(infos)[t.bank], t, t.count)
    {
      hide Conv.Before, Conv.Behind;
      cmds := [];
      for i := 0 to t.count
        invariant |infos| == |old(infos)| && infos == old(infos)[t.bank := infos[t.bank]]
        invariant (infos[t.bank], cmds) == Conv.Commands(su.rules, old(infos)[t.bank], t, i)
      {
        var addr := t.addr + su.rules.width * i;
        var before := PreCommands(t, addr);
        var behind := PostCommands(t, addr);
        cmds := cmds + before + behind;
      }
    }

    /** updateBankInfo */
    method UpdateRowInfo(t: Conv.Txn)
      requires t.bank < |infos|
      modifies this`infos
      ensures infos == old(infos)[t.bank := Conv.Note(su.rules, old(infos)[t.bank], t)]
    {
      var info := infos[t.bank];
      match su.rules.policy {
        case CLOSE => infos := infos[t.bank := info.(open := false)];
        case OPEN => infos := infos[t.bank := info.(open := true, row := t.row)];
        case POPEN =>
          infos := infos[t.bank := if info.timer == 0 then info.(open := false) else info.(open := true, row := t.row)];
      }
    }

    /** Push a transaction's commands; `accepted` is what the source asserts of each push. */
    method PushCommands(qi: nat, cmds: seq<Cmd>) returns (accepted: bool)
      requires qi < |queues|
      modifies this`queues
      ensures |queues| == |old(queues)| && queues == old(queues)[qi := queues[qi]]
      ensures (queues[qi], accepted) == PushAll(su, old(queues)[qi], cmds)
    {
      accepted := true;
      for i := 0 to |cmds|
        invariant |queues| == |old(queues)| && queues == old(queues)[qi := queues[qi]]
        invariant var (q, ok) := PushAll(su, queues[qi], cmds[i..]);
                  PushAll(su, old(queues)[qi], cmds) == (q, ok && accepted)
      {
        assert cmds[i..][1..] == cmds[i + 1..];
        if |queues[qi]| < su.capacity {
          queues := queues[qi := queues[qi] + [cmds[i]]];
        } else {
          accepted := false;
        }
      }
    }

    /** Convert the transaction at `i`; under the invariant no push is refused. */
    method ConvertAt(i: nat) returns (accepted: bool)
      requires Valid() && i < |pending|
      requires QueueIndex(su.cfg.g, pending[i].channel, pending[i].bank) == pending[i].bank < |queues|
      requires HasRoom(su, State(), pending[i])
      modifies this
      ensures Valid() && State() == ConvertOne(su, old(State()), i)
      ensures Inv(su, old(State())) ==> accepted
    {
      hide Shape, Indexed, Conv.Commands, Conv.Note, PushAll, QueueIndex, Inv, Remove, WellFormed, HasRoom, Geometry.NumBanks;
      ghost var was := State();
      ConvertShape(su, was, i);
      ShapeQueues(su, was);
      var t := pending[i];
      ghost var info := infos[t.bank];
      var cmds := GetCommands(t);
      accepted := PushCommands(QueueIndex(su.cfg.g, t.channel, t.bank), cmds);
      UpdateRowInfo(t);
      pending := Remove(pending, i);
      streams := streams[t.bank := streams[t.bank] + cmds];
      if Inv(su, was) { PushAccepted(su, was, i); }
      assert State() == ConvertOne(su, was, i);
      SameIndices(su, was, State());
    }

    /** c_TxnConverter::run */
    method RunConverter()
      requires Valid()
      modifies this
      ensures Valid() && State() == Convert(su, old(State()))
    {
      hide Shape, Indexed, ConvertOne, QueueIndex, HasRoom, Conv.Age;
      ghost var was := State();
      var i := 0;
      while i < |pending|
        invariant Valid() && 0 <= i <= |pending|
        invariant ConvertFrom(su, State(), i) == ConvertFrom(su, was, 0)
        decreases |pending| - i
      {
        PendingRange(su, State(), i);
        var qi := QueueIndex(su.cfg.g, pending[i].channel, pending[i].bank);
        assert HasRoom(su, State(), pending[i]) == (su.capacity - |queues[qi]| >= 3) by { RoomMeans(su, State(), pending[i]); }
        if su.capacity - |queues[qi]| >= 3 {
          ConvertShorter(su, State(), i);
          var _ := ConvertAt(i);
        } else {
          i := i + 1;
        }
      }
      ghost var done := State();
      AgeRows();
      assert Valid() by { AgedShape(su, done); }
    }

    /** The converter's own clock edge. */
    method AgeRows()
      modifies this`infos
      ensures infos == AgeAll(su, old(infos))
    {
      if su.rules.policy.POPEN? {
        for b := 0 to |infos|
          invariant |infos| == |old(infos)|
          invariant forall j | 0 <= j < |infos| :: infos[j] == if j < b then Conv.Age(su.rules, old(infos)[j]) else old(infos)[j]
        {
          if infos[b].open && infos[b].timer > 0 { infos := infos[b := infos[b].(timer := infos[b].timer - 1)]; }
        }
      }
    }

    // ---- The command scheduler

    /** One queue offers its head to the driver. */
    method VisitQueue(qi: nat)
      requires Valid() && qi < |queues|
      modifies this`queues, drv
      ensures Valid() && State() == Visit(su, old(State()), qi)
    {
      ghost var was := State();
      assert QueueShape(su, qi, queues[qi]);
      VisitShape(su, was, qi);
      hide Shape, Indexed, IsCmdAllowed, Push, Shaped;
      if queues[qi] != [] {
        var c := queues[qi][0];
        var ok := drv.IsAllowed(c);
        if ok {
          var pushed := drv.PushCommand(c);
          if pushed { queues := queues[qi := queues[qi][1..]]; }
        }
      }
      SameIndices(su, was, State());
    }

    /** One channel's round of visits. */
    method VisitChannel(ch: nat)
      requires Valid() && ch < su.cfg.g.channels == |nextQ| && nextQ[ch] < BanksPerChannel(su.cfg.g)
      modifies this`queues, drv
      ensures Valid() && State() == VisitsFrom(su, old(State()), ch, nextQ[ch], BanksPerChannel(su.cfg.g))
    {
      hide Shape, Indexed, Shaped, Visit, BanksPerChannel, QueueAt, NextQueue;
      ghost var was := State();
      var n := BanksPerChannel(su.cfg.g);
      var k: nat := nextQ[ch];
      for i := 0 to n
        invariant Valid() && k < BanksPerChannel(su.cfg.g) && nextQ == was.nextQ
        invariant VisitsFrom(su, State(), ch, k, n - i) == VisitsFrom(su, was, ch, nextQ[ch], n)
      {
        ChannelQueue(su.cfg.g, ch, k);
        ShapeQueues(su, State());
        VisitQueue(QueueAt(su.cfg.g, ch, k));
        k := NextQueue(su.cfg.g, k);
      }
    }

    /** c_CmdScheduler::run */
    method RunScheduler()
      requires Valid()
      modifies this`queues, this`nextQ, drv
      ensures Valid() && State() == Schedule(su, old(State()))
    {
      hide Shape, Shaped, VisitsFrom, BanksPerChannel, NextQueue;
      ghost var was := State();
      for ch := 0 to su.cfg.g.channels
        invariant Valid() && ScheduleFrom(su, State(), ch) == ScheduleFrom(su, was, 0)
      {
        ShapeQueues(su, State());
        ghost var s0 := State();
        VisitsShape(su, s0, ch, nextQ[ch], BanksPerChannel(su.cfg.g));
        VisitChannel(ch);
        ghost var s1 := State();
        nextQ := nextQ[ch := NextQueue(su.cfg.g, nextQ[ch])];
        NextShape(su, s1, nextQ);
      }
    }

    // ---- The controller

    /** c_Controller::clockTic with the transactions that reach the converter in this cycle. */
    method ClockTic(txns: seq<Conv.Txn>)
      requires Valid() && Inv(su, State()) && E.WellFormedAll(su, txns)
      modifies this, drv, drv.dev, drv.dev.banks
      ensures Valid() && Inv(su, State()) && State() == E.Cycle(su, old(State()), txns)
    {
      hide Inv, Shape, Indexed, Shaped, Convert, Schedule, Run, Update, E.WellFormedAll, Quiet;
      ghost var was := State();
      E.CycleInv(su, was, txns);
      E.StartInv(su, was, txns);
      drv.BeginCycle();
      pending := pending + txns;
      Formed(su, State());
      RunConverter();
      RunScheduler();
      drv.RunCycle();
      Formed(su, State());
    }
  }

  lemma PushAccepted(su: Setup, s: System, i: nat)
    requires su.Valid() && Inv(su, s) && i < |s.pending|
    requires QueueIndex(su.cfg.g, s.pending[i].channel, s.pending[i].bank) == s.pending[i].bank < |s.queues|
    requires s.pending[i].bank < |s.infos| && HasRoom(su, s, s.pending[i])
    ensures var t := s.pending[i];
            PushAll(su, s.queues[t.bank], Conv.Commands(su.rules, s.infos[t.bank], t, t.count).1).1
  {
    var t := s.pending[i];
    assert BankFlow(su, s, t.bank) && WellFormed(su, t);
    hide Inv, Shape, QueueIndex, WellFormed, Queued;
    ConvertOwn(su, s, t, Conv.Commands(su.rules, s.infos[t.bank], t, t.count).0,
               Conv.Commands(su.rules, s.infos[t.bank], t, t.count).1);
  }

  lemma SameIndices(su: Setup, s: System, s': System)
    requires Indexed(su, s) && s'.nextQ == s.nextQ
    ensures Indexed(su, s')
  {
  }

  lemma PendingRange(su: Setup, s: System, i: nat)
    requires su.Valid() && Shape(su, s) && i < |s.pending|
    ensures |s.queues| == |s.infos| == |s.streams|
    ensures QueueIndex(su.cfg.g, s.pending[i].channel, s.pending[i].bank) == s.pending[i].bank < |s.queues|
  {
    PendingIndex(su, s.pending[i]);
  }

  lemma RoomMeans(su: Setup, s: System, t: Conv.Txn)
    requires su.Valid() && QueueIndex(su.cfg.g, t.channel, t.bank) < |s.queues|
    ensures HasRoom(su, s, t) == (su.capacity - |s.queues[QueueIndex(su.cfg.g, t.channel, t.bank)]| >= 3)
  {
  }

  lemma AgedShape(su: Setup, s: System)
    requires su.Valid() && Shape(su, s) && Indexed(su, s)
    ensures Shape(su, s.(infos := AgeAll(su, s.infos))) && Indexed(su, s.(infos := AgeAll(su, s.infos)))
  {
    hide QueueShape, WellFormed, Conv.Age;
  }

  lemma NextShape(su: Setup, s: System, nextQ: seq<nat>)
    requires su.Valid() && Shape(su, s) && |nextQ| == |s.nextQ|
    ensures Shape(su, s.(nextQ := nextQ))
  {
    hide QueueShape, WellFormed;
  }
}
