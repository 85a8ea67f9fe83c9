/** With refresh off the driver sends every bank exactly its command stream, so a column
    command always finds its own row open. */
module Rows {
  import opened Dram
  import opened BankMachine
  import D = Device
  import opened DriverMachine
  import Safety = DriverSafety
  import opened Order
  import RB = RowBuffer

  /** Every column command found its row open. */
  ghost predicate RowsOpen(trace: seq<D.Issue>) {
    forall i | 0 <= i < |trace| :: trace[i].cmd.kind.IsColumn() ==> trace[i].open && trace[i].openRow == trace[i].cmd.row
  }

  /** Bank `bank` follows its stream, of which `rest` has not reached the driver yet. */
  ghost predicate Follows(d: Driver, bank: nat, rest: seq<Cmd>)
    requires bank < |d.dev.banks|
  {
    && !RB.After(RB.Closed, Pipeline(d, bank) + rest).Bad?
    && RB.Matches(d.dev.banks[bank], RB.After(RB.Closed, SentTo(d.dev.trace, bank)))
  }

  ghost predicate AllFollow(d: Driver, rests: seq<seq<Cmd>>) {
    && |rests| == |d.dev.banks|
    && RowsOpen(d.dev.trace)
    && forall b | 0 <= b < |rests| :: Follows(d, b, rests[b])
  }

  /** Banks not blocked in this pass have no command in hand while idle. */
  ghost predicate SettledUnlessBlocked(d: Driver) {
    |d.blocked| == |d.dev.banks|
    && forall b | 0 <= b < |d.blocked| :: d.blocked[b] || RB.Settled(d.dev.banks[b])
  }

  ghost predicate Sanes(d: Driver) {
    forall b | 0 <= b < |d.dev.banks| :: D.Sane(d.dev.banks[b])
  }

  /** The reference model accepts the next queued command of a bank. */
  lemma HeadLegal(d: Driver, bank: nat, rest: seq<Cmd>, c: Cmd, tail: seq<Cmd>)
    requires bank < |d.dev.banks| && Follows(d, bank, rest) && OfBank(d.inputQ, bank) == [c] + tail
    ensures !RB.Next(RB.After(RB.Closed, SentTo(d.dev.trace, bank)), c).Bad?
  {
    var sent := SentTo(d.dev.trace, bank);
    assert Pipeline(d, bank) + rest == (sent + [c]) + (tail + rest);
    RB.AfterConcat(RB.Closed, sent + [c], tail + rest);
    assert (sent + [c])[..|sent|] == sent;
    RB.BadStays(tail + rest);
  }

  lemma NoDrop(cfg: Config, d: Driver, i: nat, counts: seq<nat>, rest: seq<Cmd>)
    requires cfg.Valid() && Shaped(cfg, d) && i < |d.inputQ| && |counts| == cfg.g.NumRanks() && Scanned(cfg, d, i)
    requires SettledUnlessBlocked(d) && d.inputQ[i].bank < |d.dev.banks| && Follows(d, d.inputQ[i].bank, rest)
    ensures !Decide(cfg, d, i, counts).Drop?
  {
    var c := d.inputQ[i];
    if Decide(cfg, d, i, counts).Drop? {
      FirstOfBank(cfg, d, i, counts);
      RemoveHead(d.inputQ, i, c.bank);
      HeadLegal(d, c.bank, rest, c, OfBank(Remove(d.inputQ, i), c.bank));
      RB.OpenNotClosed(d.dev.banks[c.bank], RB.After(RB.Closed, SentTo(d.dev.trace, c.bank)));
      assert false;
    }
  }

  lemma SentFollows(cfg: Config, d: Driver, i: nat, b: nat, rest: seq<Cmd>)
    requires cfg.Valid() && Shaped(cfg, d) && i < |d.inputQ| && Sanes(d)
    requires D.CanSend(d.dev, d.inputQ[i].bank, d.inputQ[i].kind)
    requires forall j | 0 <= j < i :: d.inputQ[j].bank != d.inputQ[i].bank
    requires b < |d.dev.banks| && Follows(d, b, rest)
    ensures b < |Sent(cfg, d, i).dev.banks| && Follows(Sent(cfg, d, i), b, rest)
    ensures var c := d.inputQ[i]; c.bank == b && c.kind.IsColumn() ==>
              d.dev.banks[b].rowOpen && d.dev.banks[b].openRow == c.row
  {
    hide Shaped, Handle, Raise, RB.Next, RB.Matches, RB.After, D.Sane, OfBank, SentTo, Queued, Sent, Remove;
    hide Geometry.Relation;
    assert D.Sane(d.dev.banks[b]);
    SentPipeline(cfg, d, i, b);
    SentBank(cfg, d, i, b);
    var c, sent := d.inputQ[i], SentTo(d.dev.trace, b);
    var s := RB.After(RB.Closed, sent);
    if c.bank == b {
      RemoveHead(d.inputQ, i, b);
      HeadLegal(d, b, rest, c, OfBank(Remove(d.inputQ, i), b));
      RB.HandleMatches(d.dev.banks[b], s, c, d.dev.cycle);
      RB.AfterOne(RB.Closed, sent, c);
    } else {
      assert SentTo(Sent(cfg, d, i).dev.trace, b) == sent;
      RB.RaiseMatches(cfg.p, d.dev.banks[b], cfg.g.Relation(c.bank, b), c.kind, d.dev.cycle, s);
    }
  }

  lemma SentBank(cfg: Config, d: Driver, i: nat, b: nat)
    requires cfg.Valid() && Shaped(cfg, d) && i < |d.inputQ|
    requires D.CanSend(d.dev, d.inputQ[i].bank, d.inputQ[i].kind) && b < |d.dev.banks|
    ensures
      var d', c := Sent(cfg, d, i), d.inputQ[i];
      && |d'.dev.banks| == |d.dev.banks|
      && d'.dev.banks[b] == if b == c.bank then Handle(d.dev.banks[b], c, d.dev.cycle)
                            else Raise(cfg.p, d.dev.banks[b], cfg.g.Relation(c.bank, b), c.kind, d.dev.cycle)
  {
    hide Handle, Raise, Queued, RefreshShaped;
    ShapedQueue(cfg, d, i);
  }

  lemma SentAllFollow(cfg: Config, d: Driver, i: nat, rests: seq<seq<Cmd>>)
    requires cfg.Valid() && Shaped(cfg, d) && i < |d.inputQ| && Sanes(d)
    requires D.CanSend(d.dev, d.inputQ[i].bank, d.inputQ[i].kind)
    requires forall j | 0 <= j < i :: d.inputQ[j].bank != d.inputQ[i].bank
    requires AllFollow(d, rests)
    ensures AllFollow(Sent(cfg, d, i), rests)
  {
    hide Shaped, Handle, Raise, Allowed, D.Sane, Follows;
    var c, d' := d.inputQ[i], Sent(cfg, d, i);
    forall b | 0 <= b < |rests|
      ensures Follows(d', b, rests[b])
      ensures c.bank == b && c.kind.IsColumn() ==> d.dev.banks[b].rowOpen && d.dev.banks[b].openRow == c.row
    {
      SentFollows(cfg, d, i, b, rests[b]);
    }
    assert forall j | 0 <= j < |d.dev.trace| :: d'.dev.trace[j] == d.dev.trace[j];
  }

  lemma SentSettled(cfg: Config, d: Driver, i: nat)
    requires cfg.Valid() && Shaped(cfg, d) && i < |d.inputQ|
    requires D.CanSend(d.dev, d.inputQ[i].bank, d.inputQ[i].kind)
    requires d.blocked[d.inputQ[i].bank] && SettledUnlessBlocked(d)
    ensures SettledUnlessBlocked(Sent(cfg, d, i))
  {
    hide Queued, RefreshShaped, Handle;
    var c, d' := d.inputQ[i], Sent(cfg, d, i);
    ShapedQueue(cfg, d, i);
    forall b | 0 <= b < |d.blocked|
      ensures d'.blocked[b] || RB.Settled(d'.dev.banks[b])
    {
      RB.RaiseMatches(cfg.p, d.dev.banks[b], cfg.g.Relation(c.bank, b), c.kind, d.dev.cycle, RB.Closed);
    }
  }

  lemma StepFollows(cfg: Config, d: Driver, i: nat, counts: seq<nat>, rests: seq<seq<Cmd>>)
    requires cfg.Valid() && !cfg.useRefresh && Shaped(cfg, d) && i < |d.inputQ| && |counts| == cfg.g.NumRanks()
    requires Scanned(cfg, d, i) && Sanes(d) && SettledUnlessBlocked(d) && AllFollow(d, rests)
    ensures
      var d' := SendStep(cfg, d, i, counts).d;
      && SettledUnlessBlocked(d') && AllFollow(d', rests)
      && forall b | 0 <= b < |rests| :: Pipeline(d', b) == Pipeline(d, b)
  {
    ShapedQueue(cfg, d, i);
    hide Queued, RefreshShaped, D.Send, OfBank, SentTo, RB.Matches, D.Sane, AllBusy, RB.Settled;
    var c := d.inputQ[i];
    assert Follows(d, c.bank, rests[c.bank]);
    NoDrop(cfg, d, i, counts, rests[c.bank]);
    forall b | 0 <= b < |rests|
      ensures Pipeline(SendStep(cfg, d, i, counts).d, b) == Pipeline(d, b)
    {
      StepPipeline(cfg, d, i, counts, b);
    }
    MarkShaped(cfg, d, i);
    var d1 := Mark(cfg, d, i);
    MarkFollows(cfg, d, i, rests);
    if Decide(cfg, d, i, counts).Go? {
      FirstOfBank(cfg, d, i, counts);
      SentAllFollow(cfg, d1, i, rests);
      SentSettled(cfg, d1, i);
    }
  }

  lemma MarkFollows(cfg: Config, d: Driver, i: nat, rests: seq<seq<Cmd>>)
    requires cfg.Valid() && Shaped(cfg, d) && i < |d.inputQ|
    requires SettledUnlessBlocked(d) && AllFollow(d, rests)
    ensures SettledUnlessBlocked(Mark(cfg, d, i)) && AllFollow(Mark(cfg, d, i), rests)
  {
    hide Queued, RefreshShaped, OfBank, SentTo, RB.Matches, RB.Settled, RB.After;
    ShapedQueue(cfg, d, i);
    var d' := Mark(cfg, d, i);
    forall b | 0 <= b < |rests|
      ensures Follows(d', b, rests[b])
    {
      assert Follows(d, b, rests[b]);
    }
  }

  lemma {:induction false} SendFromFollows(cfg: Config, d: Driver, i: nat, counts: seq<nat>, rests: seq<seq<Cmd>>)
    requires cfg.Valid() && !cfg.useRefresh && Safety.Inv(cfg, d) && Safety.BusHeld(cfg, d)
    requires i <= |d.inputQ| && counts == ActCounts(d)
    requires Scanned(cfg, d, i) && SettledUnlessBlocked(d) && AllFollow(d, rests)
    ensures
      var d' := SendFrom(cfg, d, i, counts);
      AllFollow(d', rests) && forall b | 0 <= b < |rests| :: Pipeline(d', b) == Pipeline(d, b)
    decreases |d.inputQ| - i
  {
    hide SendStep, Safety.Tracks, Safety.FourActivate, Safety.BusHeld, Scanned, SettledUnlessBlocked, AllFollow, Pipeline,
         Queued, RefreshShaped, D.Seen, D.TimingSafe, ActCounts;
    if i < |d.inputQ| {
      assert Sanes(d);
      SendStepShaped(cfg, d, i, counts);
      ScanStep(cfg, d, i, counts);
      StepFollows(cfg, d, i, counts, rests);
      Safety.SendStepInv(cfg, d, i, counts);
      var s := SendStep(cfg, d, i, counts);
      if !s.stop { SendFromFollows(cfg, s.d, s.i, counts, rests); }
    }
  }

  /** One `run` with refresh off: every bank keeps following its stream, and nothing is
      inserted or dropped. */
  lemma RunFollows(cfg: Config, d: Driver, rests: seq<seq<Cmd>>)
    requires cfg.Valid() && !cfg.useRefresh && Safety.Inv(cfg, d) && Safety.Quiet(d)
    requires SettledUnlessBlocked(d) && AllFollow(d, rests)
    ensures
      var d' := Run(cfg, d);
      AllFollow(d', rests) && forall b | 0 <= b < |rests| :: Pipeline(d', b) == Pipeline(d, b)
  {
    Safety.RunRefreshInv(cfg, d);
    var d1 := RunRefresh(cfg, d);
    assert Safety.BusHeld(cfg, d1);
    hide Safety.Tracks, Safety.FourActivate, D.Valid, Safety.BusHeld, Shaped, RB.Matches, RB.After, OfBank, SentTo;
    assert d1.dev == d.dev && d1.inputQ == d.inputQ;
    forall b | 0 <= b < |rests|
      ensures Follows(d1, b, rests[b]) && Pipeline(d1, b) == Pipeline(d, b)
    {
      assert Follows(d, b, rests[b]);
    }
    SendFromFollows(cfg, d1, 0, ActCounts(d1), rests);
  }

  lemma UpdateFollows(cfg: Config, d: Driver, rests: seq<seq<Cmd>>)
    requires cfg.Valid() && Safety.Inv(cfg, d) && AllFollow(d, rests)
    ensures
      var d' := Update(cfg, d);
      && AllFollow(d', rests) && SettledUnlessBlocked(d')
      && forall b | 0 <= b < |rests| :: Pipeline(d', b) == Pipeline(d, b)
  {
    hide Safety.Tracks, Safety.FourActivate, D.Seen, D.TimingSafe, Queued, RefreshShaped, Tick, RB.Matches, RB.After,
         OfBank, SentTo, D.Sane, RB.Settled;
    var d' := Update(cfg, d);
    forall b | 0 <= b < |rests|
      ensures Follows(d', b, rests[b]) && RB.Settled(d'.dev.banks[b]) && Pipeline(d', b) == Pipeline(d, b)
    {
      assert Follows(d, b, rests[b]) && D.Sane(d.dev.banks[b]);
      RB.TickMatches(cfg.p, d.dev.banks[b], RB.After(RB.Closed, SentTo(d.dev.trace, b)), d.dev.cycle + 1);
    }
  }

  /** With refresh off isCmdAllowed never inserts an ACT for the head of a bank's queue. */
  lemma AllowedInsertsNothing(cfg: Config, d: Driver, c: Cmd, rest: seq<Cmd>)
    requires cfg.Valid() && !cfg.useRefresh && Shaped(cfg, d) && Queued(cfg, c) && c.bank < |d.dev.banks|
    requires Follows(d, c.bank, [c] + rest) && RB.Settled(d.dev.banks[c.bank])
    ensures IsCmdAllowed(cfg, d, c).0 == d
  {
    hide Shaped, RB.Matches, OfBank, SentTo;
    var bk, sent, queued := d.dev.banks[c.bank], SentTo(d.dev.trace, c.bank), OfBank(d.inputQ, c.bank);
    if c.kind.IsColumn() && bk.state.Closed() && !HasAct(d.inputQ, c.bank) {
      OfBankAll(d.inputQ, c.bank);
      assert forall i | 0 <= i < |queued| :: !queued[i].kind.ACT?;
      var s := RB.After(RB.Closed, sent);
      assert Pipeline(d, c.bank) + ([c] + rest) == (sent + queued) + ([c] + rest);
      RB.AfterConcat(RB.Closed, sent + queued, [c] + rest);
      RB.AfterConcat(RB.Closed, sent, queued);
      RB.AfterConcat(RB.After(s, queued), [c], rest);
      assert [c][..0] == [];
      RB.BadStays(rest);
      assert RB.After(s, queued).Open?;
      if s.Closed? {
        RB.NeedsAct(queued);
      } else {
        RB.BadStays(queued);
        RB.OpenNotClosed(bk, s);
      }
      assert false;
    }
  }
}
