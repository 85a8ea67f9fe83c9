/** Order and conservation of the request commands inside the driver. For one bank, the
    commands already sent followed by those still queued form its pipeline; the driver only
    moves commands along it. */
module Order {
  import opened Dram
  import opened BankMachine
  import D = Device
  import opened DriverMachine

  function OfBank(q: seq<Cmd>, bank: nat): seq<Cmd> {
    if q == [] then []
    else OfBank(q[..|q| - 1], bank) + if q[|q| - 1].bank == bank then [q[|q| - 1]] else []
  }

  /** Request commands sent to a bank, oldest first. */
  function SentTo(trace: seq<D.Issue>, bank: nat): seq<Cmd> {
    if trace == [] then []
    else
      var e := trace[|trace| - 1];
      SentTo(trace[..|trace| - 1], bank) + if e.bank == bank && !e.refresh then [e.cmd] else []
  }

  function Columns(q: seq<Cmd>): seq<Cmd> {
    if q == [] then []
    else Columns(q[..|q| - 1]) + if q[|q| - 1].kind.IsColumn() then [q[|q| - 1]] else []
  }

  function Pipeline(d: Driver, bank: nat): seq<Cmd> {
    SentTo(d.dev.trace, bank) + OfBank(d.inputQ, bank)
  }

  lemma {:induction false} OfBankConcat(q: seq<Cmd>, r: seq<Cmd>, bank: nat)
    ensures OfBank(q + r, bank) == OfBank(q, bank) + OfBank(r, bank)
  {
    if r == [] {
      assert q + r == q;
    } else {
      assert (q + r)[..|q + r| - 1] == q + r[..|r| - 1];
      OfBankConcat(q, r[..|r| - 1], bank);
    }
  }

  lemma {:induction false} ColumnsConcat(q: seq<Cmd>, r: seq<Cmd>)
    ensures Columns(q + r) == Columns(q) + Columns(r)
  {
    if r == [] {
      assert q + r == q;
    } else {
      assert (q + r)[..|q + r| - 1] == q + r[..|r| - 1];
      ColumnsConcat(q, r[..|r| - 1]);
    }
  }

  lemma OfBankOne(c: Cmd, bank: nat)
    ensures OfBank([c], bank) == if c.bank == bank then [c] else []
  {
    assert [c][..0] == [];
  }

  lemma ColumnsOne(c: Cmd)
    ensures Columns([c]) == if c.kind.IsColumn() then [c] else []
  {
    assert [c][..0] == [];
  }

  lemma ColumnsEmpty()
    ensures Columns([]) == []
  {
  }

  lemma {:induction false} OfBankNone(q: seq<Cmd>, bank: nat)
    requires forall i | 0 <= i < |q| :: q[i].bank != bank
    ensures OfBank(q, bank) == []
  {
    if q != [] { OfBankNone(q[..|q| - 1], bank); }
  }

  lemma {:induction false} OfBankAll(q: seq<Cmd>, bank: nat)
    ensures forall i | 0 <= i < |OfBank(q, bank)| :: OfBank(q, bank)[i].bank == bank && OfBank(q, bank)[i] in q
  {
    if q != [] { OfBankAll(q[..|q| - 1], bank); }
  }

  lemma SentToSnoc(trace: seq<D.Issue>, e: D.Issue, bank: nat)
    ensures SentTo(trace + [e], bank) == SentTo(trace, bank) + if e.bank == bank && !e.refresh then [e.cmd] else []
  {
    assert (trace + [e])[..|trace|] == trace;
  }

  /** Taking out an entry that no earlier entry of its bank precedes takes the head of that
      bank's subsequence and leaves the others alone. */
  lemma RemoveHead(q: seq<Cmd>, i: nat, bank: nat)
    requires i < |q| && forall j | 0 <= j < i :: q[j].bank != q[i].bank
    ensures OfBank(q, bank) == (if q[i].bank == bank then [q[i]] else []) + OfBank(Remove(q, i), bank)
  {
    hide OfBank;
    var l, c, r := q[..i], q[i], q[i + 1..];
    assert q == l + ([c] + r);
    OfBankConcat(l, [c] + r, bank);
    OfBankConcat([c], r, bank);
    OfBankConcat(l, r, bank);
    OfBankOne(c, bank);
    if c.bank == bank { OfBankNone(l, bank); }
  }

  // ---- The scan of sendRequest

  /** Everything already passed by the scan has blocked its bank. */
  ghost predicate Scanned(cfg: Config, d: Driver, i: nat)
    requires cfg.Valid() && Shaped(cfg, d) && i <= |d.inputQ|
  {
    forall j | 0 <= j < i :: RefreshPending(cfg, d, d.inputQ[j].rank) || d.blocked[d.inputQ[j].bank]
  }

  /** An entry that may be sent or dropped is the first of its bank. */
  lemma FirstOfBank(cfg: Config, d: Driver, i: nat, counts: seq<nat>)
    requires cfg.Valid() && Shaped(cfg, d) && i < |d.inputQ| && |counts| == cfg.g.NumRanks() && Scanned(cfg, d, i)
    requires var k := Decide(cfg, d, i, counts); k.Drop? || k.Go?
    ensures forall j | 0 <= j < i :: d.inputQ[j].bank != d.inputQ[i].bank
  {
    forall j | 0 <= j < i
      ensures d.inputQ[j].bank != d.inputQ[i].bank
    {
      assert Queued(cfg, d.inputQ[j]) && Queued(cfg, d.inputQ[i]);
    }
  }

  lemma ScanStep(cfg: Config, d: Driver, i: nat, counts: seq<nat>)
    requires cfg.Valid() && Shaped(cfg, d) && i < |d.inputQ| && |counts| == cfg.g.NumRanks() && Scanned(cfg, d, i)
    ensures var s := SendStep(cfg, d, i, counts);
            Shaped(cfg, s.d) && s.i <= |s.d.inputQ| && Scanned(cfg, s.d, s.i)
  {
    SendStepShaped(cfg, d, i, counts);
    hide Shaped, Queued, RefreshShaped, D.Send, AllBusy;
    ShapedQueue(cfg, d, i);
  }

  lemma ShapedQueue(cfg: Config, d: Driver, i: nat)
    requires cfg.Valid() && Shaped(cfg, d) && i < |d.inputQ|
    ensures |d.blocked| == cfg.g.NumBanks() && |d.refreshQ| == cfg.g.NumRanks() == |d.actIssued|
    ensures |d.colBus| == |d.rowBus| == cfg.g.channels
    ensures forall j | 0 <= j < |d.inputQ| ::
              d.inputQ[j].bank < cfg.g.NumBanks() && d.inputQ[j].rank < cfg.g.NumRanks() && d.inputQ[j].channel < cfg.g.channels
  {
    assert forall j | 0 <= j < |d.inputQ| :: Queued(cfg, d.inputQ[j]);
  }

  /** One step of the scan: the pipeline of every bank is unchanged, except that a PRE for a
      bank that is already closed is taken out of the queue. */
  lemma StepPipeline(cfg: Config, d: Driver, i: nat, counts: seq<nat>, bank: nat)
    requires cfg.Valid() && Shaped(cfg, d) && i < |d.inputQ| && |counts| == cfg.g.NumRanks() && Scanned(cfg, d, i)
    ensures
      var d', c := SendStep(cfg, d, i, counts).d, d.inputQ[i];
      if Decide(cfg, d, i, counts).Drop? && c.bank == bank then
        && c.kind.PRE? && d.dev.banks[bank].state.Closed()
        && SentTo(d'.dev.trace, bank) == SentTo(d.dev.trace, bank)
        && OfBank(d.inputQ, bank) == [c] + OfBank(d'.inputQ, bank)
      else Pipeline(d', bank) == Pipeline(d, bank)
  {
    hide Shaped, Queued, RefreshShaped, D.Send, AllBusy, OfBank, SentTo, BusFree;
    ShapedQueue(cfg, d, i);
    match Decide(cfg, d, i, counts)
    case Skip =>
    case Halt =>
    case Drop =>
      FirstOfBank(cfg, d, i, counts);
      RemoveHead(d.inputQ, i, bank);
    case Go =>
      FirstOfBank(cfg, d, i, counts);
      MarkShaped(cfg, d, i);
      SentPipeline(cfg, Mark(cfg, d, i), i, bank);
  }

  lemma SentPipeline(cfg: Config, d: Driver, i: nat, bank: nat)
    requires cfg.Valid() && Shaped(cfg, d) && i < |d.inputQ|
    requires D.CanSend(d.dev, d.inputQ[i].bank, d.inputQ[i].kind)
    requires forall j | 0 <= j < i :: d.inputQ[j].bank != d.inputQ[i].bank
    ensures Pipeline(Sent(cfg, d, i), bank) == Pipeline(d, bank)
    ensures SentTo(Sent(cfg, d, i).dev.trace, bank) ==
            SentTo(d.dev.trace, bank) + if d.inputQ[i].bank == bank then [d.inputQ[i]] else []
  {
    hide Shaped, Queued, RefreshShaped, Handle, Raise, OfBank, SentTo;
    ShapedQueue(cfg, d, i);
    RemoveHead(d.inputQ, i, bank);
    var d' := Sent(cfg, d, i);
    assert d'.inputQ == Remove(d.inputQ, i);
    var e := d'.dev.trace[|d.dev.trace|];
    assert d'.dev.trace == d.dev.trace + [e];
    SentToSnoc(d.dev.trace, e, bank);
  }

  // ---- The refresh engine

  lemma {:induction false} SendAllSent(cfg: Config, dev: D.Device, r: RefreshCmd, rank: nat, banks: seq<nat>, bank: nat)
    requires cfg.Valid()
    ensures SentTo(SendAll(cfg, dev, r, rank, banks).trace, bank) == SentTo(dev.trace, bank)
    decreases |banks|
  {
    hide Handle, Raise;
    if banks != [] {
      var c := RefreshIssue(r, rank, banks[0]);
      if D.CanSend(dev, banks[0], c.kind) {
        var dev' := D.Send(cfg.p, cfg.g, dev, banks[0], c, true);
        var e := dev'.trace[|dev.trace|];
        assert dev'.trace == dev.trace + [e];
        SentToSnoc(dev.trace, e, bank);
        SendAllSent(cfg, dev', r, rank, banks[1..], bank);
      } else {
        SendAllSent(cfg, dev, r, rank, banks[1..], bank);
      }
    }
  }

  lemma PushPipeline(cfg: Config, d: Driver, c: Cmd, bank: nat)
    requires cfg.Valid() && Shaped(cfg, d) && Queued(cfg, c)
    ensures
      var (d', ok) := Push(cfg, d, c);
      Pipeline(d', bank) == Pipeline(d, bank) + if ok && c.bank == bank then [c] else []
  {
    hide OfBank, SentTo;
    OfBankConcat(d.inputQ, [c], bank);
    OfBankOne(c, bank);
  }
}
