/** The address hasher (c_AddressHasher): the tokens of the map string partition the low
    address bits into fields; bank and rank identifiers are mixed-radix numbers of fields; and
    an inverse finds an address for a bank identifier. */
module AddressMap {
  import opened Arith
  import opened Dram
  import opened MapString

  // ---- Bits

  function Pow2(n: nat): (r: nat)
    ensures r >= 1
  {
    if n == 0 then 1 else 2 * Pow2(n - 1)
  }

  predicate Bit(x: nat, i: nat) { if i == 0 then x % 2 == 1 else Bit(x / 2, i - 1) }

  /** The number whose bit i is `bits[i]`. */
  function Num(bits: seq<bool>): nat {
    if bits == [] then 0 else (if bits[0] then 1 else 0) + 2 * Num(bits[1..])
  }

  function BitsAt(x: nat, ps: seq<nat>): seq<bool> {
    seq(|ps|, i requires 0 <= i < |ps| => Bit(x, ps[i]))
  }

  lemma {:induction false} BitOfNum(bits: seq<bool>, i: nat)
    ensures Bit(Num(bits), i) <==> i < |bits| && bits[i]
  {
    if bits == [] {
      BitOfZero(i);
    } else {
      assert Num(bits) / 2 == Num(bits[1..]);
      if i > 0 { BitOfNum(bits[1..], i - 1); }
    }
  }

  lemma {:induction false} BitOfZero(i: nat)
    ensures !Bit(0, i)
  {
    if i > 0 { BitOfZero(i - 1); }
  }

  lemma {:induction false} NumBound(bits: seq<bool>)
    ensures Num(bits) < Pow2(|bits|)
  {
    if bits != [] { NumBound(bits[1..]); }
  }

  lemma {:induction false} NumSnoc(bits: seq<bool>, b: bool)
    ensures Num(bits + [b]) == Num(bits) + if b then Pow2(|bits|) else 0
  {
    if bits != [] {
      NumSnoc(bits[1..], b);
      assert (bits + [b])[1..] == bits[1..] + [b];
    }
  }

  lemma {:induction false} NumSet(bits: seq<bool>, p: nat)
    requires p < |bits| && !bits[p]
    ensures Num(bits[p := true]) == Num(bits) + Pow2(p)
  {
    if p > 0 {
      NumSet(bits[1..], p - 1);
      assert bits[p := true][1..] == bits[1..][p - 1 := true];
    } else {
      assert bits[0 := true][1..] == bits[1..];
    }
  }

  /** The low n bits of a number below 2^n are the number. */
  lemma {:induction false} NumOfBits(x: nat, n: nat, bits: seq<bool>)
    requires x < Pow2(n) && |bits| == n && forall i | 0 <= i < n :: bits[i] == Bit(x, i)
    ensures Num(bits) == x
  {
    if n > 0 {
      assert forall i | 0 <= i < n - 1 :: bits[1..][i] == Bit(x, i + 1);
      NumOfBits(x / 2, n - 1, bits[1..]);
    }
  }

  // ---- Where the fields lie

  function Width(tokens: seq<Token>): nat {
    if tokens == [] then 0 else tokens[0].size + Width(tokens[1..])
  }

  /** Consecutive positions from `pos` on. */
  function Run(pos: nat, size: nat): seq<nat> { seq(size, i requires 0 <= i => pos + i) }

  lemma InRun(pos: nat, size: nat, p: nat)
    ensures p in Run(pos, size) <==> pos <= p < pos + size
  {
    if pos <= p < pos + size { assert Run(pos, size)[p - pos] == p; }
  }

  /** The positions of a field when the tokens are laid out from position `pos` on. */
  function Placed(tokens: seq<Token>, pos: nat, letter: char): seq<nat> {
    if tokens == [] then []
    else
      (if tokens[0].letter == letter then Run(pos, tokens[0].size) else [])
      + Placed(tokens[1..], pos + tokens[0].size, letter)
  }

  predicate Ascending(ps: seq<nat>) { forall i, j | 0 <= i < j < |ps| :: ps[i] < ps[j] }

  /** A field's positions ascend and lie within the map. */
  lemma {:induction false} PlacedAscends(tokens: seq<Token>, pos: nat, letter: char)
    ensures var ps := Placed(tokens, pos, letter);
      Ascending(ps) && forall i | 0 <= i < |ps| :: pos <= ps[i] < pos + Width(tokens)
  {
    if tokens != [] { PlacedAscends(tokens[1..], pos + tokens[0].size, letter); }
  }

  /** The field that owns a position. */
  function Owner(tokens: seq<Token>, pos: nat, p: nat): char
    requires pos <= p < pos + Width(tokens)
  {
    if p < pos + tokens[0].size then tokens[0].letter else Owner(tokens[1..], pos + tokens[0].size, p)
  }

  /** Every position of the map belongs to exactly one field. */
  lemma {:induction false} Partition(tokens: seq<Token>, pos: nat, p: nat, letter: char)
    requires pos <= p < pos + Width(tokens)
    ensures p in Placed(tokens, pos, letter) <==> letter == Owner(tokens, pos, p)
  {
    hide Run;
    var n, rest := tokens[0].size, tokens[1..];
    InRun(pos, n, p);
    if p < pos + n {
      PlacedAscends(rest, pos + n, letter);
      assert p !in Placed(rest, pos + n, letter);
    } else {
      Partition(rest, pos + n, p, letter);
    }
  }

  /** build's loop over the tokens: it appends each token's positions to its field. */
  method PlaceAll(tokens: seq<Token>) returns (positions: map<char, seq<nat>>)
    ensures forall c: char :: Lookup(positions, c) == Placed(tokens, 0, c)
  {
    hide Placed, Lookup, Run;
    positions := map[];
    var pos := 0;
    assert tokens[0..] == tokens;
    LookupNone();
    for i := 0 to |tokens|
      invariant 0 <= pos
      invariant forall c: char :: Lookup(positions, c) + Placed(tokens[i..], pos, c) == Placed(tokens, 0, c)
    {
      var t := tokens[i];
      ghost var before := positions;
      var placed := Positions(pos, t.size);
      positions := positions[t.letter := Lookup(positions, t.letter) + placed];
      forall c: char
        ensures Lookup(positions, c) + Placed(tokens[i + 1..], pos + t.size, c) == Placed(tokens, 0, c)
      {
        PlacedStep(tokens, i, pos, c);
        LookupAfter(before, t.letter, placed, c);
        AppendMoves(Lookup(before, c), if c == t.letter then placed else [], Placed(tokens[i + 1..], pos + t.size, c));
      }
      pos := pos + t.size;
    }
    PlacedNone(pos);
    assert tokens[|tokens|..] == [];
  }

  lemma LookupNone()
    ensures forall c: char :: Lookup(map[], c) == []
  {
  }

  lemma PlacedNone(pos: nat)
    ensures forall c: char :: Placed([], pos, c) == []
  {
  }

  lemma PlacedStep(tokens: seq<Token>, i: nat, pos: nat, c: char)
    requires i < |tokens|
    ensures Placed(tokens[i..], pos, c) ==
            (if c == tokens[i].letter then Run(pos, tokens[i].size) else []) + Placed(tokens[i + 1..], pos + tokens[i].size, c)
  {
    assert tokens[i..][1..] == tokens[i + 1..] && tokens[i..][0] == tokens[i];
  }

  lemma LookupAfter(before: map<char, seq<nat>>, letter: char, placed: seq<nat>, c: char)
    ensures Lookup(before[letter := Lookup(before, letter) + placed], c) == Lookup(before, c) + if c == letter then placed else []
  {
  }

  lemma AppendMoves(a: seq<nat>, b: seq<nat>, c: seq<nat>)
    ensures (a + b) + c == a + (b + c)
  {
  }

  /** The positions of one token. */
  method Positions(pos: nat, size: nat) returns (placed: seq<nat>)
    ensures placed == Run(pos, size)
  {
    placed := [];
    for k := 0 to size
      invariant |placed| == k && forall j | 0 <= j < k :: placed[j] == pos + j
    {
      placed := placed + [pos + k];
    }
  }

  function Lookup(positions: map<char, seq<nat>>, c: char): seq<nat> {
    if c in positions then positions[c] else []
  }

  // ---- Hashing

  /** A field of an address. */
  function Extract(x: nat, ps: seq<nat>): nat { Num(BitsAt(x, ps)) }

  /** fillHashedAddress for one field. A bit is shifted right by its position less its rank,
      which is never negative because positions ascend. */
  method ExtractField(x: nat, ps: seq<nat>) returns (cur: nat)
    requires Ascending(ps)
    ensures cur == Extract(x, ps) < Pow2(|ps|)
  {
    cur := 0;
    for cnt := 0 to |ps|
      invariant cur == Num(BitsAt(x, ps[..cnt]))
    {
      RankAtMostPosition(ps, cnt);
      assert BitsAt(x, ps[..cnt + 1]) == BitsAt(x, ps[..cnt]) + [Bit(x, ps[cnt])];
      NumSnoc(BitsAt(x, ps[..cnt]), Bit(x, ps[cnt]));
      NumBound(BitsAt(x, ps[..cnt]));
      var shift: nat := ps[cnt] - cnt;
      if Bit(x, ps[cnt]) { cur := cur + Pow2(ps[cnt] - shift); }
    }
    assert ps[..|ps|] == ps;
    NumBound(BitsAt(x, ps));
  }

  lemma {:induction false} RankAtMostPosition(ps: seq<nat>, i: nat)
    requires Ascending(ps) && i < |ps|
    ensures i <= ps[i]
  {
    if i > 0 { RankAtMostPosition(ps, i - 1); }
  }

  datatype Hashed = Hashed(channel: nat, pchannel: nat, rank: nat, group: nat, bank: nat, row: nat, col: nat, line: nat) {
    function BankId(g: Geometry): nat {
      bank + group * g.banks + rank * g.banks * g.groups + pchannel * g.banks * g.groups * g.ranks
      + channel * g.pchannels * g.banks * g.groups * g.ranks
    }

    function RankId(g: Geometry): nat { rank + pchannel * g.ranks + channel * g.pchannels * g.ranks }
  }

  function Field(tokens: seq<Token>, x: nat, letter: char): nat { Extract(x, Placed(tokens, 0, letter)) }

  function Hash(tokens: seq<Token>, x: nat): Hashed {
    Hashed(Field(tokens, x, 'C'), Field(tokens, x, 'c'), Field(tokens, x, 'R'), Field(tokens, x, 'B'),
           Field(tokens, x, 'b'), Field(tokens, x, 'r'), Field(tokens, x, 'l'), Field(tokens, x, 'h'))
  }

  /** fillHashedAddress */
  method FillHashedAddress(tokens: seq<Token>, positions: map<char, seq<nat>>, x: nat) returns (h: Hashed)
    requires forall c: char :: Lookup(positions, c) == Placed(tokens, 0, c)
    ensures h == Hash(tokens, x)
  {
    hide Placed, Lookup, Extract;
    var channel := LetterField(tokens, positions, x, 'C');
    var pchannel := LetterField(tokens, positions, x, 'c');
    var rank := LetterField(tokens, positions, x, 'R');
    var group := LetterField(tokens, positions, x, 'B');
    var bank := LetterField(tokens, positions, x, 'b');
    var row := LetterField(tokens, positions, x, 'r');
    var col := LetterField(tokens, positions, x, 'l');
    var line := LetterField(tokens, positions, x, 'h');
    h := Hashed(channel, pchannel, rank, group, bank, row, col, line);
  }

  method LetterField(tokens: seq<Token>, positions: map<char, seq<nat>>, x: nat, letter: char) returns (v: nat)
    requires forall c: char :: Lookup(positions, c) == Placed(tokens, 0, c)
    ensures v == Field(tokens, x, letter)
  {
    hide Placed, Lookup, Extract;
    PlacedAscends(tokens, 0, letter);
    v := ExtractField(x, Lookup(positions, letter));
  }

  /** Two addresses within the map that agree on every field and on the ignored 'x' bits are
      the same address. */
  lemma Injective(tokens: seq<Token>, x: nat, y: nat)
    requires x < Pow2(Width(tokens)) && y < Pow2(Width(tokens))
    requires forall i | 0 <= i < |tokens| :: FieldLetter(tokens[i].letter)
    requires Hash(tokens, x) == Hash(tokens, y) && Field(tokens, x, 'x') == Field(tokens, y, 'x')
    ensures x == y
  {
    hide Hash, Field, Bit, Pow2, Num, Run, FieldLetter, Width;
    var n := Width(tokens);
    var low := Run(0, n);
    RunAt(n);
    forall p | 0 <= p < n
      ensures Bit(x, p) == Bit(y, p)
    {
      SameBit(tokens, x, y, p);
    }
    assert BitsAt(x, low) == BitsAt(y, low);
    NumOfBits(x, n, BitsAt(x, low));
    NumOfBits(y, n, BitsAt(y, low));
  }

  lemma RunAt(n: nat)
    ensures |Run(0, n)| == n && forall i | 0 <= i < n :: Run(0, n)[i] == i
  {
  }

  lemma {:induction false} OwnerIsLetter(tokens: seq<Token>, pos: nat, p: nat)
    requires pos <= p < pos + Width(tokens) && forall i | 0 <= i < |tokens| :: FieldLetter(tokens[i].letter)
    ensures FieldLetter(Owner(tokens, pos, p))
  {
    if p >= pos + tokens[0].size { OwnerIsLetter(tokens[1..], pos + tokens[0].size, p); }
  }

  lemma SameBit(tokens: seq<Token>, x: nat, y: nat, p: nat)
    requires p < Width(tokens) && forall i | 0 <= i < |tokens| :: FieldLetter(tokens[i].letter)
    requires Hash(tokens, x) == Hash(tokens, y) && Field(tokens, x, 'x') == Field(tokens, y, 'x')
    ensures Bit(x, p) == Bit(y, p)
  {
    hide Num, BitsAt, Bit, Placed;
    var c := Owner(tokens, 0, p);
    OwnerIsLetter(tokens, 0, p);
    Partition(tokens, 0, p, c);
    var ps := Placed(tokens, 0, c);
    var i :| 0 <= i < |ps| && ps[i] == p;
    assert c in ['C', 'c', 'R', 'B', 'b', 'r', 'l', 'h', 'x'];
    assert Field(tokens, x, c) == Field(tokens, y, c);
    ExtractedBit(x, ps, i);
    ExtractedBit(y, ps, i);
  }

  lemma ExtractedBit(x: nat, ps: seq<nat>, i: nat)
    requires i < |ps|
    ensures Bit(Extract(x, ps), i) == Bit(x, ps[i])
  {
    BitOfNum(BitsAt(x, ps), i);
  }

  // ---- What a field is worth

  /** The address shifted right. */
  function Shifted(x: nat, pos: nat): nat
    decreases pos
  {
    if pos == 0 then x else Shifted(x / 2, pos - 1)
  }

  lemma {:induction false} ShiftDivides(x: nat, pos: nat)
    ensures Shifted(x, pos) == x / Pow2(pos)
    decreases pos
  {
    if pos == 0 {
      assert x / 1 == x;
    } else {
      ShiftDivides(x / 2, pos - 1);
      DivDiv(x, 2, Pow2(pos - 1));
    }
  }

  lemma {:induction false} BitShift(x: nat, pos: nat, i: nat)
    ensures Bit(x, pos + i) == Bit(Shifted(x, pos), i)
    decreases pos
  {
    hide Bit;
    if pos > 0 {
      BitShift(x / 2, pos - 1, i);
      BitStep(x, pos - 1 + i);
    }
  }

  lemma BitStep(x: nat, p: nat)
    ensures Bit(x, p + 1) == Bit(x / 2, p)
  {
  }

  lemma {:induction false} BitMod(y: nat, n: nat, i: nat)
    requires i < n
    ensures Bit(y % Pow2(n), i) == Bit(y, i)
  {
    HalfMod(y, Pow2(n - 1));
    if i > 0 { BitMod(y / 2, n - 1, i - 1); }
  }

  lemma HalfMod(y: nat, m: nat)
    requires m >= 1
    ensures y % (2 * m) / 2 == y / 2 % m && y % (2 * m) % 2 == y % 2
  {
    var h, b := y / 2, y % 2;
    var q, r := h / m, h % m;
    assert h == q * m + r && y == q * (2 * m) + (2 * r + b);
    DivUnique(y, 2 * m, q, 2 * r + b);
  }

  /** The bits of an address from `low` on, as many as `width`. */
  function Bits(x: nat, low: nat, width: nat): nat { Shifted(x, low) % Pow2(width) }

  /** Consecutive positions read the address divided by the bits below them. */
  lemma ExtractRun(x: nat, pos: nat, n: nat)
    ensures Extract(x, Run(pos, n)) == Bits(x, pos, n)
  {
    hide Bit, Num, Pow2, Shifted;
    var y := Shifted(x, pos);
    forall i | 0 <= i < n
      ensures BitsAt(x, Run(pos, n))[i] == Bit(y % Pow2(n), i)
    {
      BitShift(x, pos, i);
      BitMod(y, n, i);
    }
    NumOfBits(y % Pow2(n), n, BitsAt(x, Run(pos, n)));
  }

  /** A field that one token names lies above the widths of the tokens parsed before it. */
  lemma {:induction false} PlacedOnce(tokens: seq<Token>, pos: nat, i: nat)
    requires i < |tokens| && forall j | 0 <= j < |tokens| && j != i :: tokens[j].letter != tokens[i].letter
    ensures Placed(tokens, pos, tokens[i].letter) == Run(pos + Width(tokens[..i]), tokens[i].size)
  {
    var rest := tokens[1..];
    if i == 0 {
      PlacedNowhere(rest, pos + tokens[0].size, tokens[0].letter);
    } else {
      PlacedOnce(rest, pos + tokens[0].size, i - 1);
      assert rest[i - 1] == tokens[i] && tokens[..i][1..] == rest[..i - 1];
    }
  }

  lemma {:induction false} PlacedNowhere(tokens: seq<Token>, pos: nat, c: char)
    requires forall j | 0 <= j < |tokens| :: tokens[j].letter != c
    ensures Placed(tokens, pos, c) == []
  {
    if tokens != [] { PlacedNowhere(tokens[1..], pos + tokens[0].size, c); }
  }

  /** Such a field is the address divided by the power of two of those widths, modulo its own. */
  lemma FieldValue(tokens: seq<Token>, x: nat, i: nat)
    requires i < |tokens| && forall j | 0 <= j < |tokens| && j != i :: tokens[j].letter != tokens[i].letter
    ensures Field(tokens, x, tokens[i].letter) == Bits(x, Width(tokens[..i]), tokens[i].size)
  {
    hide Run, Placed, Extract, Bits, Width;
    PlacedOnce(tokens, 0, i);
    ExtractRun(x, Width(tokens[..i]), tokens[i].size);
  }

  /** The tokens of the default map "_r_l_b_R_B_h_", last one first, with the given widths. */
  function DefaultTokens(line: nat, group: nat, rank: nat, bank: nat, col: nat, row: nat): seq<Token> {
    [Token('h', line), Token('B', group), Token('R', rank), Token('b', bank), Token('l', col), Token('r', row)]
  }

  /** From the lowest bits up, the default map places the cache line, the bank group, the rank,
      the bank, the column and the row. */
  lemma DefaultLayout(line: nat, group: nat, rank: nat, bank: nat, col: nat, row: nat, x: nat)
    ensures var h := Hash(DefaultTokens(line, group, rank, bank, col, row), x);
      h == Hashed(0, 0, Bits(x, line + group, rank), Bits(x, line, group), Bits(x, line + group + rank, bank),
                  Bits(x, line + group + rank + bank + col, row), Bits(x, line + group + rank + bank, col), Bits(x, 0, line))
  {
    hide Field, Bits, Width;
    var ts := DefaultTokens(line, group, rank, bank, col, row);
    DefaultWidths(ts);
    FieldValue(ts, x, 0);
    FieldValue(ts, x, 1);
    FieldValue(ts, x, 2);
    FieldValue(ts, x, 3);
    FieldValue(ts, x, 4);
    FieldValue(ts, x, 5);
    AbsentField(ts, x, 'C');
    AbsentField(ts, x, 'c');
  }

  lemma DefaultWidths(ts: seq<Token>)
    requires |ts| == 6
    ensures Width(ts[..0]) == 0 && Width(ts[..1]) == ts[0].size && Width(ts[..2]) == ts[0].size + ts[1].size
    ensures Width(ts[..3]) == Width(ts[..2]) + ts[2].size && Width(ts[..4]) == Width(ts[..3]) + ts[3].size
    ensures Width(ts[..5]) == Width(ts[..4]) + ts[4].size
  {
    WidthSnoc(ts[..0], ts[0]);
    WidthSnoc(ts[..1], ts[1]);
    WidthSnoc(ts[..2], ts[2]);
    WidthSnoc(ts[..3], ts[3]);
    WidthSnoc(ts[..4], ts[4]);
    assert forall k | 0 <= k < 5 :: ts[..k] + [ts[k]] == ts[..k + 1];
  }

  lemma {:induction false} WidthSnoc(ts: seq<Token>, t: Token)
    ensures Width(ts + [t]) == Width(ts) + t.size
  {
    if ts != [] {
      WidthSnoc(ts[1..], t);
      assert (ts + [t])[1..] == ts[1..] + [t];
    }
  }

  lemma AbsentField(tokens: seq<Token>, x: nat, c: char)
    requires forall j | 0 <= j < |tokens| :: tokens[j].letter != c
    ensures Field(tokens, x, c) == 0
  {
    PlacedNowhere(tokens, 0, c);
  }

  // ---- Bank identifiers

  /** The geometry is the one that the map's fields can express. */
  predicate Matches(g: Geometry, tokens: seq<Token>) {
    && g.channels == Pow2(|Placed(tokens, 0, 'C')|) && g.pchannels == Pow2(|Placed(tokens, 0, 'c')|)
    && g.ranks == Pow2(|Placed(tokens, 0, 'R')|) && g.groups == Pow2(|Placed(tokens, 0, 'B')|)
    && g.banks == Pow2(|Placed(tokens, 0, 'b')|)
  }

  lemma FieldBound(tokens: seq<Token>, x: nat, letter: char)
    ensures Field(tokens, x, letter) < Pow2(|Placed(tokens, 0, letter)|)
  {
    NumBound(BitsAt(x, Placed(tokens, 0, letter)));
  }

  /** The sums of products are nested mixed-radix numbers. */
  lemma Radix(g: Geometry, h: Hashed)
    ensures h.RankId(g) == (h.channel * g.pchannels + h.pchannel) * g.ranks + h.rank
    ensures h.BankId(g) == (h.RankId(g) * g.groups + h.group) * g.banks + h.bank
  {
    var c, q, r, n, b := h.channel, h.pchannel, h.rank, g.groups, g.banks;
    var id := h.RankId(g);
    Distribute(c * g.pchannels, q, g.ranks);
    Distribute(id * n, h.group, b);
    assert id * n * b == r * b * n + q * b * n * g.ranks + c * g.pchannels * b * n * g.ranks by {
      Reorder(r, 1, 1, n, b);
      Reorder(q, g.ranks, 1, n, b);
      Reorder(c, g.pchannels, g.ranks, n, b);
      ThreeTerms(r, q * g.ranks, c * g.pchannels * g.ranks, n, b);
    }
  }

  lemma Reorder(x: nat, a: nat, r: nat, n: nat, b: nat)
    ensures x * a * r * n * b == x * a * b * n * r
  {
    var y := x * a;
    assert y * r * n * b == y * (r * n * b) by { MulAssoc(y, r, n); MulAssoc(y, r * n, b); }
    assert y * b * n * r == y * (b * n * r) by { MulAssoc(y, b, n); MulAssoc(y, b * n, r); }
    assert r * n * b == b * n * r by { MulAssoc(b, n, r); }
  }

  lemma ThreeTerms(x: nat, y: nat, z: nat, n: nat, b: nat)
    ensures (x + y + z) * n * b == x * n * b + y * n * b + z * n * b
  {
    Distribute(x + y, z, n);
    Distribute(x, y, n);
    Distribute((x + y) * n, z * n, b);
    Distribute(x * n, y * n, b);
  }

  /** With matching geometry the bank identifier names an existing bank, and the rank
      identifier and the channel are those that the bank is wired to. */
  lemma HashWellFormed(g: Geometry, tokens: seq<Token>, x: nat, k: Kind)
    requires Matches(g, tokens)
    ensures g.Valid()
    ensures var h := Hash(tokens, x);
      h.RankId(g) < g.NumRanks() && g.WellFormed(Cmd(k, x, h.channel, h.RankId(g), h.BankId(g), h.row))
  {
    MatchingValid(g, tokens);
    HashInRange(g, tokens, x);
    hide Matches, Hash, Geometry.NumRanks, Geometry.NumBanks;
    IdsWired(g, Hash(tokens, x));
  }

  lemma MatchingValid(g: Geometry, tokens: seq<Token>)
    requires Matches(g, tokens)
    ensures g.Valid()
  {
    hide Placed;
  }

  lemma HashInRange(g: Geometry, tokens: seq<Token>, x: nat)
    requires Matches(g, tokens)
    ensures InRange(g, Hash(tokens, x))
  {
    hide Field, Placed, Pow2;
    FieldBound(tokens, x, 'C');
    FieldBound(tokens, x, 'c');
    FieldBound(tokens, x, 'R');
    FieldBound(tokens, x, 'B');
    FieldBound(tokens, x, 'b');
  }

  predicate InRange(g: Geometry, h: Hashed) {
    h.channel < g.channels && h.pchannel < g.pchannels && h.rank < g.ranks && h.group < g.groups && h.bank < g.banks
  }

  lemma IdsWired(g: Geometry, h: Hashed)
    requires g.Valid() && InRange(g, h)
    ensures h.RankId(g) < g.NumRanks() && h.BankId(g) < g.NumBanks()
    ensures g.RankOf(h.BankId(g)) == h.RankId(g) && g.ChannelOf(h.RankId(g)) == h.channel
    ensures h.BankId(g) % g.banks == h.bank && g.GroupOf(h.BankId(g)) % g.groups == h.group
    ensures h.RankId(g) % g.ranks == h.rank && h.RankId(g) / g.ranks % g.pchannels == h.pchannel
  {
    hide Hashed.RankId, Hashed.BankId;
    Radix(g, h);
    NestedDigits(g, h, h.RankId(g), h.BankId(g));
    NestedBounds(g, h, h.RankId(g), h.BankId(g));
  }

  lemma NestedDigits(g: Geometry, h: Hashed, id: nat, bank: nat)
    requires g.Valid() && InRange(g, h) && id == (h.channel * g.pchannels + h.pchannel) * g.ranks + h.rank
    requires bank == (id * g.groups + h.group) * g.banks + h.bank
    ensures bank / g.banks / g.groups == id && id / g.ranks / g.pchannels == h.channel
    ensures bank % g.banks == h.bank && bank / g.banks % g.groups == h.group
    ensures id % g.ranks == h.rank && id / g.ranks % g.pchannels == h.pchannel
  {
    var pc, grp := h.channel * g.pchannels + h.pchannel, id * g.groups + h.group;
    DivUnique(pc, g.pchannels, h.channel, h.pchannel);
    DivUnique(id, g.ranks, pc, h.rank);
    DivUnique(grp, g.groups, id, h.group);
    DivUnique(bank, g.banks, grp, h.bank);
  }

  lemma NestedBounds(g: Geometry, h: Hashed, id: nat, bank: nat)
    requires g.Valid() && InRange(g, h) && id == (h.channel * g.pchannels + h.pchannel) * g.ranks + h.rank
    requires bank == (id * g.groups + h.group) * g.banks + h.bank
    ensures id < g.NumRanks() && bank < g.NumBanks()
  {
    NumBanksIs(g);
    hide Geometry.NumBanks, Geometry.NumRanks;
    var pc, grp := h.channel * g.pchannels + h.pchannel, id * g.groups + h.group;
    Below(pc, h.channel, g.channels, g.pchannels, h.pchannel);
    Below(id, pc, g.channels * g.pchannels, g.ranks, h.rank);
    Below(grp, id, g.NumRanks(), g.groups, h.group);
    Below(bank, grp, g.NumRanks() * g.groups, g.banks, h.bank);
  }

  lemma NumBanksIs(g: Geometry)
    ensures g.NumRanks() == g.channels * g.pchannels * g.ranks && g.NumBanks() == g.NumRanks() * g.groups * g.banks
  {
  }

  lemma Below(x: nat, q: nat, n: nat, d: nat, r: nat)
    requires x == q * d + r && q < n && r < d
    ensures x < n * d
  {
    MulMono(q + 1, n, d);
    Distribute(q, 1, d);
  }

  // ---- An address for a bank

  /** The value placed at the positions, as a sum of powers of two. */
  function Deposit(v: nat, ps: seq<nat>): nat {
    if ps == [] then 0 else (if v % 2 == 1 then Pow2(ps[0]) else 0) + Deposit(v / 2, ps[1..])
  }

  /** One of the loops of getAddressForBankId that spread a field over its positions. */
  method DepositField(v: nat, ps: seq<nat>) returns (out: nat)
    requires v < Pow2(|ps|)
    ensures out == Deposit(v, ps)
  {
    out := 0;
    var tmp, cur := v, 0;
    assert ps[0..] == ps;
    while tmp != 0
      invariant 0 <= tmp && 0 <= cur <= |ps| && tmp < Pow2(|ps| - cur)
      invariant out + Deposit(tmp, ps[cur..]) == Deposit(v, ps)
      decreases tmp
    {
      assert ps[cur..][1..] == ps[cur + 1..];
      if tmp % 2 == 1 { out := out + Pow2(ps[cur]); }
      tmp, cur := tmp / 2, cur + 1;
    }
    DepositZero(ps[cur..]);
  }

  lemma {:induction false} DepositZero(ps: seq<nat>)
    ensures Deposit(0, ps) == 0
  {
    if ps != [] { DepositZero(ps[1..]); }
  }

  /** A loop that divides by repeated subtraction. */
  method DivideBySubtraction(x: nat, size: nat) returns (q: nat, r: nat)
    requires size >= 1
    ensures q == x / size && r == x % size
  {
    q, r := 0, x;
    while r >= size
      invariant x == q * size + r
    {
      Distribute(q, 1, size);
      r, q := r - size, q + 1;
    }
    DivUnique(x, size, q, r);
  }

  function SetBits(bits: seq<bool>, v: nat, ps: seq<nat>): seq<bool>
    requires forall i | 0 <= i < |ps| :: ps[i] < |bits|
    decreases |ps|
  {
    if ps == [] then bits else SetBits(if v % 2 == 1 then bits[ps[0] := true] else bits, v / 2, ps[1..])
  }

  /** Depositing into clear positions sets exactly the bits of the value there. */
  lemma {:induction false} SetBitsEffect(bits: seq<bool>, v: nat, ps: seq<nat>)
    requires Ascending(ps) && forall i | 0 <= i < |ps| :: ps[i] < |bits| && !bits[ps[i]]
    ensures var out := SetBits(bits, v, ps);
      && |out| == |bits| && Num(out) == Num(bits) + Deposit(v, ps)
      && (forall i | 0 <= i < |ps| :: out[ps[i]] == Bit(v, i))
      && (forall p | 0 <= p < |bits| && p !in ps :: out[p] == bits[p])
    decreases |ps|
  {
    if ps != [] {
      var b1 := if v % 2 == 1 then bits[ps[0] := true] else bits;
      if v % 2 == 1 { NumSet(bits, ps[0]); }
      assert forall i | 0 <= i < |ps[1..]| :: ps[1..][i] == ps[i + 1] && ps[0] < ps[i + 1];
      SetBitsEffect(b1, v / 2, ps[1..]);
      var out := SetBits(bits, v, ps);
      assert ps[0] !in ps[1..];
      assert out[ps[0]] == Bit(v, 0);
      forall i | 0 < i < |ps|
        ensures out[ps[i]] == Bit(v, i)
      {
        assert ps[1..][i - 1] == ps[i];
      }
    }
  }

  /** A value and the positions it is spread over. */
  datatype Spread = Spread(value: nat, ps: seq<nat>)

  function DepositAll(fs: seq<Spread>): nat {
    if fs == [] then 0 else DepositAll(fs[..|fs| - 1]) + Deposit(fs[|fs| - 1].value, fs[|fs| - 1].ps)
  }

  predicate Disjoint(fs: seq<Spread>, n: nat) {
    && (forall k | 0 <= k < |fs| :: Ascending(fs[k].ps) && forall i | 0 <= i < |fs[k].ps| :: fs[k].ps[i] < n)
    && (forall k, m, i | 0 <= k < m < |fs| && 0 <= i < |fs[m].ps| :: fs[m].ps[i] !in fs[k].ps)
  }

  /** Bits that hold each value at its positions and are clear elsewhere. */
  ghost predicate Holds(bits: seq<bool>, fs: seq<Spread>) {
    && (forall k, i | 0 <= k < |fs| && 0 <= i < |fs[k].ps| ::
          fs[k].ps[i] < |bits| && bits[fs[k].ps[i]] == Bit(fs[k].value, i))
    && (forall p | 0 <= p < |bits| && bits[p] :: exists k | 0 <= k < |fs| :: p in fs[k].ps)
  }

  lemma {:induction false} DepositsHold(fs: seq<Spread>, n: nat) returns (bits: seq<bool>)
    requires Disjoint(fs, n)
    ensures |bits| == n && Num(bits) == DepositAll(fs) && Holds(bits, fs)
  {
    if fs == [] {
      bits := seq(n, i => false);
      NumClear(bits);
    } else {
      var k := |fs| - 1;
      var f := fs[k];
      var b1 := DepositsHold(fs[..k], n);
      ClearAt(fs, n, b1);
      SetBitsEffect(b1, f.value, f.ps);
      bits := SetBits(b1, f.value, f.ps);
      HoldsMore(fs, n, b1, bits);
    }
  }

  lemma {:induction false} NumClear(bits: seq<bool>)
    requires forall i | 0 <= i < |bits| :: !bits[i]
    ensures Num(bits) == 0
  {
    if bits != [] { NumClear(bits[1..]); }
  }

  lemma ClearAt(fs: seq<Spread>, n: nat, b1: seq<bool>)
    requires fs != [] && Disjoint(fs, n) && |b1| == n && Holds(b1, fs[..|fs| - 1])
    ensures var ps := fs[|fs| - 1].ps; forall i | 0 <= i < |ps| :: ps[i] < |b1| && !b1[ps[i]]
  {
    var m := |fs| - 1;
    assert forall k | 0 <= k < m :: fs[..m][k] == fs[k];
  }

  lemma HoldsMore(fs: seq<Spread>, n: nat, b1: seq<bool>, bits: seq<bool>)
    requires fs != [] && Disjoint(fs, n) && |b1| == |bits| == n && Holds(b1, fs[..|fs| - 1])
    requires var f := fs[|fs| - 1];
      && (forall i | 0 <= i < |f.ps| :: bits[f.ps[i]] == Bit(f.value, i))
      && (forall p | 0 <= p < n && p !in f.ps :: bits[p] == b1[p])
    ensures Holds(bits, fs)
  {
    var m := |fs| - 1;
    forall k, i | 0 <= k < |fs| && 0 <= i < |fs[k].ps|
      ensures fs[k].ps[i] < |bits| && bits[fs[k].ps[i]] == Bit(fs[k].value, i)
    {
      if k < m {
        assert fs[..m][k] == fs[k];
        assert fs[k].ps[i] !in fs[m].ps;
      }
    }
    forall p | 0 <= p < n && bits[p]
      ensures exists k | 0 <= k < |fs| :: p in fs[k].ps
    {
      if p !in fs[m].ps {
        var k :| 0 <= k < |fs[..m]| && p in fs[..m][k].ps;
        assert p in fs[k].ps;
      } else {
        assert p in fs[m].ps;
      }
    }
  }

  /** Each deposited value can be extracted again, and a field that shares no position with
      them reads zero. */
  lemma ExtractDeposited(fs: seq<Spread>, n: nat, k: nat)
    requires Disjoint(fs, n) && k < |fs| && fs[k].value < Pow2(|fs[k].ps|)
    ensures Extract(DepositAll(fs), fs[k].ps) == fs[k].value
  {
    var bits := DepositsHold(fs, n);
    var x, ps := DepositAll(fs), fs[k].ps;
    forall i | 0 <= i < |ps|
      ensures Bit(x, ps[i]) == Bit(fs[k].value, i)
    {
      BitOfNum(bits, ps[i]);
    }
    NumOfBits(fs[k].value, |ps|, BitsAt(x, ps));
  }

  lemma ExtractOther(fs: seq<Spread>, n: nat, ps: seq<nat>)
    requires Disjoint(fs, n) && forall k, i | 0 <= k < |fs| && 0 <= i < |ps| :: ps[i] !in fs[k].ps
    ensures Extract(DepositAll(fs), ps) == 0
  {
    var bits := DepositsHold(fs, n);
    var x := DepositAll(fs);
    forall i | 0 <= i < |ps|
      ensures !Bit(x, ps[i])
    {
      BitOfNum(bits, ps[i]);
    }
    NumClear(BitsAt(x, ps));
  }

  lemma PlacedDisjoint(tokens: seq<Token>, a: char, b: char, p: nat)
    requires a != b && p in Placed(tokens, 0, a)
    ensures p !in Placed(tokens, 0, b)
  {
    hide Placed;
    PlacedAscends(tokens, 0, a);
    Partition(tokens, 0, p, a);
    Partition(tokens, 0, p, b);
  }

  /** The fields of a bank identifier in the order in which their bits are deposited. */
  const BANK_FIELDS := "bBRcC"

  function Parts(tokens: seq<Token>, h: Hashed): seq<Spread> {
    [Spread(h.bank, Placed(tokens, 0, 'b')), Spread(h.group, Placed(tokens, 0, 'B')), Spread(h.rank, Placed(tokens, 0, 'R')),
     Spread(h.pchannel, Placed(tokens, 0, 'c')), Spread(h.channel, Placed(tokens, 0, 'C'))]
  }

  lemma PartsDisjoint(tokens: seq<Token>, h: Hashed)
    ensures Disjoint(Parts(tokens, h), Width(tokens))
  {
    hide Placed;
    var fs := Parts(tokens, h);
    forall k | 0 <= k < |fs|
      ensures fs[k].ps == Placed(tokens, 0, BANK_FIELDS[k])
      ensures Ascending(fs[k].ps) && forall i | 0 <= i < |fs[k].ps| :: fs[k].ps[i] < Width(tokens)
    {
      PlacedAscends(tokens, 0, BANK_FIELDS[k]);
    }
    forall k, m, i | 0 <= k < m < |fs| && 0 <= i < |fs[m].ps|
      ensures fs[m].ps[i] !in fs[k].ps
    {
      assert BANK_FIELDS[k] != BANK_FIELDS[m];
      PlacedDisjoint(tokens, BANK_FIELDS[m], BANK_FIELDS[k], fs[m].ps[i]);
    }
  }

  /** Hashing the address built from the parts gives the parts back, and zero elsewhere. */
  lemma HashOfParts(g: Geometry, tokens: seq<Token>, h: Hashed)
    requires Matches(g, tokens) && InRange(g, h) && h.row == h.col == h.line == 0
    ensures Hash(tokens, DepositAll(Parts(tokens, h))) == h
  {
    hide Placed, DepositAll, Extract, Pow2;
    var fs, n := Parts(tokens, h), Width(tokens);
    PartsDisjoint(tokens, h);
    ExtractDeposited(fs, n, 0);
    ExtractDeposited(fs, n, 1);
    ExtractDeposited(fs, n, 2);
    ExtractDeposited(fs, n, 3);
    ExtractDeposited(fs, n, 4);
    OtherField(tokens, h, 'r');
    OtherField(tokens, h, 'l');
    OtherField(tokens, h, 'h');
  }

  lemma OtherField(tokens: seq<Token>, h: Hashed, letter: char)
    requires letter !in BANK_FIELDS
    ensures Extract(DepositAll(Parts(tokens, h)), Placed(tokens, 0, letter)) == 0
  {
    hide Placed, DepositAll, Extract;
    var fs, ps := Parts(tokens, h), Placed(tokens, 0, letter);
    PartsDisjoint(tokens, h);
    forall k, i | 0 <= k < |fs| && 0 <= i < |ps|
      ensures ps[i] !in fs[k].ps
    {
      assert BANK_FIELDS[k] in BANK_FIELDS && fs[k].ps == Placed(tokens, 0, BANK_FIELDS[k]);
      PlacedDisjoint(tokens, letter, BANK_FIELDS[k], ps[i]);
    }
    ExtractOther(fs, Width(tokens), ps);
  }

  /** The digits of a bank identifier, by repeated subtraction. */
  method SplitBankId(g: Geometry, id: nat) returns (h: Hashed)
    requires g.Valid() && id < g.NumBanks()
    ensures InRange(g, h) && h.BankId(g) == id && h.row == h.col == h.line == 0
  {
    var rankSize := g.banks * g.groups;
    var pchanSize := rankSize * g.ranks;
    var chanSize := pchanSize * g.pchannels;
    Sizes(g);
    var chan, c1 := DivideBySubtraction(id, chanSize);
    var pchan, c2 := DivideBySubtraction(c1, pchanSize);
    var rank, c3 := DivideBySubtraction(c2, rankSize);
    var group, bank := DivideBySubtraction(c3, g.banks);
    DivBound(id, g.channels, chanSize);
    DivBound(c1, g.pchannels, pchanSize);
    DivBound(c2, g.ranks, rankSize);
    DivBound(c3, g.groups, g.banks);
    h := Hashed(chan, pchan, rank, group, bank, 0, 0, 0);
    assert id == chan * chanSize + (pchan * pchanSize + (rank * rankSize + (group * g.banks + bank)));
    SplitSum(g, h);
  }

  lemma Sizes(g: Geometry)
    requires g.Valid()
    ensures var r := g.banks * g.groups;
      && r >= 1 && r * g.ranks >= 1 && r * g.ranks * g.pchannels >= 1
      && g.NumBanks() == g.channels * (r * g.ranks * g.pchannels)
      && r == g.groups * g.banks && r * g.ranks == g.ranks * r && r * g.ranks * g.pchannels == g.pchannels * (r * g.ranks)
  {
    var r := g.banks * g.groups;
    MulMono(1, g.groups, g.banks);
    MulMono(1, g.ranks, r);
    MulMono(1, g.pchannels, r * g.ranks);
    Reorder(g.channels, g.pchannels, g.ranks, g.groups, g.banks);
    assert g.channels * g.pchannels * g.banks * g.groups * g.ranks == g.channels * (r * g.ranks * g.pchannels) by {
      MulAssoc(g.channels * g.pchannels, g.banks, g.groups);
      MulAssoc(g.channels * g.pchannels, r, g.ranks);
      MulAssoc(g.channels, g.pchannels, r * g.ranks);
    }
  }

  lemma SplitSum(g: Geometry, h: Hashed)
    ensures var r := g.banks * g.groups;
      h.BankId(g) == h.channel * (r * g.ranks * g.pchannels) + (h.pchannel * (r * g.ranks) + (h.rank * r + (h.group * g.banks + h.bank)))
  {
    var r := g.banks * g.groups;
    MulAssoc(h.rank, g.banks, g.groups);
    MulAssoc(h.pchannel, g.banks, g.groups);
    MulAssoc(h.pchannel, r, g.ranks);
    MulAssoc(h.channel * g.pchannels, g.banks, g.groups);
    MulAssoc(h.channel * g.pchannels, r, g.ranks);
    MulAssoc(h.channel, g.pchannels, r * g.ranks);
  }

  /** getAddressForBankId: hashing the address yields the bank identifier again, for every
      bank of a matching geometry. */
  method AddressForBankId(g: Geometry, tokens: seq<Token>, positions: map<char, seq<nat>>, id: nat) returns (address: nat)
    requires Matches(g, tokens) && g.Valid() && id < g.NumBanks()
    requires forall c: char :: Lookup(positions, c) == Placed(tokens, 0, c)
    ensures Hash(tokens, address).BankId(g) == id
    ensures Hash(tokens, address).row == 0 && Hash(tokens, address).col == 0 && Hash(tokens, address).line == 0
  {
    var h := SplitBankId(g, id);
    HashOfParts(g, tokens, h);
    hide Placed, Pow2, Deposit, Hash, Hashed.BankId, DepositAll, Lookup;
    ghost var fs := Parts(tokens, h);
    var values := [h.bank, h.group, h.rank, h.pchannel, h.channel];
    address := 0;
    DepositNone();
    assert fs[..0] == [];
    for i := 0 to 5
      invariant address == DepositAll(fs[..i])
    {
      var out := DepositField(values[i], Lookup(positions, BANK_FIELDS[i]));
      address := address + out;
      assert fs[..i + 1] == fs[..i] + [fs[i]];
      DepositSnoc(fs[..i], fs[i]);
    }
    assert fs[..5] == fs;
  }

  lemma DepositNone()
    ensures DepositAll([]) == 0
  {
  }

  lemma DepositSnoc(fs: seq<Spread>, f: Spread)
    ensures DepositAll(fs + [f]) == DepositAll(fs) + Deposit(f.value, f.ps)
  {
    assert (fs + [f])[..|fs|] == fs;
  }

  // ---- Building the map

  /** The configured sizes that the map string is checked against. */
  datatype Dims = Dims(g: Geometry, rows: nat, cols: nat, burst: nat) {
    function Of(letter: char): nat {
      match letter
      case 'C' => g.channels
      case 'c' => g.pchannels
      case 'R' => g.ranks
      case 'B' => g.groups
      case 'b' => g.banks
      case 'r' => rows
      case 'l' => cols
      case 'h' => burst
      case _ => 1
    }

    predicate Valid() { g.Valid() && rows >= 1 && cols >= 1 && burst >= 1 }
  }

  /** The base-two logarithm, rounded down. */
  function Log2(n: nat): nat { if n <= 1 then 0 else 1 + Log2(n / 2) }

  lemma {:induction false} Log2Exact(k: nat)
    ensures Log2(Pow2(k)) == k
  {
    if k > 0 { Log2Exact(k - 1); }
  }

  /** A simple map gives every field at most one bit; its real sizes come from the
      configuration. */
  ghost predicate Simple(tokens: seq<Token>) { forall c: char :: |Placed(tokens, 0, c)| <= 1 }

  function Resized(d: Dims, tokens: seq<Token>): seq<Token> {
    seq(|tokens|, i requires 0 <= i < |tokens| => Token(tokens[i].letter, Log2(d.Of(tokens[i].letter))))
  }

  ghost function Effective(d: Dims, tokens: seq<Token>): seq<Token> {
    if Simple(tokens) then Resized(d, tokens) else tokens
  }

  function Letters(tokens: seq<Token>): set<char> { set i | 0 <= i < |tokens| :: tokens[i].letter }

  /** The sizes that the start-up checks look at: of a simple map the configured ones, once per
      letter however often it occurs, else the bits that the string gives each letter. */
  ghost function Structure(d: Dims, tokens: seq<Token>): map<char, nat> {
    map c | c in Letters(tokens) :: if Simple(tokens) then Log2(d.Of(c)) else Amount(tokens, c)
  }

  function SizeOf(sizes: map<char, nat>, c: char): nat { if c in sizes then sizes[c] else 0 }

  /** The start-up checks: every field can hold its configured count, and the cache line field
      exactly the burst size. */
  predicate Checked(d: Dims, sizes: map<char, nat>) {
    && (forall c | c in "CcRBbrl" :: d.Of(c) <= Pow2(SizeOf(sizes, c)))
    && (if 'h' in sizes then d.burst == Pow2(sizes['h']) else d.burst <= 1)
  }

  /** The sizes added up over the tokens. */
  method SumSizes(tokens: seq<Token>) returns (sizes: map<char, nat>)
    ensures sizes == map c | c in Letters(tokens) :: Amount(tokens, c)
  {
    AmountNone();
    hide Amount;
    sizes := map[];
    assert tokens[..0] == [];
    for i := 0 to |tokens|
      invariant sizes.Keys == Letters(tokens[..i])
      invariant forall c: char :: SizeOf(sizes, c) == Amount(tokens[..i], c)
    {
      var t := tokens[i];
      sizes := sizes[t.letter := SizeOf(sizes, t.letter) + t.size];
      assert tokens[..i + 1] == tokens[..i] + [t];
      LettersSnoc(tokens[..i], t);
      forall c: char
        ensures SizeOf(sizes, c) == Amount(tokens[..i + 1], c)
      {
        AmountSnoc(tokens[..i], t, c);
      }
    }
    assert tokens[..|tokens|] == tokens;
  }

  /** The sizes of a simple map, set from the configuration. */
  method ConfiguredSizes(d: Dims, tokens: seq<Token>) returns (sizes: map<char, nat>)
    ensures sizes == map c | c in Letters(tokens) :: Log2(d.Of(c))
  {
    hide Log2, Dims.Of;
    sizes := map[];
    assert tokens[..0] == [];
    for i := 0 to |tokens|
      invariant sizes == map c | c in Letters(tokens[..i]) :: Log2(d.Of(c))
    {
      sizes := sizes[tokens[i].letter := Log2(d.Of(tokens[i].letter))];
      assert tokens[..i + 1] == tokens[..i] + [tokens[i]];
      LettersSnoc(tokens[..i], tokens[i]);
    }
    assert tokens[..|tokens|] == tokens;
  }

  lemma LettersSnoc(tokens: seq<Token>, t: Token)
    ensures Letters(tokens + [t]) == Letters(tokens) + {t.letter}
  {
    var more := tokens + [t];
    assert more[|tokens|] == t;
    forall c | c in Letters(tokens)
      ensures c in Letters(more)
    {
      var i :| 0 <= i < |tokens| && tokens[i].letter == c;
      assert more[i].letter == c;
    }
  }

  datatype Built = Ready(tokens: seq<Token>, positions: map<char, seq<nat>>) | Aborted | Hangs

  /** build */
  method Build(d: Dims, text: string) returns (r: Built)
    requires d.Valid()
    ensures match ParseAll(Strip(text))
      case Fatal => r.Aborted?
      case Diverges => r.Hangs?
      case Tokens(ts) =>
        if Checked(d, Structure(d, ts))
        then r.Ready? && r.tokens == Effective(d, ts) && forall c: char :: Lookup(r.positions, c) == Placed(r.tokens, 0, c)
        else r.Aborted?
  {
    hide Placed, Pow2, Checked, Lookup, ParseAll, Strip, Resized, Letters, Simple, Amount, Log2;
    var parsed := ParseMap(Strip(text));
    match parsed {
      case Fatal => return Aborted;
      case Diverges => return Hangs;
      case Tokens(ts) =>
        var tokens := ts;
        var sizes := SumSizes(ts);
        var positions := PlaceAll(ts);
        var simple := AllSimple(ts, positions);
        if simple {
          tokens := Resized(d, ts);
          sizes := ConfiguredSizes(d, ts);
          positions := PlaceAll(tokens);
        }
        assert sizes == Structure(d, ts);
        if Checked(d, sizes) { return Ready(tokens, positions); }
        return Aborted;
    }
  }

  /** The loop that looks for a field of more than one bit. */
  method AllSimple(tokens: seq<Token>, positions: map<char, seq<nat>>) returns (simple: bool)
    requires forall c: char :: Lookup(positions, c) == Placed(tokens, 0, c)
    ensures simple == Simple(tokens)
  {
    hide Placed;
    var keys := positions.Keys;
    while keys != {}
      invariant keys <= positions.Keys
      invariant forall c: char | c !in keys :: |Lookup(positions, c)| <= 1
      decreases keys
    {
      var c :| c in keys;
      assert Lookup(positions, c) == Placed(tokens, 0, c);
      if |positions[c]| > 1 { return false; }
      keys := keys - {c};
    }
    assert forall c: char :: |Lookup(positions, c)| <= 1;
    simple := true;
  }

  /** How many bits the tokens give a field, and how many tokens name it. */
  function Amount(tokens: seq<Token>, c: char): nat {
    if tokens == [] then 0 else (if tokens[0].letter == c then tokens[0].size else 0) + Amount(tokens[1..], c)
  }

  function Named(tokens: seq<Token>, c: char): nat {
    if tokens == [] then 0 else (if tokens[0].letter == c then 1 else 0) + Named(tokens[1..], c)
  }

  lemma {:induction false} PlacedLength(tokens: seq<Token>, pos: nat, c: char)
    ensures |Placed(tokens, pos, c)| == Amount(tokens, c)
  {
    if tokens != [] { PlacedLength(tokens[1..], pos + tokens[0].size, c); }
  }

  lemma AmountNone()
    ensures forall c: char :: Amount([], c) == 0
  {
  }

  lemma {:induction false} AmountSnoc(tokens: seq<Token>, t: Token, c: char)
    ensures Amount(tokens + [t], c) == Amount(tokens, c) + if t.letter == c then t.size else 0
  {
    if tokens == [] {
      assert [t][1..] == [];
    } else {
      AmountSnoc(tokens[1..], t, c);
      assert (tokens + [t])[1..] == tokens[1..] + [t];
    }
  }

  lemma {:induction false} NamedLetter(tokens: seq<Token>, c: char)
    ensures Named(tokens, c) > 0 <==> c in Letters(tokens)
  {
    if tokens != [] {
      NamedLetter(tokens[1..], c);
      var rest := tokens[1..];
      if c in Letters(rest) {
        var i :| 0 <= i < |rest| && rest[i].letter == c;
        assert tokens[i + 1].letter == c;
      }
      if c in Letters(tokens) && tokens[0].letter != c {
        var i :| 0 <= i < |tokens| && tokens[i].letter == c;
        assert rest[i - 1].letter == c;
      }
    }
  }

  lemma {:induction false} ResizedAmount(d: Dims, tokens: seq<Token>, c: char)
    ensures Amount(Resized(d, tokens), c) == Named(tokens, c) * Log2(d.Of(c))
  {
    if tokens != [] {
      ResizedAmount(d, tokens[1..], c);
      assert Resized(d, tokens)[1..] == Resized(d, tokens[1..]);
      Distribute(if tokens[0].letter == c then 1 else 0, Named(tokens[1..], c), Log2(d.Of(c)));
    }
  }

  lemma {:induction false} Log2Below(n: nat)
    requires n >= 1
    ensures Pow2(Log2(n)) <= n
  {
    if n > 1 { Log2Below(n / 2); }
  }

  lemma {:induction false} Pow2Less(a: nat, b: nat)
    requires a < b
    ensures Pow2(a) < Pow2(b)
    decreases b
  {
    if b > a + 1 { Pow2Less(a, b - 1); }
  }

  /** A field of a simple map gets the bits of its configured count once per occurrence. */
  lemma SimpleField(d: Dims, tokens: seq<Token>, c: char)
    requires Simple(tokens) && 1 <= d.Of(c) <= Pow2(SizeOf(Structure(d, tokens), c))
    ensures d.Of(c) == Pow2(|Placed(Resized(d, tokens), 0, c)|) <==> Named(tokens, c) <= 1 || d.Of(c) == 1
  {
    hide Placed, Resized, Amount, Named, Letters, Simple, Dims.Of, Pow2, Log2;
    var k := Log2(d.Of(c));
    PlacedLength(Resized(d, tokens), 0, c);
    ResizedAmount(d, tokens, c);
    NamedLetter(tokens, c);
    PowZero();
    if Named(tokens, c) > 0 {
      Log2Below(d.Of(c));
      assert d.Of(c) == Pow2(k);
      Multiple(Named(tokens, c), k);
      if k > 0 { Pow2Less(0, k); }
      if Named(tokens, c) * k > k { Pow2Less(k, Named(tokens, c) * k); }
    } else {
      assert Amount(Resized(d, tokens), c) == 0;
    }
  }

  lemma Multiple(m: nat, k: nat)
    requires m > 0
    ensures m * k >= k && (m * k == k <==> m == 1 || k == 0)
  {
    if m > 1 && k > 0 { MulMono(2, m, k); }
  }

  lemma PowZero()
    ensures Pow2(0) == 1 && Log2(1) == 0
  {
  }

  /** A simple map that passes the checks has the geometry's bits if and only if no bank field
      occurs twice, except one whose count is one. */
  lemma SimpleMatches(d: Dims, tokens: seq<Token>)
    requires d.Valid() && Simple(tokens) && Checked(d, Structure(d, tokens))
    ensures Matches(d.g, Resized(d, tokens)) <==> forall c | c in BANK_FIELDS :: Named(tokens, c) <= 1 || d.Of(c) == 1
  {
    hide Placed, Resized, Simple, Pow2, Structure, Named, SizeOf;
    forall c | c in BANK_FIELDS
      ensures d.Of(c) == Pow2(|Placed(Resized(d, tokens), 0, c)|) <==> Named(tokens, c) <= 1 || d.Of(c) == 1
    {
      assert c in "CcRBbrl";
      SimpleField(d, tokens, c);
    }
    assert 'b' in BANK_FIELDS && 'B' in BANK_FIELDS && 'R' in BANK_FIELDS && 'c' in BANK_FIELDS && 'C' in BANK_FIELDS;
  }

  /** A field written twice passes the checks and gets twice its bits: the string "b:0b" on one rank
      of two banks, with one row and one column. */
  lemma TwiceNamed()
    ensures var d, tokens := Dims(Geometry(1, 1, 1, 1, 2), 1, 1, 1), [Token('b', 1), Token('b', 0)];
      && ParseAll("b:0b") == Tokens(tokens) && d.Valid() && Simple(tokens) && Checked(d, Structure(d, tokens))
      && |Placed(Resized(d, tokens), 0, 'b')| == 2 && !Matches(d.g, Resized(d, tokens))
  {
    hide Placed;
    var d, tokens := Dims(Geometry(1, 1, 1, 1, 2), 1, 1, 1), [Token('b', 1), Token('b', 0)];
    TwoFields();
    forall c: char
      ensures |Placed(tokens, 0, c)| <= 1
    {
      PlacedLength(tokens, 0, c);
      AmountOfTwo(tokens, c);
    }
    assert tokens[0].letter == 'b';
    assert Log2(2) == 1;
    PlacedLength(Resized(d, tokens), 0, 'b');
    AmountOfTwo(Resized(d, tokens), 'b');
  }

  lemma AmountOfTwo(tokens: seq<Token>, c: char)
    requires |tokens| == 2
    ensures Amount(tokens, c) == (if tokens[0].letter == c then tokens[0].size else 0) + if tokens[1].letter == c then tokens[1].size else 0
  {
    var rest := tokens[1..];
    assert rest[1..] == [] && rest[0] == tokens[1];
    assert Amount(rest[1..], c) == 0;
  }

  lemma TwoFields()
    ensures ParseAll("b:0b") == Tokens([Token('b', 1), Token('b', 0)])
  {
    var s, d := "b:0b", "0";
    assert s[..3] == "b:0" && s[3] == 'b';
    assert Scan(s, 4, "", false) == Match('b', 1, "b:0");
    assert d[..0] == "" && Value(d) == 0;
    assert "" + (['b', ':'] + d) == "b:0";
    ScanSuffix("", 'b', d);
    hide Scan, Value;
    assert ParseAll("b:0") == Tokens([Token('b', 0)]);
  }
}
