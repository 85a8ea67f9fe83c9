/** The address map string (c_AddressHasher::parsePattern and the loop of build): a list of
    field letters with optional sizes, read from right to left. */
module MapString {
  import opened Dram

  /** A field as written: its letter and its ":size" suffix, if any. */
  datatype Field = Field(letter: char, suffix: Option<nat>) {
    function Size(): nat { if suffix.None? then 1 else suffix.value }
  }

  /** A field as parsed. */
  datatype Token = Token(letter: char, size: nat)

  predicate IsDigit(c: char) { '0' <= c <= '9' }

  predicate IsAlpha(c: char) { 'a' <= c <= 'z' || 'A' <= c <= 'Z' }

  predicate FieldLetter(c: char) { c in "rlRBbChcx" }

  const INT_MAX: nat := 0x7FFF_FFFF

  // ---- Numbers

  function Value(digits: string): nat
    requires forall i | 0 <= i < |digits| :: IsDigit(digits[i])
  {
    if digits == "" then 0
    else
      var c := digits[|digits| - 1];
      assert IsDigit(c);
      10 * Value(digits[..|digits| - 1]) + (c as int - '0' as int)
  }

  /** stoi: no digits and values beyond int end the program. */
  function ToInt(digits: string): Option<nat>
    requires forall i | 0 <= i < |digits| :: IsDigit(digits[i])
  {
    if digits == "" || Value(digits) > INT_MAX then None else Some(Value(digits))
  }

  function Digit(n: nat): char
    requires n < 10
  {
    ('0' as int + n) as char
  }

  function Digits(n: nat): (d: string)
    ensures d != "" && forall i | 0 <= i < |d| :: IsDigit(d[i])
  {
    if n < 10 then [Digit(n)] else Digits(n / 10) + [Digit(n % 10)]
  }

  lemma {:induction false} DigitsValue(n: nat)
    ensures Value(Digits(n)) == n
  {
    if n >= 10 {
      DigitsValue(n / 10);
      var d := Digits(n);
      assert d[..|d| - 1] == Digits(n / 10);
    } else {
      assert Digits(n)[..0] == "";
    }
  }

  // ---- One pattern

  /** The outcome of parsePattern: a field with the unread rest of the string; a fatal error;
      or the scan passed the start of the string without meeting a letter. */
  datatype Step = Match(letter: char, size: nat, rest: string) | Bad | NoLetter

  /** The scan with the first `i` characters still to be read. */
  function Scan(s: string, i: nat, digits: string, sized: bool): Step
    requires i <= |s| && forall k | 0 <= k < |digits| :: IsDigit(digits[k])
  {
    if i == 0 then NoLetter
    else
      var c := s[i - 1];
      if IsDigit(c) then if sized then Bad else Scan(s, i - 1, [c] + digits, sized)
      else if IsAlpha(c) then
        if !FieldLetter(c) then Bad
        else if !sized then Match(c, 1, s[..i - 1])
        else
          var n := ToInt(digits);
          if n.None? then Bad else Match(c, n.value, s[..i - 1])
      else if c == ':' then Scan(s, i - 1, digits, true)
      else Bad
  }

  method ParsePattern(s: string) returns (r: Step)
    ensures r == Scan(s, |s|, "", false)
  {
    var i, digits, sized := |s|, "", false;
    while i > 0
      invariant 0 <= i <= |s| && forall k | 0 <= k < |digits| :: IsDigit(digits[k])
      invariant Scan(s, i, digits, sized) == Scan(s, |s|, "", false)
    {
      var c := s[i - 1];
      if IsDigit(c) {
        if sized { return Bad; }
        digits := [c] + digits;
      } else if IsAlpha(c) {
        if !FieldLetter(c) { return Bad; }
        var size := 1;
        if sized {
          var n := ToInt(digits);
          if n.None? { return Bad; }
          size := n.value;
        }
        return Match(c, size, s[..i - 1]);
      } else if c == ':' {
        sized := true;
      } else {
        return Bad;
      }
      i := i - 1;
    }
    r := NoLetter;
  }

  // ---- The whole string

  /** What the parse loop does: deliver tokens, abort, or run forever on a string that it no
      longer shortens. */
  datatype Outcome = Tokens(tokens: seq<Token>) | Fatal | Diverges

  lemma {:induction false} ScanShortens(s: string, i: nat, digits: string, sized: bool)
    requires i <= |s| && forall k | 0 <= k < |digits| :: IsDigit(digits[k])
    ensures var r := Scan(s, i, digits, sized); r.Match? ==> |r.rest| < i && r.rest == s[..|r.rest|] && FieldLetter(r.letter) && IsAlpha(s[|r.rest|])
  {
    if i > 0 {
      var c := s[i - 1];
      if IsDigit(c) && !sized { ScanShortens(s, i - 1, [c] + digits, sized); }
      if !IsDigit(c) && !IsAlpha(c) && c == ':' { ScanShortens(s, i - 1, digits, true); }
    }
  }

  function ParseAll(s: string): Outcome
    decreases |s|
  {
    if s == "" then Tokens([])
    else
      var r := Scan(s, |s|, "", false);
      ScanShortens(s, |s|, "", false);
      match r
      case Bad => Fatal
      case NoLetter => Diverges
      case Match(c, n, rest) =>
        match ParseAll(rest)
        case Tokens(ts) => Tokens([Token(c, n)] + ts)
        case Fatal => Fatal
        case Diverges => Diverges
  }

  /** Prefix the tokens of an outcome. */
  function With(ts: seq<Token>, o: Outcome): Outcome {
    match o
    case Tokens(more) => Tokens(ts + more)
    case Fatal => Fatal
    case Diverges => Diverges
  }

  method ParseMap(s: string) returns (o: Outcome)
    ensures o == ParseAll(s)
  {
    hide Scan;
    var rest, tokens := s, [];
    while rest != ""
      invariant With(tokens, ParseAll(rest)) == ParseAll(s)
      decreases |rest|
    {
      var r := ParsePattern(rest);
      ScanShortens(rest, |rest|, "", false);
      match r {
        case Bad => return Fatal;
        case NoLetter => return Diverges;
        case Match(c, n, shorter) =>
          assert forall ts :: (tokens + [Token(c, n)]) + ts == tokens + ([Token(c, n)] + ts);
          rest, tokens := shorter, tokens + [Token(c, n)];
      }
    }
    o := Tokens(tokens);
  }

  // ---- Which strings parse

  /** Where the run of colons, or of digits, from position `i` ends. */
  function PastColons(s: string, i: nat): (e: nat)
    requires i <= |s|
    ensures i <= e <= |s| && (forall k | i <= k < e :: s[k] == ':') && (e < |s| ==> s[e] != ':')
    decreases |s| - i
  {
    if i < |s| && s[i] == ':' then PastColons(s, i + 1) else i
  }

  function PastDigits(s: string, i: nat): (e: nat)
    requires i <= |s|
    ensures i <= e <= |s| && (forall k | i <= k < e :: IsDigit(s[k])) && (e < |s| ==> !IsDigit(s[e]))
    decreases |s| - i
  {
    if i < |s| && IsDigit(s[i]) then PastDigits(s, i + 1) else i
  }

  /** The colons from `i` are followed by digits whose value is an int. */
  predicate Fits(s: string, i: nat)
    requires i <= |s|
  {
    var e := PastColons(s, i);
    var digits := s[e..PastDigits(s, e)];
    digits != "" && Value(digits) <= INT_MAX
  }

  /** A character the parser accepts where it stands. */
  predicate Good(s: string, k: nat)
    requires k < |s|
  {
    && (FieldLetter(s[k]) || IsDigit(s[k]) || s[k] == ':')
    && (k > 0 && s[k] == ':' ==> !IsDigit(s[k - 1]) && (IsAlpha(s[k - 1]) ==> Fits(s, k)))
  }

  /** Only field letters, digits and colons; no colon right after a digit; every letter followed
      by a colon has a size that is an int. */
  predicate Legal(s: string) {
    forall k | 0 <= k < |s| :: Good(s, k)
  }

  /** What a scan has read: colons and then digits, up to the end of the string. */
  predicate Read(s: string, i: nat, digits: string, sized: bool) {
    && i + |digits| <= |s|
    && s[|s| - |digits|..] == digits
    && (forall k | 0 <= k < |digits| :: IsDigit(digits[k]))
    && (forall k | i <= k < |s| - |digits| :: s[k] == ':')
    && (sized <==> i < |s| - |digits|)
  }

  lemma ReadFits(s: string, i: nat, digits: string)
    requires Read(s, i, digits, true)
    ensures Fits(s, i) <==> ToInt(digits).Some?
  {
    hide Value;
    var e := PastColons(s, i);
    var n := |s| - |digits|;
    assert n < |s| ==> digits[0] == s[n];
    assert e == n;
    var f := PastDigits(s, e);
    assert forall k | n <= k < |s| :: s[k] == digits[k - n];
    assert f == |s|;
    assert s[e..f] == digits;
  }

  lemma ReadGood(s: string, i: nat, digits: string, sized: bool)
    requires Read(s, i, digits, sized)
    ensures forall k | i < k < |s| :: Good(s, k)
  {
    hide Fits;
    var n := |s| - |digits|;
    assert forall k | n <= k < |s| :: s[k] == digits[k - n];
  }

  /** A scan fails exactly when it meets a character that is not good. */
  lemma {:induction false} ScanLegal(s: string, i: nat, digits: string, sized: bool)
    requires Read(s, i, digits, sized)
    ensures var r := Scan(s, i, digits, sized);
      (r.Bad? ==> !Legal(s)) && (!r.Bad? ==> forall k | (if r.Match? then |r.rest| else 0) <= k < |s| :: Good(s, k))
  {
    hide Value, PastColons, PastDigits, Fits;
    ReadGood(s, i, digits, sized);
    if sized { ReadFits(s, i, digits); }
    assert i < |s| ==> Good(s, i) || !Legal(s);
    if i > 0 {
      var c := s[i - 1];
      assert Good(s, i - 1) || !Legal(s);
      if !sized {
        assert i == |s| - |digits|;
        assert i < |s| ==> s[i] == digits[0];
      }
      if IsDigit(c) {
        if !sized {
          assert s[|s| - |digits| - 1..] == [c] + digits;
          ScanLegal(s, i - 1, [c] + digits, sized);
        }
      } else if !IsAlpha(c) && c == ':' {
        ScanLegal(s, i - 1, digits, true);
      }
    } else if !sized {
      assert i < |s| ==> s[i] == digits[0];
    }
  }

  /** What follows a letter does not matter to the characters before it. */
  lemma {:induction false} ColonsBefore(s: string, j: nat, i: nat)
    requires i <= j < |s| && IsAlpha(s[j])
    ensures PastColons(s, i) == PastColons(s[..j], i)
    decreases j - i
  {
    if i < j { ColonsBefore(s, j, i + 1); }
  }

  lemma {:induction false} DigitsBefore(s: string, j: nat, i: nat)
    requires i <= j < |s| && IsAlpha(s[j])
    ensures PastDigits(s, i) == PastDigits(s[..j], i)
    decreases j - i
  {
    if i < j { DigitsBefore(s, j, i + 1); }
  }

  lemma GoodBefore(s: string, j: nat, k: nat)
    requires k < j < |s| && IsAlpha(s[j])
    ensures Good(s, k) <==> Good(s[..j], k)
  {
    ColonsBefore(s, j, k);
    hide PastColons;
    var e := PastColons(s[..j], k);
    DigitsBefore(s, j, e);
    hide PastDigits, Value;
    var f := PastDigits(s[..j], e);
    assert f <= |s[..j]| == j;
    assert s[e..f] == s[..j][e..f];
  }

  lemma LegalBefore(s: string, j: nat)
    requires j < |s| && IsAlpha(s[j]) && forall k | j <= k < |s| :: Good(s, k)
    ensures Legal(s) <==> Legal(s[..j])
  {
    hide Good;
    forall k | 0 <= k < j
      ensures Good(s, k) <==> Good(s[..j], k)
    {
      GoodBefore(s, j, k);
    }
  }

  /** For every string: the loop aborts exactly on the strings that are not legal; on a legal one
      it delivers tokens when the string is empty or starts with a letter, and never ends otherwise. */
  lemma {:induction false} ParseOutcome(s: string)
    ensures ParseAll(s).Fatal? <==> !Legal(s)
    ensures ParseAll(s).Tokens? <==> Legal(s) && (s == "" || IsAlpha(s[0]))
    ensures ParseAll(s).Diverges? <==> Legal(s) && s != "" && !IsAlpha(s[0])
    decreases |s|
  {
    hide Scan, Good;
    if s != "" {
      ScanShortens(s, |s|, "", false);
      ScanLegal(s, |s|, "", false);
      var r := Scan(s, |s|, "", false);
      if r.Match? {
        LegalBefore(s, |r.rest|);
        ParseOutcome(r.rest);
      } else if r.NoLetter? {
        NoLetterAtAll(s, |s|, "", false);
      }
    }
  }

  /** A size in front of the first letter keeps the loop from ending. */
  lemma SizeFirstDiverges()
    ensures ParseAll("8r") == Diverges
  {
    ParseOutcome("8r");
  }

  lemma {:induction false} NoLetterAtAll(s: string, i: nat, digits: string, sized: bool)
    requires i <= |s| && forall k | 0 <= k < |digits| :: IsDigit(digits[k])
    requires Scan(s, i, digits, sized).NoLetter?
    ensures forall k | 0 <= k < i :: !IsAlpha(s[k])
  {
    if i > 0 {
      var c := s[i - 1];
      if IsDigit(c) { NoLetterAtAll(s, i - 1, [c] + digits, sized); } else { NoLetterAtAll(s, i - 1, digits, true); }
    }
  }

  // ---- Round trip

  function Text(f: Field): string {
    if f.suffix.None? then [f.letter] else [f.letter, ':'] + Digits(f.suffix.value)
  }

  function Plain(fields: seq<Field>): string {
    if fields == [] then "" else Plain(fields[..|fields| - 1]) + Text(fields[|fields| - 1])
  }

  predicate WellFormed(fields: seq<Field>) {
    forall i | 0 <= i < |fields| ::
      FieldLetter(fields[i].letter) && (fields[i].suffix.Some? ==> 1 <= fields[i].suffix.value <= INT_MAX)
  }

  /** The parsed fields, last first. */
  function Reversed(fields: seq<Field>): seq<Token> {
    if fields == [] then []
    else
      var f := fields[|fields| - 1];
      [Token(f.letter, f.Size())] + Reversed(fields[..|fields| - 1])
  }

  lemma {:induction false} ScanDigits(s: string, i: nat, d: string, digits: string)
    requires i + |d| <= |s| && s[i..i + |d|] == d
    requires (forall k | 0 <= k < |d| :: IsDigit(d[k])) && (forall k | 0 <= k < |digits| :: IsDigit(digits[k]))
    ensures Scan(s, i + |d|, digits, false) == Scan(s, i, d + digits, false)
  {
    if d == "" {
      assert d + digits == digits;
    } else {
      var n := |d| - 1;
      assert s[i + n] == d[n];
      assert s[i..i + n] == d[..n];
      ScanDigits(s, i, d[..n], [d[n]] + digits);
      assert d[..n] + ([d[n]] + digits) == d + digits;
    }
  }

  lemma ScanSuffix(p: string, c: char, d: string)
    requires FieldLetter(c) && d != "" && (forall k | 0 <= k < |d| :: IsDigit(d[k])) && Value(d) <= INT_MAX
    ensures var s := p + ([c, ':'] + d); Scan(s, |s|, "", false) == Match(c, Value(d), p)
  {
    hide Value;
    var s := p + ([c, ':'] + d);
    var n := |p|;
    assert s[..n] == p && s[n] == c && s[n + 1] == ':' && s[n + 2..n + 2 + |d|] == d && |s| == n + 2 + |d|;
    ScanDigits(s, n + 2, d, "");
    assert d + "" == d;
    assert Scan(s, n + 2, d, false) == Scan(s, n + 1, d, true);
    assert IsAlpha(c);
  }

  lemma ScanField(p: string, f: Field)
    requires FieldLetter(f.letter) && (f.suffix.Some? ==> 1 <= f.suffix.value <= INT_MAX)
    ensures Scan(p + Text(f), |p + Text(f)|, "", false) == Match(f.letter, f.Size(), p)
  {
    hide Value, Digits;
    if f.suffix.Some? {
      DigitsValue(f.suffix.value);
      ScanSuffix(p, f.letter, Digits(f.suffix.value));
    } else {
      var s := p + [f.letter];
      assert s[..|p|] == p && s[|p|] == f.letter && IsAlpha(f.letter);
    }
  }

  /** Printing fields and parsing the string gives the fields back, last first. */
  lemma {:induction false} RoundTrip(fields: seq<Field>)
    requires WellFormed(fields)
    ensures ParseAll(Plain(fields)) == Tokens(Reversed(fields))
  {
    if fields != [] {
      var n := |fields| - 1;
      RoundTrip(fields[..n]);
      ScanField(Plain(fields[..n]), fields[n]);
    }
  }

  // ---- Separators

  /** build removes underscores and newlines before it parses. */
  function Strip(s: string): string {
    if s == "" then ""
    else Strip(s[..|s| - 1]) + if s[|s| - 1] == '_' || s[|s| - 1] == '\n' then "" else [s[|s| - 1]]
  }

  /** Fields separated as in the default map. */
  function Separated(fields: seq<Field>): string {
    if fields == [] then "_" else Separated(fields[..|fields| - 1]) + Text(fields[|fields| - 1]) + "_"
  }

  lemma {:induction false} StripConcat(s: string, t: string)
    ensures Strip(s + t) == Strip(s) + Strip(t)
  {
    if t == "" {
      assert s + t == s;
    } else {
      assert (s + t)[..|s + t| - 1] == s + t[..|t| - 1];
      StripConcat(s, t[..|t| - 1]);
    }
  }

  lemma {:induction false} StripKeeps(s: string)
    requires forall i | 0 <= i < |s| :: s[i] != '_' && s[i] != '\n'
    ensures Strip(s) == s
  {
    if s != "" { StripKeeps(s[..|s| - 1]); }
  }

  lemma {:induction false} SeparatedRoundTrip(fields: seq<Field>)
    requires WellFormed(fields)
    ensures Strip(Separated(fields)) == Plain(fields)
    ensures ParseAll(Strip(Separated(fields))) == Tokens(Reversed(fields))
  {
    RoundTrip(fields);
    StripUnderscore();
    if fields != [] {
      var n := |fields| - 1;
      SeparatedRoundTrip(fields[..n]);
      StripConcat(Separated(fields[..n]) + Text(fields[n]), "_");
      StripConcat(Separated(fields[..n]), Text(fields[n]));
      StripKeeps(Text(fields[n]));
    }
  }

  lemma StripUnderscore()
    ensures Strip("_") == ""
  {
    assert "_"[..0] == "";
  }
}
