/** The number formats of `vprintf` (lib.c) and the parser of the shell's `init` command
    (shell.c). Characters are their codes. */
module PrintParse {
  import opened Integers

  const MINUS: int := 45
  const SPACE: int := 32
  const TAB: int := 9
  const ZERO: int := 48

  // ---- Numerals ---------------------------------------------------------

  function DigitChar(d: nat): (r: int)
    requires d < 16
  {
    if d > 9 then 65 + (d - 10) else ZERO + d
  }

  function DigitOf(c: int): int {
    if c >= 65 then c - 65 + 10 else c - ZERO
  }

  /** The digits of n, most significant first, none for 0. */
  function Digits(n: nat, base: nat): seq<int>
    requires 2 <= base <= 16
  {
    if n == 0 then [] else Digits(n / base, base) + [DigitChar(n % base)]
  }

  function Numeral(n: nat, base: nat): seq<int>
    requires 2 <= base <= 16
  {
    if n == 0 then [ZERO] else Digits(n, base)
  }

  function ValueOf(s: seq<int>, base: nat): int {
    if s == [] then 0 else ValueOf(s[..|s| - 1], base) * base + DigitOf(s[|s| - 1])
  }

  function Pow(base: nat, k: nat): nat {
    if k == 0 then 1 else Pow(base, k - 1) * base
  }

  /** A numeral means its number, and it has no leading zero. */
  lemma {:induction false} NumeralMeaning(n: nat, base: nat)
    requires 2 <= base <= 16
    ensures ValueOf(Digits(n, base), base) == n
    ensures n > 0 ==> Digits(n, base) != [] && Digits(n, base)[0] != ZERO
    ensures forall c | c in Digits(n, base) :: 0 <= DigitOf(c) < base && c > SPACE
  {
    if n > 0 {
      NumeralMeaning(n / base, base);
      var s := Digits(n, base);
      assert s[..|s| - 1] == Digits(n / base, base);
      Quotient(n, base);
    }
  }

  lemma {:induction false} DigitCount(n: nat, base: nat, k: nat)
    requires 2 <= base <= 16 && n < Pow(base, k)
    ensures |Digits(n, base)| <= k
  {
    if n > 0 {
      Smaller(n, base, Pow(base, k - 1));
      DigitCount(n / base, base, k - 1);
    }
  }

  lemma Smaller(n: nat, base: nat, p: nat)
    requires base >= 1 && n < p * base
    ensures n / base < p
  {
    Quotient(n, base);
    Ordered(n / base, p, base);
  }

  lemma Ordered(q: nat, p: nat, base: nat)
    ensures q >= p ==> q * base >= p * base
  {
    assert q * base == p * base + (q - p) * base;
    assert q >= p ==> (q - p) * base >= 0;
  }

  lemma TenDigits()
    ensures Pow(10, 10) == 10_000_000_000
  {
    var p5 := Pow(10, 5);
    assert p5 == 100_000;
    assert Pow(10, 8) == Pow(10, 7) * 10 && Pow(10, 7) == Pow(10, 6) * 10 && Pow(10, 6) == p5 * 10;
  }

  lemma SixteenDigits()
    ensures Pow(16, 16) == U64
  {
    assert Pow(16, 4) == 0x1_0000;
    assert Pow(16, 8) == 0x1_0000_0000 by {
      assert Pow(16, 6) == 0x100_0000;
    }
    assert Pow(16, 12) == 0x1_0000_0000_0000 by {
      assert Pow(16, 10) == 0x100_0000_0000;
    }
    assert Pow(16, 14) == 0x100_0000_0000_0000;
  }

  // ---- The printer ------------------------------------------------------

  /** The digits collected so far, which are in reverse. */
  function Reversed(s: seq<int>): (r: seq<int>)
    ensures |r| == |s|
  {
    if s == [] then [] else [s[|s| - 1]] + Reversed(s[..|s| - 1])
  }

  /** The collected digits go out last one first. */
  method Emit(chars: array<int>, count: nat, buf: seq<int>) returns (out: seq<int>)
    requires count <= chars.Length
    ensures out == buf + Reversed(chars[..count])
  {
    out := buf;
    var left: nat := count;
    while left > 0
      invariant left <= count <= chars.Length && out + Reversed(chars[..left]) == buf + Reversed(chars[..count])
    {
      left := left - 1;
      assert chars[..left + 1][..left] == chars[..left];
      assert out + Reversed(chars[..left + 1]) == (out + [chars[left]]) + Reversed(chars[..left]);
      out := out + [chars[left]];
    }
  }

  lemma ReversedSnoc(done: seq<int>, c: int)
    ensures Reversed(done + [c]) == [c] + Reversed(done)
  {
    assert (done + [c])[..|done|] == done;
  }

  lemma DigitsSnoc(n: nat, base: nat)
    requires 2 <= base <= 16 && n > 0
    ensures Digits(n, base) == Digits(n / base, base) + [DigitChar(n % base)]
  {
  }

  /** One more digit has been collected. */
  lemma Collected(n: nat, base: nat, done: seq<int>, c: int)
    requires 2 <= base <= 16 && n > 0 && c == DigitChar(n % base)
    ensures Digits(n, base) + Reversed(done) == Digits(n / base, base) + Reversed(done + [c])
  {
    hide Digits, Reversed, DigitChar;
    DigitsSnoc(n, base);
    ReversedSnoc(done, c);
    var d, r := Digits(n / base, base), Reversed(done);
    assert (d + [c]) + r == d + ([c] + r);
  }

  /** What `%d` prints. */
  function DecimalText(num: int): seq<int> {
    if num < 0 then [MINUS] + Numeral(-num, 10) else Numeral(num, 10)
  }

  /** The digit loop of `%d`: the twenty characters are enough, at most ten are used. */
  method CollectDecimal(n: nat, chars: array<int>) returns (count: nat)
    requires n < 0x8000_0000 && chars.Length == 20
    modifies chars
    ensures count <= 10 && Reversed(chars[..count]) == Digits(n, 10)
  {
    hide Digits, Reversed;
    TenDigits();
    DigitCount(n, 10, 10);
    CollectStart(n, 10);
    count := 0;
    var tmp := n;
    assert chars[..0] == [];
    while tmp != 0
      invariant count <= |Digits(tmp, 10)| + count <= 10
      invariant Digits(n, 10) == Digits(tmp, 10) + Reversed(chars[..count])
    {
      ghost var done := chars[..count];
      DigitsStep(tmp, 10);
      chars[count] := ZERO + tmp % 10;
      assert chars[..count + 1] == done + [DigitChar(tmp % 10)];
      Collected(tmp, 10, done, DigitChar(tmp % 10));
      count := count + 1;
      tmp := tmp / 10;
    }
    CollectEnd(10, chars[..count]);
  }

  lemma CollectStart(n: nat, base: nat)
    requires 2 <= base <= 16
    ensures Digits(n, base) + Reversed([]) == Digits(n, base)
  {
  }

  lemma CollectEnd(base: nat, done: seq<int>)
    requires 2 <= base <= 16
    ensures Digits(0, base) + Reversed(done) == Reversed(done)
  {
  }

  lemma DigitsStep(n: nat, base: nat)
    requires 2 <= base <= 16 && n > 0
    ensures |Digits(n, base)| == |Digits(n / base, base)| + 1
  {
  }

  /** The `%d` conversion, for every int but the most negative one. */
  method FormatDecimal(num: int, buf: seq<int>) returns (out: seq<int>)
    requires -0x8000_0000 < num < 0x8000_0000
    ensures out == buf + DecimalText(num)
  {
    out := buf;
    if num == 0 {
      return out + [ZERO];
    }
    var tmp := num;
    if tmp < 0 {
      out := out + [MINUS];
      tmp := -tmp;
    }
    hide Digits, Reversed;
    var chars := new int[20];
    var count := CollectDecimal(tmp, chars);
    out := Emit(chars, count, out);
  }

  /** What `%x` prints. */
  function HexText(num: int): seq<int> {
    (if num < 0 then [MINUS] else []) + [ZERO, 120] + Numeral(if num < 0 then -num else num, 16)
  }

  /** The digit loop of `%x`: at most sixteen of the twenty characters are used. */
  method CollectHex(n: nat, chars: array<int>) returns (count: nat)
    requires n < 0x8000_0000_0000_0000 && chars.Length == 20
    modifies chars
    ensures count <= 16 && Reversed(chars[..count]) == Digits(n, 16)
  {
    hide Digits, Reversed;
    SixteenDigits();
    DigitCount(n, 16, 16);
    CollectStart(n, 16);
    count := 0;
    var tmp := n;
    assert chars[..0] == [];
    while tmp != 0
      invariant count <= |Digits(tmp, 16)| + count <= 16
      invariant Digits(n, 16) == Digits(tmp, 16) + Reversed(chars[..count])
    {
      ghost var done := chars[..count];
      DigitsStep(tmp, 16);
      if tmp % 16 > 9 {
        chars[count] := 65 + (tmp % 16 - 10);
      } else {
        chars[count] := ZERO + tmp % 16;
      }
      assert chars[..count + 1] == done + [DigitChar(tmp % 16)];
      Collected(tmp, 16, done, DigitChar(tmp % 16));
      count := count + 1;
      tmp := tmp / 16;
    }
    CollectEnd(16, chars[..count]);
  }

  /** The `%x` conversion, for every long but the most negative one. */
  method FormatHex(num: int, buf: seq<int>) returns (out: seq<int>)
    requires -0x8000_0000_0000_0000 < num < 0x8000_0000_0000_0000
    ensures out == buf + HexText(num)
  {
    hide Digits, Reversed;
    out := buf;
    var tmp := num;
    if tmp < 0 {
      out := out + [MINUS];
      tmp := -tmp;
    }
    out := out + [ZERO];
    out := out + [120];
    if num == 0 {
      return out + [ZERO];
    }
    var chars := new int[20];
    var count := CollectHex(tmp, chars);
    ghost var start := out;
    out := Emit(chars, count, out);
    assert start == buf + ((if num < 0 then [MINUS] else []) + [ZERO, 120]);
  }

  // ---- The parser -------------------------------------------------------

  predicate Blank(c: int) {
    c == SPACE || c == TAB
  }

  /** One more digit appended to the value, in 64 bits. */
  function Accumulate(value: nat, c: int): nat {
    (value * 10 + c - ZERO) % U64
  }

  function SkipBlanks(s: seq<int>): (r: seq<int>)
    ensures |r| <= |s|
  {
    if s == [] || !Blank(s[0]) then s else SkipBlanks(s[1..])
  }

  /** What parsing a buffer comes to: the fields, or a read beyond the buffer. */
  datatype Parsed = Outside | Fields(fields: seq<nat>)

  function Begin(value: nat, p: Parsed): (r: Parsed)
    ensures r.Fields? <==> p.Fields?
  {
    if p.Outside? then Outside else Fields([value] + p.fields)
  }

  /** The numbers `parse_init` reads from a buffer, with a number begun. The terminating
      zero ends the scan, except right after blanks: there it is taken for a digit, and
      the scan goes on behind it. */
  function Parse(b: seq<int>, value: nat): (r: Parsed)
    ensures r.Fields? ==> |r.fields| >= 1
    decreases |b|
  {
    if b == [] then Outside
    else if b[0] == 0 then Fields([value])
    else if Blank(b[0]) then
      var r := SkipBlanks(b[1..]);
      if r == [] then Outside else Begin(value, Parse(r[1..], Accumulate(0, r[0])))
    else Parse(b[1..], Accumulate(value, b[0]))
  }

  /** The parser's inner loop. */
  method SkipRun(cmd: seq<int>, from: nat) returns (ctr: nat)
    requires from <= |cmd| && SkipBlanks(cmd[from..]) != []
    ensures from <= ctr < |cmd| && cmd[ctr..] == SkipBlanks(cmd[from..])
  {
    ctr := from;
    while Blank(cmd[ctr])
      invariant from <= ctr < |cmd| && SkipBlanks(cmd[ctr..]) == SkipBlanks(cmd[from..])
      decreases |cmd| - ctr
    {
      assert cmd[ctr..][1..] == cmd[ctr + 1..];
      ctr := ctr + 1;
    }
  }

  lemma ParseStep(b: seq<int>, value: nat)
    requires Parse(b, value).Fields?
    ensures b != []
    ensures b[0] == 0 ==> Parse(b, value) == Fields([value])
    ensures b[0] != 0 && !Blank(b[0]) ==> Parse(b, value) == Parse(b[1..], Accumulate(value, b[0]))
    ensures Blank(b[0]) ==> SkipBlanks(b) != []
    ensures Blank(b[0]) ==>
      Parse(b, value) == Begin(value, Parse(SkipBlanks(b)[1..], Accumulate(0, SkipBlanks(b)[0])))
  {
  }

  lemma OneMoreField(stored: seq<nat>, value: nat, rest: Parsed)
    requires rest.Fields?
    ensures stored + Begin(value, rest).fields == (stored + [value]) + rest.fields
  {
  }

  /** `parse_init` on a command buffer, whatever is in it: the arguments become the fields.
      All it needs is that the scan ends inside the buffer and finds at most five. */
  method ParseInit(cmd: seq<int>, args: array<nat>)
    requires args.Length == 5 && |cmd| >= 5 && Parse(cmd[5..], 0).Fields? && |Parse(cmd[5..], 0).fields| <= 5
    modifies args
    ensures args[..|Parse(cmd[5..], 0).fields|] == Parse(cmd[5..], 0).fields
    ensures forall i: nat | |Parse(cmd[5..], 0).fields| <= i < 5 :: args[i] == old(args[i])
  {
    hide Parse, SkipBlanks, Accumulate, Begin;
    ghost var all := Parse(cmd[5..], 0).fields;
    var value, num: nat, ctr := 0, 0, 5;
    ParseStep(cmd[ctr..], value);
    while cmd[ctr] != 0
      invariant 5 <= ctr < |cmd| && Parse(cmd[ctr..], value).Fields?
      invariant num < |all| && args[..num] + Parse(cmd[ctr..], value).fields == all
      invariant forall i: nat | num <= i < 5 :: args[i] == old(args[i])
      decreases |cmd| - ctr
    {
      ParseStep(cmd[ctr..], value);
      if Blank(cmd[ctr]) {
        ghost var stored, skipped := args[..num], SkipBlanks(cmd[ctr..]);
        ghost var rest := Parse(skipped[1..], Accumulate(0, skipped[0]));
        args[num] := value;
        assert args[..num + 1] == stored + [value];
        OneMoreField(stored, value, rest);
        num := num + 1;
        value := 0;
        ctr := SkipRun(cmd, ctr);
      }
      assert cmd[ctr..][1..] == cmd[ctr + 1..];
      value := Accumulate(value, cmd[ctr]);
      ctr := ctr + 1;
      ParseStep(cmd[ctr..], value);
    }
    ParseStep(cmd[ctr..], value);
    ghost var stored := args[..num];
    args[num] := value;
    assert args[..num + 1] == stored + [value];
  }

  // ---- What the texts mean ----------------------------------------------

  /** A decimal text is a minus sign for a negative number, and then digits 0 to 9 that mean
      its magnitude. */
  lemma DecimalMeaning(num: int)
    ensures DecimalText(num) != []
    ensures num < 0 <==> DecimalText(num)[0] == 45
    ensures var d := if num < 0 then DecimalText(num)[1..] else DecimalText(num);
      ValueOf(d, 10) == (if num < 0 then -num else num) && forall c | c in d :: 48 <= c <= 57
  {
    hide ValueOf;
    NumeralText(if num < 0 then -num else num, 10);
    var d := Numeral(if num < 0 then -num else num, 10);
    assert num < 0 ==> DecimalText(num)[1..] == d;
    assert d[0] in d;
  }

  /** A hexadecimal text is the sign, then 0x, and then digits 0 to 9 and A to F. */
  lemma HexMeaning(num: int)
    ensures |HexText(num)| > 2 + (if num < 0 then 1 else 0)
    ensures num < 0 ==> HexText(num)[..3] == [45, 48, 120]
    ensures num >= 0 ==> HexText(num)[..2] == [48, 120]
    ensures var d := if num < 0 then HexText(num)[3..] else HexText(num)[2..];
      ValueOf(d, 16) == (if num < 0 then -num else num) && forall c | c in d :: 48 <= c <= 57 || 65 <= c <= 70
  {
    hide ValueOf;
    NumeralText(if num < 0 then -num else num, 16);
    var d := Numeral(if num < 0 then -num else num, 16);
    assert num < 0 ==> HexText(num)[3..] == d;
    assert num >= 0 ==> HexText(num)[2..] == d;
  }

  lemma NumeralText(n: nat, base: nat)
    requires base == 10 || base == 16
    ensures Numeral(n, base) != [] && ValueOf(Numeral(n, base), base) == n
    ensures forall c | c in Numeral(n, base) :: 48 <= c <= 57 || (base == 16 && 65 <= c <= 70)
  {
    hide Digits;
    NumeralMeaning(n, base);
    DigitTexts(n, base);
    if n == 0 {
      assert [ZERO][..0] == [];
      assert ValueOf([ZERO], base) == 0;
    }
  }

  lemma {:induction false} DigitTexts(n: nat, base: nat)
    requires base == 10 || base == 16
    ensures forall c | c in Digits(n, base) :: 48 <= c <= 57 || (base == 16 && 65 <= c <= 70)
  {
    if n > 0 {
      DigitTexts(n / base, base);
    }
  }

  // ---- Round trip -------------------------------------------------------

  /** Numbers written in decimal, each but the last followed by its run of blanks. */
  function Joined(ns: seq<nat>, gaps: seq<seq<int>>): seq<int>
    requires |gaps| + 1 == |ns|
  {
    if |ns| == 1 then DecimalText(ns[0]) else DecimalText(ns[0]) + gaps[0] + Joined(ns[1..], gaps[1..])
  }

  /** Spaces and tabs. */
  predicate Gap(s: seq<int>) {
    s != [] && forall c | c in s :: c == 32 || c == 9
  }

  lemma DigitStep(c: int, rest: seq<int>, value: nat)
    requires c != 0 && !Blank(c)
    ensures Parse([c] + rest, value) == Parse(rest, Accumulate(value, c))
  {
    hide SkipBlanks;
    assert ([c] + rest)[1..] == rest;
  }

  lemma {:induction false} ParseDigits(n: nat, rest: seq<int>)
    requires n < U64
    ensures Parse(Digits(n, 10) + rest, 0) == Parse(rest, n)
  {
    hide SkipBlanks, Parse;
    if n == 0 {
      assert Digits(n, 10) + rest == rest;
    } else {
      var c := DigitChar(n % 10);
      ParseDigits(n / 10, [c] + rest);
      assert Digits(n, 10) + rest == Digits(n / 10, 10) + ([c] + rest);
      DigitStep(c, rest, n / 10);
      assert Accumulate(n / 10, c) == n;
    }
  }

  lemma ParseDecimal(n: nat, rest: seq<int>)
    requires n < U64
    ensures Parse(DecimalText(n) + rest, 0) == Parse(rest, n)
  {
    hide SkipBlanks, Parse, Digits;
    if n == 0 {
      DigitStep(ZERO, rest, 0);
    } else {
      ParseDigits(n, rest);
    }
  }

  lemma {:induction false} SkipGap(gap: seq<int>, rest: seq<int>)
    requires (forall c | c in gap :: Blank(c)) && (rest != [] ==> !Blank(rest[0]))
    ensures SkipBlanks(gap + rest) == rest
  {
    if gap == [] {
      assert gap + rest == rest;
    } else {
      SkipGap(gap[1..], rest);
      assert (gap + rest)[1..] == gap[1..] + rest;
    }
  }

  /** After a number and a run of blanks the next character begins a new number, even if
      it is the terminating zero. */
  lemma ParseGap(n: nat, gap: seq<int>, c: int, rest: seq<int>)
    requires Gap(gap) && !Blank(c)
    ensures Parse(gap + ([c] + rest), n) == Begin(n, Parse(rest, Accumulate(0, c)))
  {
    var b := gap + ([c] + rest);
    assert gap[0] in gap && b[0] == gap[0];
    assert forall x | x in gap[1..] :: x in gap;
    SkipGap(gap[1..], [c] + rest);
    assert b[1..] == gap[1..] + ([c] + rest);
    assert ([c] + rest)[1..] == rest && ([c] + rest)[0] == c;
    hide SkipBlanks;
    assert Blank(b[0]) && b[0] != 0 && SkipBlanks(b[1..]) == [c] + rest;
  }

  lemma DecimalStarts(n: nat)
    ensures DecimalText(n) != [] && DecimalText(n)[0] != 0 && !Blank(DecimalText(n)[0])
  {
    if n > 0 {
      NumeralMeaning(n, 10);
      var d := Digits(n, 10);
      assert d[0] in d && DecimalText(n) == d;
    }
  }

  lemma JoinedStarts(ns: seq<nat>, gaps: seq<seq<int>>)
    requires |gaps| + 1 == |ns|
    ensures Joined(ns, gaps) != [] && Joined(ns, gaps)[0] != 0 && !Blank(Joined(ns, gaps)[0])
  {
    DecimalStarts(ns[0]);
  }

  /** A gap followed by text that begins like a number begins that number. */
  lemma ParseOn(n: nat, gap: seq<int>, text: seq<int>)
    requires Gap(gap) && text != [] && text[0] != 0 && !Blank(text[0])
    ensures Parse(gap + text, n) == Begin(n, Parse(text, 0))
  {
    var c, rest := text[0], text[1..];
    assert text == [c] + rest;
    ParseGap(n, gap, c, rest);
    DigitStep(c, rest, 0);
    hide Parse;
  }

  /** Fields read before what else parsing comes to. */
  function Before(ns: seq<nat>, p: Parsed): Parsed {
    if p.Outside? then Outside else Fields(ns + p.fields)
  }

  /** Joined numerals, whatever follows them: all but the last are read, and the last is
      the number begun when the parser gets to the rest. */
  lemma {:induction false} ParseJoined(ns: seq<nat>, gaps: seq<seq<int>>, tail: seq<int>)
    requires |gaps| + 1 == |ns| && (forall n | n in ns :: n < U64) && forall g | g in gaps :: Gap(g)
    ensures Parse(Joined(ns, gaps) + tail, 0) == Before(ns[..|ns| - 1], Parse(tail, ns[|ns| - 1]))
  {
    hide DecimalText, SkipBlanks, Parse;
    assert ns[0] in ns;
    if |ns| == 1 {
      ParseDecimal(ns[0], tail);
    } else {
      var rest := Joined(ns[1..], gaps[1..]);
      assert Gap(gaps[0]) by {
        assert gaps[0] in gaps;
      }
      ParseDecimal(ns[0], gaps[0] + (rest + tail));
      assert Joined(ns, gaps) + tail == DecimalText(ns[0]) + (gaps[0] + (rest + tail));
      JoinedStarts(ns[1..], gaps[1..]);
      ParseOn(ns[0], gaps[0], rest + tail);
      assert forall n | n in ns[1..] :: n in ns;
      assert forall g | g in gaps[1..] :: g in gaps;
      ParseJoined(ns[1..], gaps[1..], tail);
      assert ns[..|ns| - 1] == [ns[0]] + ns[1..][..|ns| - 2];
    }
  }

  /** Printing and parsing back: whatever numbers are printed with `%d`, joined by any
      runs of spaces and tabs, are the numbers that are read, whatever lies behind the
      terminator. */
  lemma PrintParseRoundTrip(ns: seq<nat>, gaps: seq<seq<int>>, stale: seq<int>)
    requires |gaps| + 1 == |ns| && (forall n | n in ns :: n < U64) && forall g | g in gaps :: Gap(g)
    ensures Parse(Joined(ns, gaps) + ([0] + stale), 0) == Fields(ns)
  {
    hide Parse, Joined;
    ParseJoined(ns, gaps, [0] + stale);
    ParseEnd(stale, ns[|ns| - 1]);
    assert ns == ns[..|ns| - 1] + [ns[|ns| - 1]];
  }

  /** Blanks at the end: the terminator is stepped over and whatever follows it in the
      buffer is parsed as one more number. */
  lemma TrailingBlanks(ns: seq<nat>, gaps: seq<seq<int>>, gap: seq<int>, stale: seq<int>)
    requires |gaps| + 1 == |ns| && (forall n | n in ns :: n < U64) && (forall g | g in gaps :: Gap(g)) && Gap(gap)
    ensures Parse(Joined(ns, gaps) + (gap + ([0] + stale)), 0) == Before(ns, Parse(stale, U64 - ZERO))
  {
    hide Parse, Joined, Before, Begin, Accumulate, Gap;
    ParseJoined(ns, gaps, gap + ([0] + stale));
    ParseGap(ns[|ns| - 1], gap, 0, stale);
    ZeroDigit();
    BeforeLast(ns, Parse(stale, U64 - ZERO));
  }

  /** The terminator taken for a digit. */
  lemma ZeroDigit()
    ensures Accumulate(0, 0) == U64 - ZERO
  {
  }

  lemma BeforeLast(ns: seq<nat>, p: Parsed)
    requires ns != []
    ensures Before(ns[..|ns| - 1], Begin(ns[|ns| - 1], p)) == Before(ns, p)
  {
    assert ns == ns[..|ns| - 1] + [ns[|ns| - 1]];
    if p.Fields? {
      assert ns[..|ns| - 1] + ([ns[|ns| - 1]] + p.fields) == ns + p.fields;
    }
  }

  /** So a command line of any numbers is read back if and only if no blank follows them. */
  lemma ReadBackIff(ns: seq<nat>, gaps: seq<seq<int>>, gap: seq<int>, stale: seq<int>)
    requires |gaps| + 1 == |ns| && (forall n | n in ns :: n < U64) && forall g | g in gaps :: Gap(g)
    requires forall c | c in gap :: c == 32 || c == 9
    ensures Parse(Joined(ns, gaps) + (gap + ([0] + stale)), 0) == Fields(ns) <==> gap == []
  {
    hide Parse, Joined;
    if gap == [] {
      assert gap + ([0] + stale) == [0] + stale;
      PrintParseRoundTrip(ns, gaps, stale);
    } else {
      TrailingBlanks(ns, gaps, gap, stale);
    }
  }

  lemma ParseEnd(stale: seq<int>, value: nat)
    ensures Parse([0] + stale, value) == Fields([value])
  {
  }

  /** The command name and the blank after it. */
  const INIT_NAME: seq<int> := [105, 110, 105, 116, SPACE]

  /** The command line with the numbers printed by `%d`. */
  method PrintCommand(ns: seq<nat>, gaps: seq<seq<int>>) returns (cmd: seq<int>)
    requires |gaps| + 1 == |ns| && forall n | n in ns :: n < 0x8000_0000
    ensures cmd == INIT_NAME + Joined(ns, gaps)
  {
    hide DecimalText;
    cmd := INIT_NAME;
    ghost var whole := INIT_NAME + Joined(ns, gaps);
    var i := 0;
    while i < |gaps|
      invariant i <= |gaps| && cmd + Joined(ns[i..], gaps[i..]) == whole
    {
      JoinedStep(ns, gaps, i);
      ghost var rest := Joined(ns[i + 1..], gaps[i + 1..]);
      ghost var before := cmd;
      assert ns[i] in ns;
      cmd := FormatDecimal(ns[i], cmd);
      cmd := cmd + gaps[i];
      assert cmd + rest == before + (DecimalText(ns[i]) + gaps[i] + rest);
      i := i + 1;
    }
    assert ns[i] in ns && ns[i..] == [ns[i]] && gaps[i..] == [];
    cmd := FormatDecimal(ns[i], cmd);
  }

  /** Printer and parser together: up to five non-negative ints, printed with `%d` behind
      the command name and parsed by `parse_init`, come back in the arguments. */
  method PrintAndParse(ns: seq<nat>, gaps: seq<seq<int>>, stale: seq<int>, args: array<nat>)
    requires 1 <= |ns| <= 5 && |gaps| + 1 == |ns| && args.Length == 5
    requires (forall n | n in ns :: n < 0x8000_0000) && forall g | g in gaps :: Gap(g)
    modifies args
    ensures args[..|ns|] == ns && forall i: nat | |ns| <= i < 5 :: args[i] == old(args[i])
  {
    hide DecimalText, Parse, Joined;
    var line := PrintCommand(ns, gaps);
    var cmd := line + ([0] + stale);
    PrintParseRoundTrip(ns, gaps, stale);
    assert cmd[5..] == Joined(ns, gaps) + ([0] + stale);
    assert Parse(cmd[5..], 0) == Fields(ns);
    ParseInit(cmd, args);
  }

  lemma JoinedStep(ns: seq<nat>, gaps: seq<seq<int>>, i: nat)
    requires |gaps| + 1 == |ns| && i < |gaps|
    ensures Joined(ns[i..], gaps[i..]) == DecimalText(ns[i]) + gaps[i] + Joined(ns[i + 1..], gaps[i + 1..])
  {
    assert ns[i..][1..] == ns[i + 1..] && gaps[i..][1..] == gaps[i + 1..];
  }
}
