/**
 * The LPC176x debug UART (src/lpc176x/serial_uart.c): the baud divisor
 * computation, output gated on a one-time initialisation, number formatting,
 * and a small printf-style interpreter.  The UART hardware is an output
 * log of characters; what the receive register holds is an input.
 */
module LpcSerialUart {
  import opened Ints
  import opened Wrappers

  /** The digit table `Representation`. */
  const REPRESENTATION: string := "0123456789ABCDEF"

  /**
   * The peripheral clock for the 2-bit PCLKSEL selector of UART0: never faster
   * than the core clock, equal to it only for selector 1, and at most half of
   * it for every other selector.
   */
  function PeripheralClock(sel: u8, coreClock: u32): (pclk: u32)
    requires sel < 4
    ensures pclk <= coreClock
    ensures sel == 1 ==> pclk == coreClock
    ensures sel != 1 ==> 2 * pclk as int <= coreClock as int
  {
    match sel
    case 0 => (coreClock as int / 4) as u32
    case 1 => coreClock
    case 2 => (coreClock as int / 2) as u32
    case 3 => (coreClock as int / 8) as u32
  }

  /** From slowest to fastest the selectors are 3, 0, 2 and 1, each step doubling the clock up to the rounding of the division. */
  lemma PeripheralClockOrder(coreClock: u32)
    ensures PeripheralClock(3, coreClock) <= PeripheralClock(0, coreClock) <= PeripheralClock(2, coreClock) <= PeripheralClock(1, coreClock)
    ensures 2 * PeripheralClock(3, coreClock) as int <= PeripheralClock(0, coreClock) as int
    ensures 2 * PeripheralClock(0, coreClock) as int <= PeripheralClock(2, coreClock) as int
  {
  }

  /** The divisor latch bytes `calc_baudrate` writes: DLL (low byte) and DLM (next byte). */
  datatype Divisor = Divisor(dll: u8, dlm: u8)

  /**
   * `calc_baudrate`: the divisor `pclk / (16 * baud)` in 32-bit arithmetic,
   * split into the two latch bytes (bits above 16 are lost).
   */
  function CalcBaudrate(baud: u32, sel: u8, coreClock: u32): (d: Divisor)
    requires sel < 4 && (16 * baud as int) % 0x1_0000_0000 != 0
    ensures var reg := PeripheralClock(sel, coreClock) as int / ((16 * baud as int) % 0x1_0000_0000);
      d.dlm as int * 0x100 + d.dll as int == reg % 0x1_0000
  {
    var reg := PeripheralClock(sel, coreClock) as int / ((16 * baud as int) % 0x1_0000_0000);
    LatchBytes(reg);
    Divisor(ToU8(reg), ToU8(reg / 0x100))
  }

  /** DLL and DLM together hold the low 16 bits of the divisor. */
  lemma LatchBytes(reg: int)
    ensures ToU8(reg / 0x100) as int * 0x100 + ToU8(reg) as int == reg % 0x1_0000
  {
    var q := reg / 0x100;
    assert reg == q * 0x100 + reg % 0x100;
    assert q == (q / 0x100) * 0x100 + q % 0x100;
    assert reg == (q / 0x100) * 0x1_0000 + ((q % 0x100) * 0x100 + reg % 0x100);
    DivModUnique(reg, 0x1_0000, q / 0x100, (q % 0x100) * 0x100 + reg % 0x100);
  }

  /** The divisor is the largest one whose 16-times-oversampled rate does not exceed the clock. */
  lemma DivisorRounding(baud: u32, sel: u8, coreClock: u32)
    requires sel < 4 && 0 < baud && 16 * baud as int < 0x1_0000_0000
    ensures var reg := PeripheralClock(sel, coreClock) as int / (16 * baud as int);
      reg * 16 * baud as int <= PeripheralClock(sel, coreClock) as int < (reg + 1) * 16 * baud as int
  {
  }

  // ----- number formatting -----

  /** The base-`b` digits of `n > 0`, most significant first, as `serial_uart_put_num` produces them. */
  function Digits(n: nat, b: nat): (s: string)
    requires 2 <= b <= 16
    ensures |s| >= 1
    decreases n
  {
    if n < b then [DigitChar(n)]
    else
      DivLess(n, b);
      Digits(n / b, b) + [DigitChar(n % b)]
  }

  /** The table entry for digit `d`. */
  function DigitChar(d: nat): char
    requires d < 16
  {
    REPRESENTATION[d]
  }

  lemma DivLess(n: nat, b: nat)
    requires 2 <= b <= n && b <= 16
    ensures n / b < n && n % b < 16
  {
    DivStep(n, b);
  }

  lemma DivStep(n: nat, b: nat)
    requires 2 <= b <= n
    ensures 0 < n / b < n && n % b < b && n / b <= n / 2
    ensures n == (n / b) * b + n % b
  {
    var q, r := n / b, n % b;
    assert n == q * b + r;
    assert q * b > 0;
    MulLe(2, b, q);
    assert 2 * q <= n;
    assert n == 2 * (n / 2) + n % 2;
  }

  /** What `serial_uart_put_num(n, b)` prints: "0" for 0, otherwise the digits. */
  function NumText(n: u32, b: nat): (s: string)
    requires 2 <= b <= 16
    ensures n == 0 ==> s == "0"
  {
    if n == 0 then "0" else Digits(n as nat, b)
  }

  /** The value of a digit character (the inverse of the table). */
  function DigitValue(c: char): nat
  {
    if '0' <= c <= '9' then c as nat - '0' as nat else if 'A' <= c <= 'F' then c as nat - 'A' as nat + 10 else 0
  }

  /** Reading a digit string back in base `b`. */
  function Value(s: string, b: nat): nat
  {
    if |s| == 0 then 0 else Value(s[..|s| - 1], b) * b + DigitValue(s[|s| - 1])
  }

  lemma TableDigit(d: nat)
    requires d < 16
    ensures DigitValue(DigitChar(d)) == d
  {
  }

  /** Reading the digits back gives the number. */
  lemma {:induction false} DigitsRoundTrip(n: nat, b: nat)
    requires 2 <= b <= 16
    ensures Value(Digits(n, b), b) == n
    decreases n
  {
    var s := Digits(n, b);
    if n < b {
      TableDigit(n);
      assert s[..0] == [];
      assert Value(s, b) == Value(s[..0], b) * b + DigitValue(s[0]);
    } else {
      DivStep(n, b);
      var q, r := n / b, n % b;
      assert s == Digits(q, b) + [DigitChar(r)];
      assert s[..|s| - 1] == Digits(q, b);
      DigitsRoundTrip(q, b);
      TableDigit(r);
      assert Value(s, b) == q * b + r;
    }
  }

  /** The digits of a nonzero number have no leading zero and are all below the base. */
  lemma {:induction false} DigitsWellFormed(n: nat, b: nat)
    requires 2 <= b <= 16 && n > 0
    ensures Digits(n, b)[0] != '0'
    ensures forall i | 0 <= i < |Digits(n, b)| :: Digits(n, b)[i] in REPRESENTATION[..b]
    decreases n
  {
    var s := Digits(n, b);
    if n >= b {
      DivStep(n, b);
      var q, r := n / b, n % b;
      assert s == Digits(q, b) + [DigitChar(r)];
      DigitsWellFormed(q, b);
      assert DigitChar(r) == REPRESENTATION[..b][r];
    } else {
      assert s == [DigitChar(n)];
      assert DigitChar(n) == REPRESENTATION[..b][n];
    }
  }

  /** A number below 2^k has at most k digits in any base from 2 on, so 32-bit numbers fit the 49 places. */
  lemma {:induction false} DigitsLength(n: nat, b: nat, k: nat)
    requires 2 <= b <= 16 && 0 < n < Pow2(k)
    ensures |Digits(n, b)| <= k
    decreases n
  {
    assert k >= 1;
    if n >= b {
      DivStep(n, b);
      var q := n / b;
      var half := Pow2(k - 1);
      assert Pow2(k) == 2 * half;
      assert n == 2 * (n / 2) + n % 2;
      assert q < half;
      assert Digits(n, b) == Digits(q, b) + [DigitChar(n % b)];
      DigitsLength(q, b, k - 1);
    }
  }

  lemma Pow2Is32()
    ensures Pow2(32) == 0x1_0000_0000
  {
    assert Pow2(8) == 0x100;
    assert Pow2(16) == Pow2(8) * Pow2(8) by { Pow2Add(8, 8); }
    assert Pow2(32) == Pow2(16) * Pow2(16) by { Pow2Add(16, 16); }
  }

  // ----- printf -----

  /** A `va_arg` value: a 32-bit number (read as `int` or `unsigned int`) or a string. */
  datatype Arg = Num(bits: u32) | Str(s: string)

  /** How interpreting a format ends: after the final '\n', by reading past the end of the format, or with an argument of the wrong kind. */
  datatype Outcome = Done(out: string) | Overrun(out: string) | BadArg(out: string)

  /** The `int` a 32-bit argument holds. */
  function Signed(bits: u32): int
  {
    if bits as int >= 0x8000_0000 then bits as int - 0x1_0000_0000 else bits as int
  }

  /** The text one directive character `c` emits for the next argument, and the next argument index. */
  function Directive(c: char, args: seq<Arg>, k: nat): (r: Option2)
    ensures r.OkDir? && c !in "cduosxX" ==> r.text == [] && r.next == k
    ensures r.OkDir? && c in "cduosxX" ==> r.next == k + 1
  {
    if c !in "cduosxX" then OkDir([], k)
    else if k >= |args| then NoArg
    else match (c, args[k])
      case ('c', Num(v)) => OkDir([(v as int % 0x100) as char], k + 1)
      case ('d', Num(v)) =>
        if Signed(v) < 0 then OkDir("-" + NumText(ToU32(-Signed(v)), 10), k + 1)
        else OkDir(NumText(v, 10), k + 1)
      case ('u', Num(v)) => OkDir(NumText(v, 10), k + 1)
      case ('o', Num(v)) => OkDir(NumText(v, 8), k + 1)
      case ('x', Num(v)) => OkDir("0x" + NumText(v, 16), k + 1)
      case ('X', Num(v)) => OkDir("0x" + NumText(v, 16), k + 1)
      case ('s', Str(s)) => OkDir(s, k + 1)
      case _ => NoArg
  }

  datatype Option2 = OkDir(text: string, next: nat) | NoArg

  /** At the head of the `for` loop, at index `i` of the format: a completed print ends
    * with the '\n' put after the loop. */
  function Run(f: string, i: nat, args: seq<Arg>, k: nat, acc: string): (r: Outcome)
    ensures r.Done? ==> |r.out| > 0 && r.out[|r.out| - 1] == '\n'
    decreases |f| - i, 1
  {
    if i >= |f| then Overrun(acc)
    else if f[i] == '\n' then Done(acc + "\n")
    else Text(f, i, args, k, acc)
  }

  /** In the inner `while`, which copies characters until a '%' and stops at nothing else;
    * a completed print resumed there also ends with '\n'. */
  function Text(f: string, i: nat, args: seq<Arg>, k: nat, acc: string): (r: Outcome)
    ensures r.Done? ==> |r.out| > 0 && r.out[|r.out| - 1] == '\n'
    decreases |f| - i, 0
  {
    if i >= |f| then Overrun(acc)
    else if f[i] != '%' then Text(f, i + 1, args, k, acc + [f[i]])
    else if i + 1 >= |f| then Overrun(acc)
    else match Directive(f[i + 1], args, k)
      case NoArg => BadArg(acc)
      case OkDir(s, k') => Run(f, i + 2, args, k', acc + s)
  }

  /** `serial_uart_printf` as written: a completed print ends with '\n'. */
  function Printf(f: string, args: seq<Arg>): (r: Outcome)
    ensures r.Done? ==> |r.out| > 0 && r.out[|r.out| - 1] == '\n'
  {
    Run(f, 0, args, 0, "")
  }

  /** After the copied text, the directive at `j` ends the print or resumes the outer loop two characters on. */
  lemma DirectiveStep(f: string, i: nat, args: seq<Arg>, k: nat, acc: string, j: nat, copied: string)
    requires i < |f| && f[i] != '\n'
    requires j + 1 < |f| && f[j] == '%'
    requires Text(f, i, args, k, acc) == Text(f, j, args, k, acc + copied)
    ensures Directive(f[j + 1], args, k).NoArg? ==> Run(f, i, args, k, acc) == BadArg(acc + copied)
    ensures Directive(f[j + 1], args, k).OkDir? ==>
      var d := Directive(f[j + 1], args, k);
      Run(f, i, args, k, acc) == Run(f, j + 2, args, d.next, acc + (copied + d.text))
  {
    assert forall t: string :: acc + copied + t == acc + (copied + t);
  }

  /** Text without '%' is copied through its '\n' and on to the end, never finding the stop. */
  lemma {:induction false} TextWithoutPercentOverruns(f: string, i: nat, args: seq<Arg>, k: nat, acc: string)
    requires i <= |f| && forall j | i <= j < |f| :: f[j] != '%'
    ensures Text(f, i, args, k, acc) == Overrun(acc + f[i..])
    decreases |f| - i
  {
    if i == |f| {
      assert f[i..] == [];
    } else {
      TextWithoutPercentOverruns(f, i + 1, args, k, acc + [f[i]]);
      assert acc + [f[i]] + f[i + 1..] == acc + f[i..];
    }
  }

  /** The message "USB init done\n" of src/lpc176x/serial_usb.c has no directive, so the interpreter reads past its end. */
  lemma UsbInitMessageOverruns()
    ensures Printf("USB init done\n", []).Overrun?
  {
    TextWithoutPercentOverruns("USB init done\n", 0, [], 0, "");
  }

  /** The corrected interpreter: the inner scan also stops at '\n', so the loop ends at the first '\n' outside a directive. */
  function RunFixed(f: string, i: nat, args: seq<Arg>, k: nat, acc: string): Outcome
    decreases |f| - i
  {
    if i >= |f| then Overrun(acc)
    else if f[i] == '\n' then Done(acc + "\n")
    else if f[i] != '%' then RunFixed(f, i + 1, args, k, acc + [f[i]])
    else if i + 1 >= |f| then Overrun(acc)
    else match Directive(f[i + 1], args, k)
      case NoArg => BadArg(acc)
      case OkDir(s, k') => RunFixed(f, i + 2, args, k', acc + s)
  }

  function PrintfFixed(f: string, args: seq<Arg>): Outcome
  {
    RunFixed(f, 0, args, 0, "")
  }

  /** With the corrected scan, a plain message ending in '\n' prints exactly itself. */
  lemma {:induction false} FixedPlainText(f: string, i: nat, args: seq<Arg>, k: nat, acc: string)
    requires i < |f| && f[|f| - 1] == '\n'
    requires forall j | i <= j < |f| - 1 :: f[j] != '%' && f[j] != '\n'
    ensures RunFixed(f, i, args, k, acc) == Done(acc + f[i..])
    decreases |f| - i
  {
    if i < |f| - 1 {
      FixedPlainText(f, i + 1, args, k, acc + [f[i]]);
      assert acc + [f[i]] + f[i + 1..] == acc + f[i..];
    } else {
      assert f[i..] == "\n";
    }
  }

  lemma FixedUsbInitMessage()
    ensures PrintfFixed("USB init done\n", []) == Done("USB init done\n")
  {
    FixedPlainText("USB init done\n", 0, [], 0, "");
  }

  /**
   * The `do`/`while` of `serial_uart_put_num`: digits least significant
   * first into the tail of a 50-character buffer ending in a NUL at 49.
   */
  method FillDigits(n: u32, base: nat) returns (buffer: array<char>, p: nat)
    requires 2 <= base <= 16 && n > 0
    ensures buffer.Length == 50 && p <= 49
    ensures buffer[p..49] == Digits(n as nat, base)
  {
    buffer := new char[50];
    buffer[49] := '\0';
    p := 49;
    var m: nat := n as nat;
    ghost var goal := Digits(m, base);
    Pow2Is32();
    DigitsLength(m, base, 32);
    while true
      invariant 0 < m && 0 < p <= 49 && |goal| <= 32
      invariant Digits(m, base) + buffer[p..49] == goal
      decreases m
    {
      ghost var tail := buffer[p..49];
      var d := m % base;
      var q := m / base;
      FillStep(m, base, tail, goal);
      p := p - 1;
      buffer[p] := DigitChar(d);
      assert buffer[p + 1..49] == tail;
      assert buffer[p..49] == [DigitChar(d)] + tail;
      if q == 0 {
        break;
      }
      m := q;
    }
  }

  /** What one pass of the `do`/`while` keeps: the digits still to write, then those written, spell the number. */
  lemma FillStep(m: nat, b: nat, tail: string, goal: string)
    requires 2 <= b <= 16 && m > 0
    requires Digits(m, b) + tail == goal
    ensures m % b < 16 && m / b < m
    ensures m / b == 0 ==> [DigitChar(m % b)] + tail == goal
    ensures m / b > 0 ==> Digits(m / b, b) + ([DigitChar(m % b)] + tail) == goal
    ensures m / b > 0 ==> |Digits(m / b, b)| + 1 == |Digits(m, b)|
  {
    DigitsStep(m, b);
    if m / b > 0 {
      assert Digits(m / b, b) + ([DigitChar(m % b)] + tail) == (Digits(m / b, b) + [DigitChar(m % b)]) + tail;
    }
  }

  /** One step of the digit recursion, with the last digit split off. */
  lemma DigitsStep(m: nat, b: nat)
    requires 2 <= b <= 16 && m > 0
    ensures m % b < 16 && m / b < m
    ensures m / b == 0 ==> Digits(m, b) == [DigitChar(m % b)]
    ensures m / b > 0 ==> Digits(m, b) == Digits(m / b, b) + [DigitChar(m % b)]
  {
    if m >= b {
      DivStep(m, b);
    }
  }

  /** The UART console: `initdone` and the characters sent so far. */
  class DebugUart {
    var initdone: bool
    var out: string
    /** How many times the hardware was set up. */
    var inits: nat

    constructor ()
      ensures !initdone && out == [] && inits == 0
    {
      initdone, out, inits := false, [], 0;
    }

    /** `serial_uart_init`: runs the set-up only the first time. */
    method Init()
      modifies this`initdone, this`inits
      ensures initdone
      ensures inits == if old(initdone) then old(inits) else old(inits) + 1
    {
      if initdone {
        return;
      }
      inits := inits + 1;
      initdone := true;
    }

    /** `serial_uart_put`: nothing before init. */
    method Put(c: char)
      modifies this`out
      ensures out == if initdone then old(out) + [c] else old(out)
    {
      if initdone {
        out := out + [c];
      }
    }

    /** `serial_uart_puts`: nothing before init. */
    method Puts(s: string)
      modifies this`out
      ensures out == if initdone then old(out) + s else old(out)
    {
      if initdone {
        out := out + s;
      }
    }

    /** `serial_uart_get`, with `rbr` the byte the receive register delivers: 0 before init. */
    method Get(rbr: u8) returns (c: u8)
      ensures c == if initdone then rbr else 0
    {
      if initdone {
        return rbr;
      }
      return 0;
    }

    /**
     * `serial_uart_put_num(n, base)`: the digits are produced least
     * significant first into the tail of a 50-character buffer, then printed.
     */
    method PutNum(n: u32, base: nat)
      requires 2 <= base <= 16
      modifies this`out
      ensures out == if initdone then old(out) + NumText(n, base) else old(out)
    {
      if n == 0 {
        Put('0');
        return;
      }
      var buffer, p := FillDigits(n, base);
      Puts(buffer[p..49]);
    }

    /** `serial_uart_printf`: the characters of the interpreter's outcome are put one by one. */
    method PrintfCall(f: string, args: seq<Arg>) returns (o: Outcome)
      modifies this`out
      ensures o == Printf(f, args)
      ensures out == if initdone then old(out) + o.out else old(out)
    {
      ghost var start := out;
      var i := 0;
      var k := 0;
      var acc := "";
      while true
        invariant Run(f, i, args, k, acc) == Printf(f, args)
        invariant out == if initdone then start + acc else start
        decreases |f| - i
      {
        if i >= |f| {
          return Overrun(acc);
        }
        if f[i] == '\n' {
          break;
        }
        var i', k', emitted, ended := PrintfStep(f, args, i, k, acc);
        assert start + acc + emitted == start + (acc + emitted);
        acc := acc + emitted;
        if ended.Some? {
          return ended.value;
        }
        i, k := i', k';
      }
      Put('\n');
      return Done(acc + "\n");
    }

    /** One pass of the outer `for`: the text up to a '%' and the directive after it, or the end it meets first. */
    method PrintfStep(f: string, args: seq<Arg>, i: nat, k: nat, acc: string)
      returns (i': nat, k': nat, emitted: string, ended: Option<Outcome>)
      requires i < |f| && f[i] != '\n'
      modifies this`out
      ensures out == if initdone then old(out) + emitted else old(out)
      ensures ended.Some? ==> ended.value == Run(f, i, args, k, acc) && ended.value.out == acc + emitted
      ensures ended.None? ==> i < i' && Run(f, i, args, k, acc) == Run(f, i', args, k', acc + emitted)
    {
      var j, copied, stopped := CopyText(f, i, args, k, acc);
      assert Run(f, i, args, k, acc) == Text(f, i, args, k, acc);
      if stopped {
        return j, k, copied, Some(Overrun(acc + copied));
      }
      ghost var mid := out;
      var dir := PutDirective(f[j + 1], args, k);
      DirectiveStep(f, i, args, k, acc, j, copied);
      if dir.NoArg? {
        return j, k, copied, Some(BadArg(acc + copied));
      }
      if initdone {
        assert out == old(out) + copied + dir.text;
        assert out == old(out) + (copied + dir.text);
      }
      return j + 2, dir.next, copied + dir.text, None;
    }

    /** One directive of `serial_uart_printf`: its text is put unless the argument is missing or of the wrong kind. */
    method PutDirective(c: char, args: seq<Arg>, k: nat) returns (dir: Option2)
      modifies this`out
      ensures dir == Directive(c, args, k)
      ensures out == if initdone && dir.OkDir? then old(out) + dir.text else old(out)
    {
      dir := Directive(c, args, k);
      if dir.OkDir? {
        Puts(dir.text);
      }
    }

    /** The inner `while` of `serial_uart_printf`: the characters up to a '%' are put, or the format runs out. */
    method CopyText(f: string, i0: nat, args: seq<Arg>, k: nat, acc: string) returns (i: nat, copied: string, stopped: bool)
      requires i0 < |f|
      modifies this`out
      ensures out == if initdone then old(out) + copied else old(out)
      ensures stopped ==> Text(f, i0, args, k, acc) == Overrun(acc + copied)
      ensures !stopped ==> (i0 <= i && i + 1 < |f| && f[i] == '%' &&
        Text(f, i0, args, k, acc) == Text(f, i, args, k, acc + copied))
    {
      i := i0;
      copied := "";
      assert acc + copied == acc;
      while f[i] != '%'
        invariant i0 <= i < |f| && Text(f, i0, args, k, acc) == Text(f, i, args, k, acc + copied)
        invariant out == if initdone then old(out) + copied else old(out)
        decreases |f| - i
      {
        Put(f[i]);
        assert acc + (copied + [f[i]]) == acc + copied + [f[i]];
        copied := copied + [f[i]];
        i := i + 1;
        if i >= |f| {
          return i, copied, true;
        }
      }
      stopped := i + 1 >= |f|;
    }
  }
}
