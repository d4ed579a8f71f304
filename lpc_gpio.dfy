/**
 * The LPC176x pin-number encoding (src/lpc176x/gpio.h): 32 pins per port,
 * ports counted from 'A'.  `PIN & 31` is written `PIN % 32`, which is the
 * same for the non-negative pin numbers used.
 */
module LpcGpio {
  import opened Ints

  /** `GPIO(PORT, NUM)`. */
  function Gpio(port: char, num: int): int
  {
    (port as int - 'A' as int) * 32 + num
  }

  /** `GPIO2PORT(PIN)`: the port index (0 for 'A'). */
  function Gpio2Port(pin: nat): nat
  {
    pin / 32
  }

  /** `GPIO2PIN(PIN)`: the low five bits. */
  function Gpio2Pin(pin: nat): (n: nat)
    ensures n < 32
  {
    pin % 32
  }

  /** `GPIO2BIT(PIN)`: the pin's bit in a 32-bit port register. */
  function Gpio2Bit(pin: nat): bv32
  {
    (1 as bv32) << Gpio2Pin(pin)
  }

  /** Decoding an encoded pin gives back its port index and number. */
  lemma DecodeEncode(port: char, num: nat)
    requires 'A' <= port && num < 32
    ensures Gpio(port, num) >= 0
    ensures Gpio2Port(Gpio(port, num)) == port as int - 'A' as int
    ensures Gpio2Pin(Gpio(port, num)) == num
  {
  }

  /** Encoding a decoded pin gives back the pin. */
  lemma EncodeDecode(pin: nat)
    ensures Gpio(('A' as int + Gpio2Port(pin)) as char, Gpio2Pin(pin)) == pin
    requires 'A' as int + Gpio2Port(pin) < 0xD800
  {
  }

  /** Distinct (port, number < 32) pairs encode to distinct pin numbers. */
  lemma EncodeInjective(p1: char, n1: nat, p2: char, n2: nat)
    requires 'A' <= p1 && 'A' <= p2 && n1 < 32 && n2 < 32
    requires Gpio(p1, n1) == Gpio(p2, n2)
    ensures p1 == p2 && n1 == n2
  {
    DecodeEncode(p1, n1);
    DecodeEncode(p2, n2);
  }

  /** `GPIO2BIT(pin)` is the single bit at position `GPIO2PIN(pin)`. */
  lemma BitIsPowerOfPin(pin: nat)
    ensures Gpio2Bit(pin) as nat == Pow2(Gpio2Pin(pin))
  {
    BitPow(Gpio2Pin(pin));
  }

  lemma {:induction false} BitPow(k: nat)
    requires k < 32
    ensures ((1 as bv32) << k) as nat == Pow2(k)
  {
    if k > 0 {
      BitPow(k - 1);
      var x := (1 as bv32) << (k - 1);
      ShiftStep(k);
      Pow2Below(k - 1);
      ShiftDoubles(x);
    }
  }

  lemma Pow2Below(n: nat)
    requires n <= 30
    ensures Pow2(n) <= 0x4000_0000
  {
    Pow2Add(n, 31 - n);
    Pow2Of31();
    assert Pow2(31 - n) >= 2;
    MulLe(2, Pow2(31 - n), Pow2(n));
  }

  lemma Pow2Of31()
    ensures Pow2(31) == 0x8000_0000
  {
    assert Pow2(8) == 256;
    Pow2Add(8, 8);
    Pow2Add(16, 8);
    assert Pow2(7) == 128;
    Pow2Add(24, 7);
  }

  lemma ShiftStep(k: nat)
    requires 0 < k < 32
    ensures (1 as bv32) << k == ((1 as bv32) << (k - 1)) << 1
  {
    var kb := k as bv5;
    assert (1 as bv32) << k == (1 as bv32) << kb;
    assert ((1 as bv32) << (k - 1)) == (1 as bv32) << (kb - 1);
  }

  /** Below the top bit, a left shift by one doubles. */
  lemma ShiftDoubles(x: bv32)
    requires x as nat <= 0x4000_0000
    ensures (x << 1) as nat == 2 * x as nat
  {
  }
}
