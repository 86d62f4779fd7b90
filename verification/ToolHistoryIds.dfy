/**
  What the stable id of a tool call is made of (translate.rs): its position, and the
  FNV-1a hash of its position, name and arguments in sixteen hexadecimal digits.
*/
module ToolHistoryIds {
  import opened Utf8Text
  import opened ToolHistory

  /** The i-th binary digit. */
  function Bit(n: nat, i: nat): nat {
    if i == 0 then n % 2 else Bit(n / 2, i - 1)
  }

  lemma XorUnfold(a: nat, b: nat, bits: nat)
    requires bits > 0
    ensures Xor(a, b, bits) / 2 == Xor(a / 2, b / 2, bits - 1)
    ensures Xor(a, b, bits) % 2 == if a % 2 != b % 2 then 1 else 0
  {
    var rest := Xor(a / 2, b / 2, bits - 1);
    hide Xor;
    assert Xor(a, b, bits) == 2 * rest + (a + b) % 2 by { XorIs(a, b, bits); }
  }

  lemma XorIs(a: nat, b: nat, bits: nat)
    requires bits > 0
    ensures Xor(a, b, bits) == 2 * Xor(a / 2, b / 2, bits - 1) + (a + b) % 2
  {
  }

  lemma BitUnfold(n: nat, i: nat)
    ensures Bit(n, i) == if i == 0 then n % 2 else Bit(n / 2, i - 1)
  {
  }

  /** Each binary digit of the exclusive or is set where exactly one of the two has it. */
  lemma {:induction false} XorByBits(a: nat, b: nat, bits: nat, i: nat)
    ensures Bit(Xor(a, b, bits), i) == if i < bits && Bit(a, i) != Bit(b, i) then 1 else 0
    decreases i
  {
    hide Bit;
    if bits == 0 {
      NoBits(i);
    } else {
      hide Xor;
      XorUnfold(a, b, bits);
      BitUnfold(a, i);
      BitUnfold(b, i);
      BitUnfold(Xor(a, b, bits), i);
      if i > 0 { XorByBits(a / 2, b / 2, bits - 1, i - 1); }
    }
  }

  lemma {:induction false} NoBits(i: nat)
    ensures Bit(0, i) == 0
  {
    if i > 0 { NoBits(i - 1); }
  }

  /** The hash starts at the offset basis, and each byte is mixed in and multiplied by the prime, in 64 bits. */
  lemma {:induction false} HashGrows(hash: nat, bytes: string, byte: char)
    ensures StableHash(hash, "") == hash
    ensures StableHash(hash, bytes + [byte])
         == Xor(StableHash(hash, bytes), byte as nat % 256, 64) * 0x100000001b3 % 0x1_0000_0000_0000_0000
    decreases |bytes|
  {
    hide Xor;
    var all := bytes + [byte];
    if bytes == "" {
      assert all[1..] == "";
      assert StableHash(hash, all) == StableHash(Xor(hash, byte as nat % 256, 64) * FNV_PRIME % TWO_64, "");
    } else {
      assert all[0] == bytes[0] && all[1..] == bytes[1..] + [byte];
      HashGrows(Xor(hash, bytes[0] as nat % 256, 64) * FNV_PRIME % TWO_64, bytes[1..], byte);
    }
  }

  function DigitValue(c: char): nat {
    if '0' <= c <= '9' then c as nat - '0' as nat else if 'a' <= c <= 'f' then c as nat - 'a' as nat + 10 else 0
  }

  function HexValue(digits: string): nat {
    if digits == "" then 0 else 16 * HexValue(digits[..|digits| - 1]) + DigitValue(digits[|digits| - 1])
  }

  lemma DigitReads(n: nat)
    requires n < 16
    ensures DigitValue(HexDigit(n)) == n
  {
  }

  /** So many hexadecimal digits are enough for the number. */
  predicate Fits(value: nat, width: nat) {
    if width == 0 then value == 0 else Fits(value / 16, width - 1)
  }

  /** The digits are the number. */
  lemma {:induction false} HexReads(value: nat, width: nat)
    requires Fits(value, width)
    ensures HexValue(Hex(value, width)) == value
    decreases width
  {
    hide HexDigit;
    if width > 0 {
      var front := Hex(value / 16, width - 1);
      assert Hex(value, width)[..|front|] == front;
      HexReads(value / 16, width - 1);
      DigitReads(value % 16);
    }
  }

  lemma WordFits(value: nat)
    requires value < 0x1_0000_0000_0000_0000
    ensures Fits(value, 16)
  {
    QuarterFits(value / 16 / 16 / 16 / 16 / 16 / 16 / 16 / 16 / 16 / 16 / 16 / 16);
    FourMore(value / 16 / 16 / 16 / 16 / 16 / 16 / 16 / 16, 4);
    FourMore(value / 16 / 16 / 16 / 16, 8);
    FourMore(value, 12);
  }

  lemma QuarterFits(value: nat)
    requires value < 0x1_0000
    ensures Fits(value, 4)
  {
    var n := value / 16 / 16 / 16 / 16;
    assert Fits(n, 0);
    FourMore(value, 0);
  }

  lemma FourMore(value: nat, width: nat)
    requires Fits(value / 16 / 16 / 16 / 16, width)
    ensures Fits(value, width + 4)
  {
    assert Fits(value / 16 / 16 / 16, width + 1);
    assert Fits(value / 16 / 16, width + 2);
    assert Fits(value / 16, width + 3);
  }

  lemma {:induction false} HashFits(hash: nat, bytes: string)
    requires hash < 0x1_0000_0000_0000_0000
    ensures StableHash(hash, bytes) < 0x1_0000_0000_0000_0000
    decreases |bytes|
  {
    hide Xor;
    if bytes != "" {
      HashFits(Xor(hash, bytes[0] as nat % 256, 64) * FNV_PRIME % TWO_64, bytes[1..]);
    }
  }

  /** The id tells the position, and behind it the hash of what the call says there. */
  lemma IdTells(messageIndex: nat, toolIndex: nat, call: ToolCall) returns (digits: string)
    ensures SyntheticId(messageIndex, toolIndex, call)
         == "call_fmc_" + Decimal(messageIndex) + "_" + Decimal(toolIndex) + "_" + digits
    ensures |digits| == 16
    ensures var said := Decimal(messageIndex) + ":" + Decimal(toolIndex) + ":" + call.name + ":" + call.arguments;
      HexValue(digits) == StableHash(0xcbf29ce484222325, said)
  {
    hide Decimal, StableHash, HexValue, Hex;
    var said := Decimal(messageIndex) + ":" + Decimal(toolIndex) + ":" + call.name + ":" + call.arguments;
    var hash := StableHash(FNV_OFFSET, said);
    digits := Hex(hash, 16);
    HashFits(FNV_OFFSET, said);
    WordFits(hash);
    HexReads(hash, 16);
  }
}
