/**
 * The ModRM resolver and the byte cursor of disasm/disasm.go.
 *
 * `Modrm` is the source's `modrm`: a case analysis on the two mode bits and
 * the three r/m bits of a ModRM byte. Modes 01 and 10 (a memory operand
 * with an 8- or 16-bit displacement) are marked TODO in the source and yield
 * the empty string; `ModrmWithDisplacement` is the behaviour the tests of
 * disasm/disasm_test.go describe for them, kept apart from the model of the
 * code. `Disasm` is the disassembler object: a cursor over the input bytes,
 * the offset counter `off` and the current opcode byte.
 */
module Disassembler {
  import opened Base
  import opened Regs
  import opened Mnemonics
  import opened Commands

  /** `reg16`: the names of the 16-bit registers, by register number. */
  const Reg16Names: seq<string> := ["ax", "cx", "dx", "bx", "sp", "bp", "si", "di"]

  /** `regm`: the effective-address expressions of the memory modes, by r/m field. */
  const EffectiveAddresses: seq<string> := ["bx+si", "bx+di", "bp+si", "bp+di", "si", "di", "bp", "bx"]

  /**
   * The layout of the 8086 effective addresses: r/m 0-3 add a base register
   * (bx, then bp, by bit 1) to an index register (si or di, by bit 0); r/m 4-7
   * name one of si, di, bp, bx. Every part is the name of a 16-bit register.
   */
  lemma EffectiveAddressLayout(rm: int)
    requires 0 <= rm < 8
    ensures rm < 4 ==>
      EffectiveAddresses[rm] == (if rm < 2 then Bx else Bp).Name() + "+" + (if rm % 2 == 0 then Si else Di).Name()
    ensures 4 <= rm ==> EffectiveAddresses[rm] == [Si, Di, Bp, Bx][rm - 4].Name()
  {
  }

  // ---------------------------------------------------------------------
  // Hexadecimal text, as `fmt` prints it
  // ---------------------------------------------------------------------

  /** The digit for `n` in 0..15, lower or upper case. */
  function HexDigit(n: int, upper: bool): (c: char)
    requires 0 <= n < 16
    ensures IsHexDigit(c) && DigitValue(c) == n
    ensures InCase(c, upper)
  {
    if n < 10 then '0' + n as char
    else if upper then 'A' + (n - 10) as char
    else 'a' + (n - 10) as char
  }

  predicate IsHexDigit(c: char)
  {
    '0' <= c <= '9' || 'a' <= c <= 'f' || 'A' <= c <= 'F'
  }

  /** The value of a hexadecimal digit of either case. */
  function DigitValue(c: char): (n: int)
    requires IsHexDigit(c)
    ensures 0 <= n < 16
  {
    if '0' <= c <= '9' then c as int - '0' as int
    else if 'a' <= c <= 'f' then c as int - 'a' as int + 10
    else c as int - 'A' as int + 10
  }

  predicate IsHex(s: string)
  {
    forall i | 0 <= i < |s| :: IsHexDigit(s[i])
  }

  /** A decimal digit, or a letter digit of the given case: `%x` prints lower case, `%X` upper case. */
  predicate InCase(c: char, upper: bool)
  {
    '0' <= c <= '9' || (if upper then 'A' <= c <= 'F' else 'a' <= c <= 'f')
  }

  predicate HexInCase(s: string, upper: bool)
  {
    forall i | 0 <= i < |s| :: InCase(s[i], upper)
  }

  /** The number a string of hexadecimal digits denotes, most significant digit first. */
  function HexValue(s: string): (n: nat)
    requires IsHex(s)
  {
    if |s| == 0 then 0 else HexValue(s[..|s| - 1]) * 16 + DigitValue(s[|s| - 1])
  }

  /** `%02x` (lower case) or `%02X` (upper case) of a byte: always two digits. */
  function Hex2(b: byte, upper: bool): (s: string)
    ensures |s| == 2 && IsHex(s) && HexValue(s) == b as int
    ensures HexInCase(s, upper)
  {
    var n := b as int;
    var s := [HexDigit(n / 16, upper), HexDigit(n % 16, upper)];
    assert s[..1] == [s[0]] && s[..1][..0] == [];
    assert HexValue(s[..1]) == n / 16;
    s
  }

  /** `%x` of a natural number: lower case, no leading zeros. */
  function HexMin(n: nat): (s: string)
    decreases n
  {
    if n < 16 then [HexDigit(n, false)] else HexMin(n / 16) + [HexDigit(n % 16, false)]
  }

  /** `HexMin` prints at least one digit, without a leading zero, and reads back as `n`. */
  lemma {:induction false} HexMinRoundTrip(n: nat)
    ensures |HexMin(n)| >= 1 && IsHex(HexMin(n)) && HexValue(HexMin(n)) == n
    ensures |HexMin(n)| > 1 ==> HexMin(n)[0] != '0'
    ensures HexInCase(HexMin(n), false)
    decreases n
  {
    if n >= 16 {
      HexMinRoundTrip(n / 16);
      var s := HexMin(n);
      assert s[..|s| - 1] == HexMin(n / 16);
      HexInCaseAppend(HexMin(n / 16), [HexDigit(n % 16, false)], false);
    }
  }

  // ---------------------------------------------------------------------
  // modrm
  // ---------------------------------------------------------------------

  /** The error `modrm` reports when a direct address has fewer than three bytes. */
  function TooShortError(b: byte): string
  {
    "following bytes of " + Hex2(b, true) + " are too short"
  }

  /**
   * `modrm`: the operand text of the ModRM byte `b`, given the buffer `bs` as
   * the tests pass it: `bs[0]` is the ModRM byte, `bs[1]` the low and `bs[2]`
   * the high byte of a direct address. Mode 11 names a register from the 16-bit table whatever the
   * width of the instruction; the `default` branch of the source's switch is
   * unreachable, since `b >> 6` is always one of 0..3.
   */
  function Modrm(b: byte, bs: seq<byte>): (r: Result<string, string>)
    ensures r.Err? <==> b >> 6 == 0 && b & 0x7 == 6 && |bs| < 3
    ensures r.Err? ==> r.error == TooShortError(b)
  {
    var mode := b >> 6;
    var rm := b & 0x7;
    if mode == 0x0 then
      if rm == 0x6 then
        if |bs| < 3 then Err(TooShortError(b))
        else Ok("[0x" + Hex2(bs[2], false) + Hex2(bs[1], false) + "]")
      else Ok("[" + EffectiveAddresses[rm as int] + "]")
    else if mode == 0x1 then Ok("")  // TODO in the source: 8-bit displacement
    else if mode == 0x2 then Ok("")  // TODO in the source: 16-bit displacement
    else if mode == 0x3 then Ok(Reg16Names[rm as int])
    else assert false; Err("")
  }

  /** The register table agrees, index for index, with the numbering of `Reg16`. */
  lemma Reg16NamesAgree(n: int)
    requires 0 <= n < 8
    ensures Reg16Names[n] == Reg16FromCode(n).Name()
    ensures Reg16Names[Reg16FromCode(n).Code()] == Reg16FromCode(n).Name()
  {
  }

  /** Mode 11: the register numbered by the r/m field; no further byte is looked at. */
  lemma ModrmRegisterMode(b: byte, bs: seq<byte>)
    requires b >> 6 == 3
    ensures Modrm(b, bs) == Ok(Reg16FromBits(b & 0x7).Name())
    ensures Modrm(b, bs) == Modrm(b, [])
  {
    Reg16NamesAgree((b & 0x7) as int);
    FieldConversions(b & 0x7);
  }

  /** Mode 00 without a direct address: the bracketed address expression, no displacement. */
  lemma ModrmIndirectMode(b: byte, bs: seq<byte>)
    requires b >> 6 == 0 && b & 0x7 != 6
    ensures Modrm(b, bs) == Ok("[" + EffectiveAddresses[(b & 0x7) as int] + "]")
    ensures Modrm(b, bs) == Modrm(b, [])
  {
  }

  /**
   * Mode 00 with r/m 110: a direct address, printed as four hexadecimal digits
   * after "[0x" that read back as the little-endian word `bs[1]`, `bs[2]`.
   */
  lemma ModrmDirectAddress(b: byte, bs: seq<byte>)
    requires b >> 6 == 0 && b & 0x7 == 6 && |bs| >= 3
    ensures Modrm(b, bs).Ok?
    ensures var s := Modrm(b, bs).value;
      && |s| == 8 && s[..3] == "[0x" && s[7] == ']'
      && IsHex(s[3..7]) && HexValue(s[3..7]) == bs[2] as int * 256 + bs[1] as int
      && HexInCase(s[3..7], false)
  {
    var hi, lo := Hex2(bs[2], false), Hex2(bs[1], false);
    var s := Modrm(b, bs).value;
    assert s[3..7] == hi + lo;
    HexValueAppend(hi, lo);
    HexInCaseAppend(hi, lo, false);
  }

  /** Reading two hexadecimal strings one after the other. */
  lemma {:induction false} HexValueAppend(s: string, t: string)
    requires IsHex(s) && IsHex(t)
    ensures IsHex(s + t)
    ensures HexValue(s + t) == HexValue(s) * Power16(|t|) + HexValue(t)
    decreases |t|
  {
    IsHexAppend(s, t);
    if |t| == 0 {
      assert s + t == s;
    } else {
      var u := t[..|t| - 1];
      assert IsHex(u);
      IsHexAppend(s, u);
      assert (s + t)[..|s + t| - 1] == s + u;
      HexValueAppend(s, u);
      ShiftDigit(HexValue(s), Power16(|u|), HexValue(u), DigitValue(t[|t| - 1]));
    }
  }

  lemma IsHexAppend(s: string, t: string)
    requires IsHex(s) && IsHex(t)
    ensures IsHex(s + t)
  {
    assert forall i | |s| <= i < |s + t| :: (s + t)[i] == t[i - |s|];
  }

  lemma HexInCaseAppend(s: string, t: string, upper: bool)
    requires HexInCase(s, upper) && HexInCase(t, upper)
    ensures HexInCase(s + t, upper)
  {
    assert forall i | |s| <= i < |s + t| :: (s + t)[i] == t[i - |s|];
  }

  /** One more digit below `a * p + h`. */
  lemma ShiftDigit(a: int, p: int, h: int, digit: int)
    ensures (a * p + h) * 16 + digit == a * (16 * p) + (h * 16 + digit)
  {
  }

  function Power16(k: nat): (p: nat)
  {
    if k == 0 then 1 else 16 * Power16(k - 1)
  }

  /** Modes 01 and 10, as written: the empty operand and no error. */
  lemma ModrmDisplacementModesAsWritten(b: byte, bs: seq<byte>)
    requires b >> 6 == 1 || b >> 6 == 2
    ensures Modrm(b, bs) == Ok("")
  {
  }

  /** The cases of `TestModrmNomal` for modes 00 and 11, and of `TestModrmError`. */
  lemma ModrmTestCases()
    ensures Modrm(0x00, [0x00]) == Ok("[bx+si]")
    ensures Modrm(0x07, [0x07]) == Ok("[bx]")
    ensures Modrm(0x06, [0x06, 0x12, 0x34]) == Ok("[0x3412]")
    ensures Modrm(0xC0, [0xC0]) == Ok("ax")
    ensures Modrm(0xC7, [0xC7]) == Ok("di")
    ensures Modrm(0x06, [0x06]).Err?
    ensures Modrm(0x06, [0x06, 0x00]).Err?
  {
    assert "[" + "bx+si" + "]" == "[bx+si]";
    assert "[" + "bx" + "]" == "[bx]";
    assert Hex2(0x34, false) == "34" && Hex2(0x12, false) == "12";
    assert "[0x" + "34" + "12" + "]" == "[0x3412]";
  }

  // ---------------------------------------------------------------------
  // The displacement modes as the tests describe them
  // ---------------------------------------------------------------------

  /** A displacement as `+0x..` or `-0x..`, in minimal lower-case hexadecimal. */
  function SignedHex(d: int): string
  {
    if d < 0 then "-0x" + HexMin(-d) else "+0x" + HexMin(d)
  }

  /** An 8-bit displacement, sign-extended. */
  function Disp8(lo: byte): (d: int)
    ensures -128 <= d < 128
    ensures d % 256 == lo as int
  {
    if lo < 0x80 then lo as int else lo as int - 256
  }

  /** A 16-bit little-endian displacement, sign-extended. */
  function Disp16(lo: byte, hi: byte): (d: int)
    ensures -32768 <= d < 32768
    ensures d % 65536 == hi as int * 256 + lo as int
  {
    var u := hi as int * 256 + lo as int;
    if u < 0x8000 then u else u - 65536
  }

  /**
   * `modrm` as disasm/disasm_test.go expects it: like `Modrm`, except that
   * modes 01 and 10 append the sign-extended displacement to the address
   * expression, and fail like a direct address when its bytes are missing.
   */
  function ModrmWithDisplacement(b: byte, bs: seq<byte>): (r: Result<string, string>)
    ensures b >> 6 == 0 || b >> 6 == 3 ==> r == Modrm(b, bs)
    ensures r.Err? <==> |bs| < (if b >> 6 == 1 then 2 else if b >> 6 == 2 then 3 else 0)
                        || (b >> 6 == 0 && b & 0x7 == 6 && |bs| < 3)
  {
    var mode := b >> 6;
    var ea := EffectiveAddresses[(b & 0x7) as int];
    if mode == 0x1 then
      if |bs| < 2 then Err(TooShortError(b)) else Ok("[" + ea + SignedHex(Disp8(bs[1])) + "]")
    else if mode == 0x2 then
      if |bs| < 3 then Err(TooShortError(b)) else Ok("[" + ea + SignedHex(Disp16(bs[1], bs[2])) + "]")
    else Modrm(b, bs)
  }

  /**
   * Mode 01 prints the address expression, the sign of the 8-bit displacement
   * and its magnitude in minimal hexadecimal digits that read back as it.
   */
  lemma Disp8RoundTrip(b: byte, bs: seq<byte>)
    requires b >> 6 == 1 && |bs| >= 2
    ensures ModrmWithDisplacement(b, bs).Ok?
    ensures var d := Disp8(bs[1]);
      exists digits: string
        | IsHex(digits) && HexValue(digits) == Abs(d) && HexInCase(digits, false)
          && |digits| >= 1 && (|digits| > 1 ==> digits[0] != '0') ::
        ModrmWithDisplacement(b, bs).value
        == "[" + EffectiveAddresses[(b & 0x7) as int] + ((if d < 0 then "-0x" else "+0x") + digits) + "]"
  {
    var ea := EffectiveAddresses[(b & 0x7) as int];
    var d := Disp8(bs[1]);
    assert ModrmWithDisplacement(b, bs) == Ok("[" + ea + SignedHex(d) + "]");
    SignedHexRoundTrip(d);
    HexMinRoundTrip(Abs(d));
  }

  /**
   * Mode 10 prints the address expression, the sign of the little-endian
   * 16-bit displacement and its magnitude in minimal hexadecimal digits that read back as it.
   */
  lemma Disp16RoundTrip(b: byte, bs: seq<byte>)
    requires b >> 6 == 2 && |bs| >= 3
    ensures ModrmWithDisplacement(b, bs).Ok?
    ensures var d := Disp16(bs[1], bs[2]);
      exists digits: string
        | IsHex(digits) && HexValue(digits) == Abs(d) && HexInCase(digits, false)
          && |digits| >= 1 && (|digits| > 1 ==> digits[0] != '0') ::
        ModrmWithDisplacement(b, bs).value
        == "[" + EffectiveAddresses[(b & 0x7) as int] + ((if d < 0 then "-0x" else "+0x") + digits) + "]"
  {
    var ea := EffectiveAddresses[(b & 0x7) as int];
    var d := Disp16(bs[1], bs[2]);
    assert ModrmWithDisplacement(b, bs) == Ok("[" + ea + SignedHex(d) + "]");
    SignedHexRoundTrip(d);
    HexMinRoundTrip(Abs(d));
  }

  /** `SignedHex` is a sign, "0x" and digits that read back as the magnitude. */
  lemma SignedHexRoundTrip(d: int)
    ensures IsHex(HexMin(Abs(d))) && HexValue(HexMin(Abs(d))) == Abs(d)
    ensures HexInCase(HexMin(Abs(d)), false)
    ensures SignedHex(d) == (if d < 0 then "-0x" else "+0x") + HexMin(Abs(d))
  {
    HexMinRoundTrip(Abs(d));
  }

  function Abs(d: int): nat
  {
    if d < 0 then -d else d
  }

  /** The magnitudes the displacement tests print. */
  lemma HexMinOfTestDisplacements()
    ensures HexMin(1) == "1" && HexMin(0x12) == "12" && HexMin(0x3412) == "3412"
  {
    assert HexMin(0x12) == HexMin(1) + "2";
    assert HexMin(0x34) == HexMin(3) + "4";
    assert HexMin(0x341) == HexMin(0x34) + "1";
    assert HexMin(0x3412) == HexMin(0x341) + "2";
  }

  /** The cases of `TestModrmNomal` for mode 01, which the code as written does not meet. */
  lemma Disp8TestCases()
    ensures ModrmWithDisplacement(0x40, [0x40, 0x12]) == Ok("[bx+si+0x12]")
    ensures ModrmWithDisplacement(0x47, [0x47, 0xFF]) == Ok("[bx-0x1]")
    ensures Modrm(0x40, [0x40, 0x12]) == Ok("") && Modrm(0x47, [0x47, 0xFF]) == Ok("")
  {
    var bxsi, bx := EffectiveAddresses[0], EffectiveAddresses[7];
    HexMinOfTestDisplacements();
    assert Disp8(0x12) == 0x12 && Disp8(0xFF) == -1;
    assert ModrmWithDisplacement(0x40, [0x40, 0x12]).value == "[" + bxsi + "+0x" + "12" + "]";
    assert ModrmWithDisplacement(0x47, [0x47, 0xFF]).value == "[" + bx + "-0x" + "1" + "]";
    assert "[" + bxsi + "+0x" + "12" + "]" == "[bx+si+0x12]";
    assert "[" + bx + "-0x" + "1" + "]" == "[bx-0x1]";
  }

  /** The cases of `TestModrmNomal` for mode 10, which the code as written does not meet. */
  lemma Disp16TestCases()
    ensures ModrmWithDisplacement(0x80, [0x80, 0x12, 0x34]) == Ok("[bx+si+0x3412]")
    ensures ModrmWithDisplacement(0x87, [0x87, 0xFF, 0xFF]) == Ok("[bx-0x1]")
    ensures Modrm(0x80, [0x80, 0x12, 0x34]) == Ok("") && Modrm(0x87, [0x87, 0xFF, 0xFF]) == Ok("")
  {
    var bxsi, bx := EffectiveAddresses[0], EffectiveAddresses[7];
    HexMinOfTestDisplacements();
    assert Disp16(0x12, 0x34) == 0x3412 && Disp16(0xFF, 0xFF) == -1;
    assert ModrmWithDisplacement(0x80, [0x80, 0x12, 0x34]).value == "[" + bxsi + "+0x" + "3412" + "]";
    assert ModrmWithDisplacement(0x87, [0x87, 0xFF, 0xFF]).value == "[" + bx + "-0x" + "1" + "]";
    assert "[" + bxsi + "+0x" + "3412" + "]" == "[bx+si+0x3412]";
    assert "[" + bx + "-0x" + "1" + "]" == "[bx-0x1]";
  }

  // ---------------------------------------------------------------------
  // The cursor
  // ---------------------------------------------------------------------

  /** The free function `parse`: a placeholder that only recognises inc. */
  function ParseStub(b: byte): (s: string)
    ensures s != "" <==> Decode(b, 0).mnem == Inc
  {
    if b >> 3 == 0x8 then "inc: register" else ""
  }

  /**
   * The values `parse` passes to `NewCmd` for an inc instruction: position,
   * raw bytes, opcode text, width flag and the two operands.
   */
  datatype Cmd = Cmd(pos: int, bin: seq<byte>, opc: string, w: bool, opr1: string, opr2: string)

  /** What `Parse` produces: end of input, an inc command, or the empty string. */
  datatype Parsed = Eof | Instruction(cmd: Cmd) | Empty

  /** How many bytes of `s` are the single-byte inc forms 0x40-0x47. */
  function IncCount(s: seq<byte>): (n: nat)
    ensures n <= |s|
  {
    if |s| == 0 then 0 else IncCount(s[..|s| - 1]) + (if s[|s| - 1] >> 3 == 0x8 then 1 else 0)
  }

  /** The disassembler object over the bytes `input` its reader delivers. */
  class Disasm {
    /** The bytes the reader delivers, in order. */
    const input: seq<byte>
    /** How many of them the reader has delivered. */
    var pos: nat
    /** `off`: advanced by one for every byte that is not an inc. */
    var off: int
    /** `cmd.c`: the last opcode byte read. */
    var c: byte

    /** The offset counter counts exactly the delivered bytes that are not inc. */
    predicate Valid()
      reads this
    {
      pos <= |input| && off == pos - IncCount(input[..pos])
    }

    /** `NewDisasm`, with its command record allocated. */
    constructor (input: seq<byte>)
      ensures this.input == input && pos == 0 && off == 0 && c == 0
      ensures Valid()
    {
      this.input := input;
      pos := 0;
      off := 0;
      c := 0;
    }

    /**
     * `Parse`: reads the next byte into `cmd.c` and parses it; at the end of
     * the input it reports EOF and changes nothing.
     */
    method Parse() returns (out: Parsed)
      requires Valid()
      modifies this
      ensures Valid() && 0 <= off <= pos
      ensures old(pos) == |input| ==> out == Eof && pos == old(pos) && off == old(off) && c == old(c)
      ensures old(pos) < |input| ==> pos == old(pos) + 1 && c == input[old(pos)]
      ensures old(pos) < |input| && c >> 3 == 0x8 ==>
        out == Instruction(Cmd(old(off), [c], "inc", false, Reg16FromBits(c & 0x7).Name(), ""))
        && off == old(off)
      ensures old(pos) < |input| && c >> 3 != 0x8 ==> out == Empty && off == old(off) + 1
    {
      if pos == |input| {
        return Eof;
      }
      c := input[pos];
      pos := pos + 1;
      assert input[..pos][..pos - 1] == input[..pos - 1];
      out := ParseByte(c);
    }

    /** The method `parse`: inc 0x40-0x47 leaves `off` alone; every other byte advances it by one. */
    method ParseByte(b: byte) returns (out: Parsed)
      modifies this
      ensures pos == old(pos) && c == old(c)
      ensures b >> 3 == 0x8 ==>
        out == Instruction(Cmd(old(off), [b], "inc", false, Reg16FromBits(b & 0x7).Name(), ""))
        && off == old(off)
      ensures b >> 3 != 0x8 ==> out == Empty && off == old(off) + 1
    {
      if b >> 3 == 0x8 {
        var reg := b & 0x7;
        Reg16NamesAgree(reg as int);
        FieldConversions(reg);
        return Instruction(Cmd(off, [b], "inc", false, Reg16Names[reg as int], ""));
      }
      off := off + 1;
      return Empty;
    }
  }

  /** `parse` and the classifier agree on which bytes are inc, and on the register. */
  lemma ParseAgreesWithClassifier(b: byte, next: byte)
    ensures b >> 3 == 0x8 <==> Decode(b, next).mnem == Inc
    ensures b >> 3 == 0x8 ==> Decode(b, next).reg == R16(Reg16FromBits(b & 0x7))
  {
    if b >> 3 == 0x8 {
      assert 0x40 <= b < 0x48;
    } else if 0x40 <= b < 0x60 {
      assert (b >> 3) & 0x3 != 0;
    }
  }
}
