/**
 * The opcode classifier of disasm/command.go: a `command` record, reset by
 * `init`, that `parseOpcode` fills in from the first byte of an instruction
 * (and, for the immediate group 0x80-0x83, from bits 5-3 of the second).
 *
 * `Decode` is a reference decoding laid out the way the 8086 opcode map is:
 * by rows of eight opcodes. `Command.ParseOpcode` is the source's switch;
 * its postcondition says that it always ends in the state `Decode` gives.
 */
module Commands {
  import opened Base
  import opened Regs
  import opened Mnemonics

  /** The error text `parseOpcode` returns for an argument that is not two bytes long. */
  const LengthError := "parseOpcode: the length of argument must be 2"

  /** The fields of a `command` record, as one value. */
  datatype Fields = Fields(bs: seq<byte>, mnem: Mnemonic, l: int, d: byte, s: byte, w: byte, reg: Reg)

  /** The record as `init` leaves it: `bs = nil`, `mnem = 0`, `l = 0`, `d = s = w = 0`, `reg = nil`. */
  const Reset := Fields([], Reserved, 0, 0, 0, 0, NoReg)

  /** `getds`: the direction bit `d` (or sign-extension bit `s`), bit 1 of the opcode. */
  function GetDs(b: byte): (r: byte)
    ensures r == 0 || r == 1
    ensures b == (b & 0xFD) | (r << 1)
  {
    (b >> 1) & 0x1
  }

  /** `getw`: the width bit `w`, bit 0 of the opcode. */
  function GetW(b: byte): (r: byte)
    ensures r == 0 || r == 1
    ensures b == (b & 0xFE) | r
  {
    b & 0x1
  }

  /**
   * The eight arithmetic and logic operations in the order of their three-bit
   * operation field. The same order numbers rows 0x00-0x3F of the opcode map
   * and the sub-operation field of group 1 (0x80-0x83).
   */
  const AluOps: seq<Mnemonic> := [Add, Or, Adc, Sbb, And, Sub, Xor, Cmp]

  /** The one-byte decimal and ASCII adjustments 0x27, 0x2F, 0x37, 0x3F, by bits 4-3. */
  const Adjusts: seq<Mnemonic> := [Daa, Das, Aaa, Aas]

  /** The single-byte register operations of rows 0x40-0x5F, by bits 4-3. */
  const RegisterOps: seq<Mnemonic> := [Inc, Dec, Push, Pop]

  /** A register/memory form `oooooodw`: a ModRM byte follows. */
  function RegRm(m: Mnemonic, b: byte): Fields
  {
    Fields([], m, 2, GetDs(b), 0, GetW(b), NoReg)
  }

  /** An accumulator-immediate form `ooooo10w`: `l` counts the `w + 1` immediate bytes. */
  function AccImm(m: Mnemonic, b: byte): Fields
  {
    Fields([], m, GetW(b) as int + 1, 0, 0, GetW(b), NoReg)
  }

  /** A form with only the width bit and a ModRM byte (test, xchg with memory). */
  function Wide(m: Mnemonic, b: byte): Fields
  {
    Fields([], m, 2, 0, 0, GetW(b), NoReg)
  }

  /** A form whose bits are all fixed, of length `l`, with an embedded register or none. */
  function Fixed(m: Mnemonic, l: int, reg: Reg): Fields
  {
    Fields([], m, l, 0, 0, 0, reg)
  }

  /** The immediate group 0x80-0x83: the mnemonic is selected by bits 5-3 of the next byte. */
  function Group1(b: byte, next: byte): Fields
  {
    var w, s := GetW(b), GetDs(b);
    Fields([], AluOp((next >> 3) & 0x7), (3 + w - s) as int, 0, s, w, NoReg)
  }

  /** The operation numbered `x` by a three-bit field. */
  function AluOp(x: byte): Mnemonic
    requires x < 8
  {
    AluOps[x as int]
  }

  /** The adjustment numbered `x` by bits 4-3. */
  function Adjust(x: byte): Mnemonic
    requires x < 4
  {
    Adjusts[x as int]
  }

  /** The single-byte register operation numbered `x` by bits 4-3. */
  function RegisterOp(x: byte): Mnemonic
    requires x < 4
  {
    RegisterOps[x as int]
  }

  /** The embedded 16-bit register of a single-byte form: bits 2-0. */
  function EmbeddedReg16(b: byte): Reg
  {
    R16(Reg16FromBits(b & 0x7))
  }

  /** The embedded segment register of a segment push or pop: bits 4-3. */
  function EmbeddedSreg(b: byte): Reg
  {
    S(SregFromBits((b >> 3) & 0x3))
  }

  /**
   * The reference decoding of a first byte `b` followed by `next`, by rows of
   * the 8086 opcode map. Bytes outside the classifier's repertoire decode to `Reset`.
   * Whatever the bytes, the record holds no bytes and every bit field is 0 or 1.
   */
  function Decode(b: byte, next: byte): (f: Fields)
    ensures f.bs == [] && f.d <= 1 && f.s <= 1 && f.w <= 1
  {
    var col := b & 0x7;
    if b < 0x40 then
      if col < 4 then RegRm(AluOp(b >> 3), b)
      else if col < 6 then AccImm(AluOp(b >> 3), b)
      else if b < 0x20 then Fixed(if col == 6 then Push else Pop, 1, EmbeddedSreg(b))
      else if col == 7 then Fixed(Adjust((b >> 3) & 0x3), 1, NoReg)
      else Reset  // 0x26, 0x2E, 0x36, 0x3E: segment-override prefixes
    else if b < 0x60 then Fixed(RegisterOp((b >> 3) & 0x3), 1, EmbeddedReg16(b))
    else if b < 0x80 then Reset
    else if b < 0x84 then Group1(b, next)
    else if b < 0x88 then Wide(if b < 0x86 then Test else Xchg, b)
    else if b < 0x8C then RegRm(Mov, b)
    else if b == 0x8D then Fixed(Lea, 2, NoReg)
    else if b < 0x8F then Fixed(Mov, 2, NoReg)  // 0x8C, 0x8E: moves to and from segment registers
    else if b == 0x8F then Fixed(Pop, 2, NoReg)
    else if b < 0x98 then Fixed(Xchg, 1, EmbeddedReg16(b))
    else if b == 0x98 then Fixed(Cbw, 1, NoReg)
    else if b == 0x99 then Fixed(Cwd, 1, NoReg)
    else Reset
  }

  /**
   * How many of the 36 cases of `parseOpcode`'s switch accept the first byte
   * `b`: the case conditions are pairwise disjoint, so this is never more than one.
   */
  function MatchingCases(b: byte): (n: nat)
    ensures n <= 1
  {
    (if b >> 2 == 0x0 then 1 else 0) + (if b >> 1 == 0x2 then 1 else 0)  // add
    + (if b & 0xE7 == 0x6 then 1 else 0) + (if b >> 3 == 0xA then 1 else 0)  // push
    + (if b & 0xE7 == 0x7 then 1 else 0) + (if b >> 3 == 0xB then 1 else 0) + (if b == 0x8F then 1 else 0)  // pop
    + (if b >> 2 == 0x2 then 1 else 0) + (if b >> 1 == 0x6 then 1 else 0)  // or
    + (if b >> 2 == 0x4 then 1 else 0) + (if b >> 1 == 0xA then 1 else 0)  // adc
    + (if b >> 2 == 0x6 then 1 else 0) + (if b >> 1 == 0xE then 1 else 0)  // sbb
    + (if b >> 2 == 0x8 then 1 else 0) + (if b >> 1 == 0x12 then 1 else 0)  // and
    + (if b == 0x27 then 1 else 0)  // daa
    + (if b >> 2 == 0xA then 1 else 0) + (if b >> 1 == 0x16 then 1 else 0)  // sub
    + (if b == 0x2F then 1 else 0)  // das
    + (if b >> 2 == 0xC then 1 else 0) + (if b >> 1 == 0x1A then 1 else 0)  // xor
    + (if b == 0x37 then 1 else 0)  // aaa
    + (if b >> 2 == 0xE then 1 else 0) + (if b >> 1 == 0x1E then 1 else 0)  // cmp
    + (if b == 0x3F then 1 else 0)  // aas
    + (if b >> 3 == 0x8 then 1 else 0)  // inc
    + (if b >> 3 == 0x9 then 1 else 0)  // dec
    + (if b >> 2 == 0x20 then 1 else 0)  // extensions
    + (if b >> 1 == 0x42 then 1 else 0)  // test
    + (if b >> 1 == 0x43 then 1 else 0) + (if b >> 3 == 0x12 then 1 else 0)  // xchg
    + (if b >> 2 == 0x22 then 1 else 0) + (if b == 0x8C || b == 0x8E then 1 else 0)  // mov
    + (if b == 0x8D then 1 else 0)  // lea
    + (if b == 0x98 then 1 else 0)  // cbw
    + (if b == 0x99 then 1 else 0)  // cwd
  }

  /** The first bytes one of the cases of `parseOpcode`'s switch accepts. */
  predicate Recognised(b: byte)
  {
    || b >> 2 == 0x0 || b >> 1 == 0x2
    || b & 0xE7 == 0x6 || b >> 3 == 0xA || b & 0xE7 == 0x7 || b >> 3 == 0xB || b == 0x8F
    || b >> 2 == 0x2 || b >> 1 == 0x6 || b >> 2 == 0x4 || b >> 1 == 0xA
    || b >> 2 == 0x6 || b >> 1 == 0xE || b >> 2 == 0x8 || b >> 1 == 0x12 || b == 0x27
    || b >> 2 == 0xA || b >> 1 == 0x16 || b == 0x2F || b >> 2 == 0xC || b >> 1 == 0x1A || b == 0x37
    || b >> 2 == 0xE || b >> 1 == 0x1E || b == 0x3F || b >> 3 == 0x8 || b >> 3 == 0x9
    || b >> 2 == 0x20 || b >> 1 == 0x42 || b >> 1 == 0x43 || b >> 3 == 0x12
    || b >> 2 == 0x22 || b == 0x8C || b == 0x8E || b == 0x8D || b == 0x98 || b == 0x99
  }

  /** The `command` record that `parseOpcode` and `init` update in place. */
  class Command {
    var bs: seq<byte>
    var mnem: Mnemonic
    var l: int
    var d: byte
    var s: byte
    var w: byte
    var reg: Reg

    /** The fields as one value. */
    function State(): Fields
      reads this
    {
      Fields(bs, mnem, l, d, s, w, reg)
    }

    /** `&command{}`: Go's zero value, which is the reset state. */
    constructor ()
      ensures State() == Reset
    {
      bs, mnem, l, d, s, w, reg := [], Reserved, 0, 0, 0, 0, NoReg;
    }

    /** `init`: resets every field. */
    method Init()
      modifies this
      ensures State() == Reset
    {
      this.bs := [];
      mnem := Reserved;
      l := 0;
      d := 0;
      s := 0;
      w := 0;
      reg := NoReg;
    }

    /**
     * `parseOpcode`. The record is reset first, so an argument of the wrong
     * length leaves it reset, and so does a first byte no case accepts.
     *
     * Go's switch is one flat list of cases. Every case accepts first bytes
     * from one block of 32 opcodes only (0x00-0x1F, 0x20-0x3F, 0x40-0x5F or
     * 0x80-0x9F), so the cases are dealt out to one method per block, in
     * their source order; blocks 0x60-0x7F and 0xA0-0xFF hold no case.
     */
    method ParseOpcode(bs: seq<byte>) returns (err: Option<string>)
      modifies this
      ensures |bs| != 2 ==> err == Some(LengthError) && State() == Reset
      ensures |bs| == 2 ==> err == None && State() == Decode(bs[0], bs[1])
    {
      Init();

      if |bs| != 2 {
        return Some(LengthError);
      }

      err := None;
      var b := bs[0];
      if b < 0x20 {
        ParseBlock00(b, bs[1]);
      } else if b < 0x40 {
        ParseBlock20(b, bs[1]);
      } else if b < 0x60 {
        ParseBlock40(b, bs[1]);
      } else if 0x80 <= b < 0xA0 {
        ParseBlock80(b, bs[1]);
      }
    }

    /*
     * The cases of the switch, block by block. Go's switch runs the first case
     * whose condition holds; a Dafny `if case` may run ANY case whose guard
     * holds, so proving each method's postcondition for every such choice also
     * shows that the outcome does not depend on the order of the cases.
     */

    /** The cases for first bytes 0x00-0x1F: add, or, adc, sbb and the segment push and pop. */
    method ParseBlock00(b: byte, next: byte)
      requires b < 0x20
      requires State() == Reset
      modifies this
      ensures State() == Decode(b, next)
    {
      if
      // add
      case b >> 2 == 0x0 =>
        mnem := Add; l := 2; d := GetDs(b); w := GetW(b);
      case b >> 1 == 0x2 =>
        mnem := Add; w := GetW(b); l := (w + 1) as int;
      // push
      case b & 0xE7 == 0x6 =>
        mnem := Push; l := 1; reg := S(SregFromBits((b >> 3) & 0x3));
      // pop
      case b & 0xE7 == 0x7 =>
        mnem := Pop; l := 1; reg := S(SregFromBits((b >> 3) & 0x3));
      // or
      case b >> 2 == 0x2 =>
        mnem := Or; l := 2; d := GetDs(b); w := GetW(b);
      case b >> 1 == 0x6 =>
        mnem := Or; w := GetW(b); l := (w + 1) as int;
      // adc
      case b >> 2 == 0x4 =>
        mnem := Adc; l := 2; d := GetDs(b); w := GetW(b);
      case b >> 1 == 0xA =>
        mnem := Adc; w := GetW(b); l := (w + 1) as int;
      // sbb
      case b >> 2 == 0x6 =>
        mnem := Sbb; l := 2; d := GetDs(b); w := GetW(b);
      case b >> 1 == 0xE =>
        mnem := Sbb; w := GetW(b); l := (w + 1) as int;
      // no case matches: the record stays reset
      case !Recognised(b) =>
    }

    /** The cases for first bytes 0x20-0x3F: and, sub, xor, cmp and the four adjustments. */
    method ParseBlock20(b: byte, next: byte)
      requires 0x20 <= b < 0x40
      requires State() == Reset
      modifies this
      ensures State() == Decode(b, next)
    {
      if
      // and
      case b >> 2 == 0x8 =>
        mnem := And; l := 2; d := GetDs(b); w := GetW(b);
      case b >> 1 == 0x12 =>
        mnem := And; w := GetW(b); l := (w + 1) as int;
      // daa
      case b == 0x27 =>
        mnem := Daa; l := 1;
      // sub
      case b >> 2 == 0xA =>
        mnem := Sub; l := 2; d := GetDs(b); w := GetW(b);
      case b >> 1 == 0x16 =>
        mnem := Sub; w := GetW(b); l := (w + 1) as int;
      // das
      case b == 0x2F =>
        mnem := Das; l := 1;
      // xor
      case b >> 2 == 0xC =>
        mnem := Xor; l := 2; d := GetDs(b); w := GetW(b);
      case b >> 1 == 0x1A =>
        mnem := Xor; w := GetW(b); l := (w + 1) as int;
      // aaa
      case b == 0x37 =>
        mnem := Aaa; l := 1;
      // cmp
      case b >> 2 == 0xE =>
        mnem := Cmp; l := 2; d := GetDs(b); w := GetW(b);
      case b >> 1 == 0x1E =>
        mnem := Cmp; w := GetW(b); l := (w + 1) as int;
      // aas
      case b == 0x3F =>
        mnem := Aas; l := 1;
      // no case matches (the segment-override prefixes): the record stays reset
      case !Recognised(b) =>
    }

    /** The cases for first bytes 0x40-0x5F: push, pop, inc and dec of a 16-bit register. */
    method ParseBlock40(b: byte, next: byte)
      requires 0x40 <= b < 0x60
      requires State() == Reset
      modifies this
      ensures State() == Decode(b, next)
    {
      if
      // push
      case b >> 3 == 0xA =>
        mnem := Push; l := 1; reg := R16(Reg16FromBits(b & 0x7));
      // pop
      case b >> 3 == 0xB =>
        mnem := Pop; l := 1; reg := R16(Reg16FromBits(b & 0x7));
      // inc
      case b >> 3 == 0x8 =>
        mnem := Inc; l := 1; reg := R16(Reg16FromBits(b & 0x7));
      // dec
      case b >> 3 == 0x9 =>
        mnem := Dec; l := 1; reg := R16(Reg16FromBits(b & 0x7));
    }

    /**
     * The cases for first bytes 0x80-0x9F: the immediate group, test, xchg, mov,
     * lea, pop to memory, cbw and cwd.
     */
    method ParseBlock80(b: byte, next: byte)
      requires 0x80 <= b < 0xA0
      requires State() == Reset
      modifies this
      ensures State() == Decode(b, next)
    {
      if
      // pop
      case b == 0x8F =>
        mnem := Pop; l := 2;
      // extensions
      case b >> 2 == 0x20 =>
        var ext := (next >> 3) & 0x7;
        if {
          case ext == 0x0 => mnem := Add;
          case ext == 0x1 => mnem := Or;
          case ext == 0x2 => mnem := Adc;
          case ext == 0x3 => mnem := Sbb;
          case ext == 0x4 => mnem := And;
          case ext == 0x5 => mnem := Sub;
          case ext == 0x6 => mnem := Xor;
          case ext == 0x7 => mnem := Cmp;
        }
        w := GetW(b);
        s := GetDs(b);
        l := (3 + w - s) as int;
      // test
      case b >> 1 == 0x42 =>
        mnem := Test; l := 2; w := GetW(b);
      // xchg
      case b >> 1 == 0x43 =>
        mnem := Xchg; l := 2; w := GetW(b);
      case b >> 3 == 0x12 =>
        mnem := Xchg; l := 1; reg := R16(Reg16FromBits(b & 0x7));
      // mov
      case b >> 2 == 0x22 =>
        mnem := Mov; l := 2; d := GetDs(b); w := GetW(b);
      case b == 0x8C || b == 0x8E =>
        mnem := Mov; l := 2;
      // lea
      case b == 0x8D =>
        mnem := Lea; l := 2;
      // cbw
      case b == 0x98 =>
        mnem := Cbw; l := 1;
      // cwd
      case b == 0x99 =>
        mnem := Cwd; l := 1;
      // no case matches: the record stays reset
      case !Recognised(b) =>
    }
  }
}


module CommandProperties {
  import opened Base
  import opened Regs
  import opened Mnemonics
  import opened Commands

  /** A first byte is recognised exactly when one case of the switch accepts it. */
  lemma RecognisedIsOneCase(b: byte)
    ensures Recognised(b) <==> MatchingCases(b) == 1
    ensures !Recognised(b) <==> MatchingCases(b) == 0
  {
  }

  /**
   * The eight operations of the immediate group are declared mnemonics, with
   * the `iota` values of their declarations.
   */
  lemma Group1MnemonicsDeclared()
    ensures forall i | 0 <= i < |AluOps| :: Named(AluOps[i])
    ensures Code(Add) == 15 && Code(Adc) == 16 && Code(Sub) == 20 && Code(Sbb) == 21
    ensures Code(Cmp) == 24 && Code(And) == 43 && Code(Or) == 45 && Code(Xor) == 46
  {
  }

  /** Every first byte decodes to the reset record exactly when no case accepts it. */
  lemma UnrecognisedIsReset(b: byte, next: byte)
    ensures Decode(b, next) == Reset <==> !Recognised(b)
    ensures Decode(b, next).mnem == Reserved <==> !Recognised(b)
  {
    ResetByBlock(b, next);
  }

  /** `l` is 0 exactly for the reset record and is otherwise between 1 and 4. */
  lemma LengthRange(b: byte, next: byte)
    ensures 0 <= Decode(b, next).l <= 4
    ensures Decode(b, next).l == 0 <==> !Recognised(b)
  {
    ResetByBlock(b, next);
  }

  /** The facts behind `UnrecognisedIsReset` and `LengthRange`. */
  predicate ResetFacts(b: byte, next: byte)
  {
    var f := Decode(b, next);
    && (f == Reset <==> !Recognised(b))
    && (f == Reset <==> f.mnem == Reserved)
    && (f == Reset <==> f.l == 0)
    && 0 <= f.l <= 4
  }

  /** `ResetFacts`, proved one block of first bytes at a time. */
  lemma ResetByBlock(b: byte, next: byte)
    ensures ResetFacts(b, next)
  {
    if b < 0x20 {
      ResetBlock00(b, next);
    } else if b < 0x40 {
      ResetBlock20(b, next);
    } else if b < 0x80 {
      ResetBlock40(b, next);
    } else if b < 0x84 {
      ResetGroup1(b, next);
    } else if b < 0xA0 {
      ResetBlock84(b, next);
    } else {
      ResetBlockA0(b, next);
    }
  }

  lemma ResetBlock00(b: byte, next: byte)
    requires b < 0x20
    ensures ResetFacts(b, next)
  {
  }

  lemma ResetBlock20(b: byte, next: byte)
    requires 0x20 <= b < 0x40
    ensures ResetFacts(b, next)
  {
  }

  lemma ResetBlock40(b: byte, next: byte)
    requires 0x40 <= b < 0x80
    ensures ResetFacts(b, next)
  {
  }

  lemma ResetGroup1(b: byte, next: byte)
    requires 0x80 <= b < 0x84
    ensures ResetFacts(b, next)
  {
    Group1Form(b, next);
  }

  lemma ResetBlock84(b: byte, next: byte)
    requires 0x84 <= b < 0xA0
    ensures ResetFacts(b, next)
  {
  }

  lemma ResetBlockA0(b: byte, next: byte)
    requires 0xA0 <= b
    ensures ResetFacts(b, next)
  {
  }

  /**
   * The register/memory forms `oooooodw` of the eight arithmetic rows and of
   * mov (0x88-0x8B): a ModRM byte follows, `d` is bit 1 and `w` is bit 0.
   */
  lemma RegRmForms(b: byte, next: byte)
    requires (b < 0x40 && b & 0x7 < 4) || 0x88 <= b < 0x8C
    ensures var f := Decode(b, next);
      && f.mnem == (if b < 0x40 then AluOps[(b >> 3) as int] else Mov)
      && f.l == 2 && f.d == (b >> 1) & 0x1 && f.w == b & 0x1 && f.s == 0 && f.reg == NoReg
  {
  }

  /**
   * The accumulator-immediate forms `ooooo10w` of the eight arithmetic rows:
   * `l` is `w + 1`, so 1 or 2, and `d` is not set.
   */
  lemma AccumulatorImmediateForms(b: byte, next: byte)
    requires b < 0x40 && (b & 0x7 == 4 || b & 0x7 == 5)
    ensures var f := Decode(b, next);
      && f.mnem == AluOps[(b >> 3) as int]
      && f.w == b & 0x1 && f.l == f.w as int + 1 && 1 <= f.l <= 2
      && f.d == 0 && f.s == 0 && f.reg == NoReg
  {
  }

  /**
   * The immediate group 0x80-0x83: bits 5-3 of the next byte select the
   * operation, `w` is bit 0, `s` is bit 1 and `l` is `3 + w - s`.
   */
  lemma Group1Form(b: byte, next: byte)
    requires 0x80 <= b < 0x84
    ensures var f := Decode(b, next);
      && f.mnem == AluOps[((next >> 3) & 0x7) as int]
      && f.w == b & 0x1 && f.s == (b >> 1) & 0x1 && f.d == 0 && f.reg == NoReg
      && f.l == 3 + f.w as int - f.s as int
      && f.l == (if b == 0x81 then 4 else if b == 0x82 then 2 else 3)
  {
  }

  /**
   * The single-byte forms with a 16-bit register in bits 2-0: inc, dec, push
   * and pop (0x40-0x5F) and xchg with the accumulator (0x90-0x97).
   */
  lemma Register16Forms(b: byte, next: byte)
    requires 0x40 <= b < 0x60 || 0x90 <= b < 0x98
    ensures var f := Decode(b, next);
      && f.mnem == (if b < 0x60 then RegisterOps[((b >> 3) & 0x3) as int] else Xchg)
      && f.l == 1 && f.reg.R16? && f.reg.r16.Code() == (b & 0x7) as int
      && f.d == 0 && f.s == 0 && f.w == 0
  {
    FieldConversions(b & 0x7);
  }

  /** Segment push and pop (`b & 0xE7` is 6 or 7): the segment register is bits 4-3. */
  lemma SegmentForms(b: byte, next: byte)
    requires b & 0xE7 == 0x6 || b & 0xE7 == 0x7
    ensures var f := Decode(b, next);
      && f.mnem == (if b & 0x1 == 0 then Push else Pop)
      && f.l == 1 && f.reg.S? && f.reg.sreg.Code() == ((b >> 3) & 0x3) as int
      && f.d == 0 && f.s == 0 && f.w == 0
  {
    FieldConversions((b >> 3) & 0x3);
  }

  /** The second byte matters for the immediate group 0x80-0x83 and for no other first byte. */
  lemma SecondByteOnlyForGroup1(b: byte)
    ensures (forall n, m :: Decode(b, n) == Decode(b, m)) <==> !(0x80 <= b < 0x84)
  {
    if 0x80 <= b < 0x84 {
      assert Decode(b, 0x00).mnem == Add && Decode(b, 0x08).mnem == Or;
    } else {
      forall n, m
        ensures Decode(b, n) == Decode(b, m)
      {
      }
    }
  }

  /** The cases of `TestParseOpcode`: mnemonic, `l`, `d` and `w` for the first bytes 0x00-0x0D. */
  lemma ParseOpcodeTestCases()
    ensures Decode(0x00, 0x00) == Fields([], Add, 2, 0, 0, 0, NoReg)
    ensures Decode(0x01, 0x00) == Fields([], Add, 2, 0, 0, 1, NoReg)
    ensures Decode(0x02, 0x00) == Fields([], Add, 2, 1, 0, 0, NoReg)
    ensures Decode(0x03, 0x00) == Fields([], Add, 2, 1, 0, 1, NoReg)
    ensures Decode(0x04, 0x00) == Fields([], Add, 1, 0, 0, 0, NoReg)
    ensures Decode(0x05, 0x00) == Fields([], Add, 2, 0, 0, 1, NoReg)
    ensures Decode(0x06, 0x00) == Fields([], Push, 1, 0, 0, 0, S(Es))
    ensures Decode(0x07, 0x00) == Fields([], Pop, 1, 0, 0, 0, S(Es))
    ensures Decode(0x08, 0x00) == Fields([], Or, 2, 0, 0, 0, NoReg)
    ensures Decode(0x09, 0x00) == Fields([], Or, 2, 0, 0, 1, NoReg)
    ensures Decode(0x0A, 0x00) == Fields([], Or, 2, 1, 0, 0, NoReg)
    ensures Decode(0x0B, 0x00) == Fields([], Or, 2, 1, 0, 1, NoReg)
    ensures Decode(0x0C, 0x00) == Fields([], Or, 1, 0, 0, 0, NoReg)
    ensures Decode(0x0D, 0x00) == Fields([], Or, 2, 0, 0, 1, NoReg)
  {
  }
}
