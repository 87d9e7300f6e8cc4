/**
 * Register numbering of disasm/reg.go: three `iota` enumerations, plus the
 * `Reg` interface that the opcode classifier stores an embedded register in.
 */
module Regs {
  import opened Base

  /** 8-bit general registers, numbered al = 0 .. bh = 7. */
  datatype Reg8 = Al | Cl | Dl | Bl | Ah | Ch | Dh | Bh
  {
    /** The `iota` value of the constant. */
    function Code(): (n: int)
      ensures 0 <= n < 8
      ensures Reg8FromCode(n) == this
    {
      match this
      case Al => 0 case Cl => 1 case Dl => 2 case Bl => 3
      case Ah => 4 case Ch => 5 case Dh => 6 case Bh => 7
    }

    /** The identifier, as the generated `String` method prints it. */
    function Name(): string
    {
      match this
      case Al => "al" case Cl => "cl" case Dl => "dl" case Bl => "bl"
      case Ah => "ah" case Ch => "ch" case Dh => "dh" case Bh => "bh"
    }
  }

  /** The Go conversion `Reg8(n)` for the eight declared values. */
  function Reg8FromCode(n: int): (r: Reg8)
    requires 0 <= n < 8
  {
    if n == 0 then Al else if n == 1 then Cl else if n == 2 then Dl
    else if n == 3 then Bl else if n == 4 then Ah else if n == 5 then Ch
    else if n == 6 then Dh else Bh
  }

  /** 16-bit general registers, numbered ax = 0 .. di = 7. */
  datatype Reg16 = Ax | Cx | Dx | Bx | Sp | Bp | Si | Di
  {
    function Code(): (n: int)
      ensures 0 <= n < 8
      ensures Reg16FromCode(n) == this
    {
      match this
      case Ax => 0 case Cx => 1 case Dx => 2 case Bx => 3
      case Sp => 4 case Bp => 5 case Si => 6 case Di => 7
    }

    function Name(): string
    {
      match this
      case Ax => "ax" case Cx => "cx" case Dx => "dx" case Bx => "bx"
      case Sp => "sp" case Bp => "bp" case Si => "si" case Di => "di"
    }
  }

  /** The Go conversion `Reg16(n)`: every value of a three-bit field names a register. */
  function Reg16FromCode(n: int): (r: Reg16)
    requires 0 <= n < 8
  {
    if n == 0 then Ax else if n == 1 then Cx else if n == 2 then Dx
    else if n == 3 then Bx else if n == 4 then Sp else if n == 5 then Bp
    else if n == 6 then Si else Di
  }

  /** `Reg16(x)` for a three-bit field `x` of an instruction byte: the same conversion, on the field's value. */
  function Reg16FromBits(x: byte): Reg16
    requires x < 8
  {
    Reg16FromCode(x as int)
  }

  /** Segment registers, numbered es = 0 .. ds = 3. */
  datatype Sreg = Es | Cs | Ss | Ds
  {
    function Code(): (n: int)
      ensures 0 <= n < 4
      ensures SregFromCode(n) == this
    {
      match this
      case Es => 0 case Cs => 1 case Ss => 2 case Ds => 3
    }

    function Name(): string
    {
      match this
      case Es => "es" case Cs => "cs" case Ss => "ss" case Ds => "ds"
    }
  }

  /** The Go conversion `Sreg(n)`: every value of a two-bit field names a segment register. */
  function SregFromCode(n: int): (r: Sreg)
    requires 0 <= n < 4
  {
    if n == 0 then Es else if n == 1 then Cs else if n == 2 then Ss else Ds
  }

  /** `Sreg(x)` for a two-bit field `x` of an instruction byte: the same conversion, on the field's value. */
  function SregFromBits(x: byte): Sreg
    requires x < 4
  {
    SregFromCode(x as int)
  }

  /** The `Reg` interface value of a decoded command: nil or one of the three enumerations. */
  datatype Reg = NoReg | R8(r8: Reg8) | R16(r16: Reg16) | S(sreg: Sreg)

  /** `Reg8(n)` and `Code` are inverse on 0..7. */
  lemma {:induction false} Reg8Numbering(n: int)
    requires 0 <= n < 8
    ensures Reg8FromCode(n).Code() == n
  {
  }

  /** `Reg16(n)` and `Code` are inverse on 0..7, so the conversion names eight distinct registers. */
  lemma Reg16Numbering(n: int, m: int)
    requires 0 <= n < 8 && 0 <= m < 8
    ensures Reg16FromCode(n).Code() == n
    ensures Reg16FromCode(n) == Reg16FromCode(m) ==> n == m
  {
  }

  /** `Sreg(n)` and `Code` are inverse on 0..3. */
  lemma SregNumbering(n: int, m: int)
    requires 0 <= n < 4 && 0 <= m < 4
    ensures SregFromCode(n).Code() == n
    ensures SregFromCode(n) == SregFromCode(m) ==> n == m
  {
  }

  /** `Reg16(x)` and `Sreg(x)` for a bit field of an instruction byte: the register numbered `x`. */
  lemma FieldConversions(x: byte)
    requires x < 8
    ensures Reg16FromBits(x).Code() == x as int
    ensures x < 4 ==> SregFromBits(x).Code() == x as int
  {
  }
}
