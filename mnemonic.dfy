/**
 * The `Mnemonic` enumeration of disasm/mnemonic.go. Go numbers the constants
 * with `iota`, starting with a blank identifier, so the value 0 carries no
 * name: here it is the constructor `Reserved`, the value a freshly reset
 * command holds. The named mnemonics follow in declaration order, mov = 1.
 */
module Mnemonics {

  datatype Mnemonic =
    | Reserved
    // Data transfer
    | Mov | Push | Pop | Xchg | In | Out | Xlat | Lea | Lds | Les | Lahf | Sahf | Pushf
    | Popf
    // Arithmetic
    | Add | Adc | Inc | Aaa | Daa | Sub | Sbb | Dec | Neg | Cmp | Aas | Das | Mul
    | Imul | Aam | Div | Idiv | Aad | Cbw | Cwd
    // Logic
    | Not | Shl | Shr | Sar | Rol | Ror | Rcl | Rcr | And | Test | Or | Xor
    // String manipulation
    | Rep | Movs | Cmps | Scas | Lods | Stos
    // Control transfer
    | Call | Jmp | Ret | Je | Jl | Jle | Jb | Jbe | Jp | Jo | Js | Jne | Jnl | Jnle
    | Jnb | Jnbe | Jnp | Jno | Jns | Loop | Loopz | Loopnz | Jcxz | Intr | Into | Iret
    // Processor control
    | Clc | Cmc | Stc | Cld | Std | Cli | Sti | Hlt | Wait | Esc | Lock

  /** The number of named mnemonics. */
  const Count := 89

  /** True for every constant except the reserved zero. */
  predicate Named(m: Mnemonic)
  {
    m != Reserved
  }

  /** The `iota` value of a constant. */
  function Code(m: Mnemonic): (n: int)
    ensures 0 <= n <= Count
    ensures n == 0 <==> m == Reserved
  {
    match m
    case Reserved => 0
    case Mov => 1
    case Push => 2
    case Pop => 3
    case Xchg => 4
    case In => 5
    case Out => 6
    case Xlat => 7
    case Lea => 8
    case Lds => 9
    case Les => 10
    case Lahf => 11
    case Sahf => 12
    case Pushf => 13
    case Popf => 14
    case Add => 15
    case Adc => 16
    case Inc => 17
    case Aaa => 18
    case Daa => 19
    case Sub => 20
    case Sbb => 21
    case Dec => 22
    case Neg => 23
    case Cmp => 24
    case Aas => 25
    case Das => 26
    case Mul => 27
    case Imul => 28
    case Aam => 29
    case Div => 30
    case Idiv => 31
    case Aad => 32
    case Cbw => 33
    case Cwd => 34
    case Not => 35
    case Shl => 36
    case Shr => 37
    case Sar => 38
    case Rol => 39
    case Ror => 40
    case Rcl => 41
    case Rcr => 42
    case And => 43
    case Test => 44
    case Or => 45
    case Xor => 46
    case Rep => 47
    case Movs => 48
    case Cmps => 49
    case Scas => 50
    case Lods => 51
    case Stos => 52
    case Call => 53
    case Jmp => 54
    case Ret => 55
    case Je => 56
    case Jl => 57
    case Jle => 58
    case Jb => 59
    case Jbe => 60
    case Jp => 61
    case Jo => 62
    case Js => 63
    case Jne => 64
    case Jnl => 65
    case Jnle => 66
    case Jnb => 67
    case Jnbe => 68
    case Jnp => 69
    case Jno => 70
    case Jns => 71
    case Loop => 72
    case Loopz => 73
    case Loopnz => 74
    case Jcxz => 75
    case Intr => 76
    case Into => 77
    case Iret => 78
    case Clc => 79
    case Cmc => 80
    case Stc => 81
    case Cld => 82
    case Std => 83
    case Cli => 84
    case Sti => 85
    case Hlt => 86
    case Wait => 87
    case Esc => 88
    case Lock => 89
  }

  /** The Go conversion `Mnemonic(n)` for the declared values 0..Count, as a binary search over the codes. */
  function FromCode(n: int): (m: Mnemonic)
    requires 0 <= n <= Count
  {
    if n < 45 then
      if n < 22 then
        if n < 11 then
          if n < 5 then
            if n < 2 then
              if n < 1 then
                Reserved
              else
                Mov
            else
              if n < 3 then
                Push
              else
                if n < 4 then
                  Pop
                else
                  Xchg
          else
            if n < 8 then
              if n < 6 then
                In
              else
                if n < 7 then
                  Out
                else
                  Xlat
            else
              if n < 9 then
                Lea
              else
                if n < 10 then
                  Lds
                else
                  Les
        else
          if n < 16 then
            if n < 13 then
              if n < 12 then
                Lahf
              else
                Sahf
            else
              if n < 14 then
                Pushf
              else
                if n < 15 then
                  Popf
                else
                  Add
          else
            if n < 19 then
              if n < 17 then
                Adc
              else
                if n < 18 then
                  Inc
                else
                  Aaa
            else
              if n < 20 then
                Daa
              else
                if n < 21 then
                  Sub
                else
                  Sbb
      else
        if n < 33 then
          if n < 27 then
            if n < 24 then
              if n < 23 then
                Dec
              else
                Neg
            else
              if n < 25 then
                Cmp
              else
                if n < 26 then
                  Aas
                else
                  Das
          else
            if n < 30 then
              if n < 28 then
                Mul
              else
                if n < 29 then
                  Imul
                else
                  Aam
            else
              if n < 31 then
                Div
              else
                if n < 32 then
                  Idiv
                else
                  Aad
        else
          if n < 39 then
            if n < 36 then
              if n < 34 then
                Cbw
              else
                if n < 35 then
                  Cwd
                else
                  Not
            else
              if n < 37 then
                Shl
              else
                if n < 38 then
                  Shr
                else
                  Sar
          else
            if n < 42 then
              if n < 40 then
                Rol
              else
                if n < 41 then
                  Ror
                else
                  Rcl
            else
              if n < 43 then
                Rcr
              else
                if n < 44 then
                  And
                else
                  Test
    else
      if n < 67 then
        if n < 56 then
          if n < 50 then
            if n < 47 then
              if n < 46 then
                Or
              else
                Xor
            else
              if n < 48 then
                Rep
              else
                if n < 49 then
                  Movs
                else
                  Cmps
          else
            if n < 53 then
              if n < 51 then
                Scas
              else
                if n < 52 then
                  Lods
                else
                  Stos
            else
              if n < 54 then
                Call
              else
                if n < 55 then
                  Jmp
                else
                  Ret
        else
          if n < 61 then
            if n < 58 then
              if n < 57 then
                Je
              else
                Jl
            else
              if n < 59 then
                Jle
              else
                if n < 60 then
                  Jb
                else
                  Jbe
          else
            if n < 64 then
              if n < 62 then
                Jp
              else
                if n < 63 then
                  Jo
                else
                  Js
            else
              if n < 65 then
                Jne
              else
                if n < 66 then
                  Jnl
                else
                  Jnle
      else
        if n < 78 then
          if n < 72 then
            if n < 69 then
              if n < 68 then
                Jnb
              else
                Jnbe
            else
              if n < 70 then
                Jnp
              else
                if n < 71 then
                  Jno
                else
                  Jns
          else
            if n < 75 then
              if n < 73 then
                Loop
              else
                if n < 74 then
                  Loopz
                else
                  Loopnz
            else
              if n < 76 then
                Jcxz
              else
                if n < 77 then
                  Intr
                else
                  Into
        else
          if n < 84 then
            if n < 81 then
              if n < 79 then
                Iret
              else
                if n < 80 then
                  Clc
                else
                  Cmc
            else
              if n < 82 then
                Stc
              else
                if n < 83 then
                  Cld
                else
                  Std
          else
            if n < 87 then
              if n < 85 then
                Cli
              else
                if n < 86 then
                  Sti
                else
                  Hlt
            else
              if n < 88 then
                Wait
              else
                if n < 89 then
                  Esc
                else
                  Lock
  }

  /** Every constant is the conversion of its own code, so `Code` is one-to-one. */
  lemma {:induction false} FromCodeOfCode(m: Mnemonic)
    ensures FromCode(Code(m)) == m
  {
    match m
    case Reserved =>
    case Mov =>
    case Push =>
    case Pop =>
    case Xchg =>
    case In =>
    case Out =>
    case Xlat =>
    case Lea =>
    case Lds =>
    case Les =>
    case Lahf =>
    case Sahf =>
    case Pushf =>
    case Popf =>
    case Add =>
    case Adc =>
    case Inc =>
    case Aaa =>
    case Daa =>
    case Sub =>
    case Sbb =>
    case Dec =>
    case Neg =>
    case Cmp =>
    case Aas =>
    case Das =>
    case Mul =>
    case Imul =>
    case Aam =>
    case Div =>
    case Idiv =>
    case Aad =>
    case Cbw =>
    case Cwd =>
    case Not =>
    case Shl =>
    case Shr =>
    case Sar =>
    case Rol =>
    case Ror =>
    case Rcl =>
    case Rcr =>
    case And =>
    case Test =>
    case Or =>
    case Xor =>
    case Rep =>
    case Movs =>
    case Cmps =>
    case Scas =>
    case Lods =>
    case Stos =>
    case Call =>
    case Jmp =>
    case Ret =>
    case Je =>
    case Jl =>
    case Jle =>
    case Jb =>
    case Jbe =>
    case Jp =>
    case Jo =>
    case Js =>
    case Jne =>
    case Jnl =>
    case Jnle =>
    case Jnb =>
    case Jnbe =>
    case Jnp =>
    case Jno =>
    case Jns =>
    case Loop =>
    case Loopz =>
    case Loopnz =>
    case Jcxz =>
    case Intr =>
    case Into =>
    case Iret =>
    case Clc =>
    case Cmc =>
    case Stc =>
    case Cld =>
    case Std =>
    case Cli =>
    case Sti =>
    case Hlt =>
    case Wait =>
    case Esc =>
    case Lock =>
  }

  /** All constants are distinct: equal codes mean equal mnemonics. */
  lemma CodesDistinct(a: Mnemonic, b: Mnemonic)
    requires Code(a) == Code(b)
    ensures a == b
  {
    FromCodeOfCode(a);
    FromCodeOfCode(b);
  }
}
