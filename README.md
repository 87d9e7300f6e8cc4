# 8086 instruction decoder core, modelled in Dafny

This project models the decoding core of an 8086 disassembler written in Go
(package `disasm`). The core has four parts:

- **The opcode classifier** (`parseOpcode` in disasm/command.go). It resets a
  `command` record and fills it in from the first byte of an instruction:
  - the mnemonic;
  - the length field `l`;
  - the direction, sign and width bits `d`, `s`, `w`;
  - an embedded register.

  For the immediate group 0x80-0x83 it also reads bits 5-3 of the second byte.
- **The ModRM resolver** (`modrm` in disasm/disasm.go). It turns a ModRM byte,
  and the displacement bytes after it, into operand text.
- **The byte cursor** (`Disasm.Parse` and `parse`). It reads one byte, keeps
  it as the current opcode and advances the offset counter `off`.
- **The enumerations** (disasm/reg.go and disasm/mnemonic.go): the registers
  and the mnemonics, numbered with `iota`.

The package as written does not build: it declares the type `command` twice,
at disasm/command.go:5 and at disasm/disasm.go:20. The model takes the record
of command.go for `Commands.Command`, and the `{c, bs}` pair of disasm.go for
`Disasm.c` and the buffer `bs` of `Modrm`. The test `TestModrmNomal` also calls
a free function `modrm(bs)` (disasm/disasm_test.go:31) that the package does
not declare; the package declares only the method `(*Disasm).modrm`.

Files:

| file | module | models |
|---|---|---|
| base.dfy | `Base` | `byte` as `bv8`, `Option`, `Result` |
| reg.dfy | `Regs` | `Reg8`, `Reg16`, `Sreg` and their numbering; `Reg`, the embedded-register value of a command (`NoReg` is Go's nil) |
| mnemonic.dfy | `Mnemonics` | the `Mnemonic` enumeration. `Reserved` is the blank identifier at value 0; the 89 named mnemonics follow as 1..89 |
| command.dfy | `Commands`, `CommandProperties` | the `command` record as a class, `init`, `parseOpcode`, `getds`, `getw`, with a reference decoding `Decode` and lemmas about it |
| disasm.dfy | `Disassembler` | `reg16`, `regm`, `modrm`, the free `parse`, and `Disasm` with `Parse` and its method `parse` |

### How the classifier is modelled

`Commands.Command` is a class with the record's fields.

- `ParseOpcode` resets the record and rejects an argument that is not two
  bytes long. It then runs the switch.
- Every one of the 36 cases accepts first bytes from one block of 32 opcodes
  only, so the switch's cases are split across `ParseBlock00`, `ParseBlock20`,
  `ParseBlock40` and `ParseBlock80`. Each lists its cases in source order.
- Each case is an alternative of a Dafny `if case`. Dafny proves the
  postcondition for every case whose condition holds, so the result does not
  depend on the order of the cases. `MatchingCases` proves more: the
  conditions are pairwise disjoint.
- The postcondition ties the new state to `Decode`. `Decode` is an independent
  reference decoding, written by rows of the 8086 opcode map rather than
  case by case.
- The properties the source promises are proved about `Decode` in module
  `CommandProperties`. Among them:
  - which bytes leave the record reset;
  - the fields of each opcode form;
  - the range of `l`;
  - that only the immediate group reads the second byte.

`l` is kept exactly as the code computes it. The code uses different
conventions for different forms:

- register/memory forms get 2, the opcode and the ModRM byte;
- accumulator-immediate forms get `w + 1`, the number of immediate bytes,
  which the tests expect for 0x04 and 0x05;
- single-byte forms get 1;
- the immediate group gets `3 + w - s`.

### How the resolver is modelled

`Disassembler.Modrm(b, bs)` is `modrm` with `b` = `cmd.c`, the ModRM byte, and
`bs` = `cmd.bs`, taken the way the tests pass it: `bs[0]` is the ModRM byte,
and a direct address is `bs[1]` (low byte) and `bs[2]` (high byte). The test
lemmas pass `bs[0]` as `b`. The length check is on the buffer's length, as in
the code.

The tables `reg16` and `regm` are the constants `Reg16Names` and
`EffectiveAddresses`. `Reg16NamesAgree` and `EffectiveAddressLayout` state
what they hold.

Modes 01 and 10 are TODOs in the code and return the empty string.
`ModrmWithDisplacement` is the behaviour the tests expect for those modes. It
is a separate specification, not used by the model of the code, and it agrees
with `Modrm` on modes 00 and 11. The tests have no error case for modes 01
and 10, so its failure when their displacement bytes are missing is this
model's own extrapolation.

### How the cursor is modelled

`Disassembler.Disasm` holds:

- the input as a sequence, the bytes the reader delivers;
- a position `pos` in that sequence;
- `off`;
- `c`, the byte `cmd.c`.

`parse` returns before `d.off++` for inc bytes (0x40-0x47), so `off` counts
the non-inc bytes consumed. This is the class invariant `Valid`. The inc
result is modelled as the arguments `parse` passes to `NewCmd`.

## Model

| member | source | states |
|---|---|---|
| `Regs.Reg8.Code` | disasm/reg.go:7-16 | al..bh are numbered 0..7 and `Reg8(n)` maps each number back to its register |
| `Regs.Reg16.Code` | disasm/reg.go:22-31 | ax, cx, dx, bx, sp, bp, si, di are numbered 0..7 in that order; `Reg16(n)` maps each number back |
| `Regs.Sreg.Code` | disasm/reg.go:37-42 | es, cs, ss, ds are numbered 0..3; `Sreg(n)` maps each number back |
| `Regs.Reg8Numbering` | disasm/reg.go:7-16 | converting 0..7 to a `Reg8` and back gives the same number |
| `Regs.Reg16Numbering` | disasm/reg.go:22-31 | `Reg16(n)` is one-to-one on 0..7 and inverse to the numbering |
| `Regs.SregNumbering` | disasm/reg.go:37-42 | `Sreg(n)` is one-to-one on 0..3 and inverse to the numbering |
| `Regs.Reg16FromBits` | disasm/command.go:51 | `Reg16(b & 0x7)`, the conversion applied to a three-bit field. It has no contract of its own; `FieldConversions` states its value |
| `Regs.SregFromBits` | disasm/command.go:47 | `Sreg(b >> 3 & 0x3)`, the conversion applied to a two-bit field. It has no contract of its own; `FieldConversions` states its value |
| `Regs.FieldConversions` | disasm/command.go:47-51 | `Reg16(b & 0x7)` and `Sreg(b >> 3 & 0x3)` always name the register whose number is the bit field |
| `Mnemonics.Code` | disasm/mnemonic.go:9-112 | every mnemonic's `iota` value is between 0 and 89, and the value 0 belongs to the blank identifier alone |
| `Mnemonics.FromCode` | disasm/mnemonic.go:9-112 | the conversion `Mnemonic(n)` on 0..89. It has no contract of its own; `FromCodeOfCode` states that it inverts the numbering |
| `Mnemonics.FromCodeOfCode` | disasm/mnemonic.go:9-112 | the conversion from a value recovers every constant, so no two constants share a value |
| `Mnemonics.CodesDistinct` | disasm/mnemonic.go:9-112 | two mnemonics with the same value are the same mnemonic |
| `Commands.GetDs` | disasm/command.go:245-247 | the result is 0 or 1 and is bit 1 of the byte: putting it back into bit 1 rebuilds the byte |
| `Commands.GetW` | disasm/command.go:249-251 | the result is 0 or 1 and is bit 0 of the byte |
| `Commands.Decode` | disasm/command.go:22-243 | the reference decoding by rows of the opcode map; whatever the bytes, the record holds no bytes and `d`, `s`, `w` are each 0 or 1 |
| `Commands.MatchingCases` | disasm/command.go:31-240 | at most one of the switch's 36 case conditions holds for any first byte |
| `Commands.Command.constructor` | disasm/command.go:5-13 | a new record is the reset state |
| `Commands.Command.Init` | disasm/command.go:253-261 | every field is reset: no bytes, mnemonic 0, `l`, `d`, `s`, `w` zero, no register |
| `Commands.Command.ParseOpcode` | disasm/command.go:22-243 | an argument whose length is not 2 gives the length error and leaves the record reset; a two-byte argument gives no error and the record `Decode` gives |
| `Commands.Command.ParseBlock00` | disasm/command.go:32-97 | the cases accepting 0x00-0x1F (add, segment push and pop, or, adc, sbb) reach `Decode`'s record whichever matching case runs |
| `Commands.Command.ParseBlock20` | disasm/command.go:99-161 | the cases accepting 0x20-0x3F (and, daa, sub, das, xor, aaa, cmp, aas) reach `Decode`'s record |
| `Commands.Command.ParseBlock40` | disasm/command.go:43-173 | the cases accepting 0x40-0x5F (push, pop, inc, dec of a 16-bit register) reach `Decode`'s record |
| `Commands.Command.ParseBlock80` | disasm/command.go:62-239 | the cases accepting 0x80-0x9F: pop to memory (0x8F, lines 62-64) and the immediate group, test, xchg, mov, lea, cbw, cwd (lines 175-239) reach `Decode`'s record |
| `CommandProperties.RecognisedIsOneCase` | disasm/command.go:31-240 | a first byte is accepted by the switch exactly when one case accepts it, and by none otherwise |
| `CommandProperties.Group1MnemonicsDeclared` | disasm/mnemonic.go:29-62 | the eight group-1 operations are named mnemonics, with the values of their declarations |
| `CommandProperties.UnrecognisedIsReset` | disasm/command.go:22-31 | the record is reset, and its mnemonic is 0, exactly when no case accepts the first byte |
| `CommandProperties.LengthRange` | disasm/command.go:31-240 | `l` is always between 0 and 4, and 0 exactly when no case accepts the byte |
| `CommandProperties.RegRmForms` | disasm/command.go:33-37 | the register/memory forms of the eight arithmetic rows and of mov (0x88-0x8B) give `l = 2`, `d` = bit 1, `w` = bit 0 and the row's operation |
| `CommandProperties.AccumulatorImmediateForms` | disasm/command.go:38-41 | the accumulator-immediate forms give `l = w + 1` (1 or 2), `w` = bit 0, `d = 0` and the row's operation |
| `CommandProperties.Group1Form` | disasm/command.go:176-198 | for 0x80-0x83 the mnemonic is chosen by bits 5-3 of the second byte; `w` = bit 0, `s` = bit 1 and `l = 3 + w - s`, which is 3, 4, 2, 3 for 0x80..0x83 |
| `CommandProperties.Register16Forms` | disasm/command.go:164-173 | inc, dec, push, pop (0x40-0x5F) and xchg (0x90-0x97) give `l = 1` and the 16-bit register numbered by bits 2-0 |
| `CommandProperties.SegmentForms` | disasm/command.go:44-61 | segment push and pop give `l = 1` and the segment register numbered by bits 4-3 |
| `CommandProperties.SecondByteOnlyForGroup1` | disasm/command.go:177 | the decoded record depends on the second byte exactly for first bytes 0x80-0x83 |
| `CommandProperties.ParseOpcodeTestCases` | disasm/command_test.go:14-30 | the expected records of `TestParseOpcode` for 0x00-0x0D |
| `Disassembler.HexDigit` | disasm/disasm.go:58 | a digit printed for 0..15 is a hexadecimal digit whose value is that number; letter digits are upper case for `%X` and lower case for `%x` |
| `Disassembler.Hex2` | disasm/disasm.go:58 | `%02x` and `%02X` print exactly two digits that read back as the byte, in lower case for `%02x` and upper case for `%02X` |
| `Disassembler.HexMinRoundTrip` | disasm/disasm_test.go:17-23 | minimal hexadecimal, as the expected strings print displacements, has no leading zero, is in lower case and reads back as the number |
| `Disassembler.EffectiveAddressLayout` | disasm/disasm.go:17 | `regm` lists, for r/m 0-3, the base register bx or bp (by bit 1) plus the index register si or di (by bit 0), and for r/m 4-7 the single registers si, di, bp, bx |
| `Disassembler.Modrm` | disasm/disasm.go:41-73 | `modrm` fails exactly for mode 00 with r/m 110 and fewer than three bytes, with the too-short message; the `default` branch is unreachable |
| `Disassembler.Reg16NamesAgree` | disasm/disasm.go:15 | the `reg16` table agrees index for index with the numbering of `Reg16` |
| `Disassembler.ModrmRegisterMode` | disasm/disasm.go:68-69 | mode 11 gives the name of the 16-bit register numbered by r/m, whatever bytes follow |
| `Disassembler.ModrmIndirectMode` | disasm/disasm.go:61 | mode 00 with r/m other than 110 gives "[" + `regm[rm]` + "]" and reads no displacement |
| `Disassembler.ModrmDirectAddress` | disasm/disasm.go:51-59 | mode 00 with r/m 110 prints "[0x", four lower-case digits and "]"; the digits read back as the little-endian word `bs[1]`, `bs[2]` |
| `Disassembler.ModrmDisplacementModesAsWritten` | disasm/disasm.go:62-67 | modes 01 and 10 give the empty string and no error |
| `Disassembler.ModrmTestCases` | disasm/disasm_test.go:5-53 | the mode 00 and mode 11 cases of `TestModrmNomal` and the two error cases of `TestModrmError` |
| `Disassembler.Disp8` | disasm/disasm_test.go:17-19 | the 8-bit displacement is sign-extended: between -128 and 127 and equal to the byte modulo 256 |
| `Disassembler.Disp16` | disasm/disasm_test.go:21-23 | the 16-bit displacement, low byte first, is sign-extended: between -32768 and 32767 and equal to the word modulo 65536 |
| `Disassembler.ModrmWithDisplacement` | disasm/disasm_test.go:5-28 | the tested `modrm` agrees with `Modrm` on modes 00 and 11, so it has the tested error case; for modes 01 and 10 it fails exactly when the buffer is too short for the displacement, which the tests do not cover |
| `Disassembler.Disp8RoundTrip` | disasm/disasm_test.go:17-19 | in the tested behaviour, mode 01 prints the address expression, the sign of the displacement and minimal lower-case digits, with no leading zero, that read back as its magnitude |
| `Disassembler.Disp16RoundTrip` | disasm/disasm_test.go:21-23 | in the tested behaviour, mode 10 prints the address expression, the sign of the displacement and minimal lower-case digits, with no leading zero, that read back as its magnitude |
| `Disassembler.SignedHexRoundTrip` | disasm/disasm_test.go:17-23 | a printed displacement is its sign, "0x", and lower-case digits whose value is its magnitude |
| `Disassembler.Disp8TestCases` | disasm/disasm_test.go:18-19 | the two mode 01 cases of `TestModrmNomal` hold of the tested behaviour, and the code as written gives "" for them |
| `Disassembler.Disp16TestCases` | disasm/disasm_test.go:22-23 | the two mode 10 cases of `TestModrmNomal` hold of the tested behaviour, and the code as written gives "" for them |
| `Disassembler.ParseStub` | disasm/disasm.go:75-81 | the free `parse` gives a non-empty text exactly for the bytes the classifier decodes as inc |
| `Disassembler.IncCount` | disasm/disasm.go:97-102 | the number of inc bytes in a sequence is at most its length, which keeps `off` between 0 and the number of bytes read |
| `Disassembler.Disasm.constructor` | disasm/disasm.go:34-39 | a new disassembler is at the start of its input with `off` = 0 and satisfies the invariant |
| `Disassembler.Disasm.Parse` | disasm/disasm.go:84-93 | at end of input it reports EOF and changes nothing; otherwise it consumes one byte into `cmd.c` and parses it, and `off` stays equal to the number of non-inc bytes consumed, so it never exceeds the bytes read |
| `Disassembler.Disasm.ParseByte` | disasm/disasm.go:95-104 | an inc byte (0x40-0x47) gives the inc command at the current offset with the name of the 16-bit register numbered by `b & 7` and leaves `off` unchanged; any other byte gives "" and advances `off` by exactly one |
| `Disassembler.ParseAgreesWithClassifier` | disasm/disasm.go:97 | `b >> 3 == 8` holds exactly for the bytes the classifier decodes as inc, and the classifier's register for them is the one `parse` prints |

## Left out

- File and reader I/O. `bufio.Reader` becomes the input sequence of `Disasm`. A read error other than EOF cannot occur on a sequence.
- `Disassembler.Modrm`: the `r.Read(bs)` call at disasm/disasm.go:52 and its error are left out. That read fills `bs` from index 0, so it overwrites `bs[0]`, and its byte count is ignored. `Modrm` takes the buffer in the layout the tests pass it, and the length check tests the buffer's length, not how many bytes arrived.
- `Disassembler.ModrmWithDisplacement`: its error for modes 01 and 10 with a short buffer is not backed by any test; the tests only cover the error of mode 00 with r/m 110.
- The writer field `w` of `Disasm`. The core never uses it.
- `Disassembler.Disasm.constructor`: `NewDisasm` leaves `cmd` nil (disasm/disasm.go:34-39), so `Parse` as written would dereference nil at its first byte. The model's disassembler always has its command record, starting at `c` = 0.
- `Disassembler.Disasm.ParseByte`: the instruction is returned as the arguments of `NewCmd`, not as the text of `Cmd.String`. That formatting lives outside the core. `asm.NewCmd` returns nil, so `String` would dereference nil at disasm/disasm.go:99.
- `Commands.Command.ParseOpcode`: Go's `Reg` type is not in any file modelled here, so the embedded register is the datatype `Reg`, and Go's nil is `NoReg`. `TestParseOpcode` writes `reg: 0` for every case. That equals neither nil nor `Sreg(0)` under `reflect.DeepEqual`, so `ParseOpcodeTestCases` follows the code (no register, or `es` for 0x06 and 0x07).
- `Mnemonics.FromCodeOfCode`: it proves that the values are distinct and lie in 0..89. It does not prove that every value in 1..89 is some mnemonic's value: stated over the 90-way `match` of `Code`, that direction needs more solver resources than the proofs here may use.
- The stringer-generated `String` methods of the enumerations are not part of this model. `Name` gives the identifiers.
- The unreachable `default` branch of `modrm` is proved dead (`assert false`). Its message text, which formats the two fields in decimal, is not modelled.
