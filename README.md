# ALU input consistency of the TinyRAM-to-BAIR reduction

This project models the `ALUInputConsistency` gadget of the Hyperion TinyRAM
front end (Zilch). The gadget ties the three operand values the ALU consumes
at a step (`arg1_val`, `arg2_val`, `dest_val`) to the register file and to the
instruction that executes at that step. It has two passes over a fixed
program of decoded TinyRAM instructions:

- **Constraint pass** (`generateConstraints`). For every instruction it builds
  one residual per operand role: register-file entry (or immediate literal)
  plus ALU output wire. It collects each role's residuals with selector
  indices `0 … n-1` and an all-`true` relevance mask. It hands the three lists
  to the selector-sum machinery and registers three general constraints tagged
  `Opcode::NONE`. For `READ` and `SEEK`, the second operand is first forced to
  be a read of the reserved register `READ_RESERVED_REGISTER`.
- **Witness pass** (`generateWitness`). For step `i` it resolves tape input
  from two tapes, primary (selector 0) and auxiliary (selector 1):
  - `READ` consumes the token at the selected tape's cursor and advances that cursor.
  - `SEEK` reads the token at an offset and moves no cursor. The offset is the
    literal first operand, or the integer held in the first operand's register.
  - The value is staged in the reserved register.
  - The three ALU output values are then written.
  - A missing tape, an exhausted tape or a selector other than 0/1 ends the run.

Layout:

- `tinyram.dfy` (module `TinyRam`): instructions, opcodes and the forcing of
  tape instructions (`arg2isImmediateToFalse`). It also holds `Params`: the
  register length, the reserved register, and the foreign field and parsing
  functions as function-valued parameters.
- `constraints.dfy` (module `ConstraintBuilder`): symbolic residuals, the
  lists handed to `SelectorSum`, the registered constraints, and their lemmas.
- `witness.dfy` (module `WitnessResolver`): one witness step as a function
  returning a witness or a fatal `TapeError`, and its lemmas.
- `gadget.dfy` (module `Gadget`): the gadget as a class. The program is a
  field that both passes update in place. The protoboard holds the register
  values, the ALU output values and the registered constraints. The tape
  cursors are a caller-owned object. `GenerateConstraints` and
  `GenerateWitness` are loops and branches as in the source. Each is proved
  against the specification functions above.

Tape values are mapped to the field with width 16 (lines 103 and 140).
Immediates are mapped with the register length (lines 49 and 148). A tape
given as a vector with no line at all is treated as missing. The source reads
`lines[0]` without a check, so that case is undefined behaviour there.

## Model

| member | source | states |
|---|---|---|
| `TinyRam.ForceTapeOperand` | framework/hyperion/src/TinyRAMtoBair/RamToContraintSystem/ALUInputConsistency.cpp:40-44 | After forcing, the second operand is immediate exactly when it was immediate and the opcode is neither `READ` nor `SEEK`; no other field of the instruction changes |
| `TinyRam.ForceProgram` | framework/hyperion/src/TinyRAMtoBair/RamToContraintSystem/ALUInputConsistency.cpp:35-44 | After the constraint pass, the program has the same length. Every `READ`/`SEEK` has a non-immediate second operand, whatever its original flag. Only that flag differs, and other instructions are unchanged |
| `TinyRam.ForceProgramIdempotent` | framework/hyperion/src/TinyRAMtoBair/RamToContraintSystem/ALUInputConsistency.cpp:35-43 | Forcing a program the constraint pass has already forced changes nothing |
| `TinyRam.EffectiveArg2` | framework/hyperion/src/TinyRAMtoBair/RamToContraintSystem/ALUInputConsistency.cpp:40-42 | Reference definition of the register the second operand names once `arg2` is replaced by `READ_RESERVED_REGISTER` (also lines 101-102 and 138-139); characterised by `ResidualOf` and `OperandValues` |
| `ConstraintBuilder.ResidualOf` | framework/hyperion/src/TinyRAMtoBair/RamToContraintSystem/ALUInputConsistency.cpp:44-53 | arg1 and dest residuals are `registers[arg1/dest] + wire`. For `READ`/`SEEK` the arg2 residual refers to the reserved register, whatever the original flag and index. Otherwise it is `Const(map(registerLength, arg2)) + wire` when immediate and `registers[arg2] + wire` when not |
| `ConstraintBuilder.RoleResiduals` | framework/hyperion/src/TinyRAMtoBair/RamToContraintSystem/ALUInputConsistency.cpp:54-56 | Each role's list has one residual per instruction |
| `ConstraintBuilder.SelectorIndices` | framework/hyperion/src/TinyRAMtoBair/RamToContraintSystem/ALUInputConsistency.cpp:57 | `selectorToConstraint` after `n` iterations has `n` entries; entry `k` is `k` by `SelectorIndicesAt` |
| `ConstraintBuilder.AllRelevant` | framework/hyperion/src/TinyRAMtoBair/RamToContraintSystem/ALUInputConsistency.cpp:58 | `selectorRelevant` after `n` iterations has `n` entries; all are `true` by `AllRelevantAt` |
| `ConstraintBuilder.RoleSum` | framework/hyperion/src/TinyRAMtoBair/RamToContraintSystem/ALUInputConsistency.cpp:60-63 | Reference definition of the arguments of one `SelectorSum` call; characterised by `SelectorConstraintsShape` |
| `ConstraintBuilder.SelectorConstraints` | framework/hyperion/src/TinyRAMtoBair/RamToContraintSystem/ALUInputConsistency.cpp:60-66 | Reference definition of the three constraints the pass registers; characterised by `SelectorConstraintsShape` and `ConstraintsStableUnderForcing`, and `GenerateConstraints` is proved to append exactly these |
| `ConstraintBuilder.RoleResidualsAt` | framework/hyperion/src/TinyRAMtoBair/RamToContraintSystem/ALUInputConsistency.cpp:35-56 | Entry `k` of each role's list is the residual of instruction `k` (program order) |
| `ConstraintBuilder.SelectorIndicesAt` | framework/hyperion/src/TinyRAMtoBair/RamToContraintSystem/ALUInputConsistency.cpp:57 | Entry `k` of `selectorToConstraint` is `k` |
| `ConstraintBuilder.AllRelevantAt` | framework/hyperion/src/TinyRAMtoBair/RamToContraintSystem/ALUInputConsistency.cpp:58 | Every entry of `selectorRelevant` is `true` |
| `ConstraintBuilder.SelectorConstraintsShape` | framework/hyperion/src/TinyRAMtoBair/RamToContraintSystem/ALUInputConsistency.cpp:35-66 | Exactly three constraints, labelled ARG1, ARG2, Dest, all tagged `NONE`. Each is built from `program.size()` residuals, selector indices and relevance flags; entry `k` is instruction `k`'s residual for that role, with selector `k` and relevance `true` |
| `ConstraintBuilder.RoleResidualsOfForcedProgram` | framework/hyperion/src/TinyRAMtoBair/RamToContraintSystem/ALUInputConsistency.cpp:40-56 | A role's residual list is the same whether or not the program was already forced |
| `ConstraintBuilder.ConstraintsStableUnderForcing` | framework/hyperion/src/TinyRAMtoBair/RamToContraintSystem/ALUInputConsistency.cpp:40-66 | Running the constraint pass again on the program it left registers the same three constraints (forcing is idempotent) |
| `WitnessResolver.ToUnsigned32` | framework/hyperion/src/TinyRAMtoBair/RamToContraintSystem/ALUInputConsistency.cpp:87 | Storing `stoi`'s result in an `unsigned int` gives a value below 2^32, congruent to the parsed integer modulo 2^32, and equal to it when it is already in range |
| `WitnessResolver.FetchToken` | framework/hyperion/src/TinyRAMtoBair/RamToContraintSystem/ALUInputConsistency.cpp:80-87 | Reference definition of the checks before a tape read: a missing tape, then a position at or past the end; characterised by `FatalConditions` |
| `WitnessResolver.ReadToken` | framework/hyperion/src/TinyRAMtoBair/RamToContraintSystem/ALUInputConsistency.cpp:80-87 | Reference definition of one checked tape read and the `unsigned int` store of `stoi`'s result (likewise lines 89-96, 116-123, 125-132); characterised by `FatalConditions` and `ReadConsumesNextToken` |
| `WitnessResolver.SeekOffset` | framework/hyperion/src/TinyRAMtoBair/RamToContraintSystem/ALUInputConsistency.cpp:107-113 | Reference definition of the `SEEK` offset: the literal first operand, or `fieldToInt(64, registers[arg1])`; characterised by `SeekIsRepeatable` |
| `WitnessResolver.AccessTape` | framework/hyperion/src/TinyRAMtoBair/RamToContraintSystem/ALUInputConsistency.cpp:76-136 | Reference definition of the tape access and its fatal exits; characterised by `FatalConditions`, `ReadConsumesNextToken` and `ImmediateSeekPastRegisterFile` |
| `WitnessResolver.AluOutputs` | framework/hyperion/src/TinyRAMtoBair/RamToContraintSystem/ALUInputConsistency.cpp:144-151 | Reference definition of the three ALU output values, read after the staging write; characterised by `OperandValues` and `WitnessMatchesResiduals` |
| `WitnessResolver.WitnessStep` | framework/hyperion/src/TinyRAMtoBair/RamToContraintSystem/ALUInputConsistency.cpp:76-151 | Reference definition of one witness step; characterised by `FatalConditions`, `OnlyTapeStepsFail`, `OperandValues` and `StepFrame`, and `GenerateWitness` is proved to perform exactly it |
| `WitnessResolver.FatalConditions` | framework/hyperion/src/TinyRAMtoBair/RamToContraintSystem/ALUInputConsistency.cpp:76-136 | For a `READ`/`SEEK` whose offset register (if any) exists, each condition holds in both directions. `InvalidSelector` iff the selector is neither 0 nor 1. For selector 0/1: `TapeMissing` iff the selected tape's first line is empty; `TapeExhausted` iff the cursor (`READ`) or offset (`SEEK`) is at or past the end of a present tape. The tape access succeeds iff none of these. Where the whole step is defined, it fails iff the tape access does, with the same error |
| `WitnessResolver.OnlyTapeStepsFail` | framework/hyperion/src/TinyRAMtoBair/RamToContraintSystem/ALUInputConsistency.cpp:76-151 | An instruction other than `READ`/`SEEK` never ends the run |
| `WitnessResolver.ImmediateSeekPastRegisterFile` | framework/hyperion/src/TinyRAMtoBair/RamToContraintSystem/ALUInputConsistency.cpp:107-150 | For a `SEEK` whose immediate offset is at or past the register count, the fatal exits are defined. The step as a whole is defined iff the tape access fails, because a successful access reaches the read of `registers_[arg1]` at line 150 |
| `WitnessResolver.ReadConsumesNextToken` | framework/hyperion/src/TinyRAMtoBair/RamToContraintSystem/ALUInputConsistency.cpp:79-103 | `READ` with selector 0/1, a present tape and cursor `c` in range succeeds. It writes `map(16, uint32(parse(tape[c])))` to the reserved register and no other register. It increments exactly the selected tape's cursor by 1 and leaves the other cursor alone |
| `WitnessResolver.ConsecutiveReads` | framework/hyperion/src/TinyRAMtoBair/RamToContraintSystem/ALUInputConsistency.cpp:83-87 | Two `READ`s of the primary tape from cursor `c` stage tokens `c` and then `c+1` and leave the cursor at `c+2`; the auxiliary cursor does not move |
| `WitnessResolver.SeekIsRepeatable` | framework/hyperion/src/TinyRAMtoBair/RamToContraintSystem/ALUInputConsistency.cpp:107-140 | A successful `SEEK` reads `tape[offset]`: the offset is the arg1 literal when immediate, else `fieldToInt(64, registers[arg1])`. It stages that token and leaves both cursors unchanged. If the offset does not come from the reserved register, repeating the step on the state it left reproduces that state |
| `WitnessResolver.OperandValues` | framework/hyperion/src/TinyRAMtoBair/RamToContraintSystem/ALUInputConsistency.cpp:144-151 | `arg1_val`/`dest_val` are the values of registers arg1/dest after the staging write. When those registers are not the reserved one, these are their pre-step values. `arg2_val` is the staged tape value for `READ`/`SEEK`. Otherwise it is `registers[arg2]`, or `map(registerLength, arg2)` when immediate |
| `WitnessResolver.StepFrame` | framework/hyperion/src/TinyRAMtoBair/RamToContraintSystem/ALUInputConsistency.cpp:76-151 | A step changes no register except the reserved one, and that one only for `READ`/`SEEK`. Only `READ` moves a cursor, by exactly one in total |
| `WitnessResolver.WitnessMatchesResiduals` | framework/hyperion/src/TinyRAMtoBair/RamToContraintSystem/ALUInputConsistency.cpp:144-151 | The witness agrees with the constraint pass. For each role, the operand term of the executed instruction's residual (lines 44-53) evaluates, in the register values after the step, to the value written to that role's ALU wire |
| `WitnessResolver.WitnessIgnoresPriorForcing` | framework/hyperion/src/TinyRAMtoBair/RamToContraintSystem/ALUInputConsistency.cpp:138-148 | On every defined step, including one that ends on a fatal tape error, a witness step gives the same result on an instruction the constraint pass already forced as on the original one, and the forced step is defined too |
| `Gadget.AluInputConsistency.SetProgram` | framework/hyperion/src/TinyRAMtoBair/RamToContraintSystem/ALUInputConsistency.cpp:22-24 | The new program replaces the old one |
| `Gadget.TapeCursors` | framework/hyperion/src/TinyRAMtoBair/RamToContraintSystem/ALUInputConsistency.cpp:69 | The read counters `pubread_cnt`/`secread_cnt` the caller passes by reference; `GenerateWitness` advances them as `ReadConsumesNextToken` states |
| `Gadget.AluInputConsistency.GenerateConstraints` | framework/hyperion/src/TinyRAMtoBair/RamToContraintSystem/ALUInputConsistency.cpp:27-67 | Requires a non-empty program (the assertion at line 28). Leaves the program equal to `ForceProgram` of the old one. Appends exactly `SelectorConstraints` of the old program to the registered constraints, and changes no value |
| `Gadget.AluInputConsistency.GenerateWitness` | framework/hyperion/src/TinyRAMtoBair/RamToContraintSystem/ALUInputConsistency.cpp:69-152 | Requires `i < program.size()` (line 70) and that the step is defined (`StepDefined`): an offset register exists, and every register read after the tape access exists unless the access fails. On a fatal tape error it returns that error and changes nothing. Otherwise the new register values, ALU values and cursors are those of `WitnessStep`, only instruction `i` is forced, and the constraints stay as they were |

## Left out

- `SelectorSum`, `getPCVars`, `CircuitPolynomial` and `addGeneralConstraint` are not part of this model. A registered constraint is the record of what is handed to them: the residual list, selector indices, relevance mask, label and opcode tag. The program-counter variables are the same for all three sums and are not represented.
- Field arithmetic, `mapIntegerToFieldElement` and `mapFieldElementToInteger` are foreign library code. They are function-valued parameters (`Params.intToField`, `Params.fieldToInt`), with the bit width (16, register length, 64) as an explicit argument. The leading constant argument `0` of every call is dropped. `fieldToInt` is assumed to return a non-negative integer, since the offset is a `size_t`.
- `stoi` is the abstract `Params.parse`. Its whitespace and sign handling and its exceptions on malformed or out-of-range tokens are not modelled. Only the conversion of its result to `unsigned int` is.
- The value of `READ_RESERVED_REGISTER` is defined outside the shown source. It is the parameter `Params.reservedRegister`.
- The error messages on `std::cerr` and `exit(EXIT_FAILURE)` become the result `Fail(TapeMissing | TapeExhausted | InvalidSelector)`, with the tape named. The source exits before it writes anything, so the model changes nothing on that path.
- A tape vector with no line at all is treated as `TapeMissing`; in the source, `lines[0]` on it is out of bounds.
- The register-file indices a step reads (arg1, dest, a non-immediate arg2, and the reserved register for `READ`/`SEEK`) must be in range (`OperandsInRange`), because the source indexes `registers_` without a check. The tape access and its fatal exits need only the register of a non-immediate `SEEK` offset (`OffsetReadable`). `WitnessStep` and `GenerateWitness` require `StepDefined`: this admits a step whose other indices are out of range when its tape access fails, since the source exits before reading them. The source also reads `registers_[arg1]` (line 150) for a `SEEK` with an immediate offset. When that offset is at least the register count, a successful step is undefined there and is outside this model (`ImmediateSeekPastRegisterFile`).
- The constraint pass is symbolic: `RegRef(k)` names register variable `k` for any `k`. The source indexes `input_.registers_` at lines 47, 52 and 53 without a check, and an index outside the register file is not modelled there.
- TinyRam.ForceTapeOperand: `arg2isImmediateToFalse` belongs to the program container, whose source is not part of this model. The model assumes, from its name, that it clears only `arg2isImmediate_` of instruction `i` and leaves `arg2IdxOrImmediate_` (the tape selector) and every other field intact. The source replaces the reserved register only in its local `arg2` (lines 42, 102, 139), never in the instruction.
- The two assertions (`GADGETLIB_ASSERT`, lines 28 and 70) are preconditions rather than thrown errors.
- Integer widths of indices, the loop counter and the cursors (`unsigned int`, `size_t`) are unbounded here; their overflow is not modelled.
- WitnessResolver.WitnessMatchesResiduals: both passes copy `arg1Idx_`, `arg2IdxOrImmediate_` and `destIdx_` into `unsigned int` locals (lines 36-38 and 72-74). The constraint pass maps the local `arg2` (line 49), and the witness pass tests that local as the tape selector (lines 79, 88, 115, 124). Line 148 instead maps the field `arg2IdxOrImmediate_` itself. The model reads one unbounded `nat` in every place. So `WitnessMatchesResiduals`, and the selector test in `FatalConditions` and `AccessTape`, assume that the field fits in 32 bits. If it were wider, an immediate of 2^32 or more would be reduced modulo 2^32 in the residual but kept whole in `arg2_val`, and a selector of 2^32 would act as 0.
- The constructor, `create`, `init` and the `dynamic_pointer_cast` of the protoboard parameters are object wiring. The Dafny constructors only set up an empty program and the given protoboard and parameters.
- `framework/hyperion/src/zMipsParser.hpp` holds only prototypes with no bodies; it is not part of this model.
- Only the protoboard values this gadget reads or writes are modelled: trace register values and the three ALU outputs. No other variable is.
