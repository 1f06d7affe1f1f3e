/**
 The TinyRAM data the ALU-input-consistency gadget works on: decoded
 instructions, the tape-access opcodes and the parameters of the protoboard,
 including the field-element library the gadget calls into.
 */
module TinyRam {

  /** The opcodes the gadget distinguishes; every other TinyRAM opcode is `Other`. */
  datatype Opcode = None | Read | Seek | Other(name: string)

  /** A decoded TinyRAM instruction, with the field names of the program container. */
  datatype Instruction = Instruction(
    opcode: Opcode,
    arg1Idx: nat,
    arg2IdxOrImmediate: nat,
    destIdx: nat,
    arg1IsImmediate: bool,
    arg2IsImmediate: bool)

  /** `READ` and `SEEK` fetch a value from a tape into the reserved register. */
  predicate IsTapeOpcode(op: Opcode) {
    op.Read? || op.Seek?
  }

  /**
   Field arithmetic, integer parsing and the protoboard parameters, none of
   which this gadget defines:
   - `intToField(width, n)` stands for `mapIntegerToFieldElement(0, width, n)`;
   - `fieldToInt(width, e)` stands for `mapFieldElementToInteger(0, width, e)`;
   - `parse(token)` stands for `stoi(token)`;
   - `registerLength` is the protoboard's register length in bits;
   - `reservedRegister` is `READ_RESERVED_REGISTER`, the register slot that
     stages tape values and that programs must not use otherwise.
   */
  datatype Params<!F> = Params(
    registerLength: nat,
    reservedRegister: nat,
    intToField: (nat, int) -> F,
    fieldToInt: (nat, F) -> nat,
    parse: string -> int)

  /**
   The effect of `arg2isImmediateToFalse` as both passes apply it: a tape
   instruction always reads its second operand from a register; nothing
   else about the instruction changes.
   */
  function ForceTapeOperand(ins: Instruction): (r: Instruction)
    ensures r.arg2IsImmediate <==> ins.arg2IsImmediate && !IsTapeOpcode(ins.opcode)
    ensures r.(arg2IsImmediate := ins.arg2IsImmediate) == ins
  {
    if IsTapeOpcode(ins.opcode) then ins.(arg2IsImmediate := false) else ins
  }

  /** The program after the constraint pass has forced every tape instruction. */
  function ForceProgram(p: seq<Instruction>): (r: seq<Instruction>)
    ensures |r| == |p|
    ensures forall k :: 0 <= k < |p| && IsTapeOpcode(p[k].opcode) ==> !r[k].arg2IsImmediate
    ensures forall k :: 0 <= k < |p| ==> r[k].(arg2IsImmediate := p[k].arg2IsImmediate) == p[k]
    ensures forall k :: 0 <= k < |p| && !IsTapeOpcode(p[k].opcode) ==> r[k] == p[k]
  {
    seq(|p|, k requires 0 <= k < |p| => ForceTapeOperand(p[k]))
  }

  /** Forcing is idempotent: a program the constraint pass has forced is left as it is by a second pass. */
  lemma ForceProgramIdempotent(p: seq<Instruction>)
    ensures ForceProgram(ForceProgram(p)) == ForceProgram(p)
  {
    var q := ForceProgram(p);
    forall k | 0 <= k < |p|
      ensures ForceTapeOperand(q[k]) == q[k]
    {
      assert q[k].opcode == p[k].opcode;
    }
  }

  /**
   The register the second operand names once forcing is taken into account:
   `READ_RESERVED_REGISTER` for tape instructions, `arg2IdxOrImmediate` otherwise.
   */
  function EffectiveArg2<F>(ins: Instruction, params: Params<F>): nat {
    if IsTapeOpcode(ins.opcode) then params.reservedRegister else ins.arg2IdxOrImmediate
  }
}
