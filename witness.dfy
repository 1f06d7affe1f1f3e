/**
 What `generateWitness` computes for one step: the tape access of a `READ`
 or `SEEK`, the value staged in the reserved register, the three ALU output
 values, the new tape cursors, or the fatal tape error that ends the run.
 */
module WitnessResolver {
  import opened TinyRam
  import opened ConstraintBuilder

  /** Tape values are mapped to the field with this bit width. */
  const TapeValueWidth: nat := 16

  /** A register holding a `SEEK` offset is read back with this bit width. */
  const OffsetWidth: nat := 64

  /** `0` selects the primary (public) tape, `1` the auxiliary (private) one. */
  datatype TapeId = Primary | Auxiliary

  /** The conditions on which the source prints a message and exits. */
  datatype TapeError = TapeMissing(tape: TapeId) | TapeExhausted(tape: TapeId) | InvalidSelector

  datatype Result<T> = Ok(value: T) | Err(error: TapeError)

  /** The value a tape access stages and the cursors after it. */
  datatype TapeRead = TapeRead(value: nat, primaryCursor: nat, auxiliaryCursor: nat)

  /** The values written to the three ALU output variables. */
  datatype AluValues<F> = AluValues(arg1: F, arg2: F, dest: F) {
    function Of(role: Wire): F {
      match role
      case Arg1Wire => arg1
      case Arg2Wire => arg2
      case DestWire => dest
    }
  }

  /** The state a successful step leaves: register values, ALU values, cursors. */
  datatype Witness<F> = Witness(regs: seq<F>, alu: AluValues<F>, primaryCursor: nat, auxiliaryCursor: nat)

  /** The conversion of `stoi`'s result to `unsigned int`: reduction modulo 2^32. */
  function ToUnsigned32(n: int): (r: nat)
    ensures r < 0x1_0000_0000
    ensures 0 <= n < 0x1_0000_0000 ==> r == n
    ensures (n - r) % 0x1_0000_0000 == 0
  {
    n % 0x1_0000_0000
  }

  /**
   A tape whose first line is empty is missing. A tape with no line at all
   is treated the same way (the source reads its first line unchecked).
   */
  predicate IsMissing(tape: seq<string>) {
    |tape| == 0 || tape[0] == ""
  }

  /** The tape the selector names; only meaningful for selectors 0 and 1. */
  function SelectedTape(selector: nat, primary: seq<string>, auxiliary: seq<string>): seq<string> {
    if selector == 0 then primary else auxiliary
  }

  function SelectedId(selector: nat): TapeId {
    if selector == 0 then Primary else Auxiliary
  }

  /** The token at `pos`, after the emptiness check and then the bounds check. */
  function FetchToken(tape: seq<string>, pos: nat, id: TapeId): Result<string> {
    if IsMissing(tape) then Err(TapeMissing(id))
    else if |tape| <= pos then Err(TapeExhausted(id))
    else Ok(tape[pos])
  }

  /** The token at `pos` parsed and held as an `unsigned int`. */
  function ReadToken<F>(params: Params<F>, tape: seq<string>, pos: nat, id: TapeId): Result<nat> {
    match FetchToken(tape, pos, id)
    case Err(e) => Err(e)
    case Ok(token) => Ok(ToUnsigned32(params.parse(token)))
  }

  /** A `SEEK` offset: the literal first operand, or the integer held in register `arg1`. */
  function SeekOffset<F>(ins: Instruction, params: Params<F>, regs: seq<F>): nat
    requires !ins.arg1IsImmediate ==> ins.arg1Idx < |regs|
  {
    if ins.arg1IsImmediate then ins.arg1Idx else params.fieldToInt(OffsetWidth, regs[ins.arg1Idx])
  }

  /**
   The only register a tape access reads is the one holding a non-immediate
   `SEEK` offset; `READ` and an immediate `SEEK` read no register.
   */
  predicate OffsetReadable(ins: Instruction, registerCount: nat) {
    ins.opcode.Seek? && !ins.arg1IsImmediate ==> ins.arg1Idx < registerCount
  }

  /**
   The position a tape instruction reads: the selected tape's cursor for
   `READ`, the offset for `SEEK`.
   */
  function TapePosition<F>(ins: Instruction, params: Params<F>, regs: seq<F>, primaryCursor: nat, auxiliaryCursor: nat): nat
    requires IsTapeOpcode(ins.opcode) && OffsetReadable(ins, |regs|)
  {
    if ins.opcode.Read? then (if ins.arg2IdxOrImmediate == 0 then primaryCursor else auxiliaryCursor)
    else SeekOffset(ins, params, regs)
  }

  /**
   The tape access of a `READ` or `SEEK`. The selector is the instruction's
   own `arg2IdxOrImmediate`, tested before any forcing. `READ` advances the
   cursor of the tape it read; `SEEK` leaves both cursors alone.
   */
  function AccessTape<F>(ins: Instruction, params: Params<F>, regs: seq<F>,
                         primary: seq<string>, auxiliary: seq<string>,
                         primaryCursor: nat, auxiliaryCursor: nat): Result<TapeRead>
    requires IsTapeOpcode(ins.opcode) && OffsetReadable(ins, |regs|)
  {
    var selector := ins.arg2IdxOrImmediate;
    if ins.opcode.Read? then
      if selector == 0 then
        (match ReadToken(params, primary, primaryCursor, Primary)
         case Err(e) => Err(e)
         case Ok(v) => Ok(TapeRead(v, primaryCursor + 1, auxiliaryCursor)))
      else if selector == 1 then
        (match ReadToken(params, auxiliary, auxiliaryCursor, Auxiliary)
         case Err(e) => Err(e)
         case Ok(v) => Ok(TapeRead(v, primaryCursor, auxiliaryCursor + 1)))
      else Err(InvalidSelector)
    else
      var offset := SeekOffset(ins, params, regs);
      if selector == 0 then
        (match ReadToken(params, primary, offset, Primary)
         case Err(e) => Err(e)
         case Ok(v) => Ok(TapeRead(v, primaryCursor, auxiliaryCursor)))
      else if selector == 1 then
        (match ReadToken(params, auxiliary, offset, Auxiliary)
         case Err(e) => Err(e)
         case Ok(v) => Ok(TapeRead(v, primaryCursor, auxiliaryCursor)))
      else Err(InvalidSelector)
  }

  /**
   The register indices a step reads are inside the register file (the
   source indexes the trace registers without a check).
   */
  predicate OperandsInRange<F>(ins: Instruction, params: Params<F>, registerCount: nat) {
    && ins.arg1Idx < registerCount
    && ins.destIdx < registerCount
    && (if IsTapeOpcode(ins.opcode) then params.reservedRegister < registerCount
        else !ins.arg2IsImmediate ==> ins.arg2IdxOrImmediate < registerCount)
  }

  /**
   The three ALU output values, read from `regs` as they stand after the
   reserved register has been written.
   */
  function AluOutputs<F>(ins: Instruction, params: Params<F>, regs: seq<F>): AluValues<F>
    requires OperandsInRange(ins, params, |regs|)
  {
    var forced := ForceTapeOperand(ins);
    var arg2Value :=
      if !forced.arg2IsImmediate then regs[EffectiveArg2(ins, params)]
      else params.intToField(params.registerLength, forced.arg2IdxOrImmediate);
    AluValues(regs[ins.arg1Idx], arg2Value, regs[ins.destIdx])
  }

  /**
   The inputs on which the source's step is defined: the tape access reads
   only registers that exist, and every register the rest of the step reads
   exists unless the step has already ended on a fatal tape error.
   */
  predicate StepDefined<F>(ins: Instruction, params: Params<F>, regs: seq<F>,
                           primary: seq<string>, auxiliary: seq<string>,
                           primaryCursor: nat, auxiliaryCursor: nat)
  {
    && OffsetReadable(ins, |regs|)
    && (|| OperandsInRange(ins, params, |regs|)
        || (IsTapeOpcode(ins.opcode) && AccessTape(ins, params, regs, primary, auxiliary, primaryCursor, auxiliaryCursor).Err?))
  }

  /** One step of witness generation for instruction `ins`. */
  function WitnessStep<F>(ins: Instruction, params: Params<F>, regs: seq<F>,
                          primary: seq<string>, auxiliary: seq<string>,
                          primaryCursor: nat, auxiliaryCursor: nat): Result<Witness<F>>
    requires StepDefined(ins, params, regs, primary, auxiliary, primaryCursor, auxiliaryCursor)
  {
    if IsTapeOpcode(ins.opcode) then
      match AccessTape(ins, params, regs, primary, auxiliary, primaryCursor, auxiliaryCursor)
      case Err(e) => Err(e)
      case Ok(r) =>
        var regs' := regs[params.reservedRegister := params.intToField(TapeValueWidth, r.value)];
        Ok(Witness(regs', AluOutputs(ins, params, regs'), r.primaryCursor, r.auxiliaryCursor))
    else
      Ok(Witness(regs, AluOutputs(ins, params, regs), primaryCursor, auxiliaryCursor))
  }

  /** The value of a residual's first summand in a register valuation. */
  function TermValue<F>(t: Term<F>, regs: seq<F>): F
    requires t.RegRef? ==> t.index < |regs|
  {
    match t
    case RegRef(k) => regs[k]
    case Const(c) => c
  }

  // ---------------------------------------------------------------------
  // Properties of one step
  // ---------------------------------------------------------------------

  /**
   The fatal conditions of a tape access, each in both directions:
   `InvalidSelector` exactly when the selector is neither 0 nor 1,
   `TapeMissing` exactly when the selected tape's first line is empty, and
   `TapeExhausted` exactly when the cursor or offset is past the end of a
   present tape. They need no register beyond a non-immediate `SEEK` offset.
   Wherever the step is defined, it fails exactly when its tape access does,
   with the same error.
   */
  lemma FatalConditions<F>(ins: Instruction, params: Params<F>, regs: seq<F>,
                           primary: seq<string>, auxiliary: seq<string>,
                           primaryCursor: nat, auxiliaryCursor: nat)
    requires IsTapeOpcode(ins.opcode) && OffsetReadable(ins, |regs|)
    ensures var a := AccessTape(ins, params, regs, primary, auxiliary, primaryCursor, auxiliaryCursor);
      var selector := ins.arg2IdxOrImmediate;
      var tape := SelectedTape(selector, primary, auxiliary);
      var pos := TapePosition(ins, params, regs, primaryCursor, auxiliaryCursor);
      && (a == Err(InvalidSelector) <==> selector > 1)
      && (selector <= 1 ==>
            && (a == Err(TapeMissing(SelectedId(selector))) <==> IsMissing(tape))
            && (a == Err(TapeExhausted(SelectedId(selector))) <==> !IsMissing(tape) && |tape| <= pos))
      && (a.Ok? <==> selector <= 1 && !IsMissing(tape) && pos < |tape|)
      && (StepDefined(ins, params, regs, primary, auxiliary, primaryCursor, auxiliaryCursor) ==>
            var w := WitnessStep(ins, params, regs, primary, auxiliary, primaryCursor, auxiliaryCursor);
            && (w.Err? <==> a.Err?)
            && (a.Err? ==> w == Err(a.error)))
  {
  }

  /** A step that is not a `READ` or `SEEK` never fails. */
  lemma OnlyTapeStepsFail<F>(ins: Instruction, params: Params<F>, regs: seq<F>,
                             primary: seq<string>, auxiliary: seq<string>,
                             primaryCursor: nat, auxiliaryCursor: nat)
    requires !IsTapeOpcode(ins.opcode) && OperandsInRange(ins, params, |regs|)
    ensures WitnessStep(ins, params, regs, primary, auxiliary, primaryCursor, auxiliaryCursor).Ok?
  {
  }

  /**
   An immediate `SEEK` offset is not a register index, yet the step goes on
   to read register `arg1` for `arg1_val`. When the offset is at or past the
   end of the register file, the step is defined exactly on its fatal exits:
   every successful tape access leads to a read outside the register file.
   */
  lemma ImmediateSeekPastRegisterFile<F>(ins: Instruction, params: Params<F>, regs: seq<F>,
                                         primary: seq<string>, auxiliary: seq<string>,
                                         primaryCursor: nat, auxiliaryCursor: nat)
    requires ins.opcode.Seek? && ins.arg1IsImmediate && |regs| <= ins.arg1Idx
    ensures OffsetReadable(ins, |regs|)
    ensures var a := AccessTape(ins, params, regs, primary, auxiliary, primaryCursor, auxiliaryCursor);
      var tape := SelectedTape(ins.arg2IdxOrImmediate, primary, auxiliary);
      && (StepDefined(ins, params, regs, primary, auxiliary, primaryCursor, auxiliaryCursor) <==> a.Err?)
      && (a.Ok? <==> ins.arg2IdxOrImmediate <= 1 && !IsMissing(tape) && ins.arg1Idx < |tape|)
  {
  }

  /**
   A successful `READ` stages the next token of the selected tape in the
   reserved register, advances that tape's cursor by one and leaves the
   other cursor alone.
   */
  lemma ReadConsumesNextToken<F>(ins: Instruction, params: Params<F>, regs: seq<F>,
                                 primary: seq<string>, auxiliary: seq<string>,
                                 primaryCursor: nat, auxiliaryCursor: nat)
    requires OperandsInRange(ins, params, |regs|)
    requires ins.opcode.Read? && ins.arg2IdxOrImmediate <= 1
    requires var tape := SelectedTape(ins.arg2IdxOrImmediate, primary, auxiliary);
      !IsMissing(tape) && (if ins.arg2IdxOrImmediate == 0 then primaryCursor else auxiliaryCursor) < |tape|
    ensures var w := WitnessStep(ins, params, regs, primary, auxiliary, primaryCursor, auxiliaryCursor);
      var tape := SelectedTape(ins.arg2IdxOrImmediate, primary, auxiliary);
      var c := if ins.arg2IdxOrImmediate == 0 then primaryCursor else auxiliaryCursor;
      && w.Ok?
      && w.value.regs == regs[params.reservedRegister := params.intToField(TapeValueWidth, ToUnsigned32(params.parse(tape[c])))]
      && (ins.arg2IdxOrImmediate == 0 ==> w.value.primaryCursor == primaryCursor + 1 && w.value.auxiliaryCursor == auxiliaryCursor)
      && (ins.arg2IdxOrImmediate == 1 ==> w.value.auxiliaryCursor == auxiliaryCursor + 1 && w.value.primaryCursor == primaryCursor)
  {
  }

  /**
   Two `READ`s of the same tape in a row stage its tokens `c` and `c + 1`
   and leave its cursor at `c + 2`.
   */
  lemma ConsecutiveReads<F>(first: Instruction, second: Instruction, params: Params<F>, regs: seq<F>,
                            primary: seq<string>, auxiliary: seq<string>, c: nat, auxiliaryCursor: nat)
    requires OperandsInRange(first, params, |regs|) && OperandsInRange(second, params, |regs|)
    requires first.opcode.Read? && second.opcode.Read?
    requires first.arg2IdxOrImmediate == 0 && second.arg2IdxOrImmediate == 0
    requires !IsMissing(primary) && c + 1 < |primary|
    ensures var w1 := WitnessStep(first, params, regs, primary, auxiliary, c, auxiliaryCursor);
      && w1.Ok?
      && w1.value.regs[params.reservedRegister] == params.intToField(TapeValueWidth, ToUnsigned32(params.parse(primary[c])))
      && var w2 := WitnessStep(second, params, w1.value.regs, primary, auxiliary, w1.value.primaryCursor, w1.value.auxiliaryCursor);
      && w2.Ok?
      && w2.value.regs[params.reservedRegister] == params.intToField(TapeValueWidth, ToUnsigned32(params.parse(primary[c + 1])))
      && w2.value.primaryCursor == c + 2
      && w2.value.auxiliaryCursor == auxiliaryCursor
  {
    ReadConsumesNextToken(first, params, regs, primary, auxiliary, c, auxiliaryCursor);
    var w1 := WitnessStep(first, params, regs, primary, auxiliary, c, auxiliaryCursor).value;
    ReadConsumesNextToken(second, params, w1.regs, primary, auxiliary, c + 1, auxiliaryCursor);
  }

  /**
   A successful `SEEK` stages the token at its offset and leaves both
   cursors alone; when the offset does not come from the reserved register,
   repeating it on the state it produced reproduces that state exactly.
   */
  lemma SeekIsRepeatable<F>(ins: Instruction, params: Params<F>, regs: seq<F>,
                            primary: seq<string>, auxiliary: seq<string>,
                            primaryCursor: nat, auxiliaryCursor: nat)
    requires OperandsInRange(ins, params, |regs|)
    requires ins.opcode.Seek?
    requires ins.arg1IsImmediate || ins.arg1Idx != params.reservedRegister
    requires WitnessStep(ins, params, regs, primary, auxiliary, primaryCursor, auxiliaryCursor).Ok?
    ensures var w := WitnessStep(ins, params, regs, primary, auxiliary, primaryCursor, auxiliaryCursor).value;
      var tape := SelectedTape(ins.arg2IdxOrImmediate, primary, auxiliary);
      var offset := SeekOffset(ins, params, regs);
      && offset < |tape|
      && w.regs[params.reservedRegister] == params.intToField(TapeValueWidth, ToUnsigned32(params.parse(tape[offset])))
      && w.primaryCursor == primaryCursor && w.auxiliaryCursor == auxiliaryCursor
      && |w.regs| == |regs|
      && WitnessStep(ins, params, w.regs, primary, auxiliary, w.primaryCursor, w.auxiliaryCursor) == Ok(w)
  {
    var w := WitnessStep(ins, params, regs, primary, auxiliary, primaryCursor, auxiliaryCursor).value;
    assert SeekOffset(ins, params, w.regs) == SeekOffset(ins, params, regs);
    var v := w.regs[params.reservedRegister];
    assert w.regs[params.reservedRegister := v] == w.regs;
  }

  /**
   The ALU values of a successful step: the first and destination operands
   come from their registers, and when those are not the reserved register
   they are the values from before the step; the second operand is the staged
   tape value for a tape instruction, the register value or the mapped
   literal otherwise.
   */
  lemma OperandValues<F>(ins: Instruction, params: Params<F>, regs: seq<F>,
                         primary: seq<string>, auxiliary: seq<string>,
                         primaryCursor: nat, auxiliaryCursor: nat)
    requires OperandsInRange(ins, params, |regs|)
    requires WitnessStep(ins, params, regs, primary, auxiliary, primaryCursor, auxiliaryCursor).Ok?
    ensures var w := WitnessStep(ins, params, regs, primary, auxiliary, primaryCursor, auxiliaryCursor).value;
      && |w.regs| == |regs|
      && w.alu.arg1 == w.regs[ins.arg1Idx]
      && w.alu.dest == w.regs[ins.destIdx]
      && (ins.arg1Idx != params.reservedRegister ==> w.alu.arg1 == regs[ins.arg1Idx])
      && (ins.destIdx != params.reservedRegister ==> w.alu.dest == regs[ins.destIdx])
      && (IsTapeOpcode(ins.opcode) ==> w.alu.arg2 == w.regs[params.reservedRegister])
      && (!IsTapeOpcode(ins.opcode) && !ins.arg2IsImmediate ==> w.alu.arg2 == regs[ins.arg2IdxOrImmediate])
      && (!IsTapeOpcode(ins.opcode) && ins.arg2IsImmediate ==>
            w.alu.arg2 == params.intToField(params.registerLength, ins.arg2IdxOrImmediate))
  {
  }

  /**
   Nothing else changes: a step writes no register but the reserved one,
   and that one only for a tape instruction; only `READ` moves a cursor.
   */
  lemma StepFrame<F>(ins: Instruction, params: Params<F>, regs: seq<F>,
                     primary: seq<string>, auxiliary: seq<string>,
                     primaryCursor: nat, auxiliaryCursor: nat)
    requires OperandsInRange(ins, params, |regs|)
    requires WitnessStep(ins, params, regs, primary, auxiliary, primaryCursor, auxiliaryCursor).Ok?
    ensures var w := WitnessStep(ins, params, regs, primary, auxiliary, primaryCursor, auxiliaryCursor).value;
      && |w.regs| == |regs|
      && (forall k :: 0 <= k < |regs| && k != params.reservedRegister ==> w.regs[k] == regs[k])
      && (!IsTapeOpcode(ins.opcode) ==> w.regs == regs)
      && (!ins.opcode.Read? ==> w.primaryCursor == primaryCursor && w.auxiliaryCursor == auxiliaryCursor)
      && (ins.opcode.Read? ==> w.primaryCursor + w.auxiliaryCursor == primaryCursor + auxiliaryCursor + 1)
  {
  }

  /**
   The witness satisfies the constraints of the executed instruction: for
   each role, the operand term of the instruction's residual evaluates, in
   the register values the step leaves, to the value the step assigned to
   that role's wire.
   */
  lemma WitnessMatchesResiduals<F>(ins: Instruction, params: Params<F>, regs: seq<F>,
                                   primary: seq<string>, auxiliary: seq<string>,
                                   primaryCursor: nat, auxiliaryCursor: nat, role: Wire)
    requires OperandsInRange(ins, params, |regs|)
    requires WitnessStep(ins, params, regs, primary, auxiliary, primaryCursor, auxiliaryCursor).Ok?
    ensures var w := WitnessStep(ins, params, regs, primary, auxiliary, primaryCursor, auxiliaryCursor).value;
      var t := ResidualOf(ins, role, params).term;
      && (t.RegRef? ==> t.index < |w.regs|)
      && TermValue(t, w.regs) == w.alu.Of(role)
  {
  }

  /**
   The witness pass does not depend on whether the constraint pass already
   cleared the second operand's immediate flag.
   */
  lemma WitnessIgnoresPriorForcing<F>(ins: Instruction, params: Params<F>, regs: seq<F>,
                                      primary: seq<string>, auxiliary: seq<string>,
                                      primaryCursor: nat, auxiliaryCursor: nat)
    requires StepDefined(ins, params, regs, primary, auxiliary, primaryCursor, auxiliaryCursor)
    ensures StepDefined(ForceTapeOperand(ins), params, regs, primary, auxiliary, primaryCursor, auxiliaryCursor)
    ensures WitnessStep(ForceTapeOperand(ins), params, regs, primary, auxiliary, primaryCursor, auxiliaryCursor)
         == WitnessStep(ins, params, regs, primary, auxiliary, primaryCursor, auxiliaryCursor)
  {
    if IsTapeOpcode(ins.opcode) {
      assert AccessTape(ForceTapeOperand(ins), params, regs, primary, auxiliary, primaryCursor, auxiliaryCursor)
          == AccessTape(ins, params, regs, primary, auxiliary, primaryCursor, auxiliaryCursor);
    }
  }
}
