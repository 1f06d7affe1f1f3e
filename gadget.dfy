/**
 The `ALUInputConsistency` gadget as an object: it owns a program whose
 flags its two passes update in place, registers its constraints on a
 protoboard and writes witness values into the protoboard's value table.
 */
module Gadget {
  import opened TinyRam
  import opened ConstraintBuilder
  import opened WitnessResolver

  /**
   The part of the protoboard the gadget touches: the values of the trace's
   register variables at this step, the values of the three ALU output
   variables, and the general constraints registered so far.
   */
  class Protoboard<F> {
    var regVals: seq<F>
    var aluVals: map<Wire, F>
    var constraints: seq<GeneralConstraint<F>>

    constructor (regVals: seq<F>)
      ensures this.regVals == regVals && aluVals == map[] && constraints == []
    {
      this.regVals := regVals;
      aluVals := map[];
      constraints := [];
    }
  }

  /** The sequential read cursors of the two tapes, owned by the caller. */
  class TapeCursors {
    var primary: nat
    var auxiliary: nat

    constructor ()
      ensures primary == 0 && auxiliary == 0
    {
      primary, auxiliary := 0, 0;
    }
  }

  /** How a witness step ended: normally, or on a fatal tape error. */
  datatype Outcome = Pass | Fail(error: TapeError)

  class AluInputConsistency<F> {
    var program: seq<Instruction>
    const pb: Protoboard<F>
    const params: Params<F>

    constructor (pb: Protoboard<F>, params: Params<F>)
      ensures program == [] && this.pb == pb && this.params == params
    {
      program := [];
      this.pb := pb;
      this.params := params;
    }

    /** `setProgram`: a new program replaces the old one. */
    method SetProgram(p: seq<Instruction>)
      modifies this
      ensures program == p
    {
      program := p;
    }

    /**
     `generateConstraints`: forces every tape instruction's second operand
     to a register read, and registers the three selector-sum constraints.
     */
    method GenerateConstraints()
      requires |program| > 0
      modifies this, pb
      ensures program == ForceProgram(old(program))
      ensures pb.constraints == old(pb.constraints) + SelectorConstraints(old(program), params)
      ensures pb.regVals == old(pb.regVals) && pb.aluVals == old(pb.aluVals)
    {
      ghost var original := program;
      var arg1Polynomials, arg2Polynomials, destPolynomials: seq<Residual<F>> := [], [], [];
      var selectorToConstraint: seq<nat> := [];
      var selectorRelevant: seq<bool> := [];
      var i := 0;
      while i < |program|
        modifies this
        invariant i <= |program| == |original|
        invariant forall k :: 0 <= k < i ==> program[k] == ForceTapeOperand(original[k])
        invariant forall k :: i <= k < |program| ==> program[k] == original[k]
        invariant arg1Polynomials == RoleResiduals(original[..i], Arg1Wire, params)
        invariant arg2Polynomials == RoleResiduals(original[..i], Arg2Wire, params)
        invariant destPolynomials == RoleResiduals(original[..i], DestWire, params)
        invariant selectorToConstraint == SelectorIndices(i)
        invariant selectorRelevant == AllRelevant(i)
      {
        var arg1 := program[i].arg1Idx;
        var arg2 := program[i].arg2IdxOrImmediate;
        var dest := program[i].destIdx;
        var opcode := program[i].opcode;
        if opcode.Read? || opcode.Seek? {
          program := program[i := program[i].(arg2IsImmediate := false)];
          arg2 := params.reservedRegister;
        }
        var arg2IsImmediate := program[i].arg2IsImmediate;
        var arg2Poly: Residual<F>;
        if !arg2IsImmediate {
          arg2Poly := Add(RegRef(arg2), Arg2Wire);
        } else {
          arg2Poly := Add(Const(params.intToField(params.registerLength, arg2)), Arg2Wire);
        }
        var arg1Poly := Add(RegRef(arg1), Arg1Wire);
        var destPoly := Add(RegRef(dest), DestWire);
        arg1Polynomials := arg1Polynomials + [arg1Poly];
        arg2Polynomials := arg2Polynomials + [arg2Poly];
        destPolynomials := destPolynomials + [destPoly];
        selectorToConstraint := selectorToConstraint + [i];
        selectorRelevant := selectorRelevant + [true];
        assert original[..i + 1][..i] == original[..i];
        i := i + 1;
      }
      assert original[..i] == original;
      assert program == ForceProgram(original);
      var sArg1 := SelectorSum(arg1Polynomials, selectorToConstraint, selectorRelevant);
      var sArg2 := SelectorSum(arg2Polynomials, selectorToConstraint, selectorRelevant);
      var sDest := SelectorSum(destPolynomials, selectorToConstraint, selectorRelevant);
      pb.constraints := pb.constraints + [GeneralConstraint(sArg1, "SelectorSum_ARG1", None)];
      pb.constraints := pb.constraints + [GeneralConstraint(sArg2, "SelectorSum_ARG2", None)];
      pb.constraints := pb.constraints + [GeneralConstraint(sDest, "SelectorSum_Dest", None)];
    }

    /**
     `generateWitness` for step `i`: resolves a tape access, stages its value
     in the reserved register, moves the cursor of a `READ`, and writes the
     three ALU output values. A fatal tape error changes nothing.
     */
    method GenerateWitness(i: nat, publicLines: seq<string>, privateLines: seq<string>, cursors: TapeCursors)
      returns (outcome: Outcome)
      requires i < |program|
      requires StepDefined(program[i], params, pb.regVals, publicLines, privateLines, cursors.primary, cursors.auxiliary)
      modifies this, pb, cursors
      ensures var w := WitnessStep(old(program[i]), params, old(pb.regVals), publicLines, privateLines,
                                   old(cursors.primary), old(cursors.auxiliary));
        && (w.Err? ==> outcome == Fail(w.error) && unchanged(this, pb, cursors))
        && (w.Ok? ==>
              && outcome == Pass
              && program == old(program)[i := ForceTapeOperand(old(program[i]))]
              && pb.regVals == w.value.regs
              && pb.aluVals == old(pb.aluVals)[Arg2Wire := w.value.alu.arg2][Arg1Wire := w.value.alu.arg1][DestWire := w.value.alu.dest]
              && pb.constraints == old(pb.constraints)
              && cursors.primary == w.value.primaryCursor
              && cursors.auxiliary == w.value.auxiliaryCursor)
    {
      var arg1 := program[i].arg1Idx;
      var arg2 := program[i].arg2IdxOrImmediate;
      var dest := program[i].destIdx;
      var opcode := program[i].opcode;
      if opcode.Read? {
        var readFromTapeResult: nat;
        if arg2 == 0 {
          if IsMissing(publicLines) {
            return Fail(TapeMissing(Primary));
          } else if |publicLines| <= cursors.primary {
            return Fail(TapeExhausted(Primary));
          }
          readFromTapeResult := ToUnsigned32(params.parse(publicLines[cursors.primary]));
          cursors.primary := cursors.primary + 1;
        } else if arg2 == 1 {
          if IsMissing(privateLines) {
            return Fail(TapeMissing(Auxiliary));
          } else if |privateLines| <= cursors.auxiliary {
            return Fail(TapeExhausted(Auxiliary));
          }
          readFromTapeResult := ToUnsigned32(params.parse(privateLines[cursors.auxiliary]));
          cursors.auxiliary := cursors.auxiliary + 1;
        } else {
          return Fail(InvalidSelector);
        }
        program := program[i := program[i].(arg2IsImmediate := false)];
        arg2 := params.reservedRegister;
        pb.regVals := pb.regVals[params.reservedRegister := params.intToField(TapeValueWidth, readFromTapeResult)];
      } else if opcode.Seek? {
        var readFromTapeResult: nat;
        var offset: nat;
        if program[i].arg1IsImmediate {
          offset := arg1;
        } else {
          offset := params.fieldToInt(OffsetWidth, pb.regVals[arg1]);
        }
        if arg2 == 0 {
          if IsMissing(publicLines) {
            return Fail(TapeMissing(Primary));
          } else if |publicLines| <= offset {
            return Fail(TapeExhausted(Primary));
          }
          readFromTapeResult := ToUnsigned32(params.parse(publicLines[offset]));
        } else if arg2 == 1 {
          if IsMissing(privateLines) {
            return Fail(TapeMissing(Auxiliary));
          } else if |privateLines| <= offset {
            return Fail(TapeExhausted(Auxiliary));
          }
          readFromTapeResult := ToUnsigned32(params.parse(privateLines[offset]));
        } else {
          return Fail(InvalidSelector);
        }
        program := program[i := program[i].(arg2IsImmediate := false)];
        arg2 := params.reservedRegister;
        pb.regVals := pb.regVals[params.reservedRegister := params.intToField(TapeValueWidth, readFromTapeResult)];
      }

      var arg2IsImmediate := program[i].arg2IsImmediate;
      if !arg2IsImmediate {
        pb.aluVals := pb.aluVals[Arg2Wire := pb.regVals[arg2]];
      } else {
        pb.aluVals := pb.aluVals[Arg2Wire := params.intToField(params.registerLength, program[i].arg2IdxOrImmediate)];
      }
      pb.aluVals := pb.aluVals[Arg1Wire := pb.regVals[arg1]];
      pb.aluVals := pb.aluVals[DestWire := pb.regVals[dest]];
      outcome := Pass;
    }
  }
}
