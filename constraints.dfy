/**
 What `generateConstraints` hands to the selector-sum machinery: per
 instruction, one residual per operand role, and per role one general
 constraint built from the list of residuals, the selector indices and the
 relevance mask. Polynomials are symbolic: the selector sum and the
 program-counter indicators are not evaluated here.
 */
module ConstraintBuilder {
  import opened TinyRam

  /** The three ALU output wires of `ALUInput`. */
  datatype Wire = Arg1Wire | Arg2Wire | DestWire

  /** The first summand of a residual: a register variable of the trace, or a field constant. */
  datatype Term<F> = RegRef(index: nat) | Const(value: F)

  /** The polynomial `term + wire`; its vanishing encodes "the wire carries the operand". */
  datatype Residual<F> = Add(term: Term<F>, wire: Wire)

  /**
   The arguments of one `SelectorSum` call; the program-counter variables
   (`getPCVars`) are the same for all three and are not modelled.
   */
  datatype SelectorSum<F> = SelectorSum(
    polynomials: seq<Residual<F>>,
    selectorToConstraint: seq<nat>,
    selectorRelevant: seq<bool>)

  /** A call of `addGeneralConstraint`. */
  datatype GeneralConstraint<F> = GeneralConstraint(polynomial: SelectorSum<F>, name: string, opcode: Opcode)

  /**
   The residual of one instruction for one role. The second operand is
   read with the flag as forcing leaves it, so a tape instruction always
   refers to the reserved register, whatever its own flag and index say.
   */
  function ResidualOf<F>(ins: Instruction, role: Wire, params: Params<F>): (r: Residual<F>)
    ensures r.wire == role
    ensures role == Arg1Wire ==> r.term == RegRef(ins.arg1Idx)
    ensures role == DestWire ==> r.term == RegRef(ins.destIdx)
    ensures role == Arg2Wire && IsTapeOpcode(ins.opcode) ==> r.term == RegRef(params.reservedRegister)
    ensures role == Arg2Wire && !IsTapeOpcode(ins.opcode) && ins.arg2IsImmediate ==>
              r.term == Const(params.intToField(params.registerLength, ins.arg2IdxOrImmediate))
    ensures role == Arg2Wire && !IsTapeOpcode(ins.opcode) && !ins.arg2IsImmediate ==>
              r.term == RegRef(ins.arg2IdxOrImmediate)
  {
    var forced := ForceTapeOperand(ins);
    match role
    case Arg1Wire => Add(RegRef(ins.arg1Idx), Arg1Wire)
    case Arg2Wire =>
      if !forced.arg2IsImmediate then Add(RegRef(EffectiveArg2(ins, params)), Arg2Wire)
      else Add(Const(params.intToField(params.registerLength, forced.arg2IdxOrImmediate)), Arg2Wire)
    case DestWire => Add(RegRef(ins.destIdx), DestWire)
  }

  /** The residuals of one role for a program, in program order. */
  function RoleResiduals<F>(p: seq<Instruction>, role: Wire, params: Params<F>): (r: seq<Residual<F>>)
    ensures |r| == |p|
  {
    if |p| == 0 then [] else RoleResiduals(p[..|p| - 1], role, params) + [ResidualOf(p[|p| - 1], role, params)]
  }

  /** `selectorToConstraint` after `n` iterations: `0, 1, …, n - 1`. */
  function SelectorIndices(n: nat): (r: seq<nat>)
    ensures |r| == n
  {
    if n == 0 then [] else SelectorIndices(n - 1) + [n - 1]
  }

  /** `selectorRelevant` after `n` iterations. */
  function AllRelevant(n: nat): (r: seq<bool>)
    ensures |r| == n
  {
    if n == 0 then [] else AllRelevant(n - 1) + [true]
  }

  /** The selector sum of one role. */
  function RoleSum<F>(p: seq<Instruction>, role: Wire, params: Params<F>): SelectorSum<F> {
    SelectorSum(RoleResiduals(p, role, params), SelectorIndices(|p|), AllRelevant(|p|))
  }

  /** The constraints the pass registers, in registration order. */
  function SelectorConstraints<F>(p: seq<Instruction>, params: Params<F>): seq<GeneralConstraint<F>> {
    [ GeneralConstraint(RoleSum(p, Arg1Wire, params), "SelectorSum_ARG1", None),
      GeneralConstraint(RoleSum(p, Arg2Wire, params), "SelectorSum_ARG2", None),
      GeneralConstraint(RoleSum(p, DestWire, params), "SelectorSum_Dest", None) ]
  }

  /** Entry `k` of a role's list is instruction `k`'s residual for that role. */
  lemma {:induction false} RoleResidualsAt<F>(p: seq<Instruction>, role: Wire, params: Params<F>, k: nat)
    requires k < |p|
    ensures RoleResiduals(p, role, params)[k] == ResidualOf(p[k], role, params)
  {
    var n := |p| - 1;
    if k < n {
      RoleResidualsAt(p[..n], role, params, k);
      assert p[..n][k] == p[k];
    }
  }

  /** The selector index of entry `k` is `k`. */
  lemma {:induction false} SelectorIndicesAt(n: nat, k: nat)
    requires k < n
    ensures SelectorIndices(n)[k] == k
  {
    if k < n - 1 {
      SelectorIndicesAt(n - 1, k);
    }
  }

  /** Every entry of the relevance mask is `true`. */
  lemma {:induction false} AllRelevantAt(n: nat, k: nat)
    requires k < n
    ensures AllRelevant(n)[k]
  {
    if k < n - 1 {
      AllRelevantAt(n - 1, k);
    }
  }

  /**
   The shape of what the pass registers: three constraints, one per role,
   tagged `NONE`, each built from `|p|` residuals whose entry `k` belongs to
   instruction `k` with selector index `k` and relevance `true`.
   */
  lemma SelectorConstraintsShape<F>(p: seq<Instruction>, params: Params<F>)
    ensures var cs := SelectorConstraints(p, params);
      && |cs| == 3
      && cs[0].name == "SelectorSum_ARG1" && cs[1].name == "SelectorSum_ARG2" && cs[2].name == "SelectorSum_Dest"
      && (forall j :: 0 <= j < 3 ==> cs[j].opcode == None)
      && (forall j :: 0 <= j < 3 ==>
            |cs[j].polynomial.polynomials| == |p|
            && |cs[j].polynomial.selectorToConstraint| == |p|
            && |cs[j].polynomial.selectorRelevant| == |p|)
      && (forall j, k :: 0 <= j < 3 && 0 <= k < |p| ==>
            cs[j].polynomial.selectorToConstraint[k] == k && cs[j].polynomial.selectorRelevant[k])
      && (forall k :: 0 <= k < |p| ==>
            && cs[0].polynomial.polynomials[k] == ResidualOf(p[k], Arg1Wire, params)
            && cs[1].polynomial.polynomials[k] == ResidualOf(p[k], Arg2Wire, params)
            && cs[2].polynomial.polynomials[k] == ResidualOf(p[k], DestWire, params))
  {
    forall k | 0 <= k < |p|
      ensures SelectorIndices(|p|)[k] == k && AllRelevant(|p|)[k]
      ensures RoleResiduals(p, Arg1Wire, params)[k] == ResidualOf(p[k], Arg1Wire, params)
      ensures RoleResiduals(p, Arg2Wire, params)[k] == ResidualOf(p[k], Arg2Wire, params)
      ensures RoleResiduals(p, DestWire, params)[k] == ResidualOf(p[k], DestWire, params)
    {
      SelectorIndicesAt(|p|, k);
      AllRelevantAt(|p|, k);
      RoleResidualsAt(p, Arg1Wire, params, k);
      RoleResidualsAt(p, Arg2Wire, params, k);
      RoleResidualsAt(p, DestWire, params, k);
    }
  }

  /**
   Forcing is idempotent with respect to the constraints: building them from
   a program the pass has already forced gives the same three constraints.
   */
  lemma {:induction false} RoleResidualsOfForcedProgram<F>(p: seq<Instruction>, role: Wire, params: Params<F>)
    ensures RoleResiduals(ForceProgram(p), role, params) == RoleResiduals(p, role, params)
  {
    if |p| > 0 {
      var n := |p| - 1;
      assert ForceProgram(p)[..n] == ForceProgram(p[..n]);
      RoleResidualsOfForcedProgram(p[..n], role, params);
      assert ResidualOf(ForceProgram(p)[n], role, params) == ResidualOf(p[n], role, params);
    }
  }

  /** Running the constraint pass a second time registers the same constraints. */
  lemma ConstraintsStableUnderForcing<F>(p: seq<Instruction>, params: Params<F>)
    ensures SelectorConstraints(ForceProgram(p), params) == SelectorConstraints(p, params)
  {
    RoleResidualsOfForcedProgram(p, Arg1Wire, params);
    RoleResidualsOfForcedProgram(p, Arg2Wire, params);
    RoleResidualsOfForcedProgram(p, DestWire, params);
  }
}
