/**
 * Bookkeeping of the Goblin Ultra circuit builder: the op-code constant
 * indices set up by its constructor, the ECC op gate count added to the
 * Ultra gate count, and the public calldata of the DataBus, a set kept as
 * a vector.
 *
 * The base class (the Ultra builder and the circuit builder base) is
 * represented by the state this class needs from it: the variables, the
 * index of the constant zero, and the sticky failure flag with its message.
 * Counts the base class computes are parameters of the functions that use
 * them.
 */
module GoblinUltraCircuitBuilder {
  import opened Fields

  const SIZE_T_MODULUS: nat := 0x1_0000_0000_0000_0000

  /** `size_t` on a 64-bit target: unsigned, arithmetic wraps around modulo 2^64. */
  type SizeT = x: nat | x < SIZE_T_MODULUS

  /** `uint32_t` witness index. */
  type U32 = x: nat | x < 0x1_0000_0000

  /** `size_t` addition. */
  function AddSizeT(a: SizeT, b: SizeT): (r: SizeT)
    ensures a + b < SIZE_T_MODULUS ==> r == a + b
    ensures a + b >= SIZE_T_MODULUS ==> r == a + b - SIZE_T_MODULUS
  {
    (a + b) % SIZE_T_MODULUS
  }

  /** The op codes of the ECC op queue, with the values of their C++ enumerators. */
  datatype EccOpCode = NullOp | AddAccum | MulAccum | Equality {
    function Value(): (v: Fr) {
      match this
      case NullOp => 0
      case AddAccum => 1
      case MulAccum => 2
      case Equality => 3
    }
  }

  /** The counts `get_num_gates_split_into_components` reports for the Ultra part of the circuit. */
  datatype GateComponents = GateComponents(
    count: SizeT, rangecount: SizeT, romcount: SizeT, ramcount: SizeT, nnfcount: SizeT)

  const REDUNDANT_CALLDATA_MSG: string := "Attempted to redundantly set a public calldata!"

  ghost predicate NoDuplicates(s: seq<U32>) {
    forall i, j :: 0 <= i < j < |s| ==> s[i] != s[j]
  }

  /** The part of the builder's state that `set_public_calldata` reads and writes. */
  datatype CalldataState = CalldataState(publicCalldata: seq<U32>, failed: bool, err: string)

  /**
   * The effect of `set_public_calldata(w)`: a new index is appended; an index already
   * present leaves the calldata alone and fails the builder, unless it has failed already.
   */
  function SetCalldata(s: CalldataState, w: U32): (r: CalldataState)
    ensures w !in s.publicCalldata ==> r.publicCalldata == s.publicCalldata + [w]
    ensures w in s.publicCalldata ==> r.publicCalldata == s.publicCalldata
    ensures r.failed <==> s.failed || w in s.publicCalldata
    ensures s.failed || w !in s.publicCalldata ==> r.err == s.err
    ensures !s.failed && w in s.publicCalldata ==> r.err == REDUNDANT_CALLDATA_MSG
    ensures NoDuplicates(s.publicCalldata) ==> NoDuplicates(r.publicCalldata)
  {
    if w in s.publicCalldata then
      if !s.failed then s.(failed := true, err := REDUNDANT_CALLDATA_MSG) else s
    else
      s.(publicCalldata := s.publicCalldata + [w])
  }

  /** `set_public_calldata` called on each of `ws` in turn. */
  function SetCalldataAll(s: CalldataState, ws: seq<U32>): (r: CalldataState)
  {
    if ws == [] then s else SetCalldata(SetCalldataAll(s, ws[..|ws| - 1]), ws[|ws| - 1])
  }

  /** Some index of `ws` is already in `existing`, or repeats an earlier index of `ws`. */
  ghost predicate HasRedundant(existing: seq<U32>, ws: seq<U32>) {
    exists i :: 0 <= i < |ws| && (ws[i] in existing || ws[i] in ws[..i])
  }

  /**
   * The indices of `ws` that are neither in `existing` nor earlier in `ws`,
   * in the order of their first occurrence.
   */
  function FreshIndices(existing: seq<U32>, ws: seq<U32>): (added: seq<U32>)
    ensures |added| <= |ws|
    ensures forall x :: x in added <==> x in ws && x !in existing
  {
    if ws == [] then
      []
    else
      var prefix, w := ws[..|ws| - 1], ws[|ws| - 1];
      if w in existing || w in prefix then FreshIndices(existing, prefix)
      else FreshIndices(existing, prefix) + [w]
  }

  lemma HasRedundantSnoc(existing: seq<U32>, ws: seq<U32>, w: U32)
    ensures HasRedundant(existing, ws + [w])
        <==> HasRedundant(existing, ws) || w in existing || w in ws
  {
    var vs := ws + [w];
    assert vs[..|ws|] == ws;
    if HasRedundant(existing, ws) {
      var i :| 0 <= i < |ws| && (ws[i] in existing || ws[i] in ws[..i]);
      assert vs[..i] == ws[..i];
      assert vs[i] in existing || vs[i] in vs[..i];
    }
    if HasRedundant(existing, vs) && !(w in existing || w in ws) {
      var i :| 0 <= i < |vs| && (vs[i] in existing || vs[i] in vs[..i]);
      assert vs[..i] == ws[..i];
      assert ws[i] in existing || ws[i] in ws[..i];
    }
  }

  /**
   * Repeated calls append exactly the fresh indices, in the order they were first
   * inserted, so the calldata holds the indices it held before and those inserted.
   */
  lemma {:induction false} SetCalldataAllContents(s: CalldataState, ws: seq<U32>)
    ensures var r := SetCalldataAll(s, ws);
      && r.publicCalldata == s.publicCalldata + FreshIndices(s.publicCalldata, ws)
      && (forall x :: x in r.publicCalldata <==> x in s.publicCalldata || x in ws)
      && (NoDuplicates(s.publicCalldata) ==> NoDuplicates(r.publicCalldata))
  {
    if ws != [] {
      var n := |ws|;
      var prefix, w := ws[..n - 1], ws[n - 1];
      assert ws == prefix + [w];
      SetCalldataAllContents(s, prefix);
    }
  }

  /**
   * Repeated calls fail the builder exactly when an insertion was redundant; the
   * message changes only when a builder that had not failed fails, and then to the
   * redundancy message.
   */
  lemma {:induction false} SetCalldataAllFailure(s: CalldataState, ws: seq<U32>)
    ensures var r := SetCalldataAll(s, ws);
      && (r.failed <==> s.failed || HasRedundant(s.publicCalldata, ws))
      && (s.failed || !r.failed ==> r.err == s.err)
      && (!s.failed && r.failed ==> r.err == REDUNDANT_CALLDATA_MSG)
  {
    if ws != [] {
      var n := |ws|;
      var prefix, w := ws[..n - 1], ws[n - 1];
      assert ws == prefix + [w];
      SetCalldataAllFailure(s, prefix);
      SetCalldataAllContents(s, prefix);
      HasRedundantSnoc(s.publicCalldata, prefix, w);
    }
  }

  /** Without a redundant insertion, every inserted index is fresh. */
  lemma {:induction false} FreshIndicesAllFresh(existing: seq<U32>, ws: seq<U32>)
    requires !HasRedundant(existing, ws)
    ensures FreshIndices(existing, ws) == ws
  {
    if ws != [] {
      var n := |ws|;
      var prefix, w := ws[..n - 1], ws[n - 1];
      assert ws == prefix + [w];
      HasRedundantSnoc(existing, prefix, w);
      FreshIndicesAllFresh(existing, prefix);
    }
  }

  /**
   * Repeated calls keep the calldata a set: it holds exactly the indices it held
   * before and those inserted, each once, earlier entries in place, the new ones in
   * the order they were first inserted; the builder fails exactly when an insertion
   * was redundant, and the message changes only on the first failure.
   */
  lemma SetCalldataAllSpec(s: CalldataState, ws: seq<U32>)
    requires NoDuplicates(s.publicCalldata)
    ensures var r := SetCalldataAll(s, ws);
      && NoDuplicates(r.publicCalldata)
      && s.publicCalldata <= r.publicCalldata
      && (forall x :: x in r.publicCalldata <==> x in s.publicCalldata || x in ws)
      && (r.failed <==> s.failed || HasRedundant(s.publicCalldata, ws))
      && (s.failed ==> r.err == s.err)
      && (!r.failed ==> r.err == s.err)
      && (!s.failed && r.failed ==> r.err == REDUNDANT_CALLDATA_MSG)
      && r.publicCalldata == s.publicCalldata + FreshIndices(s.publicCalldata, ws)
      && (!HasRedundant(s.publicCalldata, ws) ==> r.publicCalldata == s.publicCalldata + ws)
  {
    SetCalldataAllContents(s, ws);
    SetCalldataAllFailure(s, ws);
    if !HasRedundant(s.publicCalldata, ws) {
      FreshIndicesAllFresh(s.publicCalldata, ws);
    }
  }

  /** The shared queue of ECC operations; its contents are not part of this model. */
  class ECCOpQueue {
    constructor () {}
  }

  class GoblinUltraCircuitBuilder {
    // State of the base class
    var variables: seq<Fr>
    var zeroIdx: nat
    var hasFailed: bool
    var errorMessage: string

    // State of this class
    var numEccOpGates: SizeT
    var opQueue: ECCOpQueue
    var nullOpIdx: nat
    var addAccumOpIdx: nat
    var mulAccumOpIdx: nat
    var equalityOpIdx: nat
    var publicCalldata: seq<U32>

    /** The index of the constant variable holding `op`'s code. */
    function OpCodeIdx(op: EccOpCode): (idx: nat)
      reads this`nullOpIdx, this`addAccumOpIdx, this`mulAccumOpIdx, this`equalityOpIdx
    {
      match op
      case NullOp => nullOpIdx
      case AddAccum => addAccumOpIdx
      case MulAccum => mulAccumOpIdx
      case Equality => equalityOpIdx
    }

    ghost predicate Valid()
      reads this
    {
      && zeroIdx < |variables| && variables[zeroIdx] == 0
      && nullOpIdx == zeroIdx
      && (forall op: EccOpCode :: OpCodeIdx(op) < |variables| && variables[OpCodeIdx(op)] == op.Value())
      && NoDuplicates(publicCalldata)
    }

    function CalldataView(): (view: CalldataState)
      reads this
    {
      CalldataState(publicCalldata, hasFailed, errorMessage)
    }

    /**
     * Builds the base builder (which allocates the constant zero), shares the given
     * op queue, and allocates one constant variable per non-null op code.
     */
    constructor (sizeHint: SizeT, opQueueIn: ECCOpQueue)
      ensures Valid()
      ensures opQueue == opQueueIn
      ensures numEccOpGates == 0
      ensures nullOpIdx == zeroIdx
      ensures addAccumOpIdx < |variables| && variables[addAccumOpIdx] == AddAccum.Value()
      ensures mulAccumOpIdx < |variables| && variables[mulAccumOpIdx] == MulAccum.Value()
      ensures equalityOpIdx < |variables| && variables[equalityOpIdx] == Equality.Value()
      ensures publicCalldata == [] && !hasFailed
    {
      variables := [];
      zeroIdx := 0;
      hasFailed := false;
      errorMessage := "";
      numEccOpGates := 0;
      opQueue := opQueueIn;
      nullOpIdx := 0;
      addAccumOpIdx := 0;
      mulAccumOpIdx := 0;
      equalityOpIdx := 0;
      publicCalldata := [];
      new;
      zeroIdx := PutConstantVariable(0);
      nullOpIdx := zeroIdx;
      addAccumOpIdx := PutConstantVariable(AddAccum.Value());
      mulAccumOpIdx := PutConstantVariable(MulAccum.Value());
      equalityOpIdx := PutConstantVariable(Equality.Value());
    }

    /**
     * The base class's constant allocator: returns the index of a variable holding
     * `value` and leaves every existing variable as it was.
     */
    method PutConstantVariable(value: Fr) returns (idx: nat)
      modifies this`variables
      ensures old(variables) <= variables
      ensures idx < |variables| && variables[idx] == value
    {
      idx := |variables|;
      variables := variables + [value];
    }

    /** The base class's `failed()`. */
    function Failed(): (f: bool)
      reads this
      ensures f == CalldataView().failed
    {
      hasFailed
    }

    /** The base class's `failure(msg)`: record the failure and its message. */
    method Failure(msg: string)
      modifies this`hasFailed, this`errorMessage
      ensures hasFailed && errorMessage == msg
    {
      hasFailed := true;
      errorMessage := msg;
    }

    /** `get_num_constant_gates`: this builder adds no constant gates. */
    function GetNumConstantGates(): (r: SizeT)
      ensures r == 0
    {
      0
    }

    /** `get_num_gates`, given the Ultra gate count of the base class. */
    function GetNumGates(numUltraGates: SizeT): (r: SizeT)
      reads this
      ensures r == (numUltraGates + numEccOpGates) % SIZE_T_MODULUS
      ensures numUltraGates + numEccOpGates < SIZE_T_MODULUS ==> r == numUltraGates + numEccOpGates
      ensures numEccOpGates == 0 ==> r == numUltraGates
    {
      AddSizeT(numUltraGates, numEccOpGates)
    }

    /**
     * The total `print_num_gates` reports: arithmetic, ROM, RAM, range and ECC op
     * gates, added left to right in `size_t`; the non-native field gates are not counted.
     */
    function PrintedGateTotal(c: GateComponents): (total: SizeT)
      reads this
      ensures total == (c.count + c.romcount + c.ramcount + c.rangecount + numEccOpGates) % SIZE_T_MODULUS
    {
      AddSizeT(AddSizeT(AddSizeT(AddSizeT(c.count, c.romcount), c.ramcount), c.rangecount), numEccOpGates)
    }

    /** `set_public_calldata`: scan the calldata for the index, append it if absent. */
    method SetPublicCalldata(witnessIndex: U32)
      requires Valid()
      modifies this`publicCalldata, this`hasFailed, this`errorMessage
      ensures Valid()
      ensures CalldataView() == SetCalldata(old(CalldataView()), witnessIndex)
    {
      ghost var before := CalldataView();
      var i := 0;
      while i < |publicCalldata|
        invariant 0 <= i <= |publicCalldata|
        invariant forall k :: 0 <= k < i ==> publicCalldata[k] != witnessIndex
      {
        if publicCalldata[i] == witnessIndex {
          assert witnessIndex in before.publicCalldata;
          if !Failed() {
            Failure(REDUNDANT_CALLDATA_MSG);
          }
          assert CalldataView() == SetCalldata(before, witnessIndex);
          return;
        }
        i := i + 1;
      }
      publicCalldata := publicCalldata + [witnessIndex];
    }
  }

  /**
   * The four op codes are held by four different constant variables, so each
   * op-code index identifies its op code.
   */
  lemma OpCodeIndicesDistinct(b: GoblinUltraCircuitBuilder, op1: EccOpCode, op2: EccOpCode)
    requires b.Valid()
    ensures b.OpCodeIdx(op1) == b.OpCodeIdx(op2) <==> op1 == op2
  {
  }
}
