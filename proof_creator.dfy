/**
 * The private-kernel proof creator of the Aztec RPC server: siloing of a
 * call frame's new commitments under its contract address, and the two
 * steps (init, inner) of the private-kernel proof chain.
 *
 * The collaborators the creator calls into are parameters:
 *  - the Pedersen hash with a hash index (`pedersenCompressWithHashIndex`,
 *    whose output buffer is read back with `Fr.fromBuffer`) is `PedersenHash`;
 *  - the circuits' simulators and `makeEmptyProof` are the record
 *    `KernelCircuits`, whose kernel data types are type parameters.
 * A simulator that throws is a `Failure` carrying its message.
 */
module ProofCreator {
  import opened Fields

  /** Hash index that separates commitment siloing from every other use of the hash. */
  const OUTER_COMMITMENT: nat := 3

  /** Pedersen compression of a list of buffers under a hash index, read back as a field element. */
  type PedersenHash = (seq<seq<Byte>>, nat) -> Fr

  datatype CallContext = CallContext(
    msgSender: AztecAddress,
    storageContractAddress: AztecAddress,
    functionSelector: nat)

  /** The public outputs of one private function call that the siloing reads. */
  datatype PrivateCircuitPublicInputs = PrivateCircuitPublicInputs(
    callContext: CallContext,
    newCommitments: seq<Fr>,
    newNullifiers: seq<Fr>)

  datatype Proof = Proof(buffer: seq<Byte>)

  datatype ProofOutput<KernelPublicInputs> = ProofOutput(publicInputs: KernelPublicInputs, proof: Proof)

  datatype Result<T> = Success(value: T) | Failure(error: string)

  /** The kernel simulators and the placeholder proof exported by the circuits library. */
  datatype KernelCircuits<!SignedTx, !CallData, !PreviousData, KernelPublicInputs> = KernelCircuits(
    privateKernelSimInit: (SignedTx, CallData) -> Result<KernelPublicInputs>,
    privateKernelSimInner: (PreviousData, CallData) -> Result<KernelPublicInputs>,
    emptyProof: Proof)

  /** The two buffers hashed to silo `commitment` under `contractAddress`. */
  function SiloPreimage(contractAddress: AztecAddress, commitment: Fr): (p: seq<seq<Byte>>)
    ensures |p| == 2 && |p[0]| == 32 && |p[1]| == FR_SIZE_IN_BYTES
  {
    [contractAddress.ToBuffer(), FrToBuffer(commitment)]
  }

  /** Distinct (contract, commitment) pairs are hashed from distinct preimages. */
  lemma SiloPreimageInjective(a1: AztecAddress, c1: Fr, a2: AztecAddress, c2: Fr)
    ensures SiloPreimage(a1, c1) == SiloPreimage(a2, c2) <==> a1 == a2 && c1 == c2
  {
  }

  /** The `.map` over a frame's commitments: each is hashed with the address under `OUTER_COMMITMENT`. */
  function SiloAll(hash: PedersenHash, contractAddress: AztecAddress, commitments: seq<Fr>): (r: seq<Fr>)
    ensures |r| == |commitments|
    ensures forall i :: 0 <= i < |commitments| ==>
      r[i] == hash(SiloPreimage(contractAddress, commitments[i]), OUTER_COMMITMENT)
  {
    if commitments == [] then
      []
    else
      [hash(SiloPreimage(contractAddress, commitments[0]), OUTER_COMMITMENT)]
      + SiloAll(hash, contractAddress, commitments[1..])
  }

  /** `getSiloedCommitments`: silo every new commitment under the frame's storage contract address. */
  function GetSiloedCommitments(hash: PedersenHash, publicInputs: PrivateCircuitPublicInputs): (r: seq<Fr>)
    ensures |r| == |publicInputs.newCommitments|
    ensures forall i :: 0 <= i < |publicInputs.newCommitments| ==>
      r[i] == hash([publicInputs.callContext.storageContractAddress.ToBuffer(),
                    FrToBuffer(publicInputs.newCommitments[i])], OUTER_COMMITMENT)
  {
    SiloAll(hash, publicInputs.callContext.storageContractAddress, publicInputs.newCommitments)
  }

  /** Siloing a concatenation silos each part in place: the output keeps the input's order. */
  lemma SiloAllAppend(hash: PedersenHash, contractAddress: AztecAddress, xs: seq<Fr>, ys: seq<Fr>)
    ensures SiloAll(hash, contractAddress, xs + ys)
         == SiloAll(hash, contractAddress, xs) + SiloAll(hash, contractAddress, ys)
  {
  }

  /**
   * The result depends on the storage contract address and the commitments alone:
   * two frames that agree on these are siloed alike, whatever else they hold.
   */
  lemma SiloingDeterministic(hash: PedersenHash, p: PrivateCircuitPublicInputs, q: PrivateCircuitPublicInputs)
    requires p.callContext.storageContractAddress == q.callContext.storageContractAddress
    requires p.newCommitments == q.newCommitments
    ensures GetSiloedCommitments(hash, p) == GetSiloedCommitments(hash, q)
  {
  }

  /**
   * Siloing separates contracts: whenever two siloed commitments coincide although
   * their contracts or raw commitments differ, the hash collided on distinct inputs.
   */
  lemma SiloCollisionIsHashCollision(
    hash: PedersenHash, p: PrivateCircuitPublicInputs, i: nat, q: PrivateCircuitPublicInputs, j: nat)
    requires i < |p.newCommitments| && j < |q.newCommitments|
    requires p.callContext.storageContractAddress != q.callContext.storageContractAddress
          || p.newCommitments[i] != q.newCommitments[j]
    requires GetSiloedCommitments(hash, p)[i] == GetSiloedCommitments(hash, q)[j]
    ensures var x := SiloPreimage(p.callContext.storageContractAddress, p.newCommitments[i]);
            var y := SiloPreimage(q.callContext.storageContractAddress, q.newCommitments[j]);
            x != y && hash(x, OUTER_COMMITMENT) == hash(y, OUTER_COMMITMENT)
  {
  }

  /**
   * `createProofInit`: run the init simulator on the signed request and the first
   * call frame, and pair its public inputs, unchanged, with the placeholder proof.
   */
  function CreateProofInit<SignedTx, CallData, PreviousData, KernelPublicInputs>(
    circuits: KernelCircuits<SignedTx, CallData, PreviousData, KernelPublicInputs>,
    signedTxRequest: SignedTx, privateCallData: CallData): (r: Result<ProofOutput<KernelPublicInputs>>)
    ensures var sim := circuits.privateKernelSimInit(signedTxRequest, privateCallData);
      && (r.Success? <==> sim.Success?)
      && (r.Success? ==> r.value.publicInputs == sim.value && r.value.proof == circuits.emptyProof)
      && (r.Failure? ==> r.error == sim.error)
  {
    match circuits.privateKernelSimInit(signedTxRequest, privateCallData)
    case Success(publicInputs) => Success(ProofOutput(publicInputs, circuits.emptyProof))
    case Failure(e) => Failure(e)
  }

  /**
   * `createProofInner`: run the inner simulator on the previous kernel's data and the
   * next call frame, and pair its public inputs, unchanged, with the placeholder proof.
   */
  function CreateProofInner<SignedTx, CallData, PreviousData, KernelPublicInputs>(
    circuits: KernelCircuits<SignedTx, CallData, PreviousData, KernelPublicInputs>,
    previousKernelData: PreviousData, privateCallData: CallData): (r: Result<ProofOutput<KernelPublicInputs>>)
    ensures var sim := circuits.privateKernelSimInner(previousKernelData, privateCallData);
      && (r.Success? <==> sim.Success?)
      && (r.Success? ==> r.value.publicInputs == sim.value && r.value.proof == circuits.emptyProof)
      && (r.Failure? ==> r.error == sim.error)
  {
    match circuits.privateKernelSimInner(previousKernelData, privateCallData)
    case Success(publicInputs) => Success(ProofOutput(publicInputs, circuits.emptyProof))
    case Failure(e) => Failure(e)
  }

  /** Until a proving backend is wired in, both steps return one and the same proof, whatever their inputs. */
  lemma ProofIndependentOfInputs<SignedTx, CallData, PreviousData, KernelPublicInputs>(
    circuits: KernelCircuits<SignedTx, CallData, PreviousData, KernelPublicInputs>,
    signedTxRequest: SignedTx, firstCall: CallData, previousKernelData: PreviousData, nextCall: CallData)
    requires CreateProofInit(circuits, signedTxRequest, firstCall).Success?
    requires CreateProofInner(circuits, previousKernelData, nextCall).Success?
    ensures CreateProofInit(circuits, signedTxRequest, firstCall).value.proof
         == CreateProofInner(circuits, previousKernelData, nextCall).value.proof
         == circuits.emptyProof
  {
  }
}
