# Private-kernel proof creator and Goblin Ultra builder bookkeeping, in Dafny

This project models two small pieces of the Aztec stack and proves properties of them.

- **Kernel proof creator** (`proof_creator.dfy`, module `ProofCreator`; field encoding in `fields.dfy`, module `Fields`).
  `getSiloedCommitments` binds each new commitment of a private call frame to the contract that made it. It hashes the
  storage contract address and the commitment, each as a 32-byte buffer, with the Pedersen hash under the hash index
  `OUTER_COMMITMENT = 3`. `createProofInit` and `createProofInner` are the two steps of the private-kernel chain. Each
  runs a kernel simulator and pairs the simulator's public inputs with the placeholder proof from `makeEmptyProof`.
  Everything these operations call is a parameter. The hash, read back with `Fr.fromBuffer`, is a function of type
  `PedersenHash`. The simulators and the placeholder proof form the record `KernelCircuits`, and its kernel data types
  are type parameters. A simulator that throws is a `Failure` carrying its message, and both steps pass that failure on
  unchanged.
- **Goblin Ultra circuit builder** (`goblin_ultra_circuit_builder.dfy`, module `GoblinUltraCircuitBuilder`). The class
  `GoblinUltraCircuitBuilder` keeps the ECC op gate count, the shared op queue, the four op-code constant indices and the
  DataBus public calldata. It also keeps the part of the base class's state it uses: the variables, the constant-zero
  index, and the sticky failure flag with its message. `SetPublicCalldata` inserts into the calldata, which is a set
  kept as a vector, and is proved against the pure function `SetCalldata`. `GetNumGates` and `PrintedGateTotal` use
  `size_t` arithmetic, which wraps modulo 2^64 on 64-bit targets.

## Model

| member | source | states |
|---|---|---|
| `ProofCreator.GetSiloedCommitments` | yarn-project/aztec-rpc/src/kernel_prover/proof_creator.ts:61-70 | The output has exactly as many elements as `newCommitments`. Element i is the hash, under index 3, of the storage contract address's buffer and commitment i's buffer. |
| `ProofCreator.SiloAll` | yarn-project/aztec-rpc/src/kernel_prover/proof_creator.ts:67-69 | The `.map`: same length as the input, and element i is the hash of the i-th commitment with the same address, under `OUTER_COMMITMENT`. |
| `ProofCreator.SiloAllAppend` | yarn-project/aztec-rpc/src/kernel_prover/proof_creator.ts:67-69 | Siloing a concatenation is the concatenation of the siloed parts, so siloing preserves order. |
| `ProofCreator.SiloingDeterministic` | yarn-project/aztec-rpc/src/kernel_prover/proof_creator.ts:61-70 | Two call frames with equal storage contract addresses and equal commitments are siloed to equal sequences, whatever else they hold. |
| `ProofCreator.SiloPreimageInjective` | yarn-project/aztec-rpc/src/kernel_prover/proof_creator.ts:63-68 | The hashed buffer pair is equal for two (address, commitment) pairs if and only if the pairs are equal. |
| `ProofCreator.SiloCollisionIsHashCollision` | yarn-project/aztec-rpc/src/kernel_prover/proof_creator.ts:43-69 | If two siloed commitments coincide while their contracts or their raw commitments differ, the hash under index 3 maps two distinct inputs to one value. |
| `ProofCreator.CreateProofInit` | yarn-project/aztec-rpc/src/kernel_prover/proof_creator.ts:79-95 | Succeeds exactly when the init simulator does. On success, `publicInputs` is the simulator's output unchanged and `proof` is the empty placeholder. On failure, the simulator's error is returned verbatim. |
| `ProofCreator.CreateProofInner` | yarn-project/aztec-rpc/src/kernel_prover/proof_creator.ts:104-120 | The same for the inner simulator applied to the previous kernel data and the next call frame. |
| `ProofCreator.ProofIndependentOfInputs` | yarn-project/aztec-rpc/src/kernel_prover/proof_creator.ts:79-120 | When both steps succeed, they return the same proof, the placeholder, whatever their inputs. |
| `Fields.AztecAddress.ToBuffer` | yarn-project/aztec-rpc/src/kernel_prover/proof_creator.ts:63 | `storageContractAddress.toBuffer()` is the address's 32-byte buffer. |
| `ProofCreator.SiloPreimage` | yarn-project/aztec-rpc/src/kernel_prover/proof_creator.ts:68 | The hashed list has two buffers: the 32-byte contract address, then the 32-byte commitment. |
| `Fields.FrToBuffer` | yarn-project/aztec-rpc/src/kernel_prover/proof_creator.ts:68 | `commitment.toBuffer()` is 32 bytes, and its big-endian value is the commitment itself. |
| `Fields.FrToBufferInjective` | yarn-project/aztec-rpc/src/kernel_prover/proof_creator.ts:68 | Two field elements serialise to the same buffer if and only if they are equal. |
| `GoblinUltraCircuitBuilder.SetCalldata` | barretenberg/cpp/src/barretenberg/proof_system/circuit_builder/goblin_ultra_circuit_builder.hpp:134-145 | An absent index is appended at the end, with earlier entries untouched. A present index leaves the calldata unchanged. The builder is failed afterwards if and only if it was failed before or the index was present. A builder that had not failed gets the message "Attempted to redundantly set a public calldata!". An earlier failure's message is kept. Having no duplicates is preserved. |
| `GoblinUltraCircuitBuilder.SetCalldataAllContents` | barretenberg/cpp/src/barretenberg/proof_system/circuit_builder/goblin_ultra_circuit_builder.hpp:134-145 | After any sequence of insertions, the calldata is the old calldata followed by the fresh indices, in the order they were first inserted. It holds exactly the old indices plus the inserted ones, and having no duplicates is preserved. |
| `GoblinUltraCircuitBuilder.SetCalldataAllFailure` | barretenberg/cpp/src/barretenberg/proof_system/circuit_builder/goblin_ultra_circuit_builder.hpp:136-142 | After any sequence of insertions, the builder is failed if and only if it was failed before or some insertion was redundant. The message is unchanged unless a builder that had not failed fails, and then it is the redundancy message. |
| `GoblinUltraCircuitBuilder.FreshIndices` | barretenberg/cpp/src/barretenberg/proof_system/circuit_builder/goblin_ultra_circuit_builder.hpp:136-144 | The indices that repeated insertion adds are exactly the inserted ones not already present, and there are no more of them than insertions. |
| `GoblinUltraCircuitBuilder.FreshIndicesAllFresh` | barretenberg/cpp/src/barretenberg/proof_system/circuit_builder/goblin_ultra_circuit_builder.hpp:134-145 | When no insertion is redundant, every inserted index is fresh, so all of them are appended in order. |
| `GoblinUltraCircuitBuilder.SetCalldataAllSpec` | barretenberg/cpp/src/barretenberg/proof_system/circuit_builder/goblin_ultra_circuit_builder.hpp:134-145 | After any sequence of insertions, the calldata has no duplicates and extends what was there. It is the old calldata followed by the fresh indices in first-insertion order, which is all the insertions when none was redundant. The builder fails exactly when some insertion was redundant. The message is unchanged when nothing fails, and the first failure's message is never overwritten. |
| `GoblinUltraCircuitBuilder.GoblinUltraCircuitBuilder.SetPublicCalldata` | barretenberg/cpp/src/barretenberg/proof_system/circuit_builder/goblin_ultra_circuit_builder.hpp:134-145 | The scan-then-append loop changes the calldata, failure flag and message exactly as `SetCalldata` says, changes nothing else, and keeps the builder's invariant. |
| `GoblinUltraCircuitBuilder.GoblinUltraCircuitBuilder.constructor` | barretenberg/cpp/src/barretenberg/proof_system/circuit_builder/goblin_ultra_circuit_builder.hpp:73-83 | `num_ecc_op_gates` is 0 and the op queue is the one passed in, shared rather than copied. `null_op_idx` is `zero_idx`. The ADD_ACCUM, MUL_ACCUM and EQUALITY indices are the allocator's results and hold those op codes. The calldata is empty and the builder has not failed. |
| `GoblinUltraCircuitBuilder.GoblinUltraCircuitBuilder.PutConstantVariable` | barretenberg/cpp/src/barretenberg/proof_system/circuit_builder/goblin_ultra_circuit_builder.hpp:80-82 | The allocator that the constructor relies on returns an index holding the requested value and leaves existing variables untouched. |
| `GoblinUltraCircuitBuilder.OpCodeIndicesDistinct` | barretenberg/cpp/src/barretenberg/proof_system/circuit_builder/goblin_ultra_circuit_builder.hpp:78-82 | In a valid builder, two op-code indices are equal if and only if their op codes are equal. |
| `GoblinUltraCircuitBuilder.GoblinUltraCircuitBuilder.Failed` | barretenberg/cpp/src/barretenberg/proof_system/circuit_builder/goblin_ultra_circuit_builder.hpp:138 | `failed()` reports the builder's failure flag. |
| `GoblinUltraCircuitBuilder.GoblinUltraCircuitBuilder.Failure` | barretenberg/cpp/src/barretenberg/proof_system/circuit_builder/goblin_ultra_circuit_builder.hpp:138-139 | `failure(msg)` leaves the builder failed, with `msg` as its error message. |
| `GoblinUltraCircuitBuilder.AddSizeT` | barretenberg/cpp/src/barretenberg/proof_system/circuit_builder/goblin_ultra_circuit_builder.hpp:106 | `size_t` addition on a 64-bit target: the exact sum when it is below 2^64, otherwise the sum minus 2^64. |
| `GoblinUltraCircuitBuilder.GoblinUltraCircuitBuilder.GetNumConstantGates` | barretenberg/cpp/src/barretenberg/proof_system/circuit_builder/goblin_ultra_circuit_builder.hpp:91 | Always 0. |
| `GoblinUltraCircuitBuilder.GoblinUltraCircuitBuilder.GetNumGates` | barretenberg/cpp/src/barretenberg/proof_system/circuit_builder/goblin_ultra_circuit_builder.hpp:103-107 | The base Ultra gate count plus `num_ecc_op_gates`, modulo 2^64 on a 64-bit target. The sum is exact when it fits, and the result is the Ultra count when there are no ECC op gates. |
| `GoblinUltraCircuitBuilder.GoblinUltraCircuitBuilder.PrintedGateTotal` | barretenberg/cpp/src/barretenberg/proof_system/circuit_builder/goblin_ultra_circuit_builder.hpp:115-123 | The total is `count + romcount + ramcount + rangecount + num_ecc_op_gates` modulo 2^64 on a 64-bit target. The step-by-step `size_t` additions agree with this single sum, and `nnfcount` is not included. |

## Left out

- Pedersen hashing, `Fr.fromBuffer` of the hash output, the kernel simulators and `makeEmptyProof` are foreign code, so they are parameters. Their internals are not part of this model. That includes any accumulation or monotonicity of kernel public inputs across steps, which only the simulators could guarantee.
- The lazy engine handles (`BarretenbergWasm.get`, `CircuitsWasm.get`), `async`/`await` and the debug logger are I/O and scheduling. They do not affect any result.
- The kernel data types (`SignedTxRequest`, `PrivateCallData`, `PreviousKernelData`, `KernelCircuitPublicInputs`) are opaque type parameters. `PrivateCircuitPublicInputs` and `CallContext` carry only a few fields. Siloing reads two of them, and the others show that siloing ignores the rest.
- Siloing has no validation-error path. The code has none: the address and the commitments are typed values of fixed width, so their buffers always have 32 bytes. `Fr.toBuffer` is modelled as the 32-byte big-endian encoding.
- The base circuit builder classes are not part of this model. Only their state that this class touches is kept: the variables, `zero_idx`, and the failure flag and message. `PutConstantVariable` is a stand-in allocator that appends. Its contract promises only what the constructor uses. The real allocator's reuse of existing constants and the gate it adds are not modelled.
- The base `get_num_gates` and `get_num_gates_split_into_components` are parameters of `GetNumGates` and `PrintedGateTotal`. The `std::cout` line of `print_num_gates`, including the public-input count, is output only, and only its computed total is modelled.
- The values of the op codes (0 to 3, in the order NULL_OP, ADD_ACCUM, MUL_ACCUM, EQUALITY) follow the C++ enumeration in the ECC op queue header. That header is not part of this model.
- The ECC op queue's contents and the functions declared in the header without bodies are not modelled. These are `queue_ecc_*`, `populate_ecc_op_wires`, `decompose_ecc_operands`, the Poseidon2 gates and identities, `finalize_circuit`, `add_gates_to_ensure_all_polys_are_non_zero` and `check_circuit`. Because of that, nothing here changes `num_ecc_op_gates`, and the ECC op wires, selectors, `calldata_read_counts` and `public_return_data` are not represented.
- The constructor's `size_hint` only reserves capacity in the base class. It has no effect here.
- The delegating constructor that takes only an op queue is not modelled separately. The default argument, a freshly made op queue, is left to the caller.
- GetNumGates: fixes `size_t` at 64 bits, as on native x86-64 builds. In the wasm32 build, which the TypeScript side calls into, `size_t` is 32 bits and the sum wraps modulo 2^32 instead.
- PrintedGateTotal: fixes `size_t` at 64 bits for the same reason. In the wasm32 build the total wraps modulo 2^32.
- Variable indices are unbounded naturals, not `uint32_t`, because the model never allocates anywhere near 2^32 variables.
