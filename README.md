# ICS 18 client-update decision and ICS 23 proof specs, in Dafny

This project models two small pieces of the `ibc` crate of ibc-rs, the Rust
implementation of the Inter-Blockchain Communication protocol.

1. **The relayer's client-update decision** (ICS 18, relayer algorithms). A relayer
   holds a destination chain's context and a source chain's latest header. It
   decides whether the destination's client for the source can be updated. If so,
   it builds the `UpdateClient` message. The chain context (`RelayerContext`) is a
   record: the chain id, its latest height, its latest header, the client states it
   hosts by client id, and its signer. `BuildClientUpdateDatagram` answers
   `ClientStateNotFound`, `ClientAlreadyUpToDate` or `ClientAtHigherHeight`, or
   returns the message `{client_id, header, signer}`. All three errors carry the
   data the source puts in them.
2. **The relayer's ping-pong test, as a scenario.** Two simulated chains exchange
   updates in a loop. `MockChain.ClientUpdatePingPong` is that loop. Four of the
   test's asserts are proved: both builds succeed (`context.rs:146-149`,
   `context.rs:189-192`), and after each delivery the chain tracks the other's
   latest height (`context.rs:171`, `context.rs:215`). `MockChain.PingPongScenario` runs the loop from the test's starting
   heights.
3. **Proof specs** (ICS 23, Vector Commitments). `ProofSpecs` is an ordered list of
   `ProofSpec` wrappers around ICS 23 specs. It has the Cosmos SDK default (an IAVL
   layer, then a Tendermint layer), `IsEmpty`, `Default`, and conversions in both
   directions to plain lists of ICS 23 specs. The conversions are proved lossless.

Modules: `Wrappers` (Option, Result), `Heights`, `Ics18Relayer`
(`crates/ibc/src/mock/ics18_relayer/context.rs`), `MockChain` (the test driver of
that file, with simulated chains), and `Ics23Commitment`
(`crates/ibc/src/core/ics23_commitment/specs.rs`).

Assumptions the model makes about code that is not part of it:

- `Height` is ordered lexicographically: revision number first, then revision
  height (`Heights.Lt`).
- Delivering an update message to a simulated chain (`MockContext::deliver`) does
  two things. It sets the client's tracked height to the header's height. Then the
  host produces its next block, one height further in the same revision
  (`MockChain.Deliver`, built from `MockChain.ApplyClientUpdate` and
  `MockChain.AdvanceHost`, which uses `Heights.Increment`). The ping-pong test
  needs the second step: without it, the first iteration's update of A would
  report `ClientAlreadyUpToDate`, since A already tracks B at (1, 20).
- A simulated chain's latest header is its block at its latest height
  (`MockChain.HostConsistent`).

The comment at `context.rs:106` says that A's client for B should start below
B's start height. Both are (1, 20). The scenario still succeeds, because B
advances to (1, 21) before A's first update is built. `ClientUpdatePingPong`
therefore only requires A's tracked height for B to be at most B's height.

## Model

| member | source | states |
|---|---|---|
| `Ics18Relayer.QueryClientFullState` | crates/ibc/src/mock/ics18_relayer/context.rs:20-22 | the client state for an id is present exactly when the chain hosts that client, and is the hosted state |
| `Ics18Relayer.BuildClientUpdateDatagram` | crates/ibc/src/mock/ics18_relayer/context.rs:56-96 | an unknown client gives `ClientStateNotFound(id)`; an equal height gives `ClientAlreadyUpToDate(id, source, destination)`; a higher tracked height gives `ClientAtHigherHeight(id, source, destination)`; the result is `Ok` exactly when the client is known and tracked strictly below the header; the message then holds the same id, the header itself and the destination's signer |
| `Ics18Relayer.BuildReadsOnlyClientStateAndSigner` | crates/ibc/src/mock/ics18_relayer/context.rs:56-95 | the decision depends only on the destination's client state for the id and its signer; latest height and latest header are never consulted |
| `Ics18Relayer.NotFoundConsultsNothingElse` | crates/ibc/src/mock/ics18_relayer/context.rs:66-70 | for an unknown client the outcome is an error that depends on the client id alone, not on the header or the signer |
| `Ics18Relayer.BuildOutcomesPartition` | crates/ibc/src/mock/ics18_relayer/context.rs:74-95 | for a known client exactly one of already-up-to-date (equal heights), at-higher-height (tracked above header) and success happens |
| `Ics18Relayer.ErrorsCarryTheirData` | crates/ibc/src/mock/ics18_relayer/context.rs:66-88 | every error carries the requested client id; the two height errors carry the header's height as source and the tracked height as destination |
| `Heights.Trichotomy` | crates/ibc/src/mock/ics18_relayer/context.rs:74-88 | of equal, below and above, exactly one holds for any two heights, so the three branches are exclusive and exhaustive |
| `Heights.LexicographicOrder` | crates/ibc/src/mock/ics18_relayer/context.rs:82 | the height order compares revision numbers first, then heights within a revision (assumed) |
| `Heights.LtTransitive` | crates/ibc/src/mock/ics18_relayer/context.rs:82 | the height order is transitive, so successive successful updates keep raising the tracked height |
| `Heights.Increment` | crates/ibc/src/mock/ics18_relayer/context.rs:155 | the next host height is strictly above the current one, in the same revision, with no height in between (assumed block production of the simulated host) |
| `MockChain.AdvanceHost` | crates/ibc/src/mock/ics18_relayer/context.rs:199 | the host moves one height up in its revision and serves the block at that height as its latest header; clients, chain id and signer are unchanged (assumed block production after delivery) |
| `MockChain.ApplyClientUpdate` | crates/ibc/src/mock/ics18_relayer/context.rs:167-171 | after applying an update, the client tracks the header's height; other clients and the host are unchanged |
| `MockChain.Deliver` | crates/ibc/src/mock/ics18_relayer/context.rs:153-171 | delivery applies the update, then the host moves to the next height and serves that block as its latest header |
| `MockChain.RebuildAfterUpdateIsUpToDate` | crates/ibc/src/mock/ics18_relayer/context.rs:74-80 | building again with the same header after a delivered update gives `ClientAlreadyUpToDate(id, h, h)` |
| `MockChain.UpdateRaisesTrackedHeight` | crates/ibc/src/mock/ics18_relayer/context.rs:82-95 | a built and delivered update strictly raises the tracked height, to the header's height |
| `MockChain.StaleHeaderIsRefused` | crates/ibc/src/mock/ics18_relayer/context.rs:74-88 | a header at or below the tracked height is always refused, so the tracked height never goes down through this decision |
| `MockChain.ClientUpdatePingPong` | crates/ibc/src/mock/ics18_relayer/context.rs:139-216 | from the starting order, every build in every iteration succeeds, and after each exchange the updated chain tracks the other's latest height (the asserts at lines 146-149, 171, 189-192 and 215, proved); both hosts advance one height per iteration; chain ids, signers and all other clients are unchanged |
| `MockChain.PingPongScenario` | crates/ibc/src/mock/ics18_relayer/context.rs:102-137 | from A at (1,11), B at (1,20), B tracking A at (1,10) and A tracking B at (1,20), four iterations end with A at (1,15), B at (1,24), A tracking B at (1,24) and B tracking A at (1,14) |
| `Ics23Commitment.FromIcs23` | crates/ibc/src/core/ics23_commitment/specs.rs:38-42 | the result has the input's length and element i wraps input element i |
| `Ics23Commitment.ToIcs23` | crates/ibc/src/core/ics23_commitment/specs.rs:44-48 | the result has the input's length and element i unwraps input element i |
| `Ics23Commitment.Cosmos` | crates/ibc/src/core/ics23_commitment/specs.rs:19-25 | exactly two specs: IAVL first, Tendermint second |
| `Ics23Commitment.IsEmpty` | crates/ibc/src/core/ics23_commitment/specs.rs:27-29 | true exactly when there are no specs, i.e. when the converted list is empty |
| `Ics23Commitment.Default` | crates/ibc/src/core/ics23_commitment/specs.rs:32-36 | the default equals `Cosmos()`, so it has two specs and is not empty |
| `Ics23Commitment.CosmosLayersDistinct` | crates/ibc/src/core/ics23_commitment/specs.rs:20-23 | the two Cosmos layers are different specs |
| `Ics23Commitment.Ics23RoundTrip` | crates/ibc/src/core/ics23_commitment/specs.rs:38-48 | list to `ProofSpecs` and back gives the original list |
| `Ics23Commitment.ProofSpecsRoundTrip` | crates/ibc/src/core/ics23_commitment/specs.rs:38-48 | `ProofSpecs` to list and back gives the original value |
| `Ics23Commitment.StructuralEquality` | crates/ibc/src/core/ics23_commitment/specs.rs:14-15 | two `ProofSpecs` are equal exactly when their converted lists are equal, i.e. element by element in the same order |
| `Ics23Commitment.EmptinessAgrees` | crates/ibc/src/core/ics23_commitment/specs.rs:27-29 | specs built from a list are empty exactly when the list is empty |

## Left out

- `crates/ibc/src/clients/ics07_tendermint/mod.rs`: it only declares submodules and the client type tag `"07-tendermint"`, which appears here as `MockChain.TendermintClientType`. The Tendermint client state, header, misbehaviour and trust-threshold logic live in files that are not part of this model.
- `RelayerContext::query_latest_height` can fail with a `ContextError`. The model's context always has a latest height, because the simulated chains never fail this query.
- `RelayerContext` is a Rust trait. Here it is a single record type, since only simulated chains implement it in this code.
- Client states and headers are boxed trait objects in the source (`Box<dyn ClientState>`, `Box<dyn Header>`). Here they are plain values. A client state is seen only through its latest height; a header through its chain id and height. Downcasting, `clone_into` and `into_box` are left out.
- The test sets a trusted height on B's header (`context.rs:176-181`). The decision never reads it, so headers have no trusted height and `Height::decrement` is not modelled.
- `MockContext::deliver`, `dispatch` and `validate` are not part of this model. `MockChain.Deliver` is the abstract step the test's asserts check: set the tracked height, then advance the host. It does not check the header or reject frozen clients. It inserts a client the chain did not hold, and it can lower the tracked height when given a message that `BuildClientUpdateDatagram` would not have built.
- The test's `dispatch_res.is_ok()` and `validation_res.is_ok()` asserts (`context.rs:157-166`, `context.rs:201-210`) are not proved: dispatch and validation are assumed to succeed, since `MockChain.Deliver` cannot fail.
- `ClientMsg` has other variants in the source; only `UpdateClient` is built here.
- The ICS 23 spec constants are opaque stand-ins: two distinct values. Their contents (hash functions, leaf and inner encodings) and Merkle proof verification are not modelled.
- The `LeafOp` and `InnerSpec` wrappers are declared only; the source gives them no operations.
- Serialisation (serde), `Debug` and logging are left out.
