/**
 * Proof specifications (ICS 23, Vector Commitments): an ordered list of the
 * specs that describe each layer of a multi-layer Merkle proof, with the
 * Cosmos SDK default and the conversions to and from plain lists of ICS 23 specs.
 */
module Ics23Commitment {

  /** An ICS 23 leaf encoding rule; its fields are not part of this model. */
  datatype Ics23LeafOp = Ics23LeafOp(rule: nat)

  /** An ICS 23 inner-node encoding rule; its fields are not part of this model. */
  datatype Ics23InnerSpec = Ics23InnerSpec(rule: nat)

  /** An ICS 23 proof spec: how leaves and inner nodes of one tree layout are hashed. */
  datatype Ics23ProofSpec = Ics23ProofSpec(leafSpec: Ics23LeafOp, innerSpec: Ics23InnerSpec)

  /** The spec of IAVL Merkle proofs (an opaque stand-in for the library's constant). */
  const IavlSpec := Ics23ProofSpec(Ics23LeafOp(0), Ics23InnerSpec(0))

  /** The spec of Tendermint simple Merkle proofs (an opaque stand-in for the library's constant). */
  const TendermintSpec := Ics23ProofSpec(Ics23LeafOp(1), Ics23InnerSpec(1))

  /** Wrappers with structural equality around the ICS 23 types. */
  datatype ProofSpec = ProofSpec(spec: Ics23ProofSpec)
  datatype LeafOp = LeafOp(op: Ics23LeafOp)
  datatype InnerSpec = InnerSpec(spec: Ics23InnerSpec)

  /** An ordered list of proof specs, leaf-most layer first. */
  datatype ProofSpecs = ProofSpecs(specs: seq<ProofSpec>)

  /** Wraps each ICS 23 spec, keeping length and order. */
  function FromIcs23(ics23Specs: seq<Ics23ProofSpec>): (r: ProofSpecs)
    ensures |r.specs| == |ics23Specs|
    ensures forall i :: 0 <= i < |ics23Specs| ==> r.specs[i] == ProofSpec(ics23Specs[i])
  {
    if ics23Specs == [] then ProofSpecs([])
    else ProofSpecs([ProofSpec(ics23Specs[0])] + FromIcs23(ics23Specs[1..]).specs)
  }

  /** Unwraps each proof spec, keeping length and order. */
  function ToIcs23(specs: ProofSpecs): (r: seq<Ics23ProofSpec>)
    ensures |r| == |specs.specs|
    ensures forall i :: 0 <= i < |r| ==> r[i] == specs.specs[i].spec
    decreases |specs.specs|
  {
    if specs.specs == [] then []
    else [specs.specs[0].spec] + ToIcs23(ProofSpecs(specs.specs[1..]))
  }

  /** The Cosmos SDK layout: an IAVL store proof, then a Tendermint simple Merkle proof. */
  function Cosmos(): (r: ProofSpecs)
    ensures |r.specs| == 2
    ensures r.specs[0].spec == IavlSpec && r.specs[1].spec == TendermintSpec
    ensures ToIcs23(r) == [IavlSpec, TendermintSpec]
  {
    FromIcs23([IavlSpec, TendermintSpec])
  }

  /** True when there are no specs at all. */
  function IsEmpty(specs: ProofSpecs): (b: bool)
    ensures b <==> ToIcs23(specs) == []
    ensures b <==> specs == ProofSpecs([])
  {
    |specs.specs| == 0
  }

  /** The default proof specs are the Cosmos SDK ones. */
  function Default(): (r: ProofSpecs)
    ensures r == Cosmos()
    ensures !IsEmpty(r) && |r.specs| == 2
  {
    Cosmos()
  }

  /** The two library constants are distinct, so the Cosmos layers are told apart. */
  lemma CosmosLayersDistinct()
    ensures IavlSpec != TendermintSpec
    ensures Cosmos().specs[0] != Cosmos().specs[1]
  {
  }

  /** list -> ProofSpecs -> list gives back the original list, same length and order. */
  lemma Ics23RoundTrip(ics23Specs: seq<Ics23ProofSpec>)
    ensures ToIcs23(FromIcs23(ics23Specs)) == ics23Specs
  {
  }

  /** ProofSpecs -> list -> ProofSpecs gives back a value equal to the original. */
  lemma ProofSpecsRoundTrip(specs: ProofSpecs)
    ensures FromIcs23(ToIcs23(specs)) == specs
  {
  }

  /**
   * Equality of proof specs is structural: two values are equal exactly when they
   * hold the same ICS 23 specs in the same order.
   */
  lemma StructuralEquality(p: ProofSpecs, q: ProofSpecs)
    ensures p == q <==> ToIcs23(p) == ToIcs23(q)
    ensures p == q <==> (|p.specs| == |q.specs| && forall i :: 0 <= i < |p.specs| ==> p.specs[i].spec == q.specs[i].spec)
  {
  }

  /** Emptiness is preserved by conversion in both directions. */
  lemma EmptinessAgrees(ics23Specs: seq<Ics23ProofSpec>)
    ensures IsEmpty(FromIcs23(ics23Specs)) <==> ics23Specs == []
  {
  }
}
