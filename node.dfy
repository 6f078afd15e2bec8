/** An OMEGA network node (src/node.rs): the operators of one node, its local frequency,
    an epoch counter that keys the masking layer, and a simulated network in the form of
    a last-in-first-out buffer of vectors. Sending masks, vectorises, injects the target
    frequency and runs sweep, path-invariant projection, weight transfer and the double
    kick; receiving pops a vector, projects it, checks resonance against the local
    frequency and unmasks the devectorised bytes. */
module Node {
  import opened Platform
  import opened Types
  import opened Vectors
  import Masking
  import Utils
  import Pfad
  import W = WeightTransferOp
  import S = SweepOp
  import R = Resonance

  /** A double kick of one call: it draws fresh randomness, so each call gets its own
      function, and all the model knows of it is that it keeps the length. */
  ghost predicate PreservesLength(kick: Vector -> Vector)
  {
    forall x :: |kick(x)| == |x|
  }

  function Last(buffer: seq<Vector>): Vector
    requires buffer != []
  {
    buffer[|buffer| - 1]
  }

  function Popped(buffer: seq<Vector>): seq<Vector>
    requires buffer != []
  {
    buffer[..|buffer| - 1]
  }

  /** `epoch += 1` on a u64, wrapping as a release build does. */
  lemma EpochAdvanceChangesHashInput(omegaBits: bv64, epoch: bv64)
    ensures HashInput(omegaBits, epoch + 1) != HashInput(omegaBits, epoch)
  {
    if HashInput(omegaBits, epoch + 1) == HashInput(omegaBits, epoch) {
      HashInputInjective(omegaBits, epoch + 1, omegaBits, epoch);
    }
  }

  class OmegaNode {
    var resonance: R.ResonanceOperator
    const sweep: S.Sweep
    const pfadinvarianz: Pfad.Pfadinvarianz
    const weightTransfer: W.WeightTransfer
    var localFrequency: real
    const stateVector: Vector
    var epoch: bv64
    const params: OmegaParams
    var messageBuffer: seq<Vector>

    /** The resonance operator is always the one for the local frequency, the projection
        uses the five-dimensional subset, and every buffered vector has five components. */
    predicate Valid()
      reads this
    {
      && sweep.Valid()
      && resonance == R.New(localFrequency)
      && pfadinvarianz.permutations == Pfad.PermutationSubset(5)
      && forall v :: v in messageBuffer ==> |v| == Utils.Dimension
    }

    /** `OmegaNode::new`: epoch 0, an empty buffer, the configured frequency, a zero state
        vector of length 5, a sweep from the configured parameters and the default
        projection and weight transfer. */
    constructor(config: NodeConfig)
      requires config.params.sweep.beta != 0.0
      ensures Valid()
      ensures epoch == 0 && messageBuffer == [] && localFrequency == config.omega
      ensures stateVector == Zeros(5) && params == config.params
      ensures fresh(sweep) && fresh(weightTransfer)
      ensures sweep.tau0 == config.params.sweep.tau0 && sweep.beta == config.params.sweep.beta
      ensures sweep.schedule == config.params.sweep.schedule && sweep.t == 0
      ensures weightTransfer.gamma == 0.3
      ensures weightTransfer.weights == W.PairsToMap(DefaultWeightTransferParams().levels)
      ensures weightTransfer.targetWeights == weightTransfer.weights
    {
      var projection := Pfad.Pfadinvarianz.New(5);
      var defaults := DefaultWeightTransferParams();
      resonance := R.New(config.omega);
      sweep := new S.Sweep(config.params.sweep.tau0, config.params.sweep.beta, config.params.sweep.schedule);
      pfadinvarianz := projection;
      weightTransfer := new W.WeightTransfer(defaults.gamma, defaults.levels);
      localFrequency := config.omega;
      stateVector := Zeros(5);
      epoch := 0;
      params := config.params;
      messageBuffer := [];
    }

    /** `derive_masking_params`: the ephemeral key of a frequency at the current epoch. */
    function DeriveMaskingParams(omega: real, lib: Primitives): (p: MaskingParams)
      reads this
      ensures p.sigma == lib.sha256(HashInput(lib.f64Bits(omega), epoch))
      ensures 0.0 <= p.theta <= 2.0 * Pi
    {
      EphemeralFromFrequency(omega, epoch, lib)
    }

    /** The node's resonance test: the node's own epsilon from its parameters, not the
        operator's fixed 0.1. */
    predicate ResonantLocally(v: Vector, lib: Primitives)
      reads this
    {
      Abs(R.DominantFrequency(v, lib) - localFrequency) < params.resonance.epsilon
    }

    /** The vector a send at (targetFreq, epoch) pushes, given the sweep clock, the
        weights and targets before the call and the call's double kick. */
    function Transmitted(message: seq<byte>, targetFreq: real, atEpoch: bv64, time: nat,
                         w: map<ScaleLevel, real>, targets: map<ScaleLevel, real>,
                         kick: Vector -> Vector, lib: Primitives): Vector
      requires sweep.Valid()
    {
      var masked := Masking.Masked(message, EphemeralFromFrequency(targetFreq, atEpoch, lib), lib);
      var v := lib.injectFrequency(Utils.VectorOf(masked), targetFreq);
      var swept := Scale(v, S.Gate(Mean(v), sweep.ThresholdAt(time, lib), sweep.beta, lib));
      var projected := Pfad.Projected(pfadinvarianz.permutations, swept);
      kick(W.Combined(W.Updated(w, targets, weightTransfer.gamma), projected))
    }

    /** What a receive makes of a popped vector: nothing when the projected vector is not
        resonant, else its bytes unmasked with the local frequency's current key. */
    function Received(v: Vector, lib: Primitives): Option<seq<byte>>
      reads this
    {
      var projected := Pfad.Projected(pfadinvarianz.permutations, v);
      if ResonantLocally(projected, lib) then
        Some(Masking.Masked(Utils.BytesOf(projected), DeriveMaskingParams(localFrequency, lib), lib))
      else
        None
    }

    /** The composite operator: double kick, weight transfer, projection, sweep and
        resonance, in that order. */
    function OmegaOutput(v: Vector, time: nat, w: map<ScaleLevel, real>, targets: map<ScaleLevel, real>,
                         kick: Vector -> Vector, lib: Primitives): Vector
      reads this
      requires sweep.Valid()
    {
      var v1 := W.Combined(W.Updated(w, targets, weightTransfer.gamma), kick(v));
      var v2 := Pfad.Projected(pfadinvarianz.permutations, v1);
      var v3 := Scale(v2, S.Gate(Mean(v2), sweep.ThresholdAt(time, lib), sweep.beta, lib));
      resonance.Filtered(v3, lib)
    }

    /** `send_message`: fails exactly on an empty message, before the sweep clock or the
        weights move; otherwise pushes one five-component vector on this node's buffer,
        advances the sweep by one step and updates the weights once. */
    method SendMessage(message: seq<byte>, targetFreq: real, kick: Vector -> Vector, lib: Primitives)
      returns (r: Result<()>)
      requires Valid() && lib.Valid() && PreservesLength(kick)
      modifies this, sweep, weightTransfer
      ensures Valid()
      ensures r.Err? <==> message == []
      ensures r.Err? ==> r.error == VectorizationError("Cannot vectorize empty data")
      ensures r.Err? ==> messageBuffer == old(messageBuffer) && unchanged(sweep, weightTransfer)
      ensures r.Ok? ==>
        messageBuffer == old(messageBuffer)
          + [Transmitted(message, targetFreq, old(epoch), old(sweep.t), old(weightTransfer.weights),
                         old(weightTransfer.targetWeights), kick, lib)]
      ensures r.Ok? ==> sweep.t == old(sweep.t) + 1
      ensures r.Ok? ==>
        weightTransfer.weights == W.Updated(old(weightTransfer.weights), old(weightTransfer.targetWeights), weightTransfer.gamma)
      ensures weightTransfer.targetWeights == old(weightTransfer.targetWeights)
      ensures epoch == old(epoch) && localFrequency == old(localFrequency) && resonance == old(resonance)
    {
      var maskingParams := DeriveMaskingParams(targetFreq, lib);
      var m0 := Masking.Mask(message, maskingParams, lib);
      var vectorized := Utils.Vectorize(m0.value);
      if vectorized.Err? {
        return Err(vectorized.error);
      }
      var v := lib.injectFrequency(vectorized.value, targetFreq);
      var v2 := sweep.Transform(v, lib);
      v2 := pfadinvarianz.Apply(v2);
      v2 := weightTransfer.Transform(v2);
      v := kick(v2);
      r := Broadcast(v);
    }

    /** `receive_message`: Ok(None) on an empty buffer with nothing changed; otherwise the
        last vector is popped and delivered as `Received` describes. Epoch, frequency,
        sweep and weights never change. */
    method ReceiveMessage(lib: Primitives) returns (r: Result<Option<seq<byte>>>)
      requires Valid() && lib.Valid()
      modifies this
      ensures Valid()
      ensures old(messageBuffer) == [] ==> r == Ok(None) && messageBuffer == old(messageBuffer)
      ensures old(messageBuffer) != [] ==>
        messageBuffer == Popped(old(messageBuffer)) && r == Ok(Received(Last(old(messageBuffer)), lib))
      ensures r.Ok? && r.value.Some? ==> |r.value.value| == Utils.Dimension
      ensures epoch == old(epoch) && localFrequency == old(localFrequency) && resonance == old(resonance)
      ensures unchanged(sweep, weightTransfer)
    {
      var polled := PollNetwork();
      if polled.value.None? {
        return Ok(None);
      }
      var v := pfadinvarianz.Apply(polled.value.value);
      var resonant := IsResonant(v, lib);
      if !resonant {
        return Ok(None);
      }
      var masked := Utils.Devectorize(v);
      var maskingParams := DeriveMaskingParams(localFrequency, lib);
      var message := Masking.Unmask(masked.value, maskingParams, lib);
      r := Ok(Some(message.value));
    }

    /** `is_resonant` */
    method IsResonant(v: Vector, lib: Primitives) returns (b: bool)
      requires Valid() && lib.Valid()
      ensures b <==> ResonantLocally(v, lib)
    {
      var vFreq := resonance.ComputeDominantFrequency(v, lib);
      b := Abs(vFreq - localFrequency) < params.resonance.epsilon;
    }

    /** `broadcast`: the vector goes on top of this node's own buffer. */
    method Broadcast(v: Vector) returns (r: Result<()>)
      requires Valid() && |v| == Utils.Dimension
      modifies this
      ensures Valid()
      ensures r == Ok(()) && messageBuffer == old(messageBuffer) + [v]
      ensures epoch == old(epoch) && localFrequency == old(localFrequency) && resonance == old(resonance)
    {
      messageBuffer := messageBuffer + [v];
      r := Ok(());
    }

    /** `poll_network`: pops the most recently pushed vector, if any. */
    method PollNetwork() returns (r: Result<Option<Vector>>)
      requires Valid()
      modifies this
      ensures Valid()
      ensures old(messageBuffer) == [] ==> r == Ok(None) && messageBuffer == old(messageBuffer)
      ensures old(messageBuffer) != [] ==>
        r == Ok(Some(Last(old(messageBuffer)))) && messageBuffer == Popped(old(messageBuffer))
      ensures r.Ok? && r.value.Some? ==> |r.value.value| == Utils.Dimension
      ensures epoch == old(epoch) && localFrequency == old(localFrequency) && resonance == old(resonance)
    {
      if messageBuffer == [] {
        return Ok(None);
      }
      var v := Last(messageBuffer);
      messageBuffer := Popped(messageBuffer);
      r := Ok(Some(v));
    }

    /** `omega_transformation`: the composite operator; it advances the sweep and updates
        the weights like a send, and keeps the length of its input. */
    method OmegaTransformation(v: Vector, kick: Vector -> Vector, lib: Primitives) returns (r: Vector)
      requires Valid() && lib.Valid() && PreservesLength(kick)
      modifies sweep, weightTransfer
      ensures |r| == |v|
      ensures r == OmegaOutput(v, old(sweep.t), old(weightTransfer.weights), old(weightTransfer.targetWeights), kick, lib)
      ensures sweep.t == old(sweep.t) + 1
      ensures weightTransfer.weights
        == W.Updated(old(weightTransfer.weights), old(weightTransfer.targetWeights), weightTransfer.gamma)
      ensures weightTransfer.targetWeights == old(weightTransfer.targetWeights)
    {
      var v1 := kick(v);
      v1 := weightTransfer.Transform(v1);
      var v2 := pfadinvarianz.Apply(v1);
      var v3 := sweep.Transform(v2, lib);
      r := resonance.Apply(v3, lib);
    }

    /** `advance_epoch`: the next key epoch; nothing else changes. */
    method AdvanceEpoch()
      requires Valid()
      modifies this
      ensures Valid()
      ensures epoch == old(epoch) + 1
      ensures messageBuffer == old(messageBuffer) && localFrequency == old(localFrequency)
      ensures resonance == old(resonance)
    {
      epoch := epoch + 1;
    }

    /** `set_frequency`: a new local frequency and a resonance operator built for it. */
    method SetFrequency(omega: real)
      requires Valid()
      modifies this
      ensures Valid()
      ensures localFrequency == omega && resonance == R.New(omega)
      ensures epoch == old(epoch) && messageBuffer == old(messageBuffer)
    {
      localFrequency := omega;
      resonance := R.New(omega);
    }

    /** `transfer_message_to`: moves this node's last vector to the top of the other
        node's buffer; a no-op when this buffer is empty. */
    method TransferMessageTo(other: OmegaNode)
      requires other != this && Valid() && other.Valid()
      modifies this, other
      ensures Valid() && other.Valid()
      ensures old(messageBuffer) == [] ==>
        messageBuffer == old(messageBuffer) && other.messageBuffer == old(other.messageBuffer)
      ensures old(messageBuffer) != [] ==>
        && messageBuffer == Popped(old(messageBuffer))
        && other.messageBuffer == old(other.messageBuffer) + [Last(old(messageBuffer))]
      ensures |messageBuffer| + |other.messageBuffer| == old(|messageBuffer| + |other.messageBuffer|)
      ensures epoch == old(epoch) && localFrequency == old(localFrequency) && resonance == old(resonance)
      ensures other.epoch == old(other.epoch) && other.localFrequency == old(other.localFrequency)
      ensures other.resonance == old(other.resonance)
    {
      if messageBuffer != [] {
        var msg := Last(messageBuffer);
        messageBuffer := Popped(messageBuffer);
        other.messageBuffer := other.messageBuffer + [msg];
      }
    }
  }

  // ---------------------------------------------------------------------------
  // Properties of the node

  /** A transmitted vector always has five components. */
  lemma TransmittedLength(node: OmegaNode, message: seq<byte>, targetFreq: real, atEpoch: bv64, time: nat,
                          w: map<ScaleLevel, real>, targets: map<ScaleLevel, real>,
                          kick: Vector -> Vector, lib: Primitives)
    requires node.sweep.Valid() && lib.Valid() && PreservesLength(kick)
    ensures |node.Transmitted(message, targetFreq, atEpoch, time, w, targets, kick, lib)| == Utils.Dimension
  {
  }

  /** Re-masking a delivered message with the receiver's key gives back the bytes of the
      projected vector: unmasking inverts masking under the same key. */
  lemma ReceivedUnmasks(node: OmegaNode, v: Vector, lib: Primitives)
    requires node.Received(v, lib).Some?
    ensures var projected := Pfad.Projected(node.pfadinvarianz.permutations, v);
            Masking.Masked(node.Received(v, lib).value, node.DeriveMaskingParams(node.localFrequency, lib), lib)
              == Utils.BytesOf(projected)
  {
    var projected := Pfad.Projected(node.pfadinvarianz.permutations, v);
    Masking.MaskInvolution(Utils.BytesOf(projected), node.DeriveMaskingParams(node.localFrequency, lib), lib);
  }

  /** Bytes a sender masks for the receiver's frequency at the receiver's epoch come back
      unchanged when the receiver unmasks them with its own key: the two nodes derive the
      same key, and masking with one key twice is the identity. */
  lemma SharedKeyAtSameEpoch(sender: OmegaNode, receiver: OmegaNode, message: seq<byte>, lib: Primitives)
    requires sender.epoch == receiver.epoch
    ensures var sent := Masking.Masked(message, sender.DeriveMaskingParams(receiver.localFrequency, lib), lib);
            Masking.Masked(sent, receiver.DeriveMaskingParams(receiver.localFrequency, lib), lib) == message
  {
    Masking.MaskInvolution(message, sender.DeriveMaskingParams(receiver.localFrequency, lib), lib);
  }

  /** With the default epsilon 0.1 the node's test agrees with its resonance operator's. */
  lemma DefaultEpsilonAgrees(node: OmegaNode, v: Vector, lib: Primitives)
    requires node.Valid() && node.params.resonance.epsilon == 0.1
    ensures node.ResonantLocally(v, lib) <==> node.resonance.Resonant(v, lib)
  {
  }

  /** Each output component of the composite operator is bounded by the corresponding
      component of the projected vector: the sweep gate and the resonance filter only
      shrink. */
  lemma OmegaOutputBounded(node: OmegaNode, v: Vector, time: nat, w: map<ScaleLevel, real>,
                           targets: map<ScaleLevel, real>, kick: Vector -> Vector, lib: Primitives)
    requires node.sweep.Valid()
    ensures var v1 := W.Combined(W.Updated(w, targets, node.weightTransfer.gamma), kick(v));
            var v2 := Pfad.Projected(node.pfadinvarianz.permutations, v1);
            var out := node.OmegaOutput(v, time, w, targets, kick, lib);
            |out| == |v2| && forall i :: 0 <= i < |v2| ==> Abs(out[i]) <= Abs(v2[i])
  {
    var v1 := W.Combined(W.Updated(w, targets, node.weightTransfer.gamma), kick(v));
    var v2 := Pfad.Projected(node.pfadinvarianz.permutations, v1);
    var g := S.Gate(Mean(v2), node.sweep.ThresholdAt(time, lib), node.sweep.beta, lib);
    var v3 := Scale(v2, g);
    S.GatedBound(v2, g);
    R.FilteredNonExpansive(node.resonance, v3, lib);
  }
}
