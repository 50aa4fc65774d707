/// The audio-graph linker of engine/src/supervisor/linker.rs: two device
/// arenas, the pipes wiring a source to a sink, the derived sequence map
/// (which pipe runs after which) and the per-block `bind` step.
module Linking {
  import opened Common
  import opened Devices

  /// Arena handles. Nothing is ever removed from an arena, so a handle is the
  /// slot the insertion used and the generation tag is left out.
  datatype InputIndex = InputIndex(slot: nat)
  datatype OutputIndex = OutputIndex(slot: nat)
  datatype PipeIndex = PipeIndex(slot: nat)

  /// The error variants `pipe` and `bind` return (`PipeBufferMalformated` and
  /// `PipeWrongIO` are never constructed).
  datatype LinkerError =
    | InvalideInput(input: InputIndex)
    | InvalideOutput(output: OutputIndex)
    | InvalidePipe(pipe: PipeIndex)

  /// The `HostBuffer` of a pipe, described by its two channel counts.
  datatype PipeBuffer = PipeBuffer(inputCount: nat, outputCount: nat)

  /// `SamplePipe`: the sink handle (`inputs`), the source handle (`outputs`)
  /// and the adaptation buffer.
  datatype SamplePipe = SamplePipe(inputs: InputIndex, outputs: OutputIndex, buffer: PipeBuffer)

  /// The caller's `process` closure: given the two source blocks, the scratch
  /// slices `tmp` and the sink's `parent_vst()`, it yields the new contents of
  /// the scratch slices.
  type Callback = (seq<Block>, seq<Block>, Option<VstId>) -> seq<Block>

  function Shape(blocks: seq<Block>): seq<nat>
  {
    seq(|blocks|, k requires 0 <= k < |blocks| => |blocks[k]|)
  }

  /// The closure receives `&mut [&mut [f32]]`: it may change samples but not
  /// the number or the lengths of the slices.
  ghost predicate PreservesShape(process: Callback)
  {
    forall sources, tmp, vst :: Shape(process(sources, tmp, vst)) == Shape(tmp)
  }

  // ---------------------------------------------------------------------------
  // The sequence map, as a function of device identities

  /// The last position q below `n` of `others` holding `id`: in
  /// `calc_sequences`' inner loop a later match overwrites an earlier one.
  function LastMatch(id: DeviceId, others: seq<DeviceId>, n: nat): Option<nat>
    requires n <= |others|
  {
    if n == 0 then None
    else if others[n - 1] == id then Some(n - 1)
    else LastMatch(id, others, n - 1)
  }

  /// `LastMatch` finds a matching position below `n` with no match between
  /// it and `n`, and finds nothing exactly when no position below `n` matches.
  lemma {:induction false} LastMatchMeaning(id: DeviceId, others: seq<DeviceId>, n: nat)
    requires n <= |others|
    ensures var r := LastMatch(id, others, n);
            && (r.Some? ==> r.value < n && others[r.value] == id)
            && (r.Some? ==> forall q :: r.value < q < n ==> others[q] != id)
            && (r.None? <==> forall q :: 0 <= q < n ==> others[q] != id)
  {
    if n > 0 && others[n - 1] != id {
      LastMatchMeaning(id, others, n - 1);
    }
  }

  /// The map built by the outer loop of `calc_sequences` after its first `n`
  /// rounds: pipe P maps to the last pipe Q with `thisIds[P] == otherIds[Q]`.
  function SequenceMapUpTo(thisIds: seq<DeviceId>, otherIds: seq<DeviceId>, n: nat): map<PipeIndex, PipeIndex>
    requires n <= |thisIds|
  {
    if n == 0 then map[]
    else WithRow(SequenceMapUpTo(thisIds, otherIds, n - 1), n - 1, LastMatch(thisIds[n - 1], otherIds, |otherIds|))
  }

  /// Enter the successor found for pipe `i`, if any.
  function WithRow(m: map<PipeIndex, PipeIndex>, i: nat, found: Option<nat>): map<PipeIndex, PipeIndex>
  {
    match found
    case None => m
    case Some(q) => m[PipeIndex(i) := PipeIndex(q)]
  }

  /// A later match replaces whatever the row held.
  lemma Overwrite(m: map<PipeIndex, PipeIndex>, i: nat, found: Option<nat>, j: nat)
    ensures WithRow(m, i, found)[PipeIndex(i) := PipeIndex(j)] == WithRow(m, i, Some(j))
  {
  }

  /// A finished inner loop completes round `i` of the outer loop.
  lemma OuterStep(thisIds: seq<DeviceId>, otherIds: seq<DeviceId>, i: nat,
                  m: map<PipeIndex, PipeIndex>, found: Option<nat>)
    requires i < |thisIds|
    requires m == SequenceMapUpTo(thisIds, otherIds, i)
    requires found == LastMatch(thisIds[i], otherIds, |otherIds|)
    ensures WithRow(m, i, found) == SequenceMapUpTo(thisIds, otherIds, i + 1)
  {
  }

  function SequenceMap(thisIds: seq<DeviceId>, otherIds: seq<DeviceId>): map<PipeIndex, PipeIndex>
  {
    SequenceMapUpTo(thisIds, otherIds, |thisIds|)
  }

  /// Pipe p is a key of the map after n rounds exactly when p is one of the
  /// first n pipes and has a match; its value is the last match.
  lemma {:induction false} SequenceMapUpToAt(thisIds: seq<DeviceId>, otherIds: seq<DeviceId>, n: nat, p: PipeIndex)
    requires n <= |thisIds|
    ensures p in SequenceMapUpTo(thisIds, otherIds, n) <==>
              p.slot < n && LastMatch(thisIds[p.slot], otherIds, |otherIds|).Some?
    ensures p in SequenceMapUpTo(thisIds, otherIds, n) ==>
              SequenceMapUpTo(thisIds, otherIds, n)[p] == PipeIndex(LastMatch(thisIds[p.slot], otherIds, |otherIds|).value)
  {
    if n > 0 {
      SequenceMapUpToAt(thisIds, otherIds, n - 1, p);
    }
  }

  /// What the sequence map means: P has a successor exactly when some pipe's
  /// identity matches P's, the successor Q matches, and no pipe after Q does
  /// (the last match wins).
  lemma SequenceMapMeaning(thisIds: seq<DeviceId>, otherIds: seq<DeviceId>, p: PipeIndex)
    ensures p in SequenceMap(thisIds, otherIds) <==>
              p.slot < |thisIds| && exists q :: 0 <= q < |otherIds| && otherIds[q] == thisIds[p.slot]
    ensures p in SequenceMap(thisIds, otherIds) ==>
              var q := SequenceMap(thisIds, otherIds)[p].slot;
              q < |otherIds| && otherIds[q] == thisIds[p.slot] &&
              forall q' :: q < q' < |otherIds| ==> otherIds[q'] != thisIds[p.slot]
  {
    SequenceMapUpToAt(thisIds, otherIds, |thisIds|, p);
    if p.slot < |thisIds| {
      LastMatchMeaning(thisIds[p.slot], otherIds, |otherIds|);
    }
  }

  // ---------------------------------------------------------------------------
  // Identities along the pipes

  predicate Wired(pipes: seq<SamplePipe>, inputCount: nat, outputCount: nat)
  {
    forall i :: 0 <= i < |pipes| ==>
      pipes[i].inputs.slot < inputCount && pipes[i].outputs.slot < outputCount
  }

  /// The identity of the sink each pipe writes into.
  function SinkIds(pipes: seq<SamplePipe>, inputs: seq<Device>): (r: seq<DeviceId>)
    requires forall i :: 0 <= i < |pipes| ==> pipes[i].inputs.slot < |inputs|
    ensures |r| == |pipes|
  {
    seq(|pipes|, i requires 0 <= i < |pipes| => inputs[pipes[i].inputs.slot].id)
  }

  /// The identity of the source each pipe reads from.
  function SourceIds(pipes: seq<SamplePipe>, outputs: seq<Device>): (r: seq<DeviceId>)
    requires forall i :: 0 <= i < |pipes| ==> pipes[i].outputs.slot < |outputs|
    ensures |r| == |pipes|
  {
    seq(|pipes|, i requires 0 <= i < |pipes| => outputs[pipes[i].outputs.slot].id)
  }

  /// The intended rule: pipe P precedes pipe Q when the sink P writes into is
  /// the same device as the source Q reads from.
  function Sequences(pipes: seq<SamplePipe>, inputs: seq<Device>, outputs: seq<Device>): map<PipeIndex, PipeIndex>
    requires Wired(pipes, |inputs|, |outputs|)
  {
    SequenceMap(SinkIds(pipes, inputs), SourceIds(pipes, outputs))
  }

  /// Registering a device never changes the identities along existing pipes.
  lemma IdsKeptByRegistration(pipes: seq<SamplePipe>, inputs: seq<Device>, outputs: seq<Device>,
                              inputs': seq<Device>, outputs': seq<Device>)
    requires Wired(pipes, |inputs|, |outputs|)
    requires |inputs| <= |inputs'| && inputs'[..|inputs|] == inputs
    requires |outputs| <= |outputs'| && outputs'[..|outputs|] == outputs
    ensures Wired(pipes, |inputs'|, |outputs'|)
    ensures SinkIds(pipes, inputs') == SinkIds(pipes, inputs)
    ensures SourceIds(pipes, outputs') == SourceIds(pipes, outputs)
    ensures Sequences(pipes, inputs', outputs') == Sequences(pipes, inputs, outputs)
  {
    forall i | 0 <= i < |pipes|
      ensures SinkIds(pipes, inputs')[i] == SinkIds(pipes, inputs)[i]
      ensures SourceIds(pipes, outputs')[i] == SourceIds(pipes, outputs)[i]
    {
      assert inputs'[pipes[i].inputs.slot] == inputs'[..|inputs|][pipes[i].inputs.slot];
      assert outputs'[pipes[i].outputs.slot] == outputs'[..|outputs|][pipes[i].outputs.slot];
    }
  }

  // ---------------------------------------------------------------------------
  // The Linker

  class Linker {
    /// `output_devices`: the sources, by slot.
    var outputs: seq<Device>
    /// `input_devices`: the sinks, by slot.
    var inputs: seq<Device>
    var pipes: seq<SamplePipe>
    var sequences: map<PipeIndex, PipeIndex>

    /// Each arena holds devices of its role, every pipe's handles resolve,
    /// and the sequence map is the one derived from the current pipes.
    ghost predicate Valid()
      reads this
    {
      && (forall i :: 0 <= i < |outputs| ==> IsSource(outputs[i]))
      && (forall i :: 0 <= i < |inputs| ==> IsSink(inputs[i]))
      && Wired(pipes, |inputs|, |outputs|)
      && sequences == Sequences(pipes, inputs, outputs)
    }

    /// `Linker::new`.
    constructor ()
      ensures Valid()
      ensures outputs == [] && inputs == [] && pipes == [] && sequences == map[]
    {
      outputs, inputs, pipes, sequences := [], [], [], map[];
    }

    /// `get_next`: the successor the sequence map records for a pipe.
    function GetNext(actual: PipeIndex): (r: Option<PipeIndex>)
      reads this
      ensures r.Some? <==> actual in sequences
      ensures r.Some? ==> r.value == sequences[actual]
    {
      if actual in sequences then Some(sequences[actual]) else None
    }

    /// `get_pipe`: the pipe behind a handle, if the handle resolves.
    function GetPipe(idx: PipeIndex): (r: Option<SamplePipe>)
      reads this
      ensures r.Some? <==> idx.slot < |pipes|
      ensures r.Some? ==> r.value == pipes[idx.slot]
    {
      if idx.slot < |pipes| then Some(pipes[idx.slot]) else None
    }

    /// `register_input`: one more sink; its handle resolves to it.
    method RegisterInput(input: Device) returns (h: InputIndex)
      requires Valid() && IsSink(input)
      modifies this`inputs
      ensures Valid()
      ensures inputs == old(inputs) + [input]
      ensures h == InputIndex(|old(inputs)|) && h.slot < |inputs| && inputs[h.slot] == input
      ensures outputs == old(outputs) && pipes == old(pipes) && sequences == old(sequences)
    {
      IdsKeptByRegistration(pipes, inputs, outputs, inputs + [input], outputs);
      h := InputIndex(|inputs|);
      inputs := inputs + [input];
    }

    /// `register_output`: one more source; its handle resolves to it.
    method RegisterOutput(output: Device) returns (h: OutputIndex)
      requires Valid() && IsSource(output)
      modifies this`outputs
      ensures Valid()
      ensures outputs == old(outputs) + [output]
      ensures h == OutputIndex(|old(outputs)|) && h.slot < |outputs| && outputs[h.slot] == output
      ensures inputs == old(inputs) && pipes == old(pipes) && sequences == old(sequences)
    {
      IdsKeptByRegistration(pipes, inputs, outputs, inputs, outputs + [output]);
      h := OutputIndex(|outputs|);
      outputs := outputs + [output];
    }

    /// `calc_sequences`: clear the map, then for every ordered pair of pipes
    /// (P, Q) record P -> Q when P's sink is Q's source; a later Q overwrites.
    method CalcSequences()
      requires Wired(pipes, |inputs|, |outputs|)
      modifies this`sequences
      ensures sequences == Sequences(pipes, inputs, outputs)
    {
      ghost var sinkIds := SinkIds(pipes, inputs);
      ghost var sourceIds := SourceIds(pipes, outputs);
      var pipes, inputs, outputs := this.pipes, this.inputs, this.outputs;
      sequences := map[];
      var i := 0;
      while i < |pipes|
        invariant 0 <= i <= |pipes|
        invariant sequences == SequenceMapUpTo(sinkIds, sourceIds, i)
      {
        var thisId := inputs[pipes[i].inputs.slot].id;
        assert thisId == sinkIds[i];
        ghost var before := sequences;
        ghost var found: Option<nat> := None;
        var j := 0;
        while j < |pipes|
          invariant 0 <= j <= |pipes|
          invariant found == LastMatch(thisId, sourceIds, j)
          invariant sequences == WithRow(before, i, found)
        {
          var otherId := outputs[pipes[j].outputs.slot].id;
          assert otherId == sourceIds[j];
          if thisId == otherId {
            Overwrite(before, i, found, j);
            sequences := sequences[PipeIndex(i) := PipeIndex(j)];
            found := Some(j);
          }
          j := j + 1;
        }
        OuterStep(sinkIds, sourceIds, i, before, found);
        i := i + 1;
      }
    }

    /// `pipe(output_idx, input_idx)`: the input handle is checked first, then
    /// the output handle; on success one pipe is added and the sequence map
    /// is rebuilt over all pipes.
    method Pipe(outputIdx: OutputIndex, inputIdx: InputIndex) returns (r: Result<PipeIndex, LinkerError>)
      requires Valid()
      modifies this`pipes, this`sequences
      ensures Valid()
      ensures inputs == old(inputs) && outputs == old(outputs)
      ensures inputIdx.slot >= |inputs| ==>
                r == Err(InvalideInput(inputIdx)) && pipes == old(pipes) && sequences == old(sequences)
      ensures inputIdx.slot < |inputs| && outputIdx.slot >= |outputs| ==>
                r == Err(InvalideOutput(outputIdx)) && pipes == old(pipes) && sequences == old(sequences)
      ensures inputIdx.slot < |inputs| && outputIdx.slot < |outputs| ==>
                && r == Ok(PipeIndex(|old(pipes)|))
                && pipes == old(pipes) + [SamplePipe(inputIdx, outputIdx,
                     PipeBuffer(NbrChannel(inputs[inputIdx.slot]), NbrChannel(outputs[outputIdx.slot])))]
                && sequences == Sequences(pipes, inputs, outputs)
    {
      if inputIdx.slot >= |inputs| {
        return Err(InvalideInput(inputIdx));
      }
      if outputIdx.slot >= |outputs| {
        return Err(InvalideOutput(outputIdx));
      }
      var buffer := PipeBuffer(NbrChannel(inputs[inputIdx.slot]), NbrChannel(outputs[outputIdx.slot]));
      pipes := pipes + [SamplePipe(inputIdx, outputIdx, buffer)];
      CalcSequences();
      r := Ok(PipeIndex(|pipes| - 1));
    }

    // -------------------------------------------------------------------------
    // bind

    function SourceOf(idx: PipeIndex): Device
      reads this
      requires Valid() && idx.slot < |pipes|
    {
      outputs[pipes[idx.slot].outputs.slot]
    }

    function SinkOf(idx: PipeIndex): Device
      reads this
      requires Valid() && idx.slot < |pipes|
    {
      inputs[pipes[idx.slot].inputs.slot]
    }

    /// What `bind` may write: the sink's channel 0 and channel 1 buffers.
    function SinkFrame(idx: PipeIndex): set<array<Sample>>
      reads this
      requires Valid()
    {
      if idx.slot < |pipes| then WriteFrame(SinkOf(idx), 0) + WriteFrame(SinkOf(idx), 1) else {}
    }

    /// The buffers whose read guards `bind` keeps until it returns: the
    /// source's channel 0 and channel 1 buffers.
    function SourceFrame(idx: PipeIndex): set<array<Sample>>
      reads this
      requires Valid()
    {
      if idx.slot < |pipes| then ReadFrame(SourceOf(idx), 0) + ReadFrame(SourceOf(idx), 1) else {}
    }

    /// The conditions under which `bind` on a resolving pipe neither panics
    /// nor blocks: both source channels can be read, there are two scratch
    /// slices, the sink accepts them, and no buffer the sink writes is one
    /// whose read guard is still held (a pipe from a paired buffer into
    /// itself would ask for a write lock its own thread holds for reading).
    ghost predicate BindDefined(idx: PipeIndex, tmp: seq<Block>)
      reads this
      requires Valid()
    {
      idx.slot < |pipes| ==>
        && CanRead(SourceOf(idx), 0) && CanRead(SourceOf(idx), 1)
        && |tmp| >= 2
        && CanWrite(SinkOf(idx), tmp[0], 0) && CanWrite(SinkOf(idx), tmp[1], 1)
        && SourceFrame(idx) !! SinkFrame(idx)
    }

    /// The two source blocks `bind` reads.
    function SourceBlocks(idx: PipeIndex): (r: seq<Block>)
      reads this, Buffers(SourceOf(idx))
      requires Valid() && idx.slot < |pipes|
      requires CanRead(SourceOf(idx), 0) && CanRead(SourceOf(idx), 1)
    {
      [Read(SourceOf(idx), 0).value, Read(SourceOf(idx), 1).value]
    }

    /// After the two writes of `bind`, the paired sink holds the right scratch
    /// slice on channel 1, and on channel 0 the left slice, unless channel 0
    /// and channel 1 are the same buffer, in which case it is the right slice
    /// too.
    ghost predicate Delivered(sink: Device, scratch: seq<Block>)
      reads Buffers(sink)
      requires sink.VstBuffered? && |sink.slots| >= 2 && |scratch| >= 2
    {
      && sink.slots[1][..] == scratch[1]
      && sink.slots[0][..] == (if sink.slots[0] == sink.slots[1] then scratch[1] else scratch[0])
    }

    /// `bind(idx, tmp, process)`: on an unknown pipe, fail with `InvalidePipe`
    /// before anything else. Otherwise read the source's channels 0 and 1,
    /// call `process` once with them, the scratch slices and the sink's
    /// `parent_vst()`, write the scratch slices into sink channels 0 and 1,
    /// and return the pipe's successor in the sequence map.
    method Bind(idx: PipeIndex, tmp: seq<Block>, process: Callback)
      returns (r: Result<Option<PipeIndex>, LinkerError>, scratch: seq<Block>)
      requires Valid() && PreservesShape(process) && BindDefined(idx, tmp)
      modifies SinkFrame(idx)
      ensures idx.slot >= |pipes| ==> r == Err(InvalidePipe(idx)) && scratch == tmp
      ensures idx.slot < |pipes| ==>
                && r == Ok(GetNext(idx))
                && scratch == process(old(SourceBlocks(idx)), tmp, ParentVst(SinkOf(idx)))
                && Shape(scratch) == Shape(tmp)
      ensures idx.slot < |pipes| && SinkOf(idx).VstBuffered? ==> Delivered(SinkOf(idx), scratch)
      ensures idx.slot < |pipes| ==> SourceBlocks(idx) == old(SourceBlocks(idx))
    {
      if idx.slot >= |pipes| {
        return Err(InvalidePipe(idx)), tmp;
      }
      var pipe := pipes[idx.slot];
      var source := outputs[pipe.outputs.slot];
      var sink := inputs[pipe.inputs.slot];
      var vst := ParentVst(sink);
      var left := Read(source, 0);
      var right := Read(source, 1);
      scratch := process([left.value, right.value], tmp, vst);
      assert Shape(scratch) == Shape(tmp);
      assert |scratch[0]| == Shape(scratch)[0] && |scratch[1]| == Shape(scratch)[1];
      Write(sink, scratch[0], 0);
      Write(sink, scratch[1], 1);
      r := Ok(GetNext(idx));
    }
  }
}

/// `calc_sequences` as the source writes it, beside the rule the rest of the
/// model uses, and the topologies that tell them apart.
module SequenceRules {
  import opened Common
  import opened Devices
  import opened Linking

  /// The literal lookups succeed: each pipe's sink handle names a slot of the
  /// SOURCE arena and its source handle a slot of the SINK arena.
  predicate LiteralResolves(pipes: seq<SamplePipe>, inputs: seq<Device>, outputs: seq<Device>)
  {
    forall i :: 0 <= i < |pipes| ==> pipes[i].inputs.slot < |outputs| && pipes[i].outputs.slot < |inputs|
  }

  /// `this_id` per pipe: `output_devices[this_pipe.inputs]`.
  function LiteralThisIds(pipes: seq<SamplePipe>, outputs: seq<Device>): (r: seq<DeviceId>)
    requires forall i :: 0 <= i < |pipes| ==> pipes[i].inputs.slot < |outputs|
    ensures |r| == |pipes|
  {
    seq(|pipes|, i requires 0 <= i < |pipes| => outputs[pipes[i].inputs.slot].id)
  }

  /// `other_id` per pipe: `input_devices[other_pipe.outputs]`.
  function LiteralOtherIds(pipes: seq<SamplePipe>, inputs: seq<Device>): (r: seq<DeviceId>)
    requires forall i :: 0 <= i < |pipes| ==> pipes[i].outputs.slot < |inputs|
    ensures |r| == |pipes|
  {
    seq(|pipes|, i requires 0 <= i < |pipes| => inputs[pipes[i].outputs.slot].id)
  }

  /// The cross-arena rule of `calc_sequences` as written. A handle that
  /// misses its slot panics there (None).
  function LiteralSequences(pipes: seq<SamplePipe>, inputs: seq<Device>, outputs: seq<Device>)
    : (r: Option<map<PipeIndex, PipeIndex>>)
    ensures r.Some? <==> LiteralResolves(pipes, inputs, outputs)
  {
    if LiteralResolves(pipes, inputs, outputs)
    then Some(SequenceMap(LiteralThisIds(pipes, outputs), LiteralOtherIds(pipes, inputs)))
    else None
  }

  /// A pipe from source slot `output` into sink slot `input`.
  function MkPipe(input: nat, output: nat): SamplePipe
  {
    SamplePipe(InputIndex(input), OutputIndex(output), PipeBuffer(2, 2))
  }

  // A file source (id 1), a plugin (plugin id 2, paired device id 3) and a
  // logger (id 4), registered so that the plugin's two slots differ:
  // sources [file, plugin], sinks [plugin, logger], pipes file -> plugin and
  // plugin -> logger.

  function SkewedOutputs(): seq<Device>
  {
    [Asset(DeviceId(1), [], 0, []), VstBuffered(DeviceId(3), VstId(2), [])]
  }

  function SkewedInputs(): seq<Device>
  {
    [VstBuffered(DeviceId(3), VstId(2), []), Logger(DeviceId(4), [])]
  }

  function SkewedPipes(): seq<SamplePipe>
  {
    [MkPipe(0, 0), MkPipe(1, 1)]
  }

  /// On the skewed registration the intended rule chains pipe 0 to pipe 1;
  /// the rule as written chains pipe 1 back to pipe 0 and leaves pipe 0, the
  /// entry of the chain, without a successor.
  lemma LiteralRuleMisorders()
    ensures Sequences(SkewedPipes(), SkewedInputs(), SkewedOutputs()) == map[PipeIndex(0) := PipeIndex(1)]
    ensures LiteralSequences(SkewedPipes(), SkewedInputs(), SkewedOutputs()) == Some(map[PipeIndex(1) := PipeIndex(0)])
  {
    var pipes, inputs, outputs := SkewedPipes(), SkewedInputs(), SkewedOutputs();
    assert SinkIds(pipes, inputs) == [DeviceId(3), DeviceId(4)];
    assert SourceIds(pipes, outputs) == [DeviceId(1), DeviceId(3)];
    assert LiteralResolves(pipes, inputs, outputs);
    assert LiteralThisIds(pipes, outputs) == [DeviceId(1), DeviceId(3)];
    assert LiteralOtherIds(pipes, inputs) == [DeviceId(3), DeviceId(4)];
    MisorderIds();
  }

  lemma MisorderIds()
    ensures SequenceMap([DeviceId(3), DeviceId(4)], [DeviceId(1), DeviceId(3)]) == map[PipeIndex(0) := PipeIndex(1)]
    ensures SequenceMap([DeviceId(1), DeviceId(3)], [DeviceId(3), DeviceId(4)]) == map[PipeIndex(1) := PipeIndex(0)]
  {
    assert LastMatch(DeviceId(4), [DeviceId(1), DeviceId(3)], 2) == None;
    assert LastMatch(DeviceId(1), [DeviceId(3), DeviceId(4)], 2) == None;
    assert LastMatch(DeviceId(3), [DeviceId(1), DeviceId(3)], 2) == Some(1);
    assert LastMatch(DeviceId(3), [DeviceId(3), DeviceId(4)], 2) == Some(0);
    assert SequenceMapUpTo([DeviceId(3), DeviceId(4)], [DeviceId(1), DeviceId(3)], 1) ==
           map[PipeIndex(0) := PipeIndex(1)];
    assert SequenceMapUpTo([DeviceId(1), DeviceId(3)], [DeviceId(3), DeviceId(4)], 1) == map[];
  }

  // The engine's own test topology (engine/src/lib.rs): the hardware output
  // draws id 1, then the file (2) and the logger (3) are registered, then two
  // plugins with plugin ids 4 and 6 and paired buffers 5 and 7. Sources
  // [file, A, B], sinks [logger, A, B]; pipes file -> A, A -> B, B -> logger.

  function DemoOutputs(): seq<Device>
  {
    [Asset(DeviceId(2), [], 0, []), VstBuffered(DeviceId(5), VstId(4), []), VstBuffered(DeviceId(7), VstId(6), [])]
  }

  function DemoInputs(): seq<Device>
  {
    [Logger(DeviceId(3), []), VstBuffered(DeviceId(5), VstId(4), []), VstBuffered(DeviceId(7), VstId(6), [])]
  }

  function DemoPipes(): seq<SamplePipe>
  {
    [MkPipe(1, 0), MkPipe(2, 1), MkPipe(0, 2)]
  }

  /// Here the slots line up, both rules agree, and the chain is
  /// 0 -> 1 -> 2 with no successor after pipe 2.
  lemma DemoChain()
    ensures Sequences(DemoPipes(), DemoInputs(), DemoOutputs()) ==
            map[PipeIndex(0) := PipeIndex(1), PipeIndex(1) := PipeIndex(2)]
    ensures LiteralSequences(DemoPipes(), DemoInputs(), DemoOutputs()) ==
            Some(Sequences(DemoPipes(), DemoInputs(), DemoOutputs()))
  {
    var pipes, inputs, outputs := DemoPipes(), DemoInputs(), DemoOutputs();
    assert SinkIds(pipes, inputs) == [DeviceId(5), DeviceId(7), DeviceId(3)];
    assert SourceIds(pipes, outputs) == [DeviceId(2), DeviceId(5), DeviceId(7)];
    assert LiteralResolves(pipes, inputs, outputs);
    assert LiteralThisIds(pipes, outputs) == [DeviceId(5), DeviceId(7), DeviceId(2)];
    assert LiteralOtherIds(pipes, inputs) == [DeviceId(3), DeviceId(5), DeviceId(7)];
    DemoChainIds();
  }

  lemma DemoChainIds()
    ensures var m := map[PipeIndex(0) := PipeIndex(1), PipeIndex(1) := PipeIndex(2)];
            && SequenceMap([DeviceId(5), DeviceId(7), DeviceId(3)], [DeviceId(2), DeviceId(5), DeviceId(7)]) == m
            && SequenceMap([DeviceId(5), DeviceId(7), DeviceId(2)], [DeviceId(3), DeviceId(5), DeviceId(7)]) == m
  {
    var sinkIds := [DeviceId(5), DeviceId(7), DeviceId(3)];
    var sourceIds := [DeviceId(2), DeviceId(5), DeviceId(7)];
    var thisIds := [DeviceId(5), DeviceId(7), DeviceId(2)];
    var otherIds := [DeviceId(3), DeviceId(5), DeviceId(7)];
    var m := map[PipeIndex(0) := PipeIndex(1), PipeIndex(1) := PipeIndex(2)];
    assert LastMatch(DeviceId(5), sourceIds, |sourceIds|) == Some(1);
    assert LastMatch(DeviceId(7), sourceIds, |sourceIds|) == Some(2);
    assert LastMatch(DeviceId(3), sourceIds, |sourceIds|) == None;
    assert SequenceMapUpTo(sinkIds, sourceIds, 1) == map[PipeIndex(0) := PipeIndex(1)];
    assert SequenceMapUpTo(sinkIds, sourceIds, 2) == m;
    assert LastMatch(DeviceId(5), otherIds, |otherIds|) == Some(1);
    assert LastMatch(DeviceId(7), otherIds, |otherIds|) == Some(2);
    assert LastMatch(DeviceId(2), otherIds, |otherIds|) == None;
    assert SequenceMapUpTo(thisIds, otherIds, 1) == map[PipeIndex(0) := PipeIndex(1)];
    assert SequenceMapUpTo(thisIds, otherIds, 2) == m;
  }
}
