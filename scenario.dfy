/// The engine's own end-to-end test (engine/src/lib.rs): the hardware output
/// fixes the block size, a file-backed source and the logger are registered,
/// two plugins are loaded, and the chain file -> A -> B -> logger is walked
/// with a closure that hands the bound buffer to the plugin the sink names.
/// Both plugins here are gains of 2.
module Scenario {
  import opened Common
  import opened Devices
  import Ids
  import opened Linking
  import opened Plugins
  import SequenceRules

  function Doubled(b: Block): (r: Block)
    ensures |r| == |b| && forall i :: 0 <= i < |b| ==> r[i] == 2 * b[i]
  {
    seq(|b|, i requires 0 <= i < |b| => 2 * b[i])
  }

  /// The closure of the engine's test: when the sink belongs to a plugin, the
  /// plugin processes the bound buffer, reading the source blocks and writing
  /// the scratch slices (a gain of 2 here); otherwise nothing happens and the
  /// scratch slices keep what they held.
  function GainClosure(sources: seq<Block>, tmp: seq<Block>, vst: Option<VstId>): seq<Block>
  {
    seq(|tmp|, k requires 0 <= k < |tmp| =>
      if vst.Some? && k < |sources| && |sources[k]| == |tmp[k]| then Doubled(sources[k]) else tmp[k])
  }

  lemma GainClosurePreservesShape()
    ensures PreservesShape(GainClosure)
  {
    forall sources, tmp, vst
      ensures Shape(GainClosure(sources, tmp, vst)) == Shape(tmp)
    {
      var out := GainClosure(sources, tmp, vst);
      assert forall k :: 0 <= k < |tmp| ==> |out[k]| == |tmp[k]|;
    }
  }

  /// The decoded sample file of the test.
  function Media(): Block
  {
    [1, 2, 3, 4, 5, 6]
  }

  /// The hardware output negotiated 200 Hz on 2 channels: blocks of
  /// 200 / 100 * 2 = 4 samples.
  function MainFormat(): Format
  {
    Format(200, 2)
  }

  lemma MainBlockSize()
    ensures BlockSizeFits(MainFormat()) && GetBlockSize(MainFormat()) == 4
  {
  }

  /// What the two plugins leave in the scratch slices: the file's block
  /// doubled, then that block doubled again.
  lemma GainSteps(tmp: seq<Block>)
    requires Shape(tmp) == [4, 4]
    ensures GainClosure([[1, 2, 3, 4], [1, 2, 3, 4]], tmp, Some(VstId(4))) == [[2, 4, 6, 8], [2, 4, 6, 8]]
    ensures GainClosure([[2, 4, 6, 8], [2, 4, 6, 8]], tmp, Some(VstId(6))) == [[4, 8, 12, 16], [4, 8, 12, 16]]
  {
    assert |tmp[0]| == Shape(tmp)[0] && |tmp[1]| == Shape(tmp)[1];
    assert Doubled([1, 2, 3, 4]) == [2, 4, 6, 8];
    assert Doubled([2, 4, 6, 8]) == [4, 8, 12, 16];
  }

  /// The first half of the test's registration: the hardware output draws
  /// id 1 and gives the block size; the file (2) is registered as a source
  /// and the logger (3) as a sink.
  method RegisterEnds() returns (ids: Ids.IdSource, linker: Linker, bsize: nat,
                                 mediaOutput: OutputIndex, logInput: InputIndex)
    ensures fresh(ids) && fresh(linker)
    ensures ids.last == 3 && bsize == 4
    ensures linker.Valid() && linker.pipes == []
    ensures linker.outputs == [Asset(DeviceId(2), Media(), 4, [1, 2, 3, 4])]
    ensures linker.inputs == [Logger(DeviceId(3), Zeros(4))]
    ensures mediaOutput == OutputIndex(0) && logInput == InputIndex(0)
  {
    ids := new Ids.IdSource();
    var mainOutput := NewSysOutput(ids, MainFormat());
    MainBlockSize();
    bsize := BlockSize(mainOutput);
    linker := new Linker();
    assert Media()[..4] == [1, 2, 3, 4];
    var file := NewAsset(ids, Media(), bsize);
    mediaOutput := linker.RegisterOutput(file);
    var logger := NewLogger(ids, bsize);
    logInput := linker.RegisterInput(logger);
  }

  /// Registration as the test does it: after the file and the logger, two
  /// plugins are loaded (plugin ids 4 and 6, paired buffers 5 and 7).
  method Register() returns (linker: Linker, mediaOutput: OutputIndex, logInput: InputIndex,
                             plug: VstPlugin, plug2: VstPlugin)
    ensures fresh(linker) && linker.Valid() && linker.pipes == []
    ensures mediaOutput == OutputIndex(0) && logInput == InputIndex(0)
    ensures plug.GetInputs() == InputIndex(1) && plug.GetOutputs() == OutputIndex(1)
    ensures plug2.GetInputs() == InputIndex(2) && plug2.GetOutputs() == OutputIndex(2)
    ensures |linker.outputs| == 3 && |linker.inputs| == 3
    ensures linker.outputs[0] == Asset(DeviceId(2), Media(), 4, [1, 2, 3, 4])
    ensures linker.inputs[0] == Logger(DeviceId(3), Zeros(4))
    ensures linker.outputs[1] == linker.inputs[1] && linker.outputs[2] == linker.inputs[2]
    ensures PairedBuffer(linker.inputs[1], DeviceId(5), VstId(4), 4)
    ensures PairedBuffer(linker.inputs[2], DeviceId(7), VstId(6), 4)
    ensures fresh(linker.inputs[1].slots[0]) && fresh(linker.inputs[2].slots[0])
    ensures linker.inputs[1].slots[0] != linker.inputs[2].slots[0]
  {
    var ids, bsize;
    ids, linker, bsize, mediaOutput, logInput := RegisterEnds();
    plug := Init(ids, bsize, linker);
    plug2 := Init(ids, bsize, linker);
  }

  /// The graph the test has wired: sources [file, A, B], sinks [logger, A, B],
  /// where A and B are the paired buffers of the two plugins, each with both
  /// channel slots on one buffer (`a` and `b`); pipes file -> A, A -> B and
  /// B -> logger, chained 0 -> 1 -> 2.
  ghost predicate Chain(linker: Linker, a: array<Sample>, b: array<Sample>)
    reads linker
  {
    && linker.Valid()
    && a != b && a.Length == 4 && b.Length == 4
    && linker.outputs == [Asset(DeviceId(2), Media(), 4, [1, 2, 3, 4]),
                          VstBuffered(DeviceId(5), VstId(4), [a, a]), VstBuffered(DeviceId(7), VstId(6), [b, b])]
    && |linker.inputs| == 3 && linker.inputs[0].Logger?
    && linker.inputs[1] == linker.outputs[1] && linker.inputs[2] == linker.outputs[2]
    && |linker.pipes| == 3
    && linker.pipes[0].outputs.slot == 0 && linker.pipes[0].inputs.slot == 1
    && linker.pipes[1].outputs.slot == 1 && linker.pipes[1].inputs.slot == 2
    && linker.pipes[2].outputs.slot == 2 && linker.pipes[2].inputs.slot == 0
    && linker.sequences == map[PipeIndex(0) := PipeIndex(1), PipeIndex(1) := PipeIndex(2)]
  }

  /// The three pipes of the test, each of which succeeds: the sequence map
  /// is then 0 -> 1 -> 2.
  method Wire() returns (linker: Linker, entry: Result<PipeIndex, LinkerError>, a: array<Sample>, b: array<Sample>)
    ensures fresh(linker) && fresh(a) && fresh(b)
    ensures entry == Ok(PipeIndex(0))
    ensures Chain(linker, a, b)
  {
    var mediaOutput, logInput, plug, plug2;
    linker, mediaOutput, logInput, plug, plug2 := Register();
    entry := linker.Pipe(mediaOutput, plug.GetInputs());
    var middle := linker.Pipe(plug.GetOutputs(), plug2.GetInputs());
    var exit := linker.Pipe(plug2.GetOutputs(), logInput);
    assert SinkIds(linker.pipes, linker.inputs) == [DeviceId(5), DeviceId(7), DeviceId(3)];
    assert SourceIds(linker.pipes, linker.outputs) == [DeviceId(2), DeviceId(5), DeviceId(7)];
    SequenceRules.DemoChainIds();
    a, b := linker.inputs[1].slots[0], linker.inputs[2].slots[0];
    assert linker.inputs[1].slots == [a, a];
    assert linker.inputs[2].slots == [b, b];
  }

  /// `bind` on pipe 0 (file -> A): plugin A doubles the file's first block,
  /// A's buffer receives it, and pipe 1 is next.
  method FirstHop(linker: Linker, a: array<Sample>, b: array<Sample>, tmp: seq<Block>)
    returns (r: Result<Option<PipeIndex>, LinkerError>, scratch: seq<Block>)
    requires Chain(linker, a, b) && Shape(tmp) == [4, 4]
    modifies a
    ensures r == Ok(Some(PipeIndex(1)))
    ensures a[..] == [2, 4, 6, 8] && Shape(scratch) == [4, 4]
  {
    GainClosurePreservesShape();
    assert linker.SinkFrame(PipeIndex(0)) == {a};
    assert linker.SourceBlocks(PipeIndex(0)) == [[1, 2, 3, 4], [1, 2, 3, 4]];
    GainSteps(tmp);
    r, scratch := linker.Bind(PipeIndex(0), tmp, GainClosure);
  }

  /// `bind` on pipe 1 (A -> B): plugin B doubles A's block, B's buffer
  /// receives it, and pipe 2 is next.
  method SecondHop(linker: Linker, a: array<Sample>, b: array<Sample>, tmp: seq<Block>)
    returns (r: Result<Option<PipeIndex>, LinkerError>, scratch: seq<Block>)
    requires Chain(linker, a, b) && Shape(tmp) == [4, 4] && a[..] == [2, 4, 6, 8]
    modifies b
    ensures r == Ok(Some(PipeIndex(2)))
    ensures scratch == [[4, 8, 12, 16], [4, 8, 12, 16]]
  {
    GainClosurePreservesShape();
    assert linker.SourceFrame(PipeIndex(1)) == {a};
    assert linker.SinkFrame(PipeIndex(1)) == {b};
    assert linker.SourceBlocks(PipeIndex(1)) == [[2, 4, 6, 8], [2, 4, 6, 8]];
    GainSteps(tmp);
    r, scratch := linker.Bind(PipeIndex(1), tmp, GainClosure);
  }

  /// `bind` on pipe 2 (B -> logger): the logger names no plugin, so the
  /// closure leaves the scratch slices alone, and the chain ends.
  method LastHop(linker: Linker, a: array<Sample>, b: array<Sample>, tmp: seq<Block>)
    returns (r: Result<Option<PipeIndex>, LinkerError>, scratch: seq<Block>)
    requires Chain(linker, a, b) && |tmp| == 2 && |tmp[0]| >= 4 && |tmp[1]| >= 4
    ensures r == Ok(None) && scratch == tmp
  {
    GainClosurePreservesShape();
    assert GainClosure(linker.SourceBlocks(PipeIndex(2)), tmp, None) == tmp;
    r, scratch := linker.Bind(PipeIndex(2), tmp, GainClosure);
  }

  /// Walk the chain from the entry pipe, with scratch slices of zeros. Each
  /// `bind` names the next pipe until the last one ends the chain. Plugin A
  /// doubles the file's first block into its buffer, plugin B doubles that
  /// into its own, and the logger's pipe has no plugin, so the logger gets
  /// what B's closure call left in the scratch slices.
  method GainChain() returns (first: Result<Option<PipeIndex>, LinkerError>,
                              second: Result<Option<PipeIndex>, LinkerError>,
                              last: Result<Option<PipeIndex>, LinkerError>,
                              heard: Block)
    ensures first == Ok(Some(PipeIndex(1)))
    ensures second == Ok(Some(PipeIndex(2)))
    ensures last == Ok(None)
    ensures heard == [4, 8, 12, 16]
  {
    var linker, entry, a, b := Wire();
    var scratch := [Zeros(4), Zeros(4)];
    assert Shape(scratch) == [4, 4];
    first, scratch := FirstHop(linker, a, b, scratch);
    second, scratch := SecondHop(linker, a, b, scratch);
    last, scratch := LastHop(linker, a, b, scratch);
    heard := scratch[0];
  }

  /// The closure when no plugin is loaded: it leaves the bound buffer alone.
  function Untouched(sources: seq<Block>, tmp: seq<Block>, vst: Option<VstId>): seq<Block>
  {
    tmp
  }

  /// A file wired straight into the logger, run once with a closure that does
  /// nothing: the chain ends after this pipe, and the logger receives the
  /// scratch slices as the caller passed them (zeros), not the file's block,
  /// because `bind` itself never copies the source into the scratch slices.
  method DirectToLogger() returns (r: Result<Option<PipeIndex>, LinkerError>, heard: Block)
    ensures r == Ok(None)
    ensures heard == Zeros(4) && heard != [1, 2, 3, 4]
  {
    var ids := new Ids.IdSource();
    var linker := new Linker();
    var file := NewAsset(ids, [1, 2, 3, 4], 4);
    var source := linker.RegisterOutput(file);
    var logger := NewLogger(ids, 4);
    var sink := linker.RegisterInput(logger);
    var entry := linker.Pipe(source, sink);
    assert SinkIds(linker.pipes, linker.inputs) == [DeviceId(2)];
    assert SourceIds(linker.pipes, linker.outputs) == [DeviceId(1)];
    assert LastMatch(DeviceId(2), [DeviceId(1)], 1) == None;
    assert SequenceMapUpTo([DeviceId(2)], [DeviceId(1)], 1) == map[];
    assert linker.sequences == map[];
    var scratch := [Zeros(4), Zeros(4)];
    r, scratch := linker.Bind(PipeIndex(0), scratch, Untouched);
    heard := scratch[0];
    assert heard[0] == 0;
  }
}
