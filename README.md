# naama audio-graph linker, in Dafny

This project models the core of the naama audio engine: the **linker**
(`engine/src/supervisor/linker.rs`) and the sample devices whose contracts it
relies on (`engine/src/devices/mod.rs`, `engine/src/loader/vst.rs`, and the
older copies in `src/plugin.rs`, `src/asset.rs`, `src/device.rs`).

The linker holds devices in two arenas:
- sources, which implement `SampleOutput`;
- sinks, which implement `SampleInput`.

A **pipe** connects a source handle to a sink handle. After every new pipe,
`calc_sequences` rebuilds the **sequence map**, which says which pipe runs
after which. The per-block step `bind` does four things:
1. It reads channels 0 and 1 of the pipe's source.
2. It hands the two source blocks, the caller's scratch slices and the sink's
   `parent_vst()` to the caller's `process` closure.
3. It writes scratch slice 0 and scratch slice 1 into sink channels 0 and 1.
4. It returns the pipe that comes next.

The files:
- `common.dfy`: `Option` and `Result`.
- `ids.dfy`: the global id counter `new_id`. It is the class `IdSource`,
  passed explicitly. `Drawn(n)` is the history of ids it has handed out.
  Ids are unique per `IdSource` object. The program has one global counter,
  so a run that shares one `IdSource` gets process-wide uniqueness.
- `devices.dfy`: the four device kinds as one datatype:
  - `SysOutputDevice`;
  - `LoggerSample`;
  - `AssetSampleOutput`;
  - `VstBufferedDevice`, the paired plugin buffer.

  It also holds:
  - what each kind reports (block size, channel count, parent plugin);
  - the source read `SampleOutput::next`, as `Read`;
  - the sink write `SampleInput::next`, as `Write`;
  - the constructors, each of which draws a fresh id.

  A channel buffer of the paired device (`Arc<RwLock<Vec<f32>>>`) is one heap
  `array`. The device registered as a sink and its clone registered as a
  source refer to the same arrays.
- `linker.dfy`, module `Linking`: the `Linker` class. Its fields are the two
  arenas, the pipes and the sequence map. `Valid()` ties the map to the pipes.
  The module also holds the sequence map as a function of device identities
  (`SequenceMap`, `LastMatch`).
- `linker.dfy`, module `SequenceRules`: `calc_sequences` exactly as written,
  with its cross-arena lookups (see Findings). It also holds two topologies:
  one on which the written rule and the intended rule disagree, and the
  engine test's topology, on which they agree.
- `plugin.dfy`: the registration half of `VstPlugin::init`, with
  `get_inputs` and `get_outputs`.
- `scenario.dfy`: end-to-end runs:
  - the engine's test (`engine/src/lib.rs`), in its order. The main output
    (id 1), the file (id 2) and the logger (id 3) come first. Then come two
    gain plugins (plugin ids 4 and 6, buffer ids 5 and 7). The pipes run
    file → A → B → logger, and the chain is walked with a doubling closure;
  - a file wired straight into the logger.

Design points the model makes explicit:
- **Shared channel buffers.** `vec![Arc::new(..); channels]` clones one
  `Arc`, so every channel slot of a paired buffer is the same buffer
  (`engine/src/devices/mod.rs:152`).
  - `NewVstBuffered` promises `Aliased(d)`.
  - `Write` promises that all channels then read the written block.
  - `bind` writes scratch slice 0 to channel 0 and then slice 1 to channel 1.
    Into a paired buffer, both channels therefore end up holding slice 1
    (`Delivered` in `Bind`'s contract).
- **bind does not copy the source into the scratch slices.** The sink receives
  whatever the closure leaves in `tmp` (`engine/src/supervisor/linker.rs:153-156`).
  `Scenario.DirectToLogger` shows this: a file wired straight to the logger,
  with a closure that does nothing, delivers the caller's zeros, not the
  file's samples.
- **The closure is a pure function.** Its inputs are the source blocks, the
  scratch slices and the sink's plugin id. Its output is the new contents of
  the scratch slices. It must keep the number and the lengths of the slices
  (`PreservesShape`), as a `&mut [&mut [f32]]` does.
- **The legacy `src/` tree.** Its devices are the same as the engine's, except
  that ids are plain `u64`. The same Dafny definitions model both trees.
  Some rows of the table below cite the legacy file where the same
  definition covers both trees.
- **The model follows the code on these points:**
  - A file-backed source never runs out: `next` always answers the first
    block.
  - A missing source block is an `expect("EOF")` panic, not an error result.
  - The pipe errors are `InvalideInput`, checked first, and then
    `InvalideOutput`.
  - A file wired straight into a sink does not deliver the file's block
    unless the closure copies it.
  - The sequence map follows the intended rule (pipe P precedes Q when P's
    sink is Q's source). The rule as written in `calc_sequences` is kept
    beside it, in `SequenceRules` (see Findings).

## Model

| member | source | states |
|---|---|---|
| Ids.IdSource.constructor | engine/src/supervisor/linker.rs:53-60 | the counter starts at 0 (the lazily created `RwLock::new(0)`) |
| Ids.IdSource.NewId | engine/src/supervisor/linker.rs:56-65 | the counter goes up by one and that value is returned; it is appended to the history and was never handed out before |
| Ids.DrawnAt | engine/src/supervisor/linker.rs:61-63 | after n draws, n ids were handed out and the k-th is k + 1, so the first is 1 |
| Ids.DrawnStrictlyIncreasing | engine/src/supervisor/linker.rs:53-65 | the ids handed out are strictly increasing, hence pairwise distinct, and the next id is not among them |
| Devices.Zeros | engine/src/devices/mod.rs:72 | `vec![0f32; size]`: `size` samples, all zero |
| Devices.GetSampleRate | engine/src/devices/mod.rs:33-35 | the maximum sample rate of the format; when the block size fits in u32, each channel's share of a block is the rate divided by 100 |
| Devices.GetBlockSize | engine/src/devices/mod.rs:37-40 | `get_block_size` (`rate / 100 * channels` in u32, when it fits) is a whole number of frames of `rate / 100` samples each, and at most 10 ms of audio, within one frame of it |
| Devices.FramesLemma | src/device.rs:28-30 | the legacy `get_block_size` arithmetic: dividing by 100 first gives whole frames, never more than `rate * channels / 100`, and short of it by less than one frame |
| Devices.NewSysOutput | src/device.rs:11-45 | draws a fresh id and keeps the format; `nbr_channel` is 2 whatever the format's channel count, there is no parent plugin, and `block_size()` equals `get_block_size()` |
| Devices.NewLogger | engine/src/devices/mod.rs:63-89 | draws a fresh id; the buffer is `size` zeros, so `block_size() == size`; 2 channels; no parent plugin |
| Devices.NewAsset | engine/src/devices/mod.rs:105-130 | needs at least `block_size` samples; draws a fresh id; the snapshot is the asset's first `block_size` samples; `block_size()` is the argument; 2 channels |
| Devices.NewVstBuffered | engine/src/devices/mod.rs:146-173 | draws a fresh id; `channels` slots that are one fresh zero-filled buffer of `size` samples; `nbr_channel() == channels`, `parent_vst() == Some(vst_id)`, `block_size() == size` |
| Devices.BlockSize | engine/src/devices/mod.rs:47-49 | the main output reports `get_block_size()` (also at `mod.rs:78-80` and `mod.rs:119-121`): the logger its buffer length, the asset the size it was built with; for the paired buffer (`mod.rs:158-160`), with shared slots, every slot has that length |
| Devices.NbrChannel | engine/src/devices/mod.rs:50-52 | 2 for the main output (also at `mod.rs:82-84` and `mod.rs:123-125`), the logger and the asset; for the paired buffer (`mod.rs:162-164`), its number of slots, each of which can be read |
| Devices.ParentVst | engine/src/devices/mod.rs:170-172 | `Some` exactly for the paired buffer, naming its plugin; `None` for every other device |
| Devices.Read | engine/src/devices/mod.rs:132-179 | a source read never answers `None`: the asset answers its snapshot, the paired buffer the current contents of the addressed slot |
| Devices.Write | engine/src/devices/mod.rs:181-187 | a paired-buffer write needs the lengths to agree and replaces the slot's contents with the block; with shared slots, every channel then reads the block; the logger (`mod.rs:91-95`) needs 4 samples and changes nothing |
| Devices.AssetReadsSnapshot | src/asset.rs:46-76 | the asset source answers the same first block on every channel and every call, and that block is `block_size()` long |
| Devices.AliasedChannelsReadAlike | src/plugin.rs:24-58 | when all slots are the one buffer, every channel reads the same block |
| Linking.LastMatchMeaning | engine/src/supervisor/linker.rs:165-170 | the inner loop's result is a matching pipe with no match after it, and nothing exactly when no pipe matches |
| Linking.SequenceMapUpToAt | engine/src/supervisor/linker.rs:161-172 | after n outer rounds, pipe p is a key exactly when p < n and some pipe matches it, and it maps to the last match |
| Linking.SequenceMapMeaning | engine/src/supervisor/linker.rs:163-171 | P has a successor exactly when some pipe Q's id equals P's; the recorded Q matches and no later pipe does (the overwrite makes the last match win) |
| Linking.IdsKeptByRegistration | engine/src/supervisor/linker.rs:123-129 | adding devices to either arena changes neither the ids along existing pipes nor the sequence map |
| Linking.Linker.constructor | engine/src/supervisor/linker.rs:110-117 | both arenas, the pipes and the sequence map start empty |
| Linking.Linker.GetNext | engine/src/supervisor/linker.rs:119-121 | `Some(sequences[actual])` when `actual` is a key, `None` otherwise |
| Linking.Linker.GetPipe | engine/src/supervisor/linker.rs:131-133 | the pipe behind the handle when the handle resolves, `None` otherwise |
| Linking.Linker.RegisterInput | engine/src/supervisor/linker.rs:123-125 | the sink arena gains exactly this device at the end, and the returned handle resolves to it; the sources, the pipes and the sequence map are unchanged |
| Linking.Linker.RegisterOutput | engine/src/supervisor/linker.rs:127-129 | the source arena gains exactly this device at the end, and the returned handle resolves to it; the sinks, the pipes and the sequence map are unchanged |
| Linking.Linker.CalcSequences | engine/src/supervisor/linker.rs:161-172 | the nested loops leave exactly the map of the matching rule (pipe P precedes Q when P's sink is Q's source, the last Q wins); the result does not depend on the old map, so rerunning it on unchanged pipes gives the same map |
| Linking.Linker.Pipe | engine/src/supervisor/linker.rs:174-195 | an unknown input handle gives `InvalideInput`, checked first; then an unknown output handle gives `InvalideOutput`; on either error nothing changes; otherwise exactly one pipe is appended, with the two handles and a buffer of (sink channels, source channels), its handle is returned, and the sequence map is rebuilt over all pipes |
| Linking.Linker.Bind | engine/src/supervisor/linker.rs:135-159 | an unknown pipe gives `InvalidePipe`, without calling the closure and without writing anything; the source must not share a buffer with the sink; otherwise the source is left unchanged, and the closure runs once on the source's two blocks, the scratch slices and the sink's `parent_vst()`; the scratch slices are written into the sink and nothing else is written; a paired sink ends up holding them (channel 0 holds slice 1 when the slots are shared); the result is `get_next(idx)` |
| SequenceRules.LiteralSequences | engine/src/supervisor/linker.rs:163-169 | the written rule resolves (does not panic) exactly when every pipe's sink handle is a slot of the source arena and its source handle a slot of the sink arena |
| SequenceRules.LiteralRuleMisorders | engine/src/supervisor/linker.rs:164-166 | on the registration order of a file, one plugin and a logger, the intended map is {0→1} and the written rule yields {1→0} |
| SequenceRules.DemoChain | engine/src/lib.rs:30-54 | on the engine test's topology (file → A → B → logger) both rules give the chain 0 → 1 → 2, with no successor after pipe 2 |
| Plugins.Init | engine/src/loader/vst.rs:113-145 | draws the plugin id and then the buffer's id; registers one 2-channel paired buffer of `block_size` zeros, tagged with the plugin id, once in each arena; the handles `get_inputs` and `get_outputs` return resolve to that same device; there are no new pipes and no new sequence entries |
| Plugins.PluginAndBufferIdentities | src/plugin.rs:24-93 | the paired buffer's id differs from the plugin id; `parent_vst()` names the plugin; the buffer has 2 channels of `block_size` samples |
| Scenario.GainClosurePreservesShape | engine/src/lib.rs:65-69 | the test's closure, with a doubling plugin, keeps the number and the lengths of the scratch slices |
| Scenario.RegisterEnds | engine/src/lib.rs:30-37 | the main output draws id 1 and reports a block of 4 samples (rate 200, 2 channels); the file (id 2) becomes source 0 holding its first 4 samples, and the logger (id 3) becomes sink 0 with 4 zeros; there are no pipes |
| Scenario.Register | engine/src/lib.rs:30-39 | the two plugins then take plugin ids 4 and 6 and buffer ids 5 and 7; each buffer is source and sink 1 (plugin A) and 2 (plugin B); each buffer is 4 zeros; the two buffers are distinct |
| Scenario.Wire | engine/src/lib.rs:40-54 | the three pipes succeed, the entry pipe is 0, and the sequence map is {0→1, 1→2} |
| Scenario.FirstHop | engine/src/lib.rs:61-71 | `bind` on pipe 0 with the doubling closure: plugin A's buffer then holds [2, 4, 6, 8], and pipe 1 is next |
| Scenario.SecondHop | engine/src/lib.rs:61-71 | `bind` on pipe 1: plugin B doubles A's block, the scratch slices hold [4, 8, 12, 16], and pipe 2 is next |
| Scenario.LastHop | engine/src/lib.rs:61-76 | `bind` on pipe 2 into the logger: the logger names no plugin, so the scratch slices are left as they were, and the chain ends |
| Scenario.GainChain | engine/src/lib.rs:55-79 | walking from the entry: the first `bind` names pipe 1, the second names pipe 2, and the third ends the chain; the logger receives the file's first block doubled twice, [4, 8, 12, 16] |
| Scenario.DirectToLogger | engine/src/supervisor/linker.rs:153-156 | a file wired straight into the logger, with a closure that does nothing, ends the chain at once and delivers the caller's zeros, not the file's block |

## Left out

- Generation tags of the arenas: nothing is ever removed, so a handle is its slot.
- FLAC decoding (`AudioAsset::from_flac_file`): a foreign decoder; the asset is a given sequence of samples.
- Hardware output negotiation (`SysOutputDevice::new` querying cpal), `Supervisor::new` and `Supervisor::load_vst`: platform plumbing; the output format is passed in as (max sample rate, channels).
- The VST runtime: `VstHost`, `PluginInstance` set-up, `VstPlugin::next` and `load_editor` are foreign calls. Processing is the caller's closure.
- `HostBuffer::new`, `HostBuffer::bind` and `AudioBuffer`: a pipe's buffer is its two channel counts, and the closure receives (source blocks, scratch slices).
- `Arc`, `RwLock` and `RefCell` locking: there is no concurrency; a shared buffer is one heap array.
- Logging (`info!`) and the never-constructed errors `PipeBufferMalformated` and `PipeWrongIO`.
- The logger's 4-sample requirement comes from `&buffer[0..4]` inside `info!` (`engine/src/devices/mod.rs:93`). It panics only when Info logging is on. The model requires it always, since both orchestrators set `RUST_LOG=trace`.
- Samples are integers, not `f32`: nothing in the core computes on sample values.
- `src/main.rs` and its chain-walk loop: orchestration with fixed paths. The loop terminates only on an acyclic map. `Scenario.GainChain` walks the test's three-pipe chain with one `bind` per pipe instead.
- The legacy tree's `linker` module is not part of this model; the legacy devices are modelled against the engine's linker.
- Ids.IdSource.NewId: does not model u64 wrap-around, because the counter would need 2^64 draws to wrap.
- Plugins.Init: the block size is a `nat`; the `i64`-to-`usize` cast of a negative block size is not modelled.
- Linking.Linker.Bind: the panics are preconditions (`BindDefined`), not results. They are: `expect("EOF")` (no modelled source answers `None`), an out-of-range channel, a `copy_from_slice` length mismatch, fewer than two scratch slices, a logger block shorter than 4 samples, and a pipe whose source is the sink's own buffer (the read guards of `linker.rs:150-151` are still alive when `linker.rs:155` takes the write lock, `mod.rs:183-185`, which deadlocks or panics).
- Linking.Linker.GetPipe: returns the pipe value, not a mutable reference into the arena.
- Devices.GetBlockSize: `rate / 100 * channels` overflowing u32 (`engine/src/devices/mod.rs:39`) panics in a debug build and wraps in a release build. Neither is modelled: `BlockSizeFits` excludes it.
- Devices.Read: a `SysOutputDevice` read is the trait's `unimplemented!()` and is excluded by the precondition.

## Findings

| source | as written | input that shows it | evidently intended | confidence | as-written member | corrected member |
|---|---|---|---|---|---|---|
| engine/src/supervisor/linker.rs:164-166 | `this_id` is looked up in the source arena at the pipe's sink handle, and `other_id` in the sink arena at the pipe's source handle | register a file (source slot 0), then a plugin (sink slot 0, source slot 1), then a logger (sink slot 1); pipe file → plugin and plugin → logger: the map becomes {1→0} instead of {0→1}, so the chain stops after its first pipe. The engine's test and `src/main.rs` are not affected, because they register the logger before the plugins | pipe P is followed by pipe Q when the sink P writes into is the device Q reads from | not executed | SequenceRules.LiteralRuleMisorders | Linking.Linker.CalcSequences |
