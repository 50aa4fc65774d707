/// The concrete sample devices of engine/src/devices/mod.rs (and their copies in
/// engine/src/loader/vst.rs and the older src/ tree): what each one reports
/// through the `SampleDevice` trait, what a source read returns
/// (`SampleOutput::next`) and what a sink write does (`SampleInput::next`).
module Devices {
  import opened Common
  import Ids

  /// A sample. The source uses `f32`; nothing in the core computes on sample
  /// values, so integers stand in for them.
  type Sample = int
  type Block = seq<Sample>

  newtype u16 = x: int | 0 <= x < 0x1_0000
  newtype u32 = x: int | 0 <= x < 0x1_0000_0000

  /// `DeviceId(u64)`: the logical identity of a device.
  datatype DeviceId = DeviceId(value: nat)

  /// Identity of a loaded plugin instance (drawn from the same counter).
  datatype VstId = VstId(value: nat)

  /// The negotiated hardware output format: what `SysOutputDevice` keeps of
  /// `cpal::SupportedFormat`.
  datatype Format = Format(maxSampleRate: u32, channels: u16)

  /// The four device kinds of the core.
  ///  - SysOutput: the hardware output descriptor (`SysOutputDevice`).
  ///  - Logger: the discarding sink (`LoggerSample`), with its zero-filled buffer.
  ///  - Asset: the file-backed source (`AssetSampleOutput`): the decoded asset,
  ///    the block size and the snapshot of the first block.
  ///  - VstBuffered: the paired plugin buffer (`VstBufferedDevice`); `slots` is
  ///    its vector of shared channel buffers, each an `Arc<RwLock<Vec<f32>>>`,
  ///    modelled as a reference to one heap array.
  datatype Device =
    | SysOutput(id: DeviceId, format: Format)
    | Logger(id: DeviceId, buffer: Block)
    | Asset(id: DeviceId, asset: Block, blockSize: nat, snapshot: Block)
    | VstBuffered(id: DeviceId, vstId: VstId, slots: seq<array<Sample>>)

  /// The kinds that implement `SampleOutput` (may be registered as sources).
  predicate IsSource(d: Device)
  {
    d.SysOutput? || d.Asset? || d.VstBuffered?
  }

  /// The kinds that implement `SampleInput` (may be registered as sinks).
  predicate IsSink(d: Device)
  {
    d.Logger? || d.VstBuffered?
  }

  /// The shared heap buffers a device refers to.
  function Buffers(d: Device): set<array<Sample>>
  {
    if d.VstBuffered? then set a | a in d.slots else {}
  }

  /// `vec![x; channels]` on an `Arc` clones the one `Arc`: every channel slot
  /// is the same buffer.
  predicate Aliased(d: Device)
  {
    d.VstBuffered? ==> forall c :: 0 <= c < |d.slots| ==> d.slots[c] == d.slots[0]
  }

  function Zeros(n: nat): (r: Block)
    ensures |r| == n && forall i :: 0 <= i < n ==> r[i] == 0
  {
    seq(n, _ => 0)
  }

  // ---------------------------------------------------------------------------
  // SysOutputDevice

  /// `get_sample_rate`: the format's maximum sample rate. Each channel of a
  /// block carries the samples of 10 ms at this rate.
  function GetSampleRate(f: Format): (r: u32)
    ensures BlockSizeFits(f) && f.channels > 0 ==>
              GetBlockSize(f) as int / f.channels as int == r as int / 100
  {
    f.maxSampleRate
  }

  /// `get_block_size` computes in `u32`; a product that does not fit panics in
  /// a debug build.
  predicate BlockSizeFits(f: Format)
  {
    (f.maxSampleRate as int / 100) * f.channels as int < 0x1_0000_0000
  }

  /// `get_block_size`: `sample_rate / 100 * channels`, the division first.
  /// The block is a whole number of frames, each channel gets the samples of
  /// 10 ms (rounded down), and the block never exceeds 10 ms of audio.
  function GetBlockSize(f: Format): (r: u32)
    requires BlockSizeFits(f)
    ensures f.channels > 0 ==> r as int % f.channels as int == 0
    ensures f.channels > 0 ==> r as int / f.channels as int == f.maxSampleRate as int / 100
    ensures 100 * r as int <= f.maxSampleRate as int * f.channels as int
    ensures f.channels > 0 ==>
              f.maxSampleRate as int * f.channels as int < 100 * r as int + 100 * f.channels as int
  {
    var perChannel := f.maxSampleRate / 100;
    FramesLemma(f.maxSampleRate as int, f.channels as int);
    perChannel * (f.channels as int as u32)
  }

  lemma FramesLemma(rate: nat, channels: nat)
    ensures channels > 0 ==> ((rate / 100) * channels) % channels == 0
    ensures channels > 0 ==> ((rate / 100) * channels) / channels == rate / 100
    ensures 100 * ((rate / 100) * channels) <= rate * channels
    ensures channels > 0 ==> rate * channels < 100 * ((rate / 100) * channels) + 100 * channels
  {
    var q, m := rate / 100, rate % 100;
    Distribute(q, m, channels);
    if channels > 0 {
      WholeFrames(q, channels);
    }
  }

  /// `rate * channels` split at the division by 100.
  lemma Distribute(q: nat, m: nat, channels: nat)
    requires m < 100
    ensures (100 * q + m) * channels == 100 * (q * channels) + m * channels
    ensures m * channels <= 99 * channels
  {
  }

  /// Whole frames: q frames of `channels` samples divide back exactly.
  lemma WholeFrames(q: nat, channels: nat)
    requires channels > 0
    ensures (q * channels) % channels == 0 && (q * channels) / channels == q
  {
    DivModUnique(q * channels, channels, q, 0);
  }

  /// Euclidean division is unique.
  lemma DivModUnique(x: int, c: int, q: int, r: int)
    requires c > 0 && 0 <= r < c && x == c * q + r
    ensures x / c == q && x % c == r
  {
    var q', r' := x / c, x % c;
    assert c * (q - q') == r' - r;
    if q > q' {
      MulAtLeast(c, q - q');
    } else if q < q' {
      MulAtLeast(c, q' - q);
    }
  }

  lemma MulAtLeast(c: int, k: int)
    requires c > 0 && k >= 1
    ensures c * k >= c
  {
  }

  // ---------------------------------------------------------------------------
  // The SampleDevice trait

  /// Devices whose `block_size()` does not panic: the hardware descriptor's
  /// product must fit in `u32`, and the paired buffer reads channel slot 0.
  predicate HasBlockSize(d: Device)
  {
    match d
    case SysOutput(_, f) => BlockSizeFits(f)
    case VstBuffered(_, _, slots) => |slots| > 0
    case _ => true
  }

  /// `block_size()`: the hardware descriptor's `get_block_size()`, the
  /// logger's buffer length, the asset's constructor argument, and the length
  /// of the paired buffer's channel 0, which with shared slots is the length
  /// of every channel.
  function BlockSize(d: Device): (r: nat)
    requires HasBlockSize(d)
    ensures d.SysOutput? ==> r == GetBlockSize(d.format) as nat
    ensures d.Logger? ==> r == |d.buffer|
    ensures d.Asset? ==> r == d.blockSize
    ensures d.VstBuffered? && Aliased(d) ==> forall c :: 0 <= c < |d.slots| ==> d.slots[c].Length == r
  {
    match d
    case SysOutput(_, f) => GetBlockSize(f) as nat
    case Logger(_, buffer) => |buffer|
    case Asset(_, _, n, _) => n
    case VstBuffered(_, _, slots) => slots[0].Length
  }

  /// `nbr_channel()`: always 2, except the paired buffer, which has one slot
  /// per channel; every channel it reports can be read.
  function NbrChannel(d: Device): (r: nat)
    ensures !d.VstBuffered? ==> r == 2
    ensures d.VstBuffered? ==> r == |d.slots| && forall c :: 0 <= c < r ==> CanRead(d, c)
  {
    if d.VstBuffered? then |d.slots| else 2
  }

  /// `parent_vst()`: the trait's default `None`, except for the paired buffer,
  /// which names the plugin it belongs to.
  function ParentVst(d: Device): (r: Option<VstId>)
    ensures r.Some? <==> d.VstBuffered?
    ensures r.Some? ==> r.value == d.vstId
  {
    if d.VstBuffered? then Some(d.vstId) else None
  }

  // ---------------------------------------------------------------------------
  // SampleOutput::next (a source read) and SampleInput::next (a sink write)

  /// Source reads that do not panic: `SysOutputDevice` keeps the trait's
  /// `unimplemented!()` default, and the paired buffer indexes its slots.
  predicate CanRead(d: Device, channel: nat)
  {
    d.Asset? || (d.VstBuffered? && channel < |d.slots|)
  }

  /// `SampleOutput::next(channel)`: the channel's current block. The asset
  /// returns its snapshot whatever the channel; the paired buffer returns the
  /// contents of the addressed slot. Neither ever answers `None`.
  function Read(d: Device, channel: nat): (r: Option<Block>)
    requires CanRead(d, channel)
    reads Buffers(d)
    ensures r.Some?
    ensures d.Asset? ==> r.value == d.snapshot
    ensures d.VstBuffered? ==> r.value == d.slots[channel][..] && |r.value| == d.slots[channel].Length
  {
    match d
    case Asset(_, _, _, snapshot) => Some(snapshot)
    case VstBuffered(_, _, slots) => Some(slots[channel][..])
  }

  /// Sink writes that do not panic: the logger prints the first four samples
  /// of what it receives, and the paired buffer's `copy_from_slice` needs the
  /// lengths to agree.
  predicate CanWrite(d: Device, block: Block, channel: nat)
  {
    (d.Logger? && |block| >= 4) ||
    (d.VstBuffered? && channel < |d.slots| && |block| == d.slots[channel].Length)
  }

  /// The buffer a read of `channel` holds a read guard on.
  function ReadFrame(d: Device, channel: nat): set<array<Sample>>
  {
    if d.VstBuffered? && channel < |d.slots| then {d.slots[channel]} else {}
  }

  /// What a write to `channel` may change.
  function WriteFrame(d: Device, channel: nat): set<array<Sample>>
  {
    if d.VstBuffered? && channel < |d.slots| then {d.slots[channel]} else {}
  }

  /// `SampleInput::next(block, channel)`: the logger only logs; the paired
  /// buffer overwrites the addressed slot with the block.
  method Write(d: Device, block: Block, channel: nat)
    requires CanWrite(d, block, channel)
    modifies WriteFrame(d, channel)
    ensures d.VstBuffered? ==> d.slots[channel][..] == block
    ensures d.VstBuffered? && Aliased(d) ==>
              forall c :: 0 <= c < |d.slots| ==> Read(d, c) == Some(block)
  {
    if d.VstBuffered? {
      var a := d.slots[channel];
      forall i | 0 <= i < a.Length {
        a[i] := block[i];
      }
      assert a[..] == block;
    }
  }

  // ---------------------------------------------------------------------------
  // Constructors: each draws a fresh identifier

  /// `SysOutputDevice::new`, given the format the hardware negotiation chose.
  method NewSysOutput(ids: Ids.IdSource, format: Format) returns (d: Device)
    modifies ids
    ensures ids.last == old(ids.last) + 1
    ensures d == SysOutput(DeviceId(ids.last), format)
    ensures NbrChannel(d) == 2 && ParentVst(d).None?
    ensures BlockSizeFits(format) ==> BlockSize(d) == GetBlockSize(format) as nat
  {
    var id := ids.NewId();
    d := SysOutput(DeviceId(id), format);
  }

  /// `LoggerSample::new(size)`.
  method NewLogger(ids: Ids.IdSource, size: nat) returns (d: Device)
    modifies ids
    ensures ids.last == old(ids.last) + 1
    ensures d == Logger(DeviceId(ids.last), Zeros(size))
    ensures BlockSize(d) == size && NbrChannel(d) == 2 && ParentVst(d).None?
  {
    var id := ids.NewId();
    d := Logger(DeviceId(id), Zeros(size));
  }

  /// `AssetSampleOutput::new(asset, block_size)`: slicing the first block
  /// panics when the asset is shorter than a block.
  method NewAsset(ids: Ids.IdSource, asset: Block, blockSize: nat) returns (d: Device)
    requires blockSize <= |asset|
    modifies ids
    ensures ids.last == old(ids.last) + 1
    ensures d == Asset(DeviceId(ids.last), asset, blockSize, asset[..blockSize])
    ensures BlockSize(d) == blockSize && NbrChannel(d) == 2 && ParentVst(d).None?
  {
    var id := ids.NewId();
    d := Asset(DeviceId(id), asset, blockSize, asset[..blockSize]);
  }

  /// `VstBufferedDevice::new(size, channels, vst_id)`: one zero-filled buffer,
  /// referenced from every channel slot.
  method NewVstBuffered(ids: Ids.IdSource, size: nat, channels: nat, vstId: VstId)
    returns (d: Device)
    modifies ids
    ensures ids.last == old(ids.last) + 1
    ensures d.VstBuffered? && d.id == DeviceId(ids.last) && d.vstId == vstId
    ensures |d.slots| == channels && Aliased(d)
    ensures forall c :: 0 <= c < channels ==> fresh(d.slots[c]) && d.slots[c][..] == Zeros(size)
    ensures NbrChannel(d) == channels && ParentVst(d) == Some(vstId)
    ensures channels > 0 ==> BlockSize(d) == size
  {
    var id := ids.NewId();
    var shared := new Sample[size](_ => 0);
    assert shared[..] == Zeros(size);
    d := VstBuffered(DeviceId(id), vstId, seq(channels, _ => shared));
  }

  // ---------------------------------------------------------------------------
  // Properties of the device contracts

  /// The asset never advances: every channel, on every call, reads the first
  /// `blockSize` samples of the asset.
  lemma AssetReadsSnapshot(id: DeviceId, asset: Block, blockSize: nat, c1: nat, c2: nat)
    requires blockSize <= |asset|
    ensures var d := Asset(id, asset, blockSize, asset[..blockSize]);
            Read(d, c1) == Read(d, c2) == Some(asset[..blockSize]) &&
            |Read(d, c1).value| == BlockSize(d)
  {
  }

  /// All channels of a paired buffer read the same block: the aliasing of
  /// the channel slots.
  lemma AliasedChannelsReadAlike(d: Device, c1: nat, c2: nat)
    requires d.VstBuffered? && Aliased(d)
    requires c1 < |d.slots| && c2 < |d.slots|
    ensures Read(d, c1) == Read(d, c2)
  {
    assert d.slots[c1] == d.slots[0] == d.slots[c2];
  }
}
