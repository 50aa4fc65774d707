/// The registration half of a loaded plugin (`VstPlugin::init`,
/// `get_inputs`, `get_outputs` in engine/src/loader/vst.rs; the older copy in
/// src/plugin.rs is the same). The plugin runtime itself (instance set-up,
/// `process`, the editor) is not modelled.
module Plugins {
  import opened Common
  import opened Devices
  import Ids
  import opened Linking

  /// What the linker side of a `VstPlugin` keeps: its identity and the two
  /// handles of its paired buffer.
  datatype VstPlugin = VstPlugin(id: VstId, inputs: InputIndex, outputs: OutputIndex)
  {
    /// `get_inputs`: the sink handle obtained at registration.
    function GetInputs(): InputIndex
    {
      inputs
    }

    /// `get_outputs`: the source handle obtained at registration.
    function GetOutputs(): OutputIndex
    {
      outputs
    }
  }

  /// The paired buffer `init` registers for a plugin: a two-channel
  /// `VstBufferedDevice` of `blockSize` zeros whose two slots are one fresh
  /// buffer, tagged with the plugin's identity.
  ghost predicate PairedBuffer(d: Device, id: DeviceId, vst: VstId, blockSize: nat)
    reads Buffers(d)
  {
    && d.VstBuffered? && d.id == id && d.vstId == vst
    && |d.slots| == 2 && Aliased(d)
    && d.slots[0][..] == Zeros(blockSize)
  }

  /// `VstPlugin::init`: draw the plugin identity, build one paired buffer
  /// (which draws its own, different, identity) and register it once as a
  /// sink and once as a source. No pipe and no sequence entry is created.
  method Init(ids: Ids.IdSource, blockSize: nat, linker: Linker) returns (plugin: VstPlugin)
    requires linker.Valid()
    modifies ids, linker
    ensures linker.Valid()
    ensures ids.last == old(ids.last) + 2
    ensures plugin.id == VstId(old(ids.last) + 1)
    ensures plugin.GetInputs() == InputIndex(|old(linker.inputs)|)
    ensures plugin.GetOutputs() == OutputIndex(|old(linker.outputs)|)
    ensures |linker.inputs| == |old(linker.inputs)| + 1 && linker.inputs[..|old(linker.inputs)|] == old(linker.inputs)
    ensures |linker.outputs| == |old(linker.outputs)| + 1 && linker.outputs[..|old(linker.outputs)|] == old(linker.outputs)
    ensures linker.pipes == old(linker.pipes) && linker.sequences == old(linker.sequences)
    ensures var d := linker.inputs[plugin.GetInputs().slot];
            && d == linker.outputs[plugin.GetOutputs().slot]
            && PairedBuffer(d, DeviceId(old(ids.last) + 2), plugin.id, blockSize)
            && fresh(d.slots[0])
  {
    var id := ids.NewId();
    var device := NewVstBuffered(ids, blockSize, 2, VstId(id));
    var inputs := linker.RegisterInput(device);
    var outputs := linker.RegisterOutput(device);
    plugin := VstPlugin(VstId(id), inputs, outputs);
  }

  /// The plugin identity and the identity of its paired buffer differ, and
  /// the buffer's `parent_vst()` names the plugin in both roles.
  lemma PluginAndBufferIdentities(d: Device, plugin: VstPlugin, last: nat, blockSize: nat)
    requires plugin.id == VstId(last + 1)
    requires PairedBuffer(d, DeviceId(last + 2), plugin.id, blockSize)
    ensures d.id.value != plugin.id.value
    ensures ParentVst(d) == Some(plugin.id)
    ensures NbrChannel(d) == 2 && BlockSize(d) == blockSize
  {
  }
}
