/**
 * The engine's collaborators, reduced to what the engine relies on: texture
 * view creation, bind-slot lookup, the sampler pool and the bind primitives.
 * The pool and the device context record the calls they receive.
 */
module Collaborators {
  import opened MaterialTypes

  /** A proxy's view after `CreateView(stream)`: a view exactly when there is image data. */
  function CreateView(stream: Option<Stream>): (v: Option<TextureView>)
    ensures v.Some? <==> stream.Some?
    ensures v.Some? ==> v.value.source == stream.value
  {
    match stream
    case None => None
    case Some(s) => Some(TextureView(s))
  }

  /** The pool's answer for a description: equal descriptions share one object. */
  function PooledHandle(d: SamplerDescription): SamplerHandle
  {
    SamplerHandle(d)
  }

  /** A stage table's bind slot for `name`, or the sentinel when the stage does not declare it. */
  function TryGetBindSlot(slots: map<string, int>, name: string): (index: int)
    ensures name in slots ==> index == slots[name]
    ensures index != Sentinel ==> name in slots && slots[name] == index
  {
    if name in slots then slots[name] else Sentinel
  }

  /** The sampler pool shared by all engines; `log` records registrations and releases in order. */
  class StatePoolManager {
    ghost var log: seq<PoolOp>

    constructor ()
      ensures log == []
    {
      log := [];
    }

    method Register(d: SamplerDescription) returns (h: SamplerHandle)
      modifies this
      ensures h == PooledHandle(d)
      ensures log == old(log) + [Registered(d)]
    {
      h := PooledHandle(d);
      log := log + [Registered(d)];
    }

    method Release(h: SamplerHandle)
      modifies this
      ensures log == old(log) + [Released(h)]
    {
      log := log + [Released(h)];
    }
  }

  /** The graphics context bind calls go to; `calls` records them in the order issued. */
  class DeviceContext {
    ghost var calls: seq<BindCall>

    constructor ()
      ensures calls == []
    {
      calls := [];
    }

    method BindTexture(stage: ShaderStage, bindIndex: int, slot: nat, view: TextureView)
      modifies this
      ensures calls == old(calls) + [TextureBind(stage, bindIndex, slot, view)]
    {
      calls := calls + [TextureBind(stage, bindIndex, slot, view)];
    }

    method BindSampler(stage: ShaderStage, bindIndex: int, slot: nat, sampler: Option<SamplerHandle>)
      modifies this
      ensures calls == old(calls) + [SamplerBind(stage, bindIndex, slot, sampler)]
    {
      calls := calls + [SamplerBind(stage, bindIndex, slot, sampler)];
    }
  }
}
