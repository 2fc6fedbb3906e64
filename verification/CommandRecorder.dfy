/** The recorder as an object.  Its methods are those of the source, and each is proved to do to the
    object what the function of the same name does to the value.
 */
module CommandRecorder {
  import opened C = CommandBuffer

  class CommandBuffer {
    var isRendering: bool
    var areNewTargets: bool
    const dirty: array<bool>
    const blocks: array<Block>
    var updateCount: nat
    const colors: array<Target>
    var depth: Target
    var memory: map<nat, Block>
    ghost var trace: seq<Command>

    ghost predicate Valid()
      reads this, blocks
    {
      && dirty.Length == blocks.Length == STAGES && colors.Length == COLOR_TARGETS
      && forall s | 0 <= s < STAGES :: BlockOk(blocks[s])
    }

    ghost function Model(): Recorder
      reads this, dirty, blocks, colors
    {
      Recorder(isRendering, areNewTargets, dirty[..], blocks[..], updateCount, colors[..], depth, memory, trace)
    }

    constructor ()
      ensures Valid() && Model() == Initial() && fresh(dirty) && fresh(blocks) && fresh(colors)
    {
      isRendering, areNewTargets, updateCount, depth, memory, trace := false, false, 0, 0, map[], [];
      dirty := new bool[STAGES](_ => false);
      blocks := new Block[STAGES](_ => DefaultBlock());
      colors := new Target[COLOR_TARGETS](_ => 0);
      new;
      assert dirty[..] == Initial().dirty && blocks[..] == Initial().blocks && colors[..] == Initial().colors;
    }

    method EndRenderingIfRendering()
      requires Valid()
      modifies this
      ensures Valid() && Model() == C.EndRenderingIfRendering(old(Model()))
    {
      if isRendering {
        isRendering := false;
        trace := trace + [Command.EndRendering];
      }
    }

    method BeginRenderingIfNotRendering()
      requires Valid()
      modifies this
      ensures Valid() && Model() == C.BeginRenderingIfNotRendering(old(Model()))
    {
      if areNewTargets {
        areNewTargets := false;
        EndRenderingIfRendering();
      } else if isRendering {
        return;
      }
      var attachments: seq<Target> := [];
      var count := 0;
      while count < COLOR_TARGETS && colors[count] != 0
        invariant count <= COLOR_TARGETS && attachments == colors[..count]
        invariant forall i | 0 <= i < count :: colors[i] != 0
      {
        attachments := attachments + [colors[count]];
        count := count + 1;
      }
      AttachmentsAre(colors[..], count);
      assert colors[..][..count] == colors[..count];
      trace := trace + [BeginRendering(attachments, depth)];
      isRendering := true;
    }

    method FlushStage(stage: nat)
      requires Valid() && stage < STAGES
      modifies this, dirty
      ensures Valid() && Model() == Flush(old(Model()), stage)
    {
      if dirty[stage] {
        memory := memory[updateCount := blocks[stage]];
        trace := trace + [PushConstant(stage, updateCount)];
        updateCount := updateCount + 1;
        dirty[stage] := false;
      }
    }

    method UpdateResourceBufferIfNecessary()
      requires Valid()
      modifies this, dirty
      ensures Valid() && Model() == C.UpdateResourceBufferIfNecessary(old(Model()))
    {
      ghost var r := Model();
      FlushStage(0);
      FlushStage(2);
      FlushStage(1);
      FlushStage(3);
      FlushStage(4);
      FlushStage(5);
      FlushSteps(r);
    }

    method Begin()
      requires Valid()
      modifies this, blocks
      ensures Valid() && Model() == C.Begin(old(Model()))
      ensures !old(isRendering) ==> Inv(Model())
    {
      if !isRendering { BeginInv(Model()); }
      hide Inv;
      trace := [];
      for s := 0 to STAGES
        modifies blocks
        invariant forall i | 0 <= i < s :: blocks[i] == DefaultBlock()
      {
        blocks[s] := DefaultBlock();
      }
      updateCount := 0;
      assert blocks[..] == C.Begin(old(Model())).blocks;
    }

    method End()
      requires Valid()
      modifies this
      ensures Valid() && Model() == C.End(old(Model()))
      ensures old(Inv(Model())) ==> !isRendering && Check(trace).Some? && !Check(trace).value.open
    {
      if Inv(Model()) { EndOk(Model()); }
      hide Inv, Check;
      EndRenderingIfRendering();
      trace := trace + [EndCommandBuffer];
    }

    method ClearTarget()
      requires Valid()
      modifies this
      ensures Valid() && Model() == Apply(old(Model()), Call.ClearTarget)
      ensures old(Inv(Model())) ==> Inv(Model())
    {
      if Inv(Model()) { ApplyInv(Model(), Call.ClearTarget); }
      hide Inv;
      EndRenderingIfRendering();
      trace := trace + [Clear];
      trace := trace + [Barrier];
    }

    method Draw()
      requires Valid()
      modifies this, dirty
      ensures Valid() && Model() == RecordDraw(old(Model()))
      ensures old(Inv(Model())) ==> Inv(Model())
    {
      ghost var r := Model();
      if Inv(r) { DrawInv(r); }
      hide Flush, FlushAll, Inv, Apply, C.UpdateResourceBufferIfNecessary, C.BeginRenderingIfNotRendering;
      UpdateResourceBufferIfNecessary();
      BeginRenderingIfNotRendering();
      trace := trace + [Other];
      trace := trace + [Command.Draw(r.blocks, r.colors, r.depth)];
    }

    /** What `Buffer::RequiresRelocation` and `Buffer::Relocate` do is a parameter. */
    method RelocateBuffer(relocation: Relocation)
      requires Valid()
      modifies this
      ensures Valid() && Model() == Relocate(old(Model()), relocation)
    {
      if relocation.Needed? {
        EndRenderingIfRendering();
        if relocation.copies { trace := trace + [Copy]; }
      }
    }

    method DrawIndexed(relocation: Relocation)
      requires Valid()
      modifies this, dirty
      ensures Valid() && Model() == Apply(old(Model()), DrawIndexedCall(relocation))
      ensures old(Inv(Model())) ==> Inv(Model())
    {
      if Inv(Model()) { ApplyInv(Model(), DrawIndexedCall(relocation)); }
      hide Inv;
      hide RecordDraw;
      RelocateBuffer(relocation);
      Draw();
    }

    method SetRenderTargets(targets: seq<Target>, depthTarget: Target)
      requires Valid() && CallOk(Call.SetRenderTargets(targets, depthTarget))
      modifies this, colors
      ensures Valid() && Model() == Apply(old(Model()), Call.SetRenderTargets(targets, depthTarget))
      ensures old(Inv(Model())) ==> Inv(Model())
    {
      if Inv(Model()) { ApplyInv(Model(), Call.SetRenderTargets(targets, depthTarget)); }
      hide Inv;
      for i := 0 to |targets|
        modifies colors
        invariant forall j | 0 <= j < COLOR_TARGETS :: colors[j] == if j < i then targets[j] else old(colors[j])
      {
        colors[i] := targets[i];
      }
      depth := depthTarget;
      areNewTargets := true;
      trace := trace + [TargetsSet];
      assert colors[..] == Overlay(old(colors[..]), targets);
    }

    method SetVertexBuffer(relocation: Relocation)
      requires Valid()
      modifies this
      ensures Valid() && Model() == Apply(old(Model()), Call.SetVertexBuffer(relocation))
      ensures old(Inv(Model())) ==> Inv(Model())
    {
      if Inv(Model()) { ApplyInv(Model(), Call.SetVertexBuffer(relocation)); }
      hide Inv;
      RelocateBuffer(relocation);
      trace := trace + [Other];
    }

    method SetBufferStateTransition(relocation: Relocation)
      requires Valid()
      modifies this
      ensures Valid() && Model() == Apply(old(Model()), Call.SetBufferStateTransition(relocation))
      ensures old(Inv(Model())) ==> Inv(Model())
    {
      if Inv(Model()) { ApplyInv(Model(), Call.SetBufferStateTransition(relocation)); }
      hide Inv;
      RelocateBuffer(relocation);
      trace := trace + [Barrier];
    }

    method SetTextureStateTransition(bottomOfPipe: bool)
      requires Valid()
      modifies this
      ensures Valid() && Model() == Apply(old(Model()), Call.SetTextureStateTransition(bottomOfPipe))
      ensures old(Inv(Model())) ==> Inv(Model())
    {
      if Inv(Model()) { ApplyInv(Model(), Call.SetTextureStateTransition(bottomOfPipe)); }
      hide Inv;
      if bottomOfPipe { EndRenderingIfRendering(); }
      trace := trace + [Barrier];
    }

    method SetUniformBuffer(location: nat, stage: nat, address: nat)
      requires Valid() && CallOk(Call.SetUniformBuffer(location, stage, address))
      modifies blocks, dirty
      ensures Valid() && Model() == Apply(old(Model()), Call.SetUniformBuffer(location, stage, address))
      ensures old(Inv(Model())) ==> Inv(Model())
    {
      if Inv(Model()) { ApplyInv(Model(), Call.SetUniformBuffer(location, stage, address)); }
      hide Inv;
      if blocks[stage].uniforms[location] == address { return; }
      blocks[stage] := blocks[stage].(uniforms := blocks[stage].uniforms[location := address]);
      dirty[stage] := true;
    }

    method SetStorageBuffer(location: nat, stage: nat, address: nat)
      requires Valid() && CallOk(Call.SetStorageBuffer(location, stage, address))
      modifies blocks, dirty
      ensures Valid() && Model() == Apply(old(Model()), Call.SetStorageBuffer(location, stage, address))
      ensures old(Inv(Model())) ==> Inv(Model())
    {
      if Inv(Model()) { ApplyInv(Model(), Call.SetStorageBuffer(location, stage, address)); }
      hide Inv;
      if blocks[stage].storages[location] == address { return; }
      blocks[stage] := blocks[stage].(storages := blocks[stage].storages[location := address]);
      dirty[stage] := true;
    }

    method SetTextureAndSampler(location: nat, stage: nat, texture: nat, sampler: nat)
      requires Valid() && CallOk(Call.SetTextureAndSampler(location, stage, texture, sampler))
      modifies blocks, dirty
      ensures Valid() && Model() == Apply(old(Model()), Call.SetTextureAndSampler(location, stage, texture, sampler))
      ensures old(Inv(Model())) ==> Inv(Model())
    {
      if Inv(Model()) { ApplyInv(Model(), Call.SetTextureAndSampler(location, stage, texture, sampler)); }
      hide Inv;
      if blocks[stage].textures[location] == texture && blocks[stage].samplers[location] == sampler { return; }
      blocks[stage] := blocks[stage].(textures := blocks[stage].textures[location := texture]);
      blocks[stage] := blocks[stage].(samplers := blocks[stage].samplers[location := sampler]);
      dirty[stage] := true;
    }
  }
}
