/** The command recorder.  Each Vulkan call is an append to a trace; the mapped resource memory is a
    map from slot numbers to the blocks copied there.

    Push constants are modelled as one pointer register per shader stage.
 */
module CommandBuffer {
  import opened Wrappers
  import opened Arithmetic

  const STAGES: nat := 6
  const COLOR_TARGETS: nat := 8

  /** The CPU-side resource block of one stage. */
  datatype Block = Block(uniforms: seq<nat>, storages: seq<nat>, textures: seq<nat>, samplers: seq<nat>)

  function Zeros(n: nat): seq<nat> {
    seq(n, _ => 0)
  }

  function DefaultBlock(): Block {
    Block(Zeros(14), Zeros(16), Zeros(32), Zeros(32))
  }

  /** A target view; 0 is the null pointer. */
  type Target = nat

  /** The commands of a trace.  `TargetsSet` marks a call of `SetRenderTargets`, which emits nothing;
      `Draw` carries the resource blocks and the targets as they were on the CPU when the draw was
      recorded. */
  datatype Command =
    | BeginRendering(colors: seq<Target>, depth: Target)
    | EndRendering
    | Clear
    | Copy
    | Barrier
    | EndCommandBuffer
    | PushConstant(stage: nat, slot: nat)
    | Draw(blocks: seq<Block>, targets: seq<Target>, depthTarget: Target)
    | TargetsSet
    | Other

  /** The recorder's fields, the mapped memory and the trace of the current recording. */
  datatype Recorder = Recorder(
    isRendering: bool, areNewTargets: bool, dirty: seq<bool>, blocks: seq<Block>, updateCount: nat,
    colors: seq<Target>, depth: Target, memory: map<nat, Block>, trace: seq<Command>)

  predicate WellFormed(r: Recorder) {
    |r.dirty| == |r.blocks| == STAGES && |r.colors| == COLOR_TARGETS
  }

  function Emit(r: Recorder, c: Command): Recorder {
    r.(trace := r.trace + [c])
  }

  function EndRenderingIfRendering(r: Recorder): Recorder {
    if r.isRendering then Emit(r.(isRendering := false), EndRendering) else r
  }

  /** The colour attachments of a new scope: the targets up to the first null one. */
  function Attachments(colors: seq<Target>): seq<Target> {
    if colors == [] || colors[0] == 0 then [] else [colors[0]] + Attachments(colors[1..])
  }

  function BeginRenderingIfNotRendering(r: Recorder): Recorder {
    if !r.areNewTargets && r.isRendering then r
    else
      var s := if r.areNewTargets then EndRenderingIfRendering(r.(areNewTargets := false)) else r;
      Emit(s.(isRendering := true), BeginRendering(Attachments(s.colors), s.depth))
  }

  /** Copy the block of a stage that needs it to the next slot and point the stage at it. */
  function Flush(r: Recorder, stage: nat): Recorder
    requires WellFormed(r) && stage < STAGES
  {
    if !r.dirty[stage] then r
    else
      Emit(r.(memory := r.memory[r.updateCount := r.blocks[stage]], updateCount := r.updateCount + 1,
          dirty := r.dirty[stage := false]),
           PushConstant(stage, r.updateCount))
  }

  /** The stages in the order in which they are flushed. */
  function FlushOrder(): seq<nat> {
    [0, 2, 1, 3, 4, 5]
  }

  function FlushAll(r: Recorder, stages: seq<nat>): Recorder
    requires WellFormed(r) && forall i | 0 <= i < |stages| :: stages[i] < STAGES
    decreases |stages|
  {
    if stages == [] then r else FlushAll(Flush(r, stages[0]), stages[1..])
  }

  function UpdateResourceBufferIfNecessary(r: Recorder): Recorder
    requires WellFormed(r)
  {
    FlushAll(r, FlushOrder())
  }

  /** Relocation of a buffer, if it is needed: rendering ends, and the pool may record a copy. */
  datatype Relocation = NotNeeded | Needed(copies: bool)

  function Relocate(r: Recorder, relocation: Relocation): Recorder {
    match relocation
    case NotNeeded => r
    case Needed(copies) => var s := EndRenderingIfRendering(r); if copies then Emit(s, Copy) else s
  }

  datatype Call =
    | ClearTarget
    | DrawCall
    | DrawIndexedCall(relocation: Relocation)
    | SetRenderTargets(targets: seq<Target>, depth: Target)
    | SetVertexBuffer(relocation: Relocation)
    | SetBufferStateTransition(relocation: Relocation)
    | SetTextureStateTransition(bottomOfPipe: bool)
    | SetUniformBuffer(location: nat, stage: nat, address: nat)
    | SetStorageBuffer(location: nat, stage: nat, address: nat)
    | SetTextureAndSampler(location: nat, stage: nat, texture: nat, sampler: nat)
    | SetOtherState

  predicate CallOk(c: Call) {
    match c
    case SetRenderTargets(targets, _) => 0 < |targets| <= COLOR_TARGETS
    case SetUniformBuffer(location, stage, _) => location < 14 && stage < STAGES
    case SetStorageBuffer(location, stage, _) => location < 16 && stage < STAGES
    case SetTextureAndSampler(location, stage, _, _) => location < 32 && stage < STAGES
    case _ => true
  }

  predicate BlockOk(b: Block) {
    |b.uniforms| == 14 && |b.storages| == 16 && |b.textures| == |b.samplers| == 32
  }

  predicate BlocksOk(r: Recorder) {
    WellFormed(r) && forall s | 0 <= s < STAGES :: BlockOk(r.blocks[s])
  }

  function RecordDraw(r: Recorder): Recorder
    requires WellFormed(r)
  {
    Emit(Emit(BeginRenderingIfNotRendering(UpdateResourceBufferIfNecessary(r)), Other),
        Draw(r.blocks, r.colors, r.depth))
  }

  function SetBlock(r: Recorder, stage: nat, b: Block): Recorder
    requires WellFormed(r) && stage < STAGES
  {
    r.(blocks := r.blocks[stage := b], dirty := r.dirty[stage := true])
  }

  function Overlay(previous: seq<Target>, targets: seq<Target>): seq<Target>
    requires |targets| <= |previous|
  {
    targets + previous[|targets|..]
  }

  function Apply(r: Recorder, c: Call): Recorder
    requires BlocksOk(r) && CallOk(c)
  {
    match c
    case ClearTarget => Emit(Emit(EndRenderingIfRendering(r), Clear), Barrier)
    case DrawCall => RecordDraw(r)
    case DrawIndexedCall(relocation) => RecordDraw(Relocate(r, relocation))
    case SetRenderTargets(targets, depth) =>
      Emit(r.(colors := Overlay(r.colors, targets), depth := depth, areNewTargets := true), TargetsSet)
    case SetVertexBuffer(relocation) => Emit(Relocate(r, relocation), Other)
    case SetBufferStateTransition(relocation) => Emit(Relocate(r, relocation), Barrier)
    case SetTextureStateTransition(bottom) => Emit(if bottom then EndRenderingIfRendering(r) else r, Barrier)
    case SetUniformBuffer(l, s, a) =>
      if r.blocks[s].uniforms[l] == a then r else SetBlock(r, s, r.blocks[s].(uniforms := r.blocks[s].uniforms[l := a]))
    case SetStorageBuffer(l, s, a) =>
      if r.blocks[s].storages[l] == a then r else SetBlock(r, s, r.blocks[s].(storages := r.blocks[s].storages[l := a]))
    case SetTextureAndSampler(l, s, t, p) =>
      if r.blocks[s].textures[l] == t && r.blocks[s].samplers[l] == p then r
      else SetBlock(r, s,
          r.blocks[s].(textures := r.blocks[s].textures[l := t], samplers := r.blocks[s].samplers[l := p]))
    case SetOtherState => Emit(r, Other)
  }

  /** `Begin`: default blocks, slot numbers from 0; flags, targets and memory are as they were. */
  function Begin(r: Recorder): Recorder {
    r.(blocks := seq(STAGES, _ => DefaultBlock()), updateCount := 0, trace := [])
  }

  function End(r: Recorder): Recorder {
    Emit(EndRenderingIfRendering(r), EndCommandBuffer)
  }

  // Rendering scopes.

  /** Whether a scope is open, whether render targets have been set since the last one opened, and what
      that one has attached. */
  datatype Phase = Phase(open: bool, stale: bool, attached: seq<Target>, depth: Target)

  /** The rules of dynamic rendering for one command: scopes do not nest, draws are inside a scope that
      was opened after the targets were set and has them attached, clears, copies and the end of the
      buffer are outside. */
  ghost function Advance(p: Phase, c: Command): Option<Phase> {
    match c
    case BeginRendering(colors, depth) => if p.open then None else Some(Phase(true, false, colors, depth))
    case EndRendering => if p.open then Some(p.(open := false)) else None
    case Draw(_, targets, depth) =>
        if p.open && !p.stale && p.attached == Attachments(targets) && p.depth == depth then Some(p) else None
    case Clear => if p.open then None else Some(p)
    case Copy => if p.open then None else Some(p)
    case EndCommandBuffer => if p.open then None else Some(p)
    case TargetsSet => Some(p.(stale := true))
    case _ => Some(p)
  }

  /** The phase after a trace, if every command of it obeys the rules. */
  ghost function Check(trace: seq<Command>): Option<Phase> {
    if trace == [] then Some(Phase(false, false, [], 0))
    else
      var n := |trace| - 1;
      match Check(trace[..n])
      case None => None
      case Some(p) => Advance(p, trace[n])
  }

  lemma CheckEmit(trace: seq<Command>, c: Command)
    ensures Check(trace + [c]) == match Check(trace) case None => None case Some(p) => Advance(p, c)
  {
    assert (trace + [c])[..|trace|] == trace;
  }

  ghost predicate ScopeOk(r: Recorder) {
    match Check(r.trace)
    case None => false
    case Some(p) =>
      && p.open == r.isRendering && (p.stale ==> r.areNewTargets)
      && (r.isRendering && !r.areNewTargets ==> p.attached == Attachments(r.colors) && p.depth == r.depth)
  }

  lemma EndScope(r: Recorder)
    requires ScopeOk(r)
    ensures var t := EndRenderingIfRendering(r); ScopeOk(t) && !t.isRendering && t.areNewTargets == r.areNewTargets
  {
    CheckEmit(r.trace, EndRendering);
  }

  lemma BeginScope(r: Recorder)
    requires ScopeOk(r)
    ensures var t := BeginRenderingIfNotRendering(r);
            && ScopeOk(t) && t.isRendering && !t.areNewTargets
            && t.colors == r.colors && t.depth == r.depth
  {
    if r.areNewTargets || !r.isRendering {
      var s := if r.areNewTargets then EndRenderingIfRendering(r.(areNewTargets := false)) else r;
      CheckEmit(r.trace, EndRendering);
      CheckEmit(s.trace, BeginRendering(Attachments(s.colors), s.depth));
    }
  }

  /** A command that obeys the rules in the present phase can be emitted. */
  lemma EmitScope(r: Recorder, c: Command)
    requires ScopeOk(r)
    requires c.PushConstant? || c.Other? || c.Barrier?
             || (c.Draw? && r.isRendering && !r.areNewTargets && c.targets == r.colors && c.depthTarget == r.depth)
             || ((c.Clear? || c.Copy? || c.EndCommandBuffer?) && !r.isRendering) || (c.TargetsSet? && r.areNewTargets)
    ensures ScopeOk(Emit(r, c))
  {
    CheckEmit(r.trace, c);
  }

  lemma FlushOneScope(r: Recorder, stage: nat)
    requires ScopeOk(r) && WellFormed(r) && stage < STAGES
    ensures var t := Flush(r, stage); ScopeOk(t) && WellFormed(t) && t.colors == r.colors && t.depth == r.depth
  {
    hide Attachments;
    CheckEmit(r.trace, PushConstant(stage, r.updateCount));
  }

  lemma {:induction false} FlushScope(r: Recorder, stages: seq<nat>)
    requires ScopeOk(r) && WellFormed(r) && forall i | 0 <= i < |stages| :: stages[i] < STAGES
    ensures var t := FlushAll(r, stages); ScopeOk(t) && t.colors == r.colors && t.depth == r.depth
    decreases |stages|
  {
    hide Flush, ScopeOk;
    if stages != [] {
      FlushOneScope(r, stages[0]);
      FlushScope(Flush(r, stages[0]), stages[1..]);
    }
  }

  lemma RelocateScope(r: Recorder, relocation: Relocation)
    requires ScopeOk(r)
    ensures ScopeOk(Relocate(r, relocation))
  {
    EndScope(r);
    if relocation.Needed? { EmitScope(EndRenderingIfRendering(r), Copy); }
  }

  lemma DrawScope(r: Recorder)
    requires ScopeOk(r) && WellFormed(r)
    ensures ScopeOk(RecordDraw(r))
  {
    hide FlushAll, ScopeOk, Attachments;
    FlushScope(r, FlushOrder());
    var u := UpdateResourceBufferIfNecessary(r);
    BeginScope(u);
    var b := BeginRenderingIfNotRendering(u);
    EmitScope(b, Other);
    EmitScope(Emit(b, Other), Draw(r.blocks, r.colors, r.depth));
  }

  lemma ApplyScope(r: Recorder, c: Call)
    requires ScopeOk(r) && BlocksOk(r) && CallOk(c)
    ensures ScopeOk(Apply(r, c))
  {
    match c
    case ClearTarget =>
      EndScope(r);
      EmitScope(EndRenderingIfRendering(r), Clear);
      EmitScope(Emit(EndRenderingIfRendering(r), Clear), Barrier);
    case DrawCall => DrawScope(r);
    case DrawIndexedCall(relocation) =>
      RelocateScope(r, relocation);
      DrawScope(Relocate(r, relocation));
    case SetRenderTargets(targets, depth) =>
      EmitScope(r.(colors := Overlay(r.colors, targets), depth := depth, areNewTargets := true), TargetsSet);
    case SetVertexBuffer(relocation) =>
      RelocateScope(r, relocation);
      EmitScope(Relocate(r, relocation), Other);
    case SetBufferStateTransition(relocation) =>
      RelocateScope(r, relocation);
      EmitScope(Relocate(r, relocation), Barrier);
    case SetTextureStateTransition(bottom) =>
      EndScope(r);
      EmitScope(if bottom then EndRenderingIfRendering(r) else r, Barrier);
    case SetOtherState => EmitScope(r, Other);
    case _ =>
  }

  // Resource blocks.

  /** The slot a stage's pointer register holds after a trace. */
  ghost function Register(trace: seq<Command>, stage: nat): Option<nat> {
    if trace == [] then None
    else
      var n := |trace| - 1;
      if trace[n].PushConstant? && trace[n].stage == stage then Some(trace[n].slot) else Register(trace[..n], stage)
  }

  lemma RegisterEmit(trace: seq<Command>, c: Command, stage: nat)
    ensures Register(trace + [c], stage) == if c.PushConstant? && c.stage == stage then Some(c.slot)
            else Register(trace, stage)
  {
    assert (trace + [c])[..|trace|] == trace;
  }

  /** A stage that has been pointed somewhere finds `b` there. */
  ghost predicate Sees(r: Recorder, register: Option<nat>, b: Block) {
    register.Some? && register.value < r.updateCount && register.value in r.memory && r.memory[register.value] == b
  }

  /** A stage whose block is `b` finds it, unless it has not been pointed anywhere in this recording;
      then it finds nothing, and `b` is what `Begin` has set. */
  ghost predicate Served(r: Recorder, register: Option<nat>, b: Block) {
    if register.Some? then Sees(r, register, b) else b == DefaultBlock()
  }

  ghost predicate StageOk(r: Recorder, stage: nat)
    requires WellFormed(r) && stage < STAGES
  {
    r.dirty[stage] || Served(r, Register(r.trace, stage), r.blocks[stage])
  }

  /** Each stage that has been pointed somewhere before the draw at position `p` finds there, in the
      memory as it is now, the block that was current when the draw was recorded. */
  ghost predicate DrawOk(r: Recorder, p: nat)
    requires p < |r.trace| && r.trace[p].Draw?
  {
    |r.trace[p].blocks| == STAGES && forall s | 0 <= s < STAGES ::
        Served(r, Register(r.trace[..p], s), r.trace[p].blocks[s])
  }

  ghost predicate ResourcesOk(r: Recorder) {
    && WellFormed(r)
    && (forall s {:trigger StageOk(r, s)} | 0 <= s < STAGES :: StageOk(r, s))
    && (forall p {:trigger DrawOk(r, p)} | 0 <= p < |r.trace| && r.trace[p].Draw? :: DrawOk(r, p))
  }

  /** The draws already recorded do not notice that the trace gets longer or that a new slot is
      written. */
  lemma DrawsKept(r: Recorder, t: Recorder, c: Command)
    requires forall p {:trigger DrawOk(r, p)} | 0 <= p < |r.trace| && r.trace[p].Draw? :: DrawOk(r, p)
    requires t.trace == r.trace + [c] && r.updateCount <= t.updateCount
    requires forall slot | slot in r.memory && slot < r.updateCount ::
               slot in t.memory && t.memory[slot] == r.memory[slot]
    ensures forall p {:trigger DrawOk(t, p)} | 0 <= p < |r.trace| && t.trace[p].Draw? :: DrawOk(t, p)
  {
    forall p | 0 <= p < |r.trace| && t.trace[p].Draw? ensures DrawOk(t, p) {
      assert DrawOk(r, p) && t.trace[..p] == r.trace[..p];
    }
  }

  /** Commands other than pushes and draws leave the resources alone, as do the rendering flags. */
  lemma EmitResources(r: Recorder, t: Recorder, c: Command)
    requires ResourcesOk(r) && !c.PushConstant? && !c.Draw?
    requires t == r.(isRendering := t.isRendering, areNewTargets := t.areNewTargets, colors := t.colors,
             depth := t.depth, trace := r.trace + [c])
    requires |t.colors| == COLOR_TARGETS
    ensures ResourcesOk(t)
  {
    DrawsKept(r, t, c);
    forall s | 0 <= s < STAGES ensures StageOk(t, s) {
      assert StageOk(r, s);
      RegisterEmit(r.trace, c, s);
    }
  }

  lemma FlushResources(r: Recorder, stage: nat)
    requires ResourcesOk(r) && stage < STAGES
    ensures var t := Flush(r, stage);
            && ResourcesOk(t) && !t.dirty[stage] && t.blocks == r.blocks
            && forall s | 0 <= s < STAGES && !r.dirty[s] :: !t.dirty[s]
  {
    var t := Flush(r, stage);
    if r.dirty[stage] {
      var c := PushConstant(stage, r.updateCount);
      DrawsKept(r, t, c);
      forall s | 0 <= s < STAGES ensures StageOk(t, s) {
        assert StageOk(r, s);
        RegisterEmit(r.trace, c, s);
      }
    }
  }

  lemma {:induction false} FlushAllResources(r: Recorder, stages: seq<nat>)
    requires ResourcesOk(r) && forall i | 0 <= i < |stages| :: stages[i] < STAGES
    ensures var t := FlushAll(r, stages);
            && ResourcesOk(t) && t.blocks == r.blocks && t.colors == r.colors && t.depth == r.depth
            && forall s | 0 <= s < STAGES && (s in stages || !r.dirty[s]) :: !t.dirty[s]
    decreases |stages|
  {
    if stages != [] {
      FlushResources(r, stages[0]);
      FlushAllResources(Flush(r, stages[0]), stages[1..]);
    }
  }

  lemma EndResources(r: Recorder)
    requires ResourcesOk(r)
    ensures ResourcesOk(EndRenderingIfRendering(r))
  {
    if r.isRendering { EmitResources(r, EndRenderingIfRendering(r), EndRendering); }
  }

  lemma BeginResources(r: Recorder)
    requires ResourcesOk(r)
    ensures var t := BeginRenderingIfNotRendering(r); ResourcesOk(t) && t.blocks == r.blocks && t.dirty == r.dirty
  {
    if r.areNewTargets || !r.isRendering {
      var n := r.(areNewTargets := false);
      if r.areNewTargets && r.isRendering {
        EmitResources(r, EndRenderingIfRendering(n), EndRendering);
      } else {
        SameResources(r, n);
      }
      var s := if r.areNewTargets then EndRenderingIfRendering(n) else r;
      EmitResources(s, BeginRenderingIfNotRendering(r), BeginRendering(Attachments(s.colors), s.depth));
    }
  }

  lemma SameResources(r: Recorder, t: Recorder)
    requires ResourcesOk(r) && t == r.(areNewTargets := t.areNewTargets)
    ensures ResourcesOk(t)
  {
    forall s | 0 <= s < STAGES ensures StageOk(t, s) { assert StageOk(r, s); }
    forall p | 0 <= p < |t.trace| && t.trace[p].Draw? ensures DrawOk(t, p) { assert DrawOk(r, p); }
  }

  lemma RelocateResources(r: Recorder, relocation: Relocation)
    requires ResourcesOk(r)
    ensures var t := Relocate(r, relocation); ResourcesOk(t) && t.blocks == r.blocks
  {
    EndResources(r);
    var e := EndRenderingIfRendering(r);
    if relocation.Needed? { EmitResources(e, Emit(e, Copy), Copy); }
  }

  lemma DrawResources(r: Recorder)
    requires ResourcesOk(r)
    ensures ResourcesOk(RecordDraw(r))
  {
    FlushAllResources(r, FlushOrder());
    var u := UpdateResourceBufferIfNecessary(r);
    assert forall s | 0 <= s < STAGES :: s in FlushOrder() && !u.dirty[s];
    hide FlushAll, UpdateResourceBufferIfNecessary, FlushOrder, ResourcesOk, Attachments;
    BeginResources(u);
    var b := BeginRenderingIfNotRendering(u);
    EmitResources(b, Emit(b, Other), Other);
    var e := Emit(b, Other);
    DrawRecorded(e);
  }

  /** With no stage dirty, a draw may be recorded. */
  lemma DrawRecorded(e: Recorder)
    requires ResourcesOk(e) && forall s | 0 <= s < STAGES :: !e.dirty[s]
    ensures ResourcesOk(Emit(e, Draw(e.blocks, e.colors, e.depth)))
  {
    var c := Draw(e.blocks, e.colors, e.depth);
    var t := Emit(e, c);
    DrawsKept(e, t, c);
    forall s | 0 <= s < STAGES ensures StageOk(t, s) && Served(t, Register(t.trace[..|e.trace|], s), e.blocks[s]) {
      assert StageOk(e, s) && t.trace[..|e.trace|] == e.trace;
      RegisterEmit(e.trace, c, s);
    }
    forall p | 0 <= p < |t.trace| && t.trace[p].Draw? ensures DrawOk(t, p) {
      if p == |e.trace| { assert t.trace[p] == c; }
    }
  }

  lemma SetBlockResources(r: Recorder, stage: nat, b: Block)
    requires ResourcesOk(r) && stage < STAGES
    ensures ResourcesOk(SetBlock(r, stage, b))
  {
    var t := SetBlock(r, stage, b);
    forall s | 0 <= s < STAGES ensures StageOk(t, s) { assert StageOk(r, s); }
    forall p | 0 <= p < |t.trace| && t.trace[p].Draw? ensures DrawOk(t, p) { assert DrawOk(r, p); }
  }

  lemma ApplyResources(r: Recorder, c: Call)
    requires ResourcesOk(r) && BlocksOk(r) && CallOk(c)
    ensures ResourcesOk(Apply(r, c)) && BlocksOk(Apply(r, c))
  {
    hide ResourcesOk, RecordDraw, Attachments;
    match c
    case ClearTarget =>
      EndResources(r);
      var e := EndRenderingIfRendering(r);
      EmitResources(e, Emit(e, Clear), Clear);
      EmitResources(Emit(e, Clear), Apply(r, c), Barrier);
    case DrawCall =>
      DrawResources(r);
      DrawKeepsBlocks(r);
    case DrawIndexedCall(relocation) =>
      RelocateResources(r, relocation);
      DrawResources(Relocate(r, relocation));
      DrawKeepsBlocks(Relocate(r, relocation));
    case SetRenderTargets(targets, depth) => EmitResources(r, Apply(r, c), TargetsSet);
    case SetVertexBuffer(relocation) =>
      RelocateResources(r, relocation);
      EmitResources(Relocate(r, relocation), Apply(r, c), Other);
    case SetBufferStateTransition(relocation) =>
      RelocateResources(r, relocation);
      EmitResources(Relocate(r, relocation), Apply(r, c), Barrier);
    case SetTextureStateTransition(bottom) =>
      EndResources(r);
      EmitResources(if bottom then EndRenderingIfRendering(r) else r, Apply(r, c), Barrier);
    case SetUniformBuffer(l, s, a) => SetBlockResources(r, s, r.blocks[s].(uniforms := r.blocks[s].uniforms[l := a]));
    case SetStorageBuffer(l, s, a) => SetBlockResources(r, s, r.blocks[s].(storages := r.blocks[s].storages[l := a]));
    case SetTextureAndSampler(l, s, t, p) =>
      SetBlockResources(r, s,
          r.blocks[s].(textures := r.blocks[s].textures[l := t], samplers := r.blocks[s].samplers[l := p]));
    case SetOtherState => EmitResources(r, Apply(r, c), Other);
  }

  lemma {:induction false} FlushKeepsBlocks(r: Recorder, stages: seq<nat>)
    requires WellFormed(r) && forall i | 0 <= i < |stages| :: stages[i] < STAGES
    ensures var t := FlushAll(r, stages); WellFormed(t) && t.blocks == r.blocks
    decreases |stages|
  {
    if stages != [] { FlushKeepsBlocks(Flush(r, stages[0]), stages[1..]); }
  }

  lemma DrawKeepsBlocks(r: Recorder)
    requires BlocksOk(r)
    ensures BlocksOk(RecordDraw(r)) && RecordDraw(r).blocks == r.blocks
  {
    hide FlushAll, Attachments;
    FlushKeepsBlocks(r, FlushOrder());
  }

  // Whole recordings.

  ghost predicate Inv(r: Recorder) {
    BlocksOk(r) && ScopeOk(r) && ResourcesOk(r)
  }

  lemma ApplyInv(r: Recorder, c: Call)
    requires Inv(r) && CallOk(c)
    ensures Inv(Apply(r, c))
  {
    ApplyScope(r, c);
    ApplyResources(r, c);
  }

  lemma DrawInv(r: Recorder)
    requires Inv(r)
    ensures Inv(RecordDraw(r))
  {
    hide ScopeOk, ResourcesOk, RecordDraw;
    ApplyInv(r, DrawCall);
  }

  /** `Begin` starts a good recording from any recorder that is not inside a scope, whatever dirty flags,
      targets and memory an earlier recording has left. */
  lemma BeginInv(r: Recorder)
    requires WellFormed(r) && !r.isRendering
    ensures Inv(Begin(r))
  {
    var b := Begin(r);
    forall s | 0 <= s < STAGES ensures StageOk(b, s) { assert b.blocks[s] == DefaultBlock(); }
  }

  ghost function Run(r: Recorder, calls: seq<Call>): Recorder
    requires Inv(r) && forall i | 0 <= i < |calls| :: CallOk(calls[i])
    decreases |calls|
  {
    hide ScopeOk, ResourcesOk, Apply;
    if calls == [] then r else (ApplyInv(r, calls[0]); Run(Apply(r, calls[0]), calls[1..]))
  }

  lemma {:induction false} RunInv(r: Recorder, calls: seq<Call>)
    requires Inv(r) && forall i | 0 <= i < |calls| :: CallOk(calls[i])
    ensures Inv(Run(r, calls))
    decreases |calls|
  {
    hide ScopeOk, ResourcesOk, Apply;
    if calls != [] {
      ApplyInv(r, calls[0]);
      RunInv(Apply(r, calls[0]), calls[1..]);
    }
  }

  /** The recorder after `Begin`, any public calls, and `End`. */
  ghost function Recording(r: Recorder, calls: seq<Call>): Recorder
    requires WellFormed(r) && !r.isRendering && forall i | 0 <= i < |calls| :: CallOk(calls[i])
  {
    BeginInv(r);
    End(Run(Begin(r), calls))
  }

  // The simple recorder: no dirty flags, no rendering flags; a draw uses what is set.

  datatype Settings = Settings(blocks: seq<Block>, colors: seq<Target>, depth: Target)

  function SettingsOf(r: Recorder): Settings {
    Settings(r.blocks, r.colors, r.depth)
  }

  predicate SettingsOk(x: Settings) {
    |x.colors| == COLOR_TARGETS && |x.blocks| == STAGES
    && forall s | 0 <= s < STAGES :: BlockOk(x.blocks[s])
  }

  function SimpleSet(x: Settings, c: Call): (y: Settings)
    requires SettingsOk(x) && CallOk(c)
    ensures SettingsOk(y)
  {
    match c
    case SetRenderTargets(targets, depth) => Settings(x.blocks, Overlay(x.colors, targets), depth)
    case SetUniformBuffer(l, s, a) =>
        x.(blocks := x.blocks[s := x.blocks[s].(uniforms := x.blocks[s].uniforms[l := a])])
    case SetStorageBuffer(l, s, a) =>
        x.(blocks := x.blocks[s := x.blocks[s].(storages := x.blocks[s].storages[l := a])])
    case SetTextureAndSampler(l, s, t, p) =>
      x.(blocks := x.blocks[s := x.blocks[s].(textures := x.blocks[s].textures[l := t],
          samplers := x.blocks[s].samplers[l := p])])
    case _ => x
  }

  function Copies(relocation: Relocation): seq<Command> {
    if relocation.Needed? && relocation.copies then [Copy] else []
  }

  /** The work a call asks of the device, in order.  `Other` stands for the state that the call sets. */
  function SimpleWork(x: Settings, c: Call): seq<Command> {
    match c
    case ClearTarget => [Clear, Barrier]
    case DrawCall => [Other, Draw(x.blocks, x.colors, x.depth)]
    case DrawIndexedCall(relocation) => Copies(relocation) + [Other, Draw(x.blocks, x.colors, x.depth)]
    case SetRenderTargets(_, _) => [TargetsSet]
    case SetVertexBuffer(relocation) => Copies(relocation) + [Other]
    case SetBufferStateTransition(relocation) => Copies(relocation) + [Barrier]
    case SetTextureStateTransition(_) => [Barrier]
    case SetOtherState => [Other]
    case _ => []
  }

  function SimpleRun(x: Settings, calls: seq<Call>): seq<Command>
    requires SettingsOk(x) && forall i | 0 <= i < |calls| :: CallOk(calls[i])
    decreases |calls|
  {
    if calls == [] then [] else SimpleWork(x, calls[0]) + SimpleRun(SimpleSet(x, calls[0]), calls[1..])
  }

  predicate IsWork(c: Command) {
    !c.BeginRendering? && !c.EndRendering? && !c.PushConstant?
  }

  /** All the commands of a trace but those that open and close scopes and push constants, in order. */
  ghost function Work(trace: seq<Command>): seq<Command> {
    if trace == [] then []
    else
      var n := |trace| - 1;
      Work(trace[..n]) + if IsWork(trace[n]) then [trace[n]] else []
  }

  lemma WorkEmit(r: Recorder, c: Command)
    ensures Work(Emit(r, c).trace) == Work(r.trace) + if IsWork(c) then [c] else []
  {
    assert (r.trace + [c])[..|r.trace|] == r.trace;
  }

  /** `t` has the settings of `r` and has recorded the work `work` since. */
  ghost predicate Worked(r: Recorder, t: Recorder, work: seq<Command>) {
    SettingsOf(t) == SettingsOf(r) && Work(t.trace) == Work(r.trace) + work
  }

  lemma EndWork(r: Recorder)
    ensures Worked(r, EndRenderingIfRendering(r), [])
  {
    WorkEmit(r.(isRendering := false), EndRendering);
  }

  lemma BeginWork(r: Recorder)
    ensures Worked(r, BeginRenderingIfNotRendering(r), [])
  {
    var n := r.(areNewTargets := false);
    EndWork(n);
    var s := if r.areNewTargets then EndRenderingIfRendering(n) else r;
    WorkEmit(s.(isRendering := true), BeginRendering(Attachments(s.colors), s.depth));
  }

  lemma {:induction false} FlushWork(r: Recorder, stages: seq<nat>)
    requires WellFormed(r) && forall i | 0 <= i < |stages| :: stages[i] < STAGES
    ensures Worked(r, FlushAll(r, stages), [])
    decreases |stages|
  {
    if stages != [] {
      var t := Flush(r, stages[0]);
      assert Worked(r, t, []) by {
        assert r.dirty[stages[0]] ==> (r.trace + [PushConstant(stages[0], r.updateCount)])[..|r.trace|] == r.trace;
      }
      FlushWork(t, stages[1..]);
    }
  }

  lemma RelocateWork(r: Recorder, relocation: Relocation)
    ensures Worked(r, Relocate(r, relocation), Copies(relocation))
  {
    EndWork(r);
    WorkEmit(EndRenderingIfRendering(r), Copy);
  }

  lemma DrawWork(r: Recorder)
    requires WellFormed(r)
    ensures Worked(r, RecordDraw(r), [Other, Draw(r.blocks, r.colors, r.depth)])
  {
    hide FlushAll, Work, Attachments;
    FlushWork(r, FlushOrder());
    var u := UpdateResourceBufferIfNecessary(r);
    BeginWork(u);
    var b := BeginRenderingIfNotRendering(u);
    WorkEmit(b, Other);
    WorkEmit(Emit(b, Other), Draw(r.blocks, r.colors, r.depth));
  }

  lemma RelocateShape(r: Recorder, relocation: Relocation)
    ensures Relocate(r, relocation).dirty == r.dirty
  {
  }

  /** Setting what is set already changes nothing. */
  lemma SetAgain(blocks: seq<Block>, s: nat, values: seq<nat>, l: nat)
    requires s < |blocks| && l < |values|
    ensures values[l := values[l]] == values && blocks[s := blocks[s]] == blocks
  {
  }

  lemma ApplySets(r: Recorder, c: Call)
    requires BlocksOk(r) && CallOk(c)
    ensures SettingsOf(Apply(r, c)) == SimpleSet(SettingsOf(r), c)
  {
    hide RecordDraw, EndRenderingIfRendering, Work;
    match c
    case ClearTarget => EndWork(r);
    case DrawCall => DrawWork(r);
    case DrawIndexedCall(relocation) =>
      RelocateWork(r, relocation);
      RelocateShape(r, relocation);
      DrawWork(Relocate(r, relocation));
    case SetVertexBuffer(relocation) => RelocateWork(r, relocation);
    case SetBufferStateTransition(relocation) => RelocateWork(r, relocation);
    case SetTextureStateTransition(bottom) => EndWork(r);
    case SetUniformBuffer(l, s, a) => SetAgain(r.blocks, s, r.blocks[s].uniforms, l);
    case SetStorageBuffer(l, s, a) => SetAgain(r.blocks, s, r.blocks[s].storages, l);
    case SetTextureAndSampler(l, s, t, p) =>
      SetAgain(r.blocks, s, r.blocks[s].textures, l);
      SetAgain(r.blocks, s, r.blocks[s].samplers, l);
    case _ =>
  }

  lemma ApplyWork(r: Recorder, c: Call)
    requires BlocksOk(r) && CallOk(c)
    ensures SettingsOf(Apply(r, c)) == SimpleSet(SettingsOf(r), c)
    ensures Work(Apply(r, c).trace) == Work(r.trace) + SimpleWork(SettingsOf(r), c)
  {
    hide Apply, SimpleSet, Work, SimpleWork;
    ApplySets(r, c);
    ApplyTrace(r, c);
  }

  lemma ApplyTrace(r: Recorder, c: Call)
    requires BlocksOk(r) && CallOk(c)
    ensures Work(Apply(r, c).trace) == Work(r.trace) + SimpleWork(SettingsOf(r), c)
  {
    hide RecordDraw, EndRenderingIfRendering, Work, Overlay, BlockOk;
    match c
    case ClearTarget =>
      EndWork(r);
      var e := EndRenderingIfRendering(r);
      WorkEmit(e, Clear);
      WorkEmit(Emit(e, Clear), Barrier);
    case DrawCall => DrawWork(r);
    case DrawIndexedCall(relocation) =>
      RelocateWork(r, relocation);
      RelocateShape(r, relocation);
      DrawWork(Relocate(r, relocation));
    case SetRenderTargets(targets, depth) =>
        WorkEmit(r.(colors := Overlay(r.colors, targets), depth := depth, areNewTargets := true), TargetsSet);
    case SetVertexBuffer(relocation) =>
      RelocateWork(r, relocation);
      WorkEmit(Relocate(r, relocation), Other);
    case SetBufferStateTransition(relocation) =>
      RelocateWork(r, relocation);
      WorkEmit(Relocate(r, relocation), Barrier);
    case SetTextureStateTransition(bottom) =>
      EndWork(r);
      WorkEmit(if bottom then EndRenderingIfRendering(r) else r, Barrier);
    case SetUniformBuffer(_, _, _) =>
    case SetStorageBuffer(_, _, _) =>
    case SetTextureAndSampler(_, _, _, _) =>
    case SetOtherState => WorkEmit(r, Other);
  }

  lemma RecordingIs(r: Recorder, calls: seq<Call>)
    requires WellFormed(r) && !r.isRendering && forall i | 0 <= i < |calls| :: CallOk(calls[i])
    ensures Inv(Begin(r)) && Recording(r, calls) == End(Run(Begin(r), calls))
    ensures var b := Begin(r);
            b.isRendering == r.isRendering && b.areNewTargets == r.areNewTargets && b.trace == [] && b.dirty == r.dirty
  {
    BeginInv(r);
  }

  lemma {:induction false} RunWork(r: Recorder, calls: seq<Call>)
    requires Inv(r) && forall i | 0 <= i < |calls| :: CallOk(calls[i])
    ensures Work(Run(r, calls).trace) == Work(r.trace) + SimpleRun(SettingsOf(r), calls)
    decreases |calls|
  {
    hide ScopeOk, ResourcesOk, Apply, SimpleSet, SimpleWork, Work;
    if calls != [] {
      ApplyInv(r, calls[0]);
      ApplyWork(r, calls[0]);
      RunWork(Apply(r, calls[0]), calls[1..]);
    }
  }

  /** Every recording does the work of the simple recorder, obeys the rules of rendering scopes and
      leaves no scope open, so that the next recording can begin.  When its commands are executed after
      it, every draw finds, for each stage that has been pointed somewhere, the block that was current
      when the draw was recorded; in particular no slot it uses has been overwritten.  Which stages have
      been pointed somewhere is the subject of `PushedStages`. */
  lemma RecordingOk(r: Recorder, calls: seq<Call>)
    requires WellFormed(r) && !r.isRendering && forall i | 0 <= i < |calls| :: CallOk(calls[i])
    ensures var e := Recording(r, calls);
            && WellFormed(e) && !e.isRendering && Check(e.trace).Some? && !Check(e.trace).value.open
            && (forall p | 0 <= p < |e.trace| && e.trace[p].Draw? :: DrawOk(e, p))
            && SettingsOk(SettingsOf(Begin(r)))
            && Work(e.trace) == SimpleRun(SettingsOf(Begin(r)), calls) + [EndCommandBuffer]
  {
    BeginInv(r);
    RunInv(Begin(r), calls);
    RunWork(Begin(r), calls);
    hide Run, SimpleRun, End, ScopeOk, ResourcesOk, DrawOk;
    EndOk(Run(Begin(r), calls));
  }

  lemma EndOk(u: Recorder)
    requires Inv(u)
    ensures var e := End(u);
            && WellFormed(e) && !e.isRendering && Check(e.trace).Some? && !Check(e.trace).value.open
            && (forall p | 0 <= p < |e.trace| && e.trace[p].Draw? :: DrawOk(e, p))
            && Work(e.trace) == Work(u.trace) + [EndCommandBuffer]
  {
    EndScope(u);
    EndResources(u);
    EndWork(u);
    var e := EndRenderingIfRendering(u);
    EmitScope(e, EndCommandBuffer);
    EmitResources(e, End(u), EndCommandBuffer);
    WorkEmit(e, EndCommandBuffer);
  }

  // The size of the resource memory.

  const BLOCK_SIZE: nat := 0x200
  const MAX_UPDATES: nat := 120

  /** `GetDrawMemorySize`: the product of its 32-bit arguments wraps before it is widened. */
  function DrawMemorySize(stages: nat, draws: nat): nat {
    stages * draws % 0x1_0000_0000 * (BLOCK_SIZE * MAX_UPDATES)
  }

  function One(b: bool): nat {
    if b then 1 else 0
  }

  /** How many stages a draw would flush now. */
  function DirtyStages(r: Recorder): nat
    requires WellFormed(r)
  {
    One(r.dirty[0]) + One(r.dirty[1]) + One(r.dirty[2]) + One(r.dirty[3]) + One(r.dirty[4]) + One(r.dirty[5])
  }

  predicate IsDraw(c: Call) {
    c.DrawCall? || c.DrawIndexedCall?
  }

  function Draws(calls: seq<Call>): nat {
    if calls == [] then 0 else One(IsDraw(calls[0])) + Draws(calls[1..])
  }

  /** No draw of the run flushes more than `stages` stages. */
  ghost predicate FlushesAtMost(r: Recorder, calls: seq<Call>, stages: nat)
    requires Inv(r) && forall i | 0 <= i < |calls| :: CallOk(calls[i])
    decreases |calls|
  {
    calls == [] || (ApplyInv(r, calls[0]);
                    (IsDraw(calls[0]) ==> DirtyStages(r) <= stages)
                        && FlushesAtMost(Apply(r, calls[0]), calls[1..], stages))
  }

  lemma FlushOne(r: Recorder, stage: nat)
    requires WellFormed(r) && stage < STAGES
    ensures var t := Flush(r, stage);
            WellFormed(t) && t.updateCount == r.updateCount + One(r.dirty[stage]) && t.dirty == r.dirty[stage := false]
  {
  }

  lemma FlushCounts(r: Recorder)
    requires WellFormed(r)
    ensures UpdateResourceBufferIfNecessary(r).updateCount == r.updateCount + DirtyStages(r)
    ensures UpdateResourceBufferIfNecessary(r).dirty == [false, false, false, false, false, false]
  {
    hide Flush, FlushAll;
    FlushOne(r, 0);
    var r0 := Flush(r, 0);
    FlushOne(r0, 2);
    var r1 := Flush(r0, 2);
    FlushOne(r1, 1);
    var r2 := Flush(r1, 1);
    FlushOne(r2, 3);
    var r3 := Flush(r2, 3);
    FlushOne(r3, 4);
    var r4 := Flush(r3, 4);
    FlushOne(r4, 5);
    var r5 := Flush(r4, 5);
    FlushSteps(r);
  }

  lemma FlushSteps(r: Recorder)
    requires WellFormed(r)
    ensures UpdateResourceBufferIfNecessary(r) == Flush(Flush(Flush(Flush(Flush(Flush(r, 0), 2), 1), 3), 4), 5)
  {
    hide FlushAll, Flush;
    FlushOne(r, 0);
    var r0 := Flush(r, 0);
    FlushOne(r0, 2);
    var r1 := Flush(r0, 2);
    FlushOne(r1, 1);
    var r2 := Flush(r1, 1);
    FlushOne(r2, 3);
    var r3 := Flush(r2, 3);
    FlushOne(r3, 4);
    var r4 := Flush(r3, 4);
    hide One;
    FlushAllUnfold(r, 0, [2, 1, 3, 4, 5]);
    FlushAllUnfold(r0, 2, [1, 3, 4, 5]);
    FlushAllUnfold(r1, 1, [3, 4, 5]);
    FlushAllUnfold(r2, 3, [4, 5]);
    FlushAllUnfold(r3, 4, [5]);
    FlushAllUnfold(r4, 5, []);
    assert FlushOrder() == [0] + [2, 1, 3, 4, 5];
    assert [2, 1, 3, 4, 5] == [2] + [1, 3, 4, 5];
    assert [1, 3, 4, 5] == [1] + [3, 4, 5];
    assert [3, 4, 5] == [3] + [4, 5];
    assert [4, 5] == [4] + [5];
    assert [5] == [5] + [];
  }

  lemma FlushAllUnfold(r: Recorder, stage: nat, stages: seq<nat>)
    requires WellFormed(r) && stage < STAGES && forall i | 0 <= i < |stages| :: stages[i] < STAGES
    ensures FlushAll(r, [stage] + stages) == FlushAll(Flush(r, stage), stages)
    ensures stages == [] ==> FlushAll(Flush(r, stage), stages) == Flush(r, stage)
  {
    assert ([stage] + stages)[1..] == stages;
  }

  lemma DrawCounts(r: Recorder)
    requires WellFormed(r)
    ensures RecordDraw(r).updateCount == r.updateCount + DirtyStages(r)
    ensures RecordDraw(r).dirty == [false, false, false, false, false, false]
  {
    FlushCounts(r);
    hide UpdateResourceBufferIfNecessary;
  }

  lemma ApplyCounts(r: Recorder, c: Call)
    requires BlocksOk(r) && CallOk(c)
    ensures Apply(r, c).updateCount == r.updateCount + if IsDraw(c) then DirtyStages(r) else 0
  {
    hide RecordDraw, Overlay, DirtyStages, Relocate, EndRenderingIfRendering;
    match c
    case DrawCall => DrawCounts(r);
    case DrawIndexedCall(relocation) =>
      RelocateCounts(r, relocation);
      DrawCounts(Relocate(r, relocation));
    case SetVertexBuffer(relocation) => RelocateCounts(r, relocation);
    case SetBufferStateTransition(relocation) => RelocateCounts(r, relocation);
    case _ => EndCounts(r);
  }

  lemma EndCounts(r: Recorder)
    ensures var t := EndRenderingIfRendering(r); t.updateCount == r.updateCount
  {
  }

  lemma RelocateCounts(r: Recorder, relocation: Relocation)
    requires WellFormed(r)
    ensures var t := Relocate(r, relocation);
            && WellFormed(t) && t.updateCount == r.updateCount
            && DirtyStages(t) == DirtyStages(r)
  {
  }

  function Least(a: nat, b: nat): nat {
    if a <= b then a else b
  }

  /** The slots used are at most the stages flushed per draw times the draws. */
  lemma {:induction false} SlotsUsed(r: Recorder, calls: seq<Call>, stages: nat)
    requires Inv(r) && (forall i | 0 <= i < |calls| :: CallOk(calls[i])) && FlushesAtMost(r, calls, stages)
    ensures Run(r, calls).updateCount <= r.updateCount + Least(stages, STAGES) * Draws(calls)
    decreases |calls|
  {
    hide ScopeOk, ResourcesOk, Apply, DirtyStages;
    if calls != [] {
      ApplyInv(r, calls[0]);
      ApplyCounts(r, calls[0]);
      DirtyAtMostAll(r);
      SlotsUsed(Apply(r, calls[0]), calls[1..], stages);
      Distribute(Least(stages, STAGES), Draws(calls[1..]));
    }
  }

  lemma DirtyAtMostAll(r: Recorder)
    requires WellFormed(r)
    ensures DirtyStages(r) <= STAGES
  {
  }

  /** A recording of at most `draws` draws that flush at most `stages` stages each. */
  ghost predicate Within(r: Recorder, calls: seq<Call>, stages: nat, draws: nat) {
    && WellFormed(r) && !r.isRendering && (forall i | 0 <= i < |calls| :: CallOk(calls[i]))
    && (BeginInv(r); FlushesAtMost(Begin(r), calls, stages)) && Draws(calls) <= draws
  }

  /** How many blocks of the memory a recording addresses.  The source's slot count has 32 bits, so it
      addresses no slot from 2^32 on. */
  ghost function BlocksAddressed(r: Recorder): nat {
    Least(r.updateCount, 0x1_0000_0000)
  }

  /** Memory of the computed size is overrun by no such recording. */
  ghost predicate MemorySuffices(stages: nat, draws: nat) {
    forall r, calls | Within(r, calls, stages, draws) ::
      BlocksAddressed(Recording(r, calls)) * BLOCK_SIZE <= DrawMemorySize(stages, draws)
  }

  /** The computed size holds as many blocks as such a recording can need. */
  predicate SizeEnough(stages: nat, draws: nat) {
    Least(Least(stages, STAGES) * draws, 0x1_0000_0000) <= stages * draws % 0x1_0000_0000 * MAX_UPDATES
  }

  lemma RecordingFits(r: Recorder, calls: seq<Call>, stages: nat, draws: nat)
    requires Within(r, calls, stages, draws)
    ensures WellFormed(r) && !r.isRendering && forall i | 0 <= i < |calls| :: CallOk(calls[i])
    ensures Recording(r, calls).updateCount <= Least(stages, STAGES) * draws
  {
    hide *;
    WithinMeans(r, calls, stages, draws);
    RecordingIs(r, calls);
    SlotsUsed(Begin(r), calls, stages);
    EndKeepsCount(Run(Begin(r), calls));
    MulMono(Draws(calls), draws, Least(stages, STAGES));
  }

  lemma WithinMeans(r: Recorder, calls: seq<Call>, stages: nat, draws: nat)
    requires Within(r, calls, stages, draws)
    ensures WellFormed(r) && !r.isRendering && forall i | 0 <= i < |calls| :: CallOk(calls[i])
    ensures Inv(Begin(r)) && FlushesAtMost(Begin(r), calls, stages)
    ensures Draws(calls) <= draws && Begin(r).updateCount == 0
  {
    BeginInv(r);
    hide ScopeOk, ResourcesOk, FlushesAtMost;
  }

  lemma EndKeepsCount(r: Recorder)
    ensures End(r).updateCount == r.updateCount
  {
  }

  function Address(d: nat): nat {
    1 + d % 2
  }

  lemma AddressChanges(d: nat)
    requires d > 0
    ensures Address(d) != Address(d - 1)
  {
  }

  /** Calls that change one address in each of the first `n` stages before each of `d` draws; `k` stages
      are already changed. */
  ghost function Busy(k: nat, n: nat, d: nat): seq<Call>
    requires k <= n
    decreases d, n - k
  {
    if d == 0 then [] else if k < n then [SetUniformBuffer(0, k, Address(d))] + Busy(k + 1, n, d)
        else [DrawCall] + Busy(0, n, d - 1)
  }

  /** Exactly the first `k` stages are dirty and changed for the draw at hand. */
  ghost predicate BusyAt(r: Recorder, k: nat, n: nat, d: nat)
    requires BlocksOk(r) && k <= n <= STAGES
  {
    && (forall s | 0 <= s < STAGES :: r.dirty[s] <==> s < k)
    && (forall s | 0 <= s < k :: r.blocks[s].uniforms[0] == Address(d))
    && (forall s | k <= s < n :: r.blocks[s].uniforms[0] != Address(d))
  }

  lemma BusySet(r: Recorder, k: nat, n: nat, d: nat)
    requires BlocksOk(r) && k < n <= STAGES && BusyAt(r, k, n, d)
    ensures var t := Apply(r, SetUniformBuffer(0, k, Address(d)));
            && BlocksOk(t) && BusyAt(t, k + 1, n, d)
            && t.updateCount == r.updateCount
  {
  }

  lemma BusyDraw(r: Recorder, n: nat, d: nat)
    requires BlocksOk(r) && n <= STAGES && BusyAt(r, n, n, d) && d > 0
    ensures var t := Apply(r, DrawCall);
            && BlocksOk(t) && BusyAt(t, 0, n, d - 1) && t.updateCount == r.updateCount + n
            && DirtyStages(r) == n
  {
    hide RecordDraw, DirtyStages, Address;
    DrawKeepsBlocks(r);
    BusyDirty(r, n);
    DrawCounts(r);
    BusyNext(r, RecordDraw(r), n, d);
  }

  lemma BusyNext(r: Recorder, t: Recorder, n: nat, d: nat)
    requires BlocksOk(r) && n <= STAGES && BusyAt(r, n, n, d) && d > 0
    requires BlocksOk(t) && t.blocks == r.blocks && t.dirty == [false, false, false, false, false, false]
    ensures BusyAt(t, 0, n, d - 1)
  {
    AddressChanges(d);
    hide Address;
  }

  lemma BusyDirty(r: Recorder, n: nat)
    requires WellFormed(r) && n <= STAGES && forall s | 0 <= s < STAGES :: r.dirty[s] <==> s < n
    ensures DirtyStages(r) == n
  {
  }

  /** Such calls fill a slot for every stage and draw. */
  lemma {:induction false} BusyRun(r: Recorder, k: nat, n: nat, d: nat, stages: nat)
    requires Inv(r) && k <= n <= STAGES && n <= stages && BusyAt(r, k, n, d)
    ensures var calls := Busy(k, n, d);
            && (forall i | 0 <= i < |calls| :: CallOk(calls[i])) && Draws(calls) == d
            && FlushesAtMost(r, calls, stages) && Run(r, calls).updateCount == r.updateCount + n * d
    decreases d, n - k
  {
    hide ScopeOk, ResourcesOk, DirtyStages, RecordDraw;
    if d > 0 {
      if k < n {
        var c := SetUniformBuffer(0, k, Address(d));
        BusySet(r, k, n, d);
        ApplyInv(r, c);
        hide Apply, BusyAt, WellFormed;
        BusyRun(Apply(r, c), k + 1, n, d, stages);
        RunCons(r, c, Busy(k + 1, n, d), stages);
      } else {
        BusyDraw(r, n, d);
        ApplyInv(r, DrawCall);
        hide Apply, BusyAt, WellFormed;
        BusyRun(Apply(r, DrawCall), 0, n, d - 1, stages);
        RunCons(r, DrawCall, Busy(0, n, d - 1), stages);
        Distribute(n, d - 1);
      }
    }
  }

  lemma RunCons(r: Recorder, c: Call, rest: seq<Call>, stages: nat)
    requires Inv(r) && CallOk(c) && forall i | 0 <= i < |rest| :: CallOk(rest[i])
    requires IsDraw(c) ==> DirtyStages(r) <= stages
    ensures Inv(Apply(r, c))
    ensures FlushesAtMost(Apply(r, c), rest, stages) ==> FlushesAtMost(r, [c] + rest, stages)
    ensures Run(r, [c] + rest) == Run(Apply(r, c), rest)
    ensures Draws([c] + rest) == One(IsDraw(c)) + Draws(rest)
  {
    ApplyInv(r, c);
    hide ScopeOk, ResourcesOk, Apply;
    assert ([c] + rest)[1..] == rest;
  }

  /** The recorder before its first recording. */
  function Initial(): Recorder {
    Recorder(false, false, seq(STAGES, _ => false), seq(STAGES, _ => DefaultBlock()), 0, Zeros(COLOR_TARGETS), 0, map[],
        [])
  }

  lemma RecordingFull(stages: nat, draws: nat)
    ensures exists calls ::
              && Within(Initial(), calls, stages, draws)
              && Recording(Initial(), calls).updateCount == Least(stages, STAGES) * draws
  {
    var r := Initial();
    var n := Least(stages, STAGES);
    BeginInv(r);
    BusyRun(Begin(r), 0, n, draws, stages);
    var calls := Busy(0, n, draws);
    assert Within(r, calls, stages, draws);
  }

  /** The size that `GetDrawMemorySize` computes suffices for every recording within its arguments
      exactly when its 32-bit product has not wrapped to too small a number. */
  lemma MemorySufficesIff(stages: nat, draws: nat)
    ensures MemorySuffices(stages, draws) <==> SizeEnough(stages, draws)
  {
    hide Recording, FlushesAtMost;
    if SizeEnough(stages, draws) {
      forall r, calls | Within(r, calls, stages, draws)
        ensures BlocksAddressed(Recording(r, calls)) * BLOCK_SIZE <= DrawMemorySize(stages, draws)
      {
        RecordingFits(r, calls, stages, draws);
      }
    } else {
      RecordingFull(stages, draws);
    }
  }

  /** Where both products wrap the size can be all that a 32-bit slot count addresses. */
  lemma BothWrap()
    ensures 6 * 3_585_806_080 > 0x1_0000_0000 && MemorySuffices(6, 3_585_806_080)
  {
    MemorySufficesIff(6, 3_585_806_080);
  }

  /** Without wrapping it suffices, and then the 32-bit slot counter does not wrap either. */
  lemma SizeEnoughUnwrapped(stages: nat, draws: nat)
    requires stages * draws < 0x1_0000_0000
    ensures SizeEnough(stages, draws) && Least(stages, STAGES) * draws < 0x1_0000_0000
    ensures DrawMemorySize(stages, draws) == stages * draws * 61_440
  {
    MulMono(Least(stages, STAGES), stages, draws);
  }

  /** When the product wraps to 0, the size is nothing at all. */
  lemma MemorySizeWraps()
    ensures DrawMemorySize(4, 0x4000_0000) == 0 && !MemorySuffices(4, 0x4000_0000)
  {
    MemorySufficesIff(4, 0x4000_0000);
  }

  // Render targets.

  /** The attachments of the next scope are those of the targets just set exactly when a null among them
      ends the list or none of an earlier, longer list shows behind them. */
  lemma {:induction false} AttachmentsExact(previous: seq<Target>, targets: seq<Target>)
    requires |targets| <= |previous|
    ensures Attachments(Overlay(previous, targets)) == Attachments(targets)
            <==> (0 in targets || |targets| == |previous| || previous[|targets|] == 0)
  {
    if targets == [] {
      assert Overlay(previous, targets) == previous;
    } else {
      AttachmentsExact(previous[1..], targets[1..]);
      var all := Overlay(previous, targets);
      assert all[1..] == Overlay(previous[1..], targets[1..]) && all[0] == targets[0];
      SameHead(targets[0], Attachments(all[1..]), Attachments(targets[1..]));
      assert 0 in targets <==> targets[0] == 0 || 0 in targets[1..];
    }
  }

  lemma SameHead(a: Target, x: seq<Target>, y: seq<Target>)
    ensures [a] + x == [a] + y <==> x == y
  {
    assert ([a] + x)[1..] == x && ([a] + y)[1..] == y;
  }

  lemma NothingFlushed(r: Recorder)
    requires WellFormed(r) && forall s | 0 <= s < STAGES :: !r.dirty[s]
    ensures UpdateResourceBufferIfNecessary(r) == r
  {
    FlushSteps(r);
  }

  /** What a draw appends when no scope is open and no stage is dirty. */
  lemma CleanDraw(r: Recorder)
    requires WellFormed(r) && !r.isRendering && forall s | 0 <= s < STAGES :: !r.dirty[s]
    ensures var t := RecordDraw(r);
            && t.isRendering
            && t.trace == r.trace + [BeginRendering(Attachments(r.colors), r.depth), Other,
               Draw(r.blocks, r.colors, r.depth)]
  {
    NothingFlushed(r);
    hide UpdateResourceBufferIfNecessary, Attachments;
  }

  lemma {:induction false} RunSnoc(r: Recorder, calls: seq<Call>, c: Call)
    requires Inv(r) && CallOk(c) && forall i | 0 <= i < |calls| :: CallOk(calls[i])
    ensures Inv(Run(r, calls)) && Run(r, calls + [c]) == Apply(Run(r, calls), c)
    decreases |calls|
  {
    hide ScopeOk, ResourcesOk, Apply;
    RunInv(r, calls);
    if calls == [] {
      assert [] + [c] == [c] && [c][1..] == [];
    } else {
      ApplyInv(r, calls[0]);
      RunSnoc(Apply(r, calls[0]), calls[1..], c);
      assert (calls + [c])[1..] == calls[1..] + [c];
    }
  }

  lemma {:induction false} RunAppend(r: Recorder, first: seq<Call>, rest: seq<Call>)
    requires Inv(r) && (forall i | 0 <= i < |first| :: CallOk(first[i]))
    requires forall i | 0 <= i < |rest| :: CallOk(rest[i])
    ensures Inv(Run(r, first)) && Run(r, first + rest) == Run(Run(r, first), rest)
    decreases |first|
  {
    hide ScopeOk, ResourcesOk, Apply;
    RunInv(r, first);
    if first == [] {
      assert [] + rest == rest;
    } else {
      ApplyInv(r, first[0]);
      RunAppend(Apply(r, first[0]), first[1..], rest);
      assert (first + rest)[1..] == first[1..] + rest;
    }
  }

  /** A recording whose last call draws, where no stage is dirty and no scope is open. */
  lemma LastDraw(r: Recorder, calls: seq<Call>, u: Recorder)
    requires WellFormed(r) && !r.isRendering && (forall i | 0 <= i < |calls| :: CallOk(calls[i]))
    requires Inv(Begin(r)) && u == Run(Begin(r), calls)
    requires WellFormed(u) && !u.isRendering && forall s | 0 <= s < STAGES :: !u.dirty[s]
    ensures Recording(r, calls + [DrawCall]).trace ==
            u.trace + [BeginRendering(Attachments(u.colors), u.depth), Other, Draw(u.blocks, u.colors, u.depth),
                EndRendering, EndCommandBuffer]
  {
    hide Apply, Run, RecordDraw, ScopeOk, ResourcesOk, Attachments, End, Begin, BlocksOk;
    RunSnoc(Begin(r), calls, DrawCall);
    CleanDraw(u);
    DrawApplied(u);
    assert Recording(r, calls + [DrawCall]) == End(RecordDraw(u));
    EndTrace(RecordDraw(u));
  }

  lemma EndTrace(r: Recorder)
    ensures r.isRendering ==> End(r).trace == r.trace + [EndRendering, EndCommandBuffer]
  {
  }

  lemma DrawApplied(r: Recorder)
    requires BlocksOk(r)
    ensures Apply(r, DrawCall) == RecordDraw(r)
  {
  }

  /** Two targets, then one: the scope that the draw opens still has the second of the old list. */
  lemma LeftoverTarget()
    ensures var e := Recording(Initial(), [SetRenderTargets([1, 2], 0), SetRenderTargets([3], 0)] + [DrawCall]);
            |e.trace| == 7 && e.trace[2] == BeginRendering([3, 2], 0) && e.trace[4].Draw?
  {
    var u := TwiceSet();
    LeftoverAttached();
    BeginInv(Initial());
    hide Run, Apply, ScopeOk, ResourcesOk, Attachments, Overlay;
    LastDraw(Initial(), [SetRenderTargets([1, 2], 0), SetRenderTargets([3], 0)], u);
  }

  lemma TwiceSet() returns (u: Recorder)
    ensures Inv(Begin(Initial())) && u == Run(Begin(Initial()), [SetRenderTargets([1, 2], 0), SetRenderTargets([3], 0)])
    ensures u == Begin(Initial()).(colors := Overlay(Overlay(Zeros(8), [1, 2]), [3]), areNewTargets := true,
            trace := [TargetsSet, TargetsSet])
  {
    var r, c, d := Initial(), SetRenderTargets([1, 2], 0), SetRenderTargets([3], 0);
    BeginInv(r);
    var b := Begin(r);
    var b1 := Apply(b, c);
    RunCons(b, c, [d], STAGES);
    RunCons(b1, d, [], STAGES);
    assert [c] + [d] == [c, d] && [d] + [] == [d];
    u := Apply(b1, d);
    hide ScopeOk, ResourcesOk, Overlay;
    assert u.trace == [TargetsSet, TargetsSet];
  }

  lemma LeftoverAttached()
    ensures Attachments(Overlay(Overlay(Zeros(8), [1, 2]), [3])) == [3, 2]
  {
    hide Attachments;
    var colors := Overlay(Overlay(Zeros(8), [1, 2]), [3]);
    AttachmentsAre(colors, 2);
    assert colors[..2] == [3, 2];
  }

  lemma {:induction false} AttachmentsAre(colors: seq<Target>, n: nat)
    requires n <= |colors| && (forall i | 0 <= i < n :: colors[i] != 0) && (n == |colors| || colors[n] == 0)
    ensures Attachments(colors) == colors[..n]
  {
    if n > 0 {
      AttachmentsAre(colors[1..], n - 1);
      assert colors[..n] == [colors[0]] + colors[1..][..n - 1];
    }
  }
}
