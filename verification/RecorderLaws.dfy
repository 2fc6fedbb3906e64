/** What the recorder's calls do to its fields, entry by entry, and how slots are handed out.
 */
module RecorderLaws {
  import opened Wrappers
  import opened Sequences
  import opened CommandBuffer
  import opened PushedStages

  // Fields.

  /** Only this one uniform entry of this one stage takes the new address; the stage becomes dirty exactly
      if the entry changes. */
  lemma UniformLaw(r: Recorder, l: nat, s: nat, a: nat)
    requires BlocksOk(r) && CallOk(SetUniformBuffer(l, s, a))
    ensures var t := Apply(r, SetUniformBuffer(l, s, a));
            && WellFormed(t) && t == r.(blocks := t.blocks, dirty := t.dirty)
            && forall s' | 0 <= s' < STAGES ::
                 && |t.blocks[s'].uniforms| == 14
                 && (forall l' | 0 <= l' < 14 ::
                       t.blocks[s'].uniforms[l'] == if s' == s && l' == l then a else r.blocks[s'].uniforms[l'])
                 && t.blocks[s'] == r.blocks[s'].(uniforms := t.blocks[s'].uniforms)
                 && (t.dirty[s'] <==> r.dirty[s'] || (s' == s && r.blocks[s].uniforms[l] != a))
  {
  }

  lemma StorageLaw(r: Recorder, l: nat, s: nat, a: nat)
    requires BlocksOk(r) && CallOk(SetStorageBuffer(l, s, a))
    ensures var t := Apply(r, SetStorageBuffer(l, s, a));
            && WellFormed(t) && t == r.(blocks := t.blocks, dirty := t.dirty)
            && forall s' | 0 <= s' < STAGES ::
                 && |t.blocks[s'].storages| == 16
                 && (forall l' | 0 <= l' < 16 ::
                       t.blocks[s'].storages[l'] == if s' == s && l' == l then a else r.blocks[s'].storages[l'])
                 && t.blocks[s'] == r.blocks[s'].(storages := t.blocks[s'].storages)
                 && (t.dirty[s'] <==> r.dirty[s'] || (s' == s && r.blocks[s].storages[l] != a))
  {
  }

  /** The pair goes to the same entry of both arrays. */
  lemma TextureLaw(r: Recorder, l: nat, s: nat, texture: nat, sampler: nat)
    requires BlocksOk(r) && CallOk(SetTextureAndSampler(l, s, texture, sampler))
    ensures var t := Apply(r, SetTextureAndSampler(l, s, texture, sampler));
            && WellFormed(t) && t == r.(blocks := t.blocks, dirty := t.dirty)
            && forall s' | 0 <= s' < STAGES ::
                 && |t.blocks[s'].textures| == |t.blocks[s'].samplers| == 32
                 && (forall l' | 0 <= l' < 32 ::
                       && t.blocks[s'].textures[l'] ==
                          (if s' == s && l' == l then texture else r.blocks[s'].textures[l'])
                       && t.blocks[s'].samplers[l'] ==
                          (if s' == s && l' == l then sampler else r.blocks[s'].samplers[l']))
                 && t.blocks[s'] == r.blocks[s'].(textures := t.blocks[s'].textures, samplers := t.blocks[s'].samplers)
                 && (t.dirty[s'] <==>
                       || r.dirty[s']
                       || (s' == s && (r.blocks[s].textures[l] != texture || r.blocks[s].samplers[l] != sampler)))
  {
  }

  /** The first targets are the new ones, the entries behind them stay, and the next draw is told. */
  lemma TargetsLaw(r: Recorder, targets: seq<Target>, depth: Target)
    requires BlocksOk(r) && CallOk(SetRenderTargets(targets, depth))
    ensures var t := Apply(r, SetRenderTargets(targets, depth));
            && t == r.(colors := t.colors, depth := depth, areNewTargets := true, trace := r.trace + [TargetsSet])
            && |t.colors| == COLOR_TARGETS
            && forall i | 0 <= i < COLOR_TARGETS :: t.colors[i] == if i < |targets| then targets[i] else r.colors[i]
  {
  }

  /** `Begin` resets the blocks to zeros, the slot count and the commands, and nothing else. */
  lemma BeginLaw(r: Recorder)
    requires WellFormed(r)
    ensures var b := Begin(r);
            && b == r.(blocks := b.blocks, updateCount := 0, trace := []) && |b.blocks| == STAGES
            && forall s | 0 <= s < STAGES ::
                 && BlockOk(b.blocks[s]) && (forall v | v in b.blocks[s].uniforms :: v == 0)
                 && (forall v | v in b.blocks[s].storages :: v == 0) && (forall v | v in b.blocks[s].textures :: v == 0)
                 && forall v | v in b.blocks[s].samplers :: v == 0
  {
  }

  /** `End` closes an open scope and ends the buffer; everything else stays. */
  lemma EndLaw(r: Recorder)
    ensures var last := if r.isRendering then [EndRendering, EndCommandBuffer] else [EndCommandBuffer];
            End(r) == r.(isRendering := false, trace := r.trace + last)
  {
  }

  /** After a draw no stage is dirty; after another call those are that were and those it has changed. */
  lemma DirtyLaw(r: Recorder, c: Call, s: nat)
    requires BlocksOk(r) && CallOk(c) && s < STAGES
    ensures WellFormed(Apply(r, c))
    ensures Apply(r, c).dirty[s] <==> !IsDraw(c) && (r.dirty[s] || Changes(SettingsOf(r), c, s))
  {
    hide Apply, Changes;
    if IsDraw(c) {
      DrawCleans(r, c);
    } else if c.SetUniformBuffer? || c.SetStorageBuffer? || c.SetTextureAndSampler? {
      SetterDirties(r, c, s);
    } else {
      PlainDirties(r, c, s);
    }
  }

  lemma DrawCleans(r: Recorder, c: Call)
    requires BlocksOk(r) && CallOk(c) && IsDraw(c)
    ensures var t := Apply(r, c); WellFormed(t) && forall s | 0 <= s < STAGES :: !t.dirty[s]
  {
    hide RecordDraw, Relocate;
    var u := if c.DrawCall? then r else Relocate(r, c.relocation);
    assert BlocksOk(u) by { if c.DrawIndexedCall? { RelocateBlocks(r, c.relocation); } }
    DrawCounts(u);
    DrawKeepsBlocks(u);
  }

  lemma RelocateBlocks(r: Recorder, relocation: Relocation)
    requires BlocksOk(r)
    ensures BlocksOk(Relocate(r, relocation))
  {
  }

  lemma SetterDirties(r: Recorder, c: Call, s: nat)
    requires BlocksOk(r) && CallOk(c) && s < STAGES
    requires c.SetUniformBuffer? || c.SetStorageBuffer? || c.SetTextureAndSampler?
    ensures WellFormed(Apply(r, c)) && (Apply(r, c).dirty[s] <==> r.dirty[s] || Changes(SettingsOf(r), c, s))
  {
    var before, b := r.blocks[c.stage], SimpleSet(SettingsOf(r), c).blocks[c.stage];
    ApplySets(r, c);
    if Apply(r, c) != r {
      if c.SetTextureAndSampler? {
        assert b.textures[c.location] == c.texture && b.samplers[c.location] == c.sampler;
      } else if c.SetUniformBuffer? {
        assert b.uniforms[c.location] == c.address;
      } else {
        assert b.storages[c.location] == c.address;
      }
    }
  }

  lemma PlainDirties(r: Recorder, c: Call, s: nat)
    requires BlocksOk(r) && CallOk(c) && s < STAGES && !IsDraw(c)
    requires !c.SetUniformBuffer? && !c.SetStorageBuffer? && !c.SetTextureAndSampler?
    ensures WellFormed(Apply(r, c)) && Apply(r, c).dirty == r.dirty && !Changes(SettingsOf(r), c, s)
  {
  }

  // Slots.

  /** The slots that a trace points stages at, in order. */
  ghost function Slots(trace: seq<Command>): seq<nat> {
    if trace == [] then []
    else
      var n := |trace| - 1;
      Slots(trace[..n]) + if trace[n].PushConstant? then [trace[n].slot] else []
  }

  lemma EmitSlots(trace: seq<Command>, c: Command)
    ensures Slots(trace + [c]) == Slots(trace) + if c.PushConstant? then [c.slot] else []
  {
    assert (trace + [c])[..|trace|] == trace;
  }

  /** The recording has used its slots one after the other, each for one push. */
  ghost predicate Numbered(r: Recorder) {
    |Slots(r.trace)| == r.updateCount && forall i | 0 <= i < r.updateCount :: Slots(r.trace)[i] == i
  }

  lemma EmitNumbered(r: Recorder, t: Recorder, c: Command)
    requires Numbered(r) && !c.PushConstant? && t.trace == r.trace + [c] && t.updateCount == r.updateCount
    ensures Numbered(t)
  {
    EmitSlots(r.trace, c);
  }

  lemma {:induction false} FlushNumbered(r: Recorder, stages: seq<nat>)
    requires Numbered(r) && WellFormed(r) && forall i | 0 <= i < |stages| :: stages[i] < STAGES
    ensures Numbered(FlushAll(r, stages))
    decreases |stages|
  {
    if stages != [] {
      EmitSlots(r.trace, PushConstant(stages[0], r.updateCount));
      FlushNumbered(Flush(r, stages[0]), stages[1..]);
    }
  }

  lemma EndNumbered(r: Recorder)
    requires Numbered(r)
    ensures Numbered(EndRenderingIfRendering(r))
  {
    EmitSlots(r.trace, EndRendering);
  }

  lemma BeginNumbered(r: Recorder)
    requires Numbered(r)
    ensures Numbered(BeginRenderingIfNotRendering(r))
  {
    hide Attachments;
    var n := r.(areNewTargets := false);
    EndNumbered(n);
    var s := if r.areNewTargets then EndRenderingIfRendering(n) else r;
    EmitSlots(s.trace, BeginRendering(Attachments(s.colors), s.depth));
  }

  lemma RelocateNumbered(r: Recorder, relocation: Relocation)
    requires Numbered(r) && WellFormed(r)
    ensures Numbered(Relocate(r, relocation)) && WellFormed(Relocate(r, relocation))
  {
    EndNumbered(r);
    EmitSlots(EndRenderingIfRendering(r).trace, Copy);
  }

  lemma DrawNumbered(r: Recorder)
    requires Numbered(r) && WellFormed(r)
    ensures Numbered(RecordDraw(r))
  {
    hide Numbered, FlushAll, BeginRenderingIfNotRendering;
    FlushNumbered(r, FlushOrder());
    var u := UpdateResourceBufferIfNecessary(r);
    BeginNumbered(u);
    var b := BeginRenderingIfNotRendering(u);
    EmitNumbered(b, Emit(b, Other), Other);
    EmitNumbered(Emit(b, Other), RecordDraw(r), Draw(r.blocks, r.colors, r.depth));
  }

  lemma ApplyNumbered(r: Recorder, c: Call)
    requires Numbered(r) && BlocksOk(r) && CallOk(c)
    ensures Numbered(Apply(r, c))
  {
    hide Numbered, RecordDraw, Relocate, EndRenderingIfRendering;
    match c
    case ClearTarget =>
      EndNumbered(r);
      var e := EndRenderingIfRendering(r);
      EmitNumbered(e, Emit(e, Clear), Clear);
      EmitNumbered(Emit(e, Clear), Apply(r, c), Barrier);
    case DrawCall => DrawNumbered(r);
    case DrawIndexedCall(relocation) =>
      RelocateNumbered(r, relocation);
      DrawNumbered(Relocate(r, relocation));
    case SetRenderTargets(_, _) => EmitNumbered(r, Apply(r, c), TargetsSet);
    case SetVertexBuffer(relocation) =>
      RelocateNumbered(r, relocation);
      EmitNumbered(Relocate(r, relocation), Apply(r, c), Other);
    case SetBufferStateTransition(relocation) =>
      RelocateNumbered(r, relocation);
      EmitNumbered(Relocate(r, relocation), Apply(r, c), Barrier);
    case SetTextureStateTransition(bottom) =>
      EndNumbered(r);
      EmitNumbered(if bottom then EndRenderingIfRendering(r) else r, Apply(r, c), Barrier);
    case SetOtherState => EmitNumbered(r, Apply(r, c), Other);
    case _ => SameNumbered(r, Apply(r, c));
  }

  lemma SameNumbered(r: Recorder, t: Recorder)
    requires Numbered(r) && t.trace == r.trace && t.updateCount == r.updateCount
    ensures Numbered(t)
  {
  }

  lemma {:induction false} RunNumbered(r: Recorder, calls: seq<Call>)
    requires Numbered(r) && Inv(r) && forall i | 0 <= i < |calls| :: CallOk(calls[i])
    ensures Numbered(Run(r, calls))
    decreases |calls|
  {
    hide ScopeOk, ResourcesOk, Apply, Numbered;
    if calls != [] {
      ApplyInv(r, calls[0]);
      ApplyNumbered(r, calls[0]);
      RunNumbered(Apply(r, calls[0]), calls[1..]);
    }
  }

  /** The pushes of a recording use the slots 0, 1, 2 and so on, one push for each slot counted. */
  lemma SlotsInOrder(r: Recorder, calls: seq<Call>)
    requires WellFormed(r) && !r.isRendering && forall i | 0 <= i < |calls| :: CallOk(calls[i])
    ensures var e := Recording(r, calls);
            |Slots(e.trace)| == e.updateCount && forall i | 0 <= i < e.updateCount :: Slots(e.trace)[i] == i
  {
    RecordingIs(r, calls);
    hide Run, Begin, Recording, ScopeOk, ResourcesOk, BlocksOk, WellFormed;
    assert Begin(r).updateCount == 0 by { BeginLaw(r); }
    RunNumbered(Begin(r), calls);
    var u := Run(Begin(r), calls);
    EndNumbered(u);
    EmitSlots(EndRenderingIfRendering(u).trace, EndCommandBuffer);
  }

  // Stages.

  /** The stages that a trace pushes, in order. */
  ghost function StagesPushed(trace: seq<Command>): seq<nat> {
    if trace == [] then []
    else
      var n := |trace| - 1;
      StagesPushed(trace[..n]) + if trace[n].PushConstant? then [trace[n].stage] else []
  }

  lemma EmitStages(trace: seq<Command>, c: Command)
    ensures StagesPushed(trace + [c]) == StagesPushed(trace) + if c.PushConstant? then [c.stage] else []
  {
    assert (trace + [c])[..|trace|] == trace;
  }

  /** Those of the given stages that are dirty. */
  ghost function DirtyIn(dirty: seq<bool>, stages: seq<nat>): seq<nat>
    requires forall i | 0 <= i < |stages| :: stages[i] < |dirty|
  {
    if stages == [] then [] else (if dirty[stages[0]] then [stages[0]] else []) + DirtyIn(dirty, stages[1..])
  }

  lemma {:induction false} DirtyElsewhere(dirty: seq<bool>, stages: seq<nat>, s: nat)
    requires s < |dirty| && s !in stages && forall i | 0 <= i < |stages| :: stages[i] < |dirty|
    ensures DirtyIn(dirty[s := false], stages) == DirtyIn(dirty, stages)
  {
    if stages != [] { DirtyElsewhere(dirty, stages[1..], s); }
  }

  lemma FlushPushesOne(r: Recorder, s: nat)
    requires WellFormed(r) && s < STAGES
    ensures StagesPushed(Flush(r, s).trace) == StagesPushed(r.trace) + if r.dirty[s] then [s] else []
  {
    EmitStages(r.trace, PushConstant(s, r.updateCount));
  }

  lemma {:induction false} FlushPushes(r: Recorder, stages: seq<nat>)
    requires WellFormed(r) && NoDup(stages) && forall i | 0 <= i < |stages| :: stages[i] < STAGES
    ensures StagesPushed(FlushAll(r, stages).trace) == StagesPushed(r.trace) + DirtyIn(r.dirty, stages)
    decreases |stages|
  {
    hide Flush, StagesPushed;
    if stages != [] {
      var s, rest := stages[0], stages[1..];
      assert s !in rest && NoDup(rest);
      FlushPushesOne(r, s);
      FlushOne(r, s);
      FlushPushes(Flush(r, s), rest);
      DirtyElsewhere(r.dirty, rest, s);
    }
  }

  /** An update pushes each dirty stage once, in the order vertex, tessellation control, tessellation
      evaluation, geometry, fragment, compute, and no other stage. */
  lemma UpdatePushes(r: Recorder)
    requires WellFormed(r)
    ensures StagesPushed(UpdateResourceBufferIfNecessary(r).trace) ==
            StagesPushed(r.trace) + DirtyIn(r.dirty, [0, 2, 1, 3, 4, 5])
  {
    FlushPushes(r, FlushOrder());
  }
}
