/** Which stages a draw finds pointed at a resource block.

    `UpdateResourceBufferIfNecessary` pushes nothing for a stage whose flag is clear, so a stage that
    nobody has changed since `Begin` has no push constant at all.  This module says exactly which draws
    and stages that is true of, by what the recording's calls ask for.
 */
module PushedStages {
  import opened Wrappers
  import opened CommandBuffer

  /** A draw recorded now would find the stage pointed somewhere. */
  ghost predicate WillFind(r: Recorder, s: nat)
    requires WellFormed(r) && s < STAGES
  {
    r.dirty[s] || Register(r.trace, s).Some?
  }

  ghost predicate SameStages(r: Recorder, t: Recorder) {
    && WellFormed(r) && WellFormed(t)
    && forall s {:trigger WillFind(t, s)} | 0 <= s < STAGES :: WillFind(t, s) <==> WillFind(r, s)
  }

  ghost function DrawsIn(trace: seq<Command>): nat {
    if trace == [] then 0 else DrawsIn(trace[..|trace| - 1]) + One(trace[|trace| - 1].Draw?)
  }

  /** `trace'` goes on from `trace` without drawing. */
  ghost predicate Extends(trace: seq<Command>, trace': seq<Command>) {
    && |trace| <= |trace'| && trace'[..|trace|] == trace && DrawsIn(trace') == DrawsIn(trace)
    && forall p | |trace| <= p < |trace'| :: !trace'[p].Draw?
  }

  /** Nothing has been drawn between `r` and `t`, and the same stages will be found. */
  ghost predicate Quiet(r: Recorder, t: Recorder) {
    SameStages(r, t) && Extends(r.trace, t.trace)
  }

  lemma QuietJoin(r: Recorder, t: Recorder, u: Recorder)
    requires Quiet(r, t) && Quiet(t, u)
    ensures Quiet(r, u)
  {
    forall s | 0 <= s < STAGES ensures WillFind(u, s) <==> WillFind(r, s) { assert WillFind(t, s) <==> WillFind(r, s); }
    assert u.trace[..|r.trace|] == u.trace[..|t.trace|][..|r.trace|];
    forall p | |r.trace| <= p < |u.trace| ensures !u.trace[p].Draw? {
      assert p < |t.trace| ==> u.trace[p] == u.trace[..|t.trace|][p];
    }
  }

  lemma EmitExtends(trace: seq<Command>, c: Command)
    requires !c.Draw?
    ensures Extends(trace, trace + [c])
  {
    assert (trace + [c])[..|trace|] == trace;
  }

  lemma EmitQuiet(r: Recorder, t: Recorder, c: Command)
    requires WellFormed(r) && WellFormed(t) && !c.PushConstant? && !c.Draw? && t.dirty == r.dirty
             && t.trace == r.trace + [c]
    ensures Quiet(r, t)
  {
    EmitExtends(r.trace, c);
    forall s | 0 <= s < STAGES ensures WillFind(t, s) <==> WillFind(r, s) { RegisterEmit(r.trace, c, s); }
  }

  lemma SameQuiet(r: Recorder, t: Recorder)
    requires WellFormed(r) && WellFormed(t) && t.dirty == r.dirty && t.trace == r.trace
    ensures Quiet(r, t)
  {
    assert t.trace[..|r.trace|] == r.trace;
  }

  /** Flushing a stage changes how it will be found, not whether. */
  lemma FlushQuiet(r: Recorder, stage: nat)
    requires WellFormed(r) && stage < STAGES
    ensures Quiet(r, Flush(r, stage))
  {
    var t, c := Flush(r, stage), PushConstant(stage, r.updateCount);
    if r.dirty[stage] {
      EmitExtends(r.trace, c);
      forall s | 0 <= s < STAGES ensures WillFind(t, s) <==> WillFind(r, s) { RegisterEmit(r.trace, c, s); }
    } else {
      SameQuiet(r, t);
    }
  }

  lemma {:induction false} FlushAllQuiet(r: Recorder, stages: seq<nat>)
    requires WellFormed(r) && forall i | 0 <= i < |stages| :: stages[i] < STAGES
    ensures Quiet(r, FlushAll(r, stages))
    decreases |stages|
  {
    hide Flush, Quiet;
    if stages == [] {
      SameQuiet(r, r);
    } else {
      FlushOne(r, stages[0]);
      FlushQuiet(r, stages[0]);
      var t := Flush(r, stages[0]);
      FlushAllQuiet(t, stages[1..]);
      QuietJoin(r, t, FlushAll(t, stages[1..]));
    }
  }

  lemma EndQuiet(r: Recorder)
    requires WellFormed(r)
    ensures var t := EndRenderingIfRendering(r); Quiet(r, t) && t.dirty == r.dirty
  {
    var t := EndRenderingIfRendering(r);
    hide Quiet;
    if r.isRendering { EmitQuiet(r, t, EndRendering); } else { SameQuiet(r, t); }
  }

  lemma BeginQuiet(r: Recorder)
    requires WellFormed(r)
    ensures var t := BeginRenderingIfNotRendering(r); Quiet(r, t) && t.dirty == r.dirty
  {
    hide Quiet, Attachments;
    if !r.areNewTargets && r.isRendering {
      SameQuiet(r, r);
    } else {
      var n := r.(areNewTargets := false);
      SameQuiet(r, n);
      EndQuiet(n);
      var e := EndRenderingIfRendering(n);
      QuietJoin(r, n, e);
      SameQuiet(r, r);
      var s := if r.areNewTargets then e else r;
      var t := BeginRenderingIfNotRendering(r);
      EmitQuiet(s, t, BeginRendering(Attachments(s.colors), s.depth));
      QuietJoin(r, s, t);
    }
  }

  lemma RelocateQuiet(r: Recorder, relocation: Relocation)
    requires WellFormed(r)
    ensures var t := Relocate(r, relocation); Quiet(r, t) && WellFormed(t) && SettingsOf(t) == SettingsOf(r)
  {
    EndQuiet(r);
    SameQuiet(r, r);
    var e, t := EndRenderingIfRendering(r), Relocate(r, relocation);
    hide Quiet;
    if relocation.Needed? && relocation.copies {
      EmitQuiet(e, t, Copy);
      QuietJoin(r, e, t);
    }
  }

  /** The outcome of a draw: quiet up to the draw itself, which finds the stages that were to be found. */
  ghost predicate Drawn(r: Recorder, t: Recorder) {
    && SameStages(r, t) && 0 < |t.trace| && |r.trace| < |t.trace|
    && var p := |t.trace| - 1;
       && Extends(r.trace, t.trace[..p]) && t.trace[p] == Draw(r.blocks, r.colors, r.depth)
       && forall s | 0 <= s < STAGES :: Register(t.trace[..p], s).Some? <==> WillFind(r, s)
  }

  lemma DrawDraws(r: Recorder)
    requires WellFormed(r)
    ensures Drawn(r, RecordDraw(r))
  {
    hide FlushAll, Flush, Quiet, Attachments, Drawn, DirtyStages;
    FlushAllQuiet(r, FlushOrder());
    FlushCounts(r);
    FlushKeepsBlocks(r, FlushOrder());
    var u := UpdateResourceBufferIfNecessary(r);
    hide UpdateResourceBufferIfNecessary, FlushOrder;
    BeginQuiet(u);
    var b := BeginRenderingIfNotRendering(u);
    QuietJoin(r, u, b);
    var e := Emit(b, Other);
    EmitQuiet(b, e, Other);
    QuietJoin(r, b, e);
    DrawFindsStages(r, e, RecordDraw(r));
  }

  lemma DrawFindsStages(r: Recorder, e: Recorder, t: Recorder)
    requires Quiet(r, e) && e.dirty == [false, false, false, false, false, false]
    requires t == Emit(e, Draw(r.blocks, r.colors, r.depth))
    ensures Drawn(r, t)
  {
    var c := Draw(r.blocks, r.colors, r.depth);
    assert t.trace[..|e.trace|] == e.trace;
    forall s | 0 <= s < STAGES
      ensures (WillFind(t, s) <==> WillFind(r, s)) && (Register(e.trace, s).Some? <==> WillFind(r, s))
    {
      assert WillFind(e, s) <==> WillFind(r, s);
      RegisterEmit(e.trace, c, s);
    }
  }

  /** The call changes a value of the stage's block. */
  ghost predicate Changes(x: Settings, c: Call, s: nat)
    requires SettingsOk(x) && CallOk(c) && s < STAGES
  {
    SimpleSet(x, c).blocks[s] != x.blocks[s]
  }

  /** The outcome of a call that does not draw. */
  ghost predicate Asked(r: Recorder, c: Call, t: Recorder)
    requires BlocksOk(r) && CallOk(c)
  {
    && WellFormed(t) && Extends(r.trace, t.trace)
    && forall s {:trigger WillFind(t, s)} | 0 <= s < STAGES ::
         WillFind(t, s) <==> WillFind(r, s) || Changes(SettingsOf(r), c, s)
  }

  lemma QuietAsked(r: Recorder, c: Call, t: Recorder)
    requires BlocksOk(r) && CallOk(c) && Quiet(r, t) && SimpleSet(SettingsOf(r), c).blocks == r.blocks
    ensures Asked(r, c, t)
  {
  }

  lemma SetBlockAsked(r: Recorder, c: Call, stage: nat, b: Block)
    requires BlocksOk(r) && CallOk(c) && stage < STAGES && b != r.blocks[stage]
    requires SimpleSet(SettingsOf(r), c).blocks == r.blocks[stage := b]
    ensures Asked(r, c, SetBlock(r, stage, b))
  {
    var t := SetBlock(r, stage, b);
    assert t.trace[..|r.trace|] == r.trace;
  }

  lemma SetterAsked(r: Recorder, c: Call)
    requires BlocksOk(r) && CallOk(c) && (c.SetUniformBuffer? || c.SetStorageBuffer? || c.SetTextureAndSampler?)
    ensures Asked(r, c, Apply(r, c))
  {
    hide Asked;
    var before := r.blocks[c.stage];
    var b := SimpleSet(SettingsOf(r), c).blocks[c.stage];
    ApplyWork(r, c);
    if Apply(r, c) == r {
      SameQuiet(r, r);
      QuietAsked(r, c, r);
    } else {
      assert b != before by {
        if c.SetTextureAndSampler? {
          assert b.textures[c.location] == c.texture && b.samplers[c.location] == c.sampler;
        } else if c.SetUniformBuffer? {
          assert b.uniforms[c.location] == c.address;
        } else {
          assert b.storages[c.location] == c.address;
        }
      }
      SetBlockAsked(r, c, c.stage, b);
    }
  }

  lemma ApplyAsked(r: Recorder, c: Call)
    requires BlocksOk(r) && CallOk(c)
    ensures IsDraw(c) ==> Drawn(r, Apply(r, c))
    ensures !IsDraw(c) ==> Asked(r, c, Apply(r, c))
  {
    hide Quiet, Asked, Drawn, RecordDraw, EndRenderingIfRendering, Relocate;
    var t := Apply(r, c);
    match c
    case DrawCall => DrawDraws(r);
    case DrawIndexedCall(relocation) =>
      RelocateQuiet(r, relocation);
      var l := Relocate(r, relocation);
      DrawDraws(l);
      DrawnLater(r, l, t);
    case SetUniformBuffer(_, _, _) => SetterAsked(r, c);
    case SetStorageBuffer(_, _, _) => SetterAsked(r, c);
    case SetTextureAndSampler(_, _, _, _) => SetterAsked(r, c);
    case _ =>
      PlainQuiet(r, c);
      QuietAsked(r, c, t);
  }

  lemma DrawnLater(r: Recorder, l: Recorder, t: Recorder)
    requires Quiet(r, l) && Drawn(l, t) && SettingsOf(l) == SettingsOf(r)
    ensures Drawn(r, t)
  {
    var p := |t.trace| - 1;
    assert t.trace[..p][..|r.trace|] == t.trace[..p][..|l.trace|][..|r.trace|];
    forall q | |r.trace| <= q < p ensures !t.trace[..p][q].Draw? {
      assert q < |l.trace| ==> t.trace[..p][q] == t.trace[..p][..|l.trace|][q];
    }
    forall s | 0 <= s < STAGES ensures WillFind(l, s) <==> WillFind(r, s) {}
    forall s | 0 <= s < STAGES ensures WillFind(t, s) <==> WillFind(r, s) { assert WillFind(t, s) <==> WillFind(l, s); }
  }

  lemma PlainQuiet(r: Recorder, c: Call)
    requires BlocksOk(r) && CallOk(c) && !IsDraw(c) && !c.SetUniformBuffer? && !c.SetStorageBuffer?
             && !c.SetTextureAndSampler?
    ensures Quiet(r, Apply(r, c))
  {
    hide Quiet, Relocate, EndRenderingIfRendering;
    var t := Apply(r, c);
    match c
    case ClearTarget =>
      EndQuiet(r);
      var e := EndRenderingIfRendering(r);
      QuietWellFormed(r, e);
      EmitQuiet(e, Emit(e, Clear), Clear);
      EmitQuiet(Emit(e, Clear), t, Barrier);
      QuietJoin(r, e, Emit(e, Clear));
      QuietJoin(r, Emit(e, Clear), t);
    case SetRenderTargets(_, _) => EmitQuiet(r, t, TargetsSet);
    case SetVertexBuffer(relocation) =>
      RelocateQuiet(r, relocation);
      EmitQuiet(Relocate(r, relocation), t, Other);
      QuietJoin(r, Relocate(r, relocation), t);
    case SetBufferStateTransition(relocation) =>
      RelocateQuiet(r, relocation);
      EmitQuiet(Relocate(r, relocation), t, Barrier);
      QuietJoin(r, Relocate(r, relocation), t);
    case SetTextureStateTransition(bottom) =>
      EndQuiet(r);
      SameQuiet(r, r);
      var e := if bottom then EndRenderingIfRendering(r) else r;
      QuietWellFormed(r, e);
      EmitQuiet(e, t, Barrier);
      QuietJoin(r, e, t);
    case SetOtherState => EmitQuiet(r, t, Other);
  }

  lemma QuietWellFormed(r: Recorder, t: Recorder)
    requires Quiet(r, t)
    ensures WellFormed(t)
  {
  }

  /** The settings after some calls. */
  ghost function SettingsAfter(x: Settings, calls: seq<Call>): (y: Settings)
    requires SettingsOk(x) && forall i | 0 <= i < |calls| :: CallOk(calls[i])
    ensures SettingsOk(y)
    decreases |calls|
  {
    if calls == [] then x else SettingsAfter(SimpleSet(x, calls[0]), calls[1..])
  }

  /** Call number `i` changes a value of the stage's block. */
  ghost predicate ChangedBy(x: Settings, calls: seq<Call>, i: nat, s: nat)
    requires SettingsOk(x) && (forall i | 0 <= i < |calls| :: CallOk(calls[i])) && i < |calls| && s < STAGES
  {
    Changes(SettingsAfter(x, calls[..i]), calls[i], s)
  }

  ghost predicate ChangedBefore(x: Settings, calls: seq<Call>, k: nat, s: nat)
    requires SettingsOk(x) && (forall i | 0 <= i < |calls| :: CallOk(calls[i])) && k <= |calls| && s < STAGES
  {
    exists i :: 0 <= i < k && ChangedBy(x, calls, i, s)
  }

  lemma ChangedStep(x: Settings, calls: seq<Call>, k: nat, s: nat)
    requires SettingsOk(x) && (forall i | 0 <= i < |calls| :: CallOk(calls[i])) && k < |calls| && s < STAGES
    ensures ChangedBefore(x, calls, k + 1, s)
            <==> Changes(x, calls[0], s) || ChangedBefore(SimpleSet(x, calls[0]), calls[1..], k, s)
  {
    var y, rest := SimpleSet(x, calls[0]), calls[1..];
    forall i: nat | i < k ensures ChangedBy(y, rest, i, s) <==> ChangedBy(x, calls, i + 1, s) {
      assert calls[..i + 1][1..] == rest[..i];
    }
    assert ChangedBy(x, calls, 0, s) <==> Changes(x, calls[0], s);
    hide ChangedBy, Changes, SettingsOk;
    if ChangedBefore(x, calls, k + 1, s) {
      var i :| 0 <= i < k + 1 && ChangedBy(x, calls, i, s);
      assert i > 0 ==> ChangedBy(y, rest, i - 1, s);
    }
    if ChangedBefore(y, rest, k, s) {
      var i :| 0 <= i < k && ChangedBy(y, rest, i, s);
      assert ChangedBy(x, calls, i + 1, s);
    }
  }

  // Runs and recordings.

  /** Position `p` of `trace` is the draw of call `k`, with the settings of the time. */
  ghost predicate IsDrawOf(trace: seq<Command>, p: nat, x: Settings, calls: seq<Call>, k: nat)
    requires SettingsOk(x) && (forall i | 0 <= i < |calls| :: CallOk(calls[i])) && k < |calls| && p < |trace|
  {
    var y := SettingsAfter(x, calls[..k]);
    IsDraw(calls[k]) && trace[p] == Draw(y.blocks, y.colors, y.depth)
  }

  lemma {:induction false} RunExtends(r: Recorder, calls: seq<Call>)
    requires Inv(r) && forall i | 0 <= i < |calls| :: CallOk(calls[i])
    ensures var t := Run(r, calls); |r.trace| <= |t.trace| && t.trace[..|r.trace|] == r.trace
    decreases |calls|
  {
    hide ScopeOk, ResourcesOk, Apply;
    if calls != [] {
      ApplyInv(r, calls[0]);
      var t := Apply(r, calls[0]);
      ApplyGrows(r, calls[0]);
      RunExtends(t, calls[1..]);
      assert Run(t, calls[1..]).trace[..|r.trace|] == Run(t, calls[1..]).trace[..|t.trace|][..|r.trace|];
    }
  }

  /** What a call appends: at most one draw, at the end. */
  lemma ApplyGrows(r: Recorder, c: Call)
    requires BlocksOk(r) && CallOk(c)
    ensures var t := Apply(r, c);
            && |r.trace| <= |t.trace| && t.trace[..|r.trace|] == r.trace
            && DrawsIn(t.trace) == DrawsIn(r.trace) + One(IsDraw(c))
            && forall p | |r.trace| <= p < |t.trace| && t.trace[p].Draw? :: IsDraw(c) && p == |t.trace| - 1
  {
    hide Apply, WillFind, SameStages, Extends, DrawsIn;
    ApplyAsked(r, c);
    var t := Apply(r, c);
    if IsDraw(c) { DrawnGrows(r.trace, t.trace); } else { ExtendsGrows(r.trace, t.trace); }
  }

  lemma ExtendsGrows(trace: seq<Command>, trace': seq<Command>)
    requires Extends(trace, trace')
    ensures |trace| <= |trace'| && trace'[..|trace|] == trace && DrawsIn(trace') == DrawsIn(trace)
    ensures forall p | |trace| <= p < |trace'| :: !trace'[p].Draw?
  {
  }

  lemma DrawnGrows(trace: seq<Command>, trace': seq<Command>)
    requires 0 < |trace'| && Extends(trace, trace'[..|trace'| - 1]) && trace'[|trace'| - 1].Draw?
    ensures |trace| < |trace'| && trace'[..|trace|] == trace && DrawsIn(trace') == DrawsIn(trace) + 1
    ensures forall p | |trace| <= p < |trace'| && trace'[p].Draw? :: p == |trace'| - 1
  {
    var p := |trace'| - 1;
    assert trace'[..|trace|] == trace'[..p][..|trace|];
    forall q | |trace| <= q < p ensures !trace'[q].Draw? { assert trace'[q] == trace'[..p][q]; }
  }

  /** In a run from `r`, every draw is that of one call, the one with as many draws before it, and it
      finds a stage pointed somewhere exactly if `r` would have found it or an earlier call of the run
      has changed a value of its block. */
  lemma {:induction false} RunFinds(r: Recorder, calls: seq<Call>, p: nat) returns (k: nat)
    requires Inv(r) && forall i | 0 <= i < |calls| :: CallOk(calls[i])
    requires |r.trace| <= p < |Run(r, calls).trace| && Run(r, calls).trace[p].Draw?
    ensures k < |calls| && IsDrawOf(Run(r, calls).trace, p, SettingsOf(r), calls, k)
    ensures DrawsIn(Run(r, calls).trace[..p]) == DrawsIn(r.trace) + Draws(calls[..k])
    ensures forall s | 0 <= s < STAGES ::
              Register(Run(r, calls).trace[..p], s).Some? <==>
                WillFind(r, s) || ChangedBefore(SettingsOf(r), calls, k, s)
    decreases |calls|
  {
    hide ScopeOk, ResourcesOk, Apply, Asked, Drawn, SimpleSet, WillFind, ChangedBefore, Draws, DrawsIn;
    var c, rest, x := calls[0], calls[1..], SettingsOf(r);
    ApplyInv(r, c);
    ApplyWork(r, c);
    ApplyGrows(r, c);
    ApplyAsked(r, c);
    var t := Apply(r, c);
    var all := Run(t, rest).trace;
    RunExtends(t, rest);
    hide Work, SimpleWork;
    if p < |t.trace| {
      k := 0;
      assert calls[..0] == [];
      NothingBefore(x, calls);
      assert all[p] == all[..|t.trace|][p];
      assert all[..p] == t.trace[..p] by { assert all[..p] == all[..|t.trace|][..p]; }
      DrawnFacts(r, t);
    } else {
      var k' := RunFinds(t, rest, p);
      k := k' + 1;
      assert calls[..k] == [c] + rest[..k'];
      DrawsCons(c, rest[..k']);
      forall s | 0 <= s < STAGES
        ensures Register(all[..p], s).Some? <==> WillFind(r, s) || ChangedBefore(x, calls, k, s)
      {
        StageStep(r, c, s);
        ChangedStep(x, calls, k', s);
      }
    }
  }

  lemma NothingBefore(x: Settings, calls: seq<Call>)
    requires SettingsOk(x) && forall i | 0 <= i < |calls| :: CallOk(calls[i])
    ensures Draws([]) == 0 && forall s | 0 <= s < STAGES :: !ChangedBefore(x, calls, 0, s)
  {
  }

  lemma DrawsCons(c: Call, rest: seq<Call>)
    ensures Draws([c] + rest) == One(IsDraw(c)) + Draws(rest)
  {
    assert ([c] + rest)[1..] == rest;
  }

  lemma DrawnFacts(r: Recorder, t: Recorder)
    requires Drawn(r, t)
    ensures var p := |t.trace| - 1;
            && WellFormed(r) && p >= 0 && t.trace[p] == Draw(r.blocks, r.colors, r.depth)
            && DrawsIn(t.trace[..p]) == DrawsIn(r.trace)
            && forall s | 0 <= s < STAGES :: Register(t.trace[..p], s).Some? <==> WillFind(r, s)
  {
  }

  lemma StageStep(r: Recorder, c: Call, s: nat)
    requires BlocksOk(r) && CallOk(c) && s < STAGES
    ensures WellFormed(Apply(r, c))
    ensures WillFind(Apply(r, c), s) <==> WillFind(r, s) || Changes(SettingsOf(r), c, s)
  {
    ApplyAsked(r, c);
    hide Apply, WillFind, Extends;
  }

  /** In every recording, every draw finds a stage pointed at a block exactly if the stage was dirty when
      the recording began or an earlier call has changed a value of the stage's block.  The draw is that
      of call `k`, the one with as many draws before it. */
  lemma DrawFindsStage(r: Recorder, calls: seq<Call>, p: nat) returns (k: nat)
    requires WellFormed(r) && !r.isRendering && forall i | 0 <= i < |calls| :: CallOk(calls[i])
    requires p < |Recording(r, calls).trace| && Recording(r, calls).trace[p].Draw?
    ensures SettingsOk(SettingsOf(Begin(r)))
    ensures k < |calls| && IsDrawOf(Recording(r, calls).trace, p, SettingsOf(Begin(r)), calls, k)
    ensures DrawsIn(Recording(r, calls).trace[..p]) == Draws(calls[..k])
    ensures forall s | 0 <= s < STAGES ::
              Register(Recording(r, calls).trace[..p], s).Some? <==>
                r.dirty[s] || ChangedBefore(SettingsOf(Begin(r)), calls, k, s)
  {
    BeginInv(r);
    var b := Begin(r);
    RunInv(b, calls);
    var u, e := Run(b, calls), Recording(r, calls);
    hide Run, ScopeOk, ResourcesOk, SettingsAfter, ChangedBefore;
    EndQuiet(u);
    assert p < |u.trace| && e.trace[..|u.trace|] == u.trace;
    assert e.trace[p] == u.trace[p] && e.trace[..p] == u.trace[..p];
    k := RunFinds(b, calls, p);
    assert forall s | 0 <= s < STAGES :: WillFind(b, s) <==> r.dirty[s];
  }

  /** `Begin`, texture slot 0 and sampler slot 0 for the fragment stage, `Draw`: the draw finds no stage
      pointed anywhere, the fragment stage included. */
  lemma ZeroSlotsNotPushed()
    ensures var e := Recording(Initial(), [SetTextureAndSampler(0, 4, 0, 0)] + [DrawCall]);
            |e.trace| == 5 && e.trace[2].Draw? && forall s | 0 <= s < STAGES :: Register(e.trace[..2], s) == None
  {
    var r, c := Initial(), SetTextureAndSampler(0, 4, 0, 0);
    BeginInv(r);
    var b := Begin(r);
    assert Apply(b, c) == b;
    RunCons(b, c, [], STAGES);
    assert [c] + [] == [c];
    hide Apply, ScopeOk, ResourcesOk, Attachments;
    LastDraw(r, [c], b);
    var e := Recording(r, [c] + [DrawCall]);
    hide Recording;
    var begin := BeginRendering(Attachments(b.colors), b.depth);
    assert e.trace[..2] == [] + [begin] + [Other];
    forall s | 0 <= s < STAGES ensures Register(e.trace[..2], s) == None {
      RegisterEmit([], begin, s);
      RegisterEmit([] + [begin], Other, s);
    }
  }
}
