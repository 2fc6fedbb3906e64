/** Pipeline barriers and rendering scopes.

    A texture barrier that is not for the bottom of the pipe, and a buffer barrier without relocation,
    are recorded without closing the scope.  This module says exactly which recordings have a barrier
    inside a scope, by the order of their calls.
 */
module Barriers {
  import opened Wrappers
  import opened CommandBuffer

  /** No barrier of the trace is inside a scope. */
  ghost predicate Outside(trace: seq<Command>) {
    trace == []
    || (var n := |trace| - 1;
        Outside(trace[..n]) && (trace[n].Barrier? ==> Check(trace[..n]).Some? && !Check(trace[..n]).value.open))
  }

  lemma {:induction false} OutsideAt(trace: seq<Command>)
    requires Check(trace).Some?
    ensures Outside(trace)
            <==> forall p | 0 <= p < |trace| && trace[p].Barrier? ::
                   Check(trace[..p]).Some? && !Check(trace[..p]).value.open
  {
    if trace != [] {
      var n := |trace| - 1;
      OutsideAt(trace[..n]);
      assert forall p | 0 <= p < n :: trace[..n][p] == trace[p] && trace[..n][..p] == trace[..p];
    }
  }

  lemma EmitOutside(r: Recorder, c: Command)
    requires ScopeOk(r)
    ensures Outside(Emit(r, c).trace) <==> Outside(r.trace) && !(c.Barrier? && r.isRendering)
  {
    assert (r.trace + [c])[..|r.trace|] == r.trace;
  }

  /** The call puts a barrier without closing an open scope first. */
  predicate PlainBarrier(c: Call) {
    (c.SetTextureStateTransition? && !c.bottomOfPipe) || (c.SetBufferStateTransition? && c.relocation == NotNeeded)
  }

  /** The call closes an open scope. */
  predicate Closes(c: Call) {
    match c
    case ClearTarget => true
    case SetTextureStateTransition(bottom) => bottom
    case SetVertexBuffer(relocation) => relocation.Needed?
    case SetBufferStateTransition(relocation) => relocation.Needed?
    case _ => false
  }

  predicate OpenAfter(open: bool, c: Call) {
    IsDraw(c) || (open && !Closes(c))
  }

  /** No barrier call that leaves the scope alone comes after a draw with no closing call between. */
  predicate BarriersApart(open: bool, calls: seq<Call>)
    decreases |calls|
  {
    calls == [] || (!(open && PlainBarrier(calls[0])) && BarriersApart(OpenAfter(open, calls[0]), calls[1..]))
  }

  /** `t` comes from `r` without a barrier inside a scope. */
  ghost predicate Kept(r: Recorder, t: Recorder) {
    ScopeOk(t) && (Outside(t.trace) <==> Outside(r.trace))
  }

  lemma EndKept(r: Recorder)
    requires ScopeOk(r)
    ensures var t := EndRenderingIfRendering(r); Kept(r, t) && !t.isRendering
  {
    EndScope(r);
    EmitOutside(r, EndRendering);
  }

  lemma BeginKept(r: Recorder)
    requires ScopeOk(r)
    ensures var t := BeginRenderingIfNotRendering(r); Kept(r, t) && t.isRendering
  {
    BeginScope(r);
    hide Attachments;
    if r.areNewTargets && r.isRendering { EmitOutside(r, EndRendering); }
    if r.areNewTargets || !r.isRendering {
      var s := if r.areNewTargets then EndRenderingIfRendering(r.(areNewTargets := false)) else r;
      assert Check(s.trace).Some? by { CheckEmit(r.trace, EndRendering); }
      var c := BeginRendering(Attachments(s.colors), s.depth);
      assert (s.trace + [c])[..|s.trace|] == s.trace;
    }
  }

  lemma {:induction false} FlushKept(r: Recorder, stages: seq<nat>)
    requires ScopeOk(r) && WellFormed(r) && forall i | 0 <= i < |stages| :: stages[i] < STAGES
    ensures Kept(r, FlushAll(r, stages))
    decreases |stages|
  {
    hide ScopeOk;
    if stages != [] {
      EmitOutside(r, PushConstant(stages[0], r.updateCount));
      FlushOneScope(r, stages[0]);
      FlushKept(Flush(r, stages[0]), stages[1..]);
    }
  }

  lemma DrawKept(r: Recorder)
    requires ScopeOk(r) && WellFormed(r)
    ensures Kept(r, RecordDraw(r)) && RecordDraw(r).isRendering
  {
    hide ScopeOk, Outside, Attachments, FlushAll;
    DrawScope(r);
    FlushKept(r, FlushOrder());
    var u := UpdateResourceBufferIfNecessary(r);
    BeginKept(u);
    var b := BeginRenderingIfNotRendering(u);
    EmitOutside(b, Other);
    EmitScope(b, Other);
    hide UpdateResourceBufferIfNecessary, BeginRenderingIfNotRendering;
    EmitOutside(Emit(b, Other), Draw(r.blocks, r.colors, r.depth));
  }

  lemma RelocateKept(r: Recorder, relocation: Relocation)
    requires ScopeOk(r)
    ensures var t := Relocate(r, relocation);
            Kept(r, t) && t.isRendering == (r.isRendering && relocation == NotNeeded)
  {
    RelocateScope(r, relocation);
    EndKept(r);
    EmitOutside(EndRenderingIfRendering(r), Copy);
  }

  lemma ApplyBarriers(r: Recorder, c: Call)
    requires Inv(r) && CallOk(c)
    ensures Outside(Apply(r, c).trace) <==> Outside(r.trace) && !(r.isRendering && PlainBarrier(c))
    ensures Apply(r, c).isRendering <==> OpenAfter(r.isRendering, c)
  {
    hide ScopeOk, ResourcesOk, Outside, RecordDraw, Relocate, EndRenderingIfRendering;
    match c
    case ClearTarget =>
      EndKept(r);
      var e := EndRenderingIfRendering(r);
      EmitOutside(e, Clear);
      EmitScope(e, Clear);
      EmitOutside(Emit(e, Clear), Barrier);
    case DrawCall => DrawKept(r);
    case DrawIndexedCall(relocation) =>
      RelocateKept(r, relocation);
      RelocateCounts(r, relocation);
      DrawKept(Relocate(r, relocation));
    case SetRenderTargets(targets, depth) =>
      TargetsKept(r, targets, depth);
    case SetVertexBuffer(relocation) =>
      RelocateKept(r, relocation);
      EmitOutside(Relocate(r, relocation), Other);
    case SetBufferStateTransition(relocation) =>
      RelocateKept(r, relocation);
      EmitOutside(Relocate(r, relocation), Barrier);
    case SetTextureStateTransition(bottom) =>
      EndKept(r);
      EmitOutside(if bottom then EndRenderingIfRendering(r) else r, Barrier);
    case SetOtherState => EmitOutside(r, Other);
    case _ =>
  }

  lemma TargetsKept(r: Recorder, targets: seq<Target>, depth: Target)
    requires BlocksOk(r) && ScopeOk(r) && CallOk(SetRenderTargets(targets, depth))
    ensures Outside(Apply(r, SetRenderTargets(targets, depth)).trace) <==> Outside(r.trace)
  {
    assert (r.trace + [TargetsSet])[..|r.trace|] == r.trace;
  }

  lemma {:induction false} RunBarriers(r: Recorder, calls: seq<Call>)
    requires Inv(r) && forall i | 0 <= i < |calls| :: CallOk(calls[i])
    ensures Outside(Run(r, calls).trace) <==> Outside(r.trace) && BarriersApart(r.isRendering, calls)
    decreases |calls|
  {
    hide ScopeOk, ResourcesOk, Apply, Outside;
    if calls != [] {
      ApplyInv(r, calls[0]);
      ApplyBarriers(r, calls[0]);
      RunBarriers(Apply(r, calls[0]), calls[1..]);
    }
  }

  /** The barriers of a recording are all outside its scopes if and only if no barrier call that leaves
      the scope alone comes after a draw with no closing call between. */
  lemma BarriersOutsideIff(r: Recorder, calls: seq<Call>)
    requires WellFormed(r) && !r.isRendering && forall i | 0 <= i < |calls| :: CallOk(calls[i])
    ensures var trace := Recording(r, calls).trace;
            (forall p | 0 <= p < |trace| && trace[p].Barrier? :: Check(trace[..p]).Some?
                && !Check(trace[..p]).value.open)
            <==> BarriersApart(false, calls)
  {
    BeginInv(r);
    RecordingOk(r, calls);
    RunInv(Begin(r), calls);
    RunBarriers(Begin(r), calls);
    var u := Run(Begin(r), calls);
    hide Run, ResourcesOk, SimpleRun;
    EndKept(u);
    EmitOutside(EndRenderingIfRendering(u), EndCommandBuffer);
    OutsideAt(Recording(r, calls).trace);
  }

  /** A draw and then a texture barrier: the barrier is inside the scope of the draw. */
  lemma BarrierInsideScope(r: Recorder)
    requires WellFormed(r) && !r.isRendering
    ensures var trace := Recording(r, [DrawCall, SetTextureStateTransition(false)]).trace;
            exists p :: 0 <= p < |trace| && trace[p].Barrier? && Check(trace[..p]).Some? && Check(trace[..p]).value.open
  {
    var calls := [DrawCall, SetTextureStateTransition(false)];
    BarriersOutsideIff(r, calls);
    assert calls[1..] == [SetTextureStateTransition(false)];
    assert !BarriersApart(true, [SetTextureStateTransition(false)]);
    assert !BarriersApart(false, calls);
    RecordingOk(r, calls);
    var trace := Recording(r, calls).trace;
    hide Recording;
    var p :| 0 <= p < |trace| && trace[p].Barrier? && !(Check(trace[..p]).Some? && !Check(trace[..p]).value.open);
    PrefixChecks(trace, p);
  }

  lemma {:induction false} PrefixChecks(trace: seq<Command>, p: nat)
    requires Check(trace).Some? && p <= |trace|
    ensures Check(trace[..p]).Some?
  {
    if p < |trace| {
      PrefixChecks(trace[..|trace| - 1], p);
      assert trace[..|trace| - 1][..p] == trace[..p];
    } else {
      assert trace[..p] == trace;
    }
  }
}
