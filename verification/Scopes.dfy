/** Which rendering scopes a recording opens and closes, by its calls.

    A scope is kept from one draw to the next unless a call between them closes it or sets new targets.
 */
module Scopes {
  import opened Wrappers
  import opened CommandBuffer
  import opened Barriers

  /** The commands of a trace that open and close scopes, in order. */
  ghost function Scoped(trace: seq<Command>): seq<Command> {
    if trace == [] then []
    else
      var n := |trace| - 1;
      Scoped(trace[..n]) + if trace[n].BeginRendering? || trace[n].EndRendering? then [trace[n]] else []
  }

  lemma EmitScoped(trace: seq<Command>, c: Command)
    ensures Scoped(trace + [c]) == Scoped(trace) + if c.BeginRendering? || c.EndRendering? then [c] else []
  {
    assert (trace + [c])[..|trace|] == trace;
  }

  predicate Relocates(c: Call) {
    c.DrawIndexedCall? && c.relocation.Needed?
  }

  /** The call leaves an open scope fit for the next draw. */
  predicate Keeps(c: Call) {
    !Closes(c) && !c.SetRenderTargets? && !Relocates(c)
  }

  /** What a call does to the scopes when one is open or not, and the targets are new to it or not: a draw
      that finds an open scope with its targets does nothing, any other opens one with the present targets;
      whatever must not be in a scope closes an open one. */
  function ScopeWork(open: bool, stale: bool, x: Settings, c: Call): seq<Command> {
    if IsDraw(c) then
      if open && !stale && !Relocates(c) then []
      else (if open then [EndRendering] else []) + [BeginRendering(Attachments(x.colors), x.depth)]
    else if open && Closes(c) then [EndRendering]
    else []
  }

  predicate StaleAfter(stale: bool, c: Call) {
    c.SetRenderTargets? || (stale && !IsDraw(c))
  }

  /** `t` comes from `r` with these commands on scopes. */
  ghost predicate Does(r: Recorder, t: Recorder, work: seq<Command>) {
    Scoped(t.trace) == Scoped(r.trace) + work && t.colors == r.colors && t.depth == r.depth
  }

  lemma EndDoes(r: Recorder)
    ensures var t := EndRenderingIfRendering(r);
            && Does(r, t, if r.isRendering then [EndRendering] else [])
            && !t.isRendering && t.areNewTargets == r.areNewTargets
  {
    EmitScoped(r.trace, EndRendering);
  }

  lemma BeginDoes(r: Recorder)
    ensures var t := BeginRenderingIfNotRendering(r);
            && t.isRendering && !t.areNewTargets
            && Does(r, t, if r.isRendering && !r.areNewTargets then []
                          else (if r.isRendering then [EndRendering] else [])
                               + [BeginRendering(Attachments(r.colors), r.depth)])
  {
    hide Attachments;
    if r.areNewTargets || !r.isRendering {
      var n := r.(areNewTargets := false);
      EndDoes(n);
      var s := if r.areNewTargets then EndRenderingIfRendering(n) else r;
      EmitScoped(s.trace, BeginRendering(Attachments(s.colors), s.depth));
    }
  }

  lemma {:induction false} FlushDoes(r: Recorder, stages: seq<nat>)
    requires WellFormed(r) && forall i | 0 <= i < |stages| :: stages[i] < STAGES
    ensures var t := FlushAll(r, stages);
            Does(r, t, []) && t.isRendering == r.isRendering && t.areNewTargets == r.areNewTargets
    decreases |stages|
  {
    if stages != [] {
      EmitScoped(r.trace, PushConstant(stages[0], r.updateCount));
      FlushDoes(Flush(r, stages[0]), stages[1..]);
    }
  }

  lemma DrawDoes(r: Recorder)
    requires WellFormed(r)
    ensures var t := RecordDraw(r);
            && t.isRendering && !t.areNewTargets
            && Does(r, t, if r.isRendering && !r.areNewTargets then []
                          else (if r.isRendering then [EndRendering] else [])
                               + [BeginRendering(Attachments(r.colors), r.depth)])
  {
    hide FlushAll, Scoped, Attachments, BeginRenderingIfNotRendering;
    FlushDoes(r, FlushOrder());
    var u := UpdateResourceBufferIfNecessary(r);
    BeginDoes(u);
    var b := BeginRenderingIfNotRendering(u);
    EmitScoped(b.trace, Other);
    EmitScoped(Emit(b, Other).trace, Draw(r.blocks, r.colors, r.depth));
  }

  lemma RelocateDoes(r: Recorder, relocation: Relocation)
    requires WellFormed(r)
    ensures var t := Relocate(r, relocation);
            && Does(r, t, if r.isRendering && relocation.Needed? then [EndRendering] else [])
            && t.isRendering == (r.isRendering && !relocation.Needed?) && t.areNewTargets == r.areNewTargets
            && WellFormed(t)
  {
    EndDoes(r);
    EmitScoped(EndRenderingIfRendering(r).trace, Copy);
  }

  /** Every call opens and closes scopes just as `ScopeWork` says. */
  lemma ApplyScopes(r: Recorder, c: Call)
    requires BlocksOk(r) && CallOk(c)
    ensures var t := Apply(r, c);
            && Scoped(t.trace) == Scoped(r.trace) + ScopeWork(r.isRendering, r.areNewTargets, SettingsOf(r), c)
            && (t.isRendering <==> OpenAfter(r.isRendering, c)) && (t.areNewTargets <==> StaleAfter(r.areNewTargets, c))
  {
    hide Apply, Scoped, ScopeWork;
    if IsDraw(c) { DrawScopes(r, c); } else { PlainScopes(r, c); }
  }

  lemma DrawScopes(r: Recorder, c: Call)
    requires BlocksOk(r) && CallOk(c) && IsDraw(c)
    ensures var t := Apply(r, c);
            && Scoped(t.trace) == Scoped(r.trace) + ScopeWork(r.isRendering, r.areNewTargets, SettingsOf(r), c)
            && t.isRendering && !t.areNewTargets
  {
    hide Scoped, RecordDraw, Relocate, Attachments;
    if c.DrawCall? {
      DrawDoes(r);
    } else {
      RelocateDoes(r, c.relocation);
      DrawDoes(Relocate(r, c.relocation));
    }
  }

  lemma PlainScopes(r: Recorder, c: Call)
    requires BlocksOk(r) && CallOk(c) && !IsDraw(c)
    ensures var t := Apply(r, c);
            && Scoped(t.trace) == Scoped(r.trace) + ScopeWork(r.isRendering, r.areNewTargets, SettingsOf(r), c)
            && (t.isRendering <==> OpenAfter(r.isRendering, c)) && (t.areNewTargets <==> StaleAfter(r.areNewTargets, c))
  {
    hide Scoped, Relocate, EndRenderingIfRendering, Attachments, RecordDraw, Overlay;
    match c
    case ClearTarget =>
      EndDoes(r);
      var e := EndRenderingIfRendering(r);
      EmitScoped(e.trace, Clear);
      EmitScoped(Emit(e, Clear).trace, Barrier);
    case SetRenderTargets(_, _) => EmitScoped(r.trace, TargetsSet);
    case SetVertexBuffer(relocation) =>
      RelocateDoes(r, relocation);
      EmitScoped(Relocate(r, relocation).trace, Other);
    case SetBufferStateTransition(relocation) =>
      RelocateDoes(r, relocation);
      EmitScoped(Relocate(r, relocation).trace, Barrier);
    case SetTextureStateTransition(bottom) =>
      EndDoes(r);
      EmitScoped((if bottom then EndRenderingIfRendering(r) else r).trace, Barrier);
    case SetOtherState => EmitScoped(r.trace, Other);
    case _ =>
  }

  /** The scope commands that a run of calls is to record. */
  function ScopeRun(open: bool, stale: bool, x: Settings, calls: seq<Call>): seq<Command>
    requires SettingsOk(x) && forall i | 0 <= i < |calls| :: CallOk(calls[i])
    decreases |calls|
  {
    if calls == [] then []
    else
      ScopeWork(open, stale, x, calls[0])
      + ScopeRun(OpenAfter(open, calls[0]), StaleAfter(stale, calls[0]), SimpleSet(x, calls[0]), calls[1..])
  }

  predicate OpenAtEnd(open: bool, calls: seq<Call>)
    decreases |calls|
  {
    if calls == [] then open else OpenAtEnd(OpenAfter(open, calls[0]), calls[1..])
  }

  lemma {:induction false} RunScopes(r: Recorder, calls: seq<Call>)
    requires Inv(r) && forall i | 0 <= i < |calls| :: CallOk(calls[i])
    ensures SettingsOk(SettingsOf(r))
    ensures Scoped(Run(r, calls).trace) ==
            Scoped(r.trace) + ScopeRun(r.isRendering, r.areNewTargets, SettingsOf(r), calls)
    ensures Run(r, calls).isRendering <==> OpenAtEnd(r.isRendering, calls)
    decreases |calls|
  {
    hide ScopeOk, ResourcesOk, Apply, Scoped, SimpleSet, ScopeWork, OpenAfter, StaleAfter, Work, SimpleWork;
    if calls != [] {
      ApplyInv(r, calls[0]);
      ApplyWork(r, calls[0]);
      ApplyScopes(r, calls[0]);
      RunScopes(Apply(r, calls[0]), calls[1..]);
    }
  }

  /** Every recording opens and closes exactly the scopes that its calls make necessary. */
  lemma RecordingScopes(r: Recorder, calls: seq<Call>)
    requires WellFormed(r) && !r.isRendering && forall i | 0 <= i < |calls| :: CallOk(calls[i])
    ensures SettingsOk(SettingsOf(Begin(r)))
    ensures Scoped(Recording(r, calls).trace) ==
            ScopeRun(false, r.areNewTargets, SettingsOf(Begin(r)), calls)
            + if OpenAtEnd(false, calls) then [EndRendering] else []
  {
    hide *;
    RecordingIs(r, calls);
    BeginSettings(r);
    RunScopes(Begin(r), calls);
    EndScoped(Run(Begin(r), calls));
  }

  lemma BeginSettings(r: Recorder)
    requires WellFormed(r)
    ensures SettingsOk(SettingsOf(Begin(r))) && Scoped(Begin(r).trace) == []
  {
  }

  lemma EndScoped(u: Recorder)
    ensures Scoped(End(u).trace) == Scoped(u.trace) + if u.isRendering then [EndRendering] else []
  {
    EndDoes(u);
    EmitScoped(EndRenderingIfRendering(u).trace, EndCommandBuffer);
  }

  /** The number of draws that are the first in their scope: `usable` says whether a scope is open that a
      draw now could use. */
  function Openings(usable: bool, calls: seq<Call>): nat
    decreases |calls|
  {
    if calls == [] then 0
    else if IsDraw(calls[0]) then One(!usable || Relocates(calls[0])) + Openings(true, calls[1..])
    else Openings(usable && Keeps(calls[0]), calls[1..])
  }

  ghost function BeginsIn(commands: seq<Command>): nat {
    if commands == [] then 0 else One(commands[0].BeginRendering?) + BeginsIn(commands[1..])
  }

  lemma {:induction false} BeginsAppend(x: seq<Command>, y: seq<Command>)
    ensures BeginsIn(x + y) == BeginsIn(x) + BeginsIn(y)
  {
    if x == [] {
      assert x + y == y;
    } else {
      BeginsAppend(x[1..], y);
      assert (x + y)[1..] == x[1..] + y;
    }
  }

  lemma {:induction false} OpeningsCount(open: bool, stale: bool, x: Settings, calls: seq<Call>)
    requires SettingsOk(x) && forall i | 0 <= i < |calls| :: CallOk(calls[i])
    ensures BeginsIn(ScopeRun(open, stale, x, calls)) == Openings(open && !stale, calls)
    decreases |calls|
  {
    if calls != [] {
      var c := calls[0];
      WorkBegins(open, stale, x, c);
      hide ScopeWork;
      OpeningsCount(OpenAfter(open, c), StaleAfter(stale, c), SimpleSet(x, c), calls[1..]);
      BeginsAppend(ScopeWork(open, stale, x, c),
                   ScopeRun(OpenAfter(open, c), StaleAfter(stale, c), SimpleSet(x, c), calls[1..]));
    }
  }

  lemma WorkBegins(open: bool, stale: bool, x: Settings, c: Call)
    ensures BeginsIn(ScopeWork(open, stale, x, c)) == One(IsDraw(c) && !(open && !stale && !Relocates(c)))
  {
    hide Attachments;
    BeginsOf(BeginRendering(Attachments(x.colors), x.depth));
  }

  lemma BeginsOf(b: Command)
    ensures b.BeginRendering? ==> BeginsIn([EndRendering] + [b]) == 1 && BeginsIn([] + [b]) == 1
    ensures BeginsIn([EndRendering]) == 0 && BeginsIn([]) == 0
  {
    BeginsAppend([EndRendering], [b]);
    BeginsAppend([], [b]);
    assert [EndRendering][1..] == [] && [b][1..] == [];
  }

  /** A recording opens as many scopes as it has draws that come first, or first after a call that closes
      the scope or sets new targets. */
  lemma ScopesOpened(r: Recorder, calls: seq<Call>)
    requires WellFormed(r) && !r.isRendering && forall i | 0 <= i < |calls| :: CallOk(calls[i])
    ensures BeginsIn(Scoped(Recording(r, calls).trace)) == Openings(false, calls)
  {
    hide *;
    BeginSettings(r);
    RecordingScopes(r, calls);
    OpeningsCount(false, r.areNewTargets, SettingsOf(Begin(r)), calls);
    BeginsOf(EndRendering);
    BeginsAppend(ScopeRun(false, r.areNewTargets, SettingsOf(Begin(r)), calls),
                 if OpenAtEnd(false, calls) then [EndRendering] else []);
  }

  lemma {:induction false} ScopeKept(r: Recorder, calls: seq<Call>)
    requires Inv(r) && r.isRendering && !r.areNewTargets
    requires forall i | 0 <= i < |calls| :: CallOk(calls[i]) && Keeps(calls[i])
    ensures Scoped(Run(r, calls).trace) == Scoped(r.trace)
    decreases |calls|
  {
    hide ScopeOk, ResourcesOk, Apply, Scoped;
    if calls != [] {
      ApplyInv(r, calls[0]);
      ApplyScopes(r, calls[0]);
      ScopeKept(Apply(r, calls[0]), calls[1..]);
    }
  }

  /** Between two draws with no call between them that closes the scope or sets new targets, no scope is
      closed and none is opened: they share theirs. */
  lemma DrawsShareScope(r: Recorder, before: seq<Call>, draw: Call, between: seq<Call>)
    requires WellFormed(r) && !r.isRendering && IsDraw(draw) && CallOk(draw)
    requires (forall i | 0 <= i < |before| :: CallOk(before[i]))
             && forall i | 0 <= i < |between| :: CallOk(between[i]) && Keeps(between[i])
    ensures Inv(Begin(r))
    ensures Scoped(Run(Begin(r), before + [draw] + between).trace) == Scoped(Run(Begin(r), before + [draw]).trace)
  {
    hide *;
    BeginInv(r);
    var b := Begin(r);
    RunSnoc(b, before, draw);
    RunAppend(b, before + [draw], between);
    RunInv(b, before);
    DrawLeavesScope(Run(b, before), draw);
    ScopeKept(Run(b, before + [draw]), between);
  }

  lemma DrawLeavesScope(r: Recorder, draw: Call)
    requires Inv(r) && CallOk(draw) && IsDraw(draw)
    ensures Inv(Apply(r, draw)) && Apply(r, draw).isRendering && !Apply(r, draw).areNewTargets
  {
    ApplyInv(r, draw);
    ApplyScopes(r, draw);
    hide Apply, ScopeOk, ResourcesOk, Scoped;
  }
}
