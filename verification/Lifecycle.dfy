/**
 Pausing and resuming a pipeline. Each reconcile pass looks at the desired phase, the recorded phase, the
 pause annotation, the clock and what the cluster answers, and moves the vertices' desired phases: sources
 first, everything else only once the pipeline has drained or the grace period is over.
 */
module Lifecycle {
  import opened Wrappers
  import opened Clusters

  const SECOND := 1_000_000_000   // nanoseconds

  datatype Phase = Unknown | Running | Failed | Paused | Pausing | Deleting

  datatype Vertex = Vertex(isSource: bool, paused: bool, replicas: Option<nat>)

  type Vertices = map<string, Vertex>

  /** The recorded status, the pause annotation (in whole seconds) and the vertex objects. */
  datatype State = State(phase: Phase, drained: bool, pausedAt: Option<int>, vertices: Vertices)

  datatype SourcePods = NoneLeft | SomeLeft | ListFailed
  datatype DrainAnswer = Drained | NotDrained | QueryFailed

  /** A specified vertex, and the replicas it is created with outside a pause. */
  datatype SpecVertex = SpecVertex(isSource: bool, replicas: nat)

  /**
   What one pass sees: the desired phase, the specified vertices, the clock when
   the annotation is written and when the deadline is checked, the grace period in seconds, the answers
   about pods and buffers, and whether the resume strategy is `slow`. `refresh` says whether patching the
   annotation reloads the recorded status from the server.
   */
  datatype Input = Input(
    wantPaused: bool, spec: map<string, SpecVertex>, now: int, later: int, grace: int,
    pods: SourcePods, drain: DrainAnswer, slow: bool, refresh: bool)

  predicate DrainSeen(i: Input) { i.pods.NoneLeft? && i.drain.Drained? }

  predicate Expired(t: int, i: Input) { i.later > (t + i.grace) * SECOND }

  /** A missing vertex is created in the desired phase. */
  function Created(s: State, i: Input, n: string): Vertex
    requires n in i.spec
  {
    Vertex(i.spec[n].isSource, i.wantPaused, Some(if LifecycleChange(s, i) then 0 else i.spec[n].replicas))
  }

  /** Of the touched vertices missing ones are created and stale ones removed; the others are left alone. */
  function SyncedAmong(s: State, i: Input, touched: set<string>): Vertices {
    map n | n in s.vertices.Keys + i.spec.Keys && (if n in touched then n in i.spec else n in s.vertices) ::
      if n in s.vertices then s.vertices[n] else Created(s, i, n)
  }

  function Synced(s: State, i: Input): State {
    s.(vertices := SyncedAmong(s, i, s.vertices.Keys + i.spec.Keys))
  }

  predicate LifecycleChange(s: State, i: Input) {
    i.wantPaused || s.phase.Paused? || s.phase.Pausing? || s.pausedAt.Some?
  }

  predicate StrandedPause(s: State, i: Input) { !i.wantPaused && s.pausedAt.Some? }

  function DesiredPhase(i: Input): Phase { if i.wantPaused then Paused else Running }

  function PausedAmong(vs: Vertices, sourcesOnly: bool, done: set<string>): Vertices {
    map n | n in vs :: if n in done && (!sourcesOnly || vs[n].isSource) then vs[n].(paused := true) else vs[n]
  }

  function WithPaused(vs: Vertices, sourcesOnly: bool): Vertices { PausedAmong(vs, sourcesOnly, vs.Keys) }

  function ResumedAmong(vs: Vertices, slow: bool, done: set<string>): Vertices {
    map n | n in vs ::
      if n in done && vs[n].paused then vs[n].(paused := false, replicas := if slow then None else vs[n].replicas)
      else vs[n]
  }

  function WithResumed(vs: Vertices, slow: bool): Vertices { ResumedAmong(vs, slow, vs.Keys) }

  /** The vertices a patch is needed for. */
  function ToPause(vs: Vertices, sourcesOnly: bool): set<string> {
    set n | n in vs && (!sourcesOnly || vs[n].isSource) && !vs[n].paused
  }

  function ToResume(vs: Vertices): set<string> { set n | n in vs && vs[n].paused }

  function Missing(s: State, i: Input): set<string> { i.spec.Keys - s.vertices.Keys }

  function Stale(s: State, i: Input): set<string> { s.vertices.Keys - i.spec.Keys }

  /** `pausePipeline`. */
  function PausePass(s: State, i: Input): State {
    match s.pausedAt
    case None =>
      State(if i.refresh then s.phase else Pausing, s.drained, Some(i.now / SECOND), WithPaused(s.vertices, true))
    case Some(t) =>
      if Expired(t, i) || DrainSeen(i)
      then State(Paused, s.drained || DrainSeen(i), s.pausedAt, WithPaused(s.vertices, false))
      else s.(phase := Pausing)
  }

  /** `resumePipeline`. */
  function ResumePass(s: State, i: Input): State {
    State(Running, false, None, WithResumed(s.vertices, i.slow))
  }

  /** Before the lifecycle decision: vertices in place, and the phase recorded unless a pause is involved. */
  function Adopted(s: State, i: Input): State {
    var a := Synced(s, i);
    if LifecycleChange(a, i) then a else a.(phase := DesiredPhase(i))
  }

  predicate Acts(b: State, i: Input) {
    LifecycleChange(b, i) && (b.phase != DesiredPhase(i) || StrandedPause(b, i))
  }

  /** One error-free reconcile pass. */
  function Pass(s: State, i: Input): State {
    var b := Adopted(s, i);
    if Acts(b, i) then (if i.wantPaused then PausePass(b, i) else ResumePass(b, i)) else b
  }

  /** Some of what was needed was not done. */
  predicate Partly(done: set<string>, need: set<string>) { done == {} || done < need }

  /** Vertices are removed only after all missing ones were created. */
  predicate CreatedFirst(touched: set<string>, missing: set<string>, stale: set<string>) {
    touched <= missing + stale && (touched !! stale || missing <= touched)
  }

  /** Where a pass fails: the specification is invalid; the resources, vertices among them, could not all be put in
      place; the children's status could not be read; the annotation or some vertex could not be patched. */
  datatype Failure =
    | Invalid
    | AtResources(touched: set<string>)
    | AtChildren
    | AtAnnotation
    | AtVertices(done: set<string>)

  /** A failed pass leaves this behind. */
  function FailedPass(s: State, i: Input, f: Failure): State {
    var b := Adopted(s, i);
    match f
    case Invalid => s.(phase := Failed)
    case AtResources(touched) => s.(phase := Failed, vertices := SyncedAmong(s, i, touched))
    case AtChildren => b
    case AtAnnotation => if i.wantPaused then b.(phase := Pausing, vertices := WithPaused(b.vertices, true)) else b
    case AtVertices(done) =>
      if i.wantPaused
      then b.(phase := Pausing, vertices := PausedAmong(b.vertices, b.pausedAt.None?, done))
      else b.(pausedAt := None, vertices := ResumedAmong(b.vertices, i.slow, done))
  }

  function ToPatch(b: State, i: Input): set<string> {
    if i.wantPaused then ToPause(b.vertices, b.pausedAt.None?) else ToResume(b.vertices)
  }

  predicate PatchesAnnotation(b: State, i: Input) { i.wantPaused <==> b.pausedAt.None? }

  predicate PatchesVertices(b: State, i: Input) {
    i.wantPaused && b.pausedAt.Some? ==> Expired(b.pausedAt.value, i) || DrainSeen(i)
  }

  /** The pass gets as far as where it fails. */
  predicate CanFail(s: State, i: Input, f: Failure) {
    var b := Adopted(s, i);
    match f
    case AtAnnotation => Acts(b, i) && PatchesAnnotation(b, i)
    case AtVertices(done) => Acts(b, i) && PatchesVertices(b, i) && Partly(done, ToPatch(b, i))
    case AtResources(touched) => CreatedFirst(touched, Missing(s, i), Stale(s, i))
    case _ => true
  }

  /** One call to list the vertices and one for each that is patched, up to the first that fails: `done` are those whose
      patch was answered. */
  ghost predicate PatchCalls(calls: int, ok: bool, done: set<string>, need: set<string>) {
    (!ok && done == {} && calls == 1) || EachCalled(calls - 1, ok, done, need)
  }

  /** One call to list the vertices, one for each that is created or removed and one for the other resources, up to the
      first that fails: `touched` are those whose call was answered. */
  ghost predicate SyncCalls(calls: int, ok: bool, touched: set<string>, missing: set<string>, stale: set<string>) {
    && CreatedFirst(touched, missing, stale)
    && if ok then touched == missing + stale && calls == 2 + |touched|
       else (touched == {} && calls == 1) || calls == 2 + |touched|
  }

  /** The calls made for a pause or a resume that ends so: for the vertices, and for the annotation, which a pause
      patches last and a resume first. */
  ghost predicate ActCalls(b: State, i: Input, failure: Option<Failure>, calls: int) {
    var annotation := if PatchesAnnotation(b, i) then 1 else 0;
    match failure
    case None => calls == annotation + if PatchesVertices(b, i) then 1 + |ToPatch(b, i)| else 0
    case Some(AtAnnotation) => calls == 1 + if i.wantPaused then 1 + |ToPatch(b, i)| else 0
    case Some(AtVertices(done)) =>
      PatchCalls(if i.wantPaused then calls else calls - annotation, false, done, ToPatch(b, i))
    case _ => false
  }

  /** The calls of a pass that ends so: for the resources, for the children's status, and for what there is to do. */
  ghost predicate PassCalls(s: State, i: Input, failure: Option<Failure>, calls: int) {
    var b := Adopted(s, i);
    match failure
    case Some(Invalid) => calls == 0
    case Some(AtResources(touched)) => SyncCalls(calls, false, touched, Missing(s, i), Stale(s, i))
    case Some(AtChildren) => calls == CallsBefore(s, i)
    case _ => if Acts(b, i) then ActCalls(b, i, failure, calls - CallsBefore(s, i)) else calls == CallsBefore(s, i)
  }

  /** The calls before anything is done about a pause: for the resources and the children's status. */
  ghost function CallsBefore(s: State, i: Input): nat { 3 + |Missing(s, i)| + |Stale(s, i)| }

  // ----- what one error-free pass does -----

  /** What a pause or resume makes of a vertex once it gets to it. */
  function Patched(b: State, i: Input, v: Vertex): Vertex {
    if !PatchesVertices(b, i) then v
    else if i.wantPaused then (if b.pausedAt.Some? || v.isSource then v.(paused := true) else v)
    else if v.paused then v.(paused := false, replicas := if i.slow then None else v.replicas)
    else v
  }

  /** A vertex that is just created needs no patch. */
  lemma AdoptedVertex(s: State, i: Input, n: string)
    requires n in i.spec
    ensures var b := Adopted(s, i);
            && n in b.vertices && b.vertices[n] == (if n in s.vertices then s.vertices[n] else Created(s, i, n))
            && (n !in s.vertices ==> Patched(b, i, b.vertices[n]) == b.vertices[n])
  {}

  lemma PassVertex(s: State, i: Input, n: string)
    requires n in Adopted(s, i).vertices
    ensures var b, u := Adopted(s, i), Pass(s, i);
            n in u.vertices && u.vertices[n] == if Acts(b, i) then Patched(b, i, b.vertices[n]) else b.vertices[n]
  {
    hide Adopted, Acts;
  }

  lemma AdoptedKeys(s: State, i: Input)
    ensures Adopted(s, i).vertices.Keys == i.spec.Keys
  {}

  lemma PassKeys(s: State, i: Input)
    ensures Pass(s, i).vertices.Keys == i.spec.Keys
  {
    AdoptedKeys(s, i);
    hide Adopted, Acts;
  }

  /** With the specified vertices in place nothing is created or removed. */
  lemma AdoptedSame(s: State, i: Input)
    requires i.spec.Keys == s.vertices.Keys
    ensures Adopted(s, i) == if LifecycleChange(s, i) then s else s.(phase := DesiredPhase(i))
    ensures forall touched :: SyncedAmong(s, i, touched) == s.vertices
  {
    assert Synced(s, i).vertices == s.vertices;
  }

  predicate PauseInvolved(s: State) { s.phase.Paused? || s.phase.Pausing? || s.pausedAt.Some? }

  /** The vertices become the specified ones: new ones in the wanted phase, without replicas if a pause is wanted or
      under way and with the specified number otherwise; existing ones keep their role. */
  lemma PassCreates(s: State, i: Input, n: string)
    ensures Pass(s, i).vertices.Keys == i.spec.Keys
    ensures n in i.spec && n !in s.vertices ==>
              var v := Pass(s, i).vertices[n];
              && v.isSource == i.spec[n].isSource
              && v.paused == i.wantPaused
              && v.replicas == Some(if i.wantPaused || PauseInvolved(s) then 0 else i.spec[n].replicas)
    ensures n in i.spec && n in s.vertices ==> Pass(s, i).vertices[n].isSource == s.vertices[n].isSource
  {
    PassKeys(s, i);
    if n in i.spec {
      AdoptedVertex(s, i, n);
      PassVertex(s, i, n);
    }
    hide Adopted, Pass, Acts;
  }

  /** Beginning a pause: the sources are paused and the time is noted; the phase becomes Pausing unless patching the
      annotation reloads the recorded one. */
  lemma PassBeginsPause(s: State, i: Input, n: string)
    requires i.wantPaused && !s.phase.Paused? && s.pausedAt.None?
    ensures var t := Pass(s, i);
            && t.pausedAt == Some(i.now / 1_000_000_000) && t.drained == s.drained
            && t.phase == (if i.refresh then s.phase else Pausing)
            && (n in i.spec && n in s.vertices ==>
                  t.vertices[n] == s.vertices[n].(paused := s.vertices[n].paused || s.vertices[n].isSource))
  {}

  /** Going on with a pause: as soon as no source pods are left and the buffers are drained, or once the grace period is
      over, everything is paused; until then nothing changes. */
  lemma PassContinuesPause(s: State, i: Input, n: string)
    requires i.wantPaused && !s.phase.Paused? && s.pausedAt.Some?
    ensures var t := Pass(s, i);
            var drained := i.pods.NoneLeft? && i.drain.Drained?;
            var ends := drained || i.later > (s.pausedAt.value + i.grace) * 1_000_000_000;
            && t.pausedAt == s.pausedAt
            && t.phase == (if ends then Paused else Pausing)
            && t.drained == (s.drained || drained)
            && (n in i.spec && n in s.vertices ==>
                  t.vertices[n] == s.vertices[n].(paused := s.vertices[n].paused || ends))
  {}

  /** A paused pipeline that is wanted paused stays as it is. */
  lemma PassKeepsPaused(s: State, i: Input, n: string)
    requires i.wantPaused && s.phase.Paused?
    ensures var t := Pass(s, i);
            && t.phase.Paused? && t.pausedAt == s.pausedAt && t.drained == s.drained
            && (n in i.spec && n in s.vertices ==> t.vertices[n] == s.vertices[n])
  {}

  /** Wanting the pipeline running: if a pause was under way every vertex is resumed, those that were paused forgetting
      their replicas under the slow strategy, and nothing is left of the pause; otherwise nothing changes. */
  lemma PassRuns(s: State, i: Input, n: string)
    requires !i.wantPaused
    ensures var t := Pass(s, i);
            && t.phase.Running? && t.pausedAt.None?
            && t.drained == (s.drained && !PauseInvolved(s))
            && (n in i.spec && n in s.vertices ==>
                  var v, w := s.vertices[n], t.vertices[n];
                  if PauseInvolved(s)
                  then !w.paused && w.replicas == (if i.slow && v.paused then None else v.replicas)
                  else w == v)
  {}

  // ----- one pass, failed or not -----

  /** One pass, how it ended, and whether the status it arrived at could be written. */
  datatype Tried = Tried(input: Input, failure: Option<Failure>, saved: bool)

  function Arrived(s: State, p: Tried): State {
    match p.failure
    case None => Pass(s, p.input)
    case Some(f) => FailedPass(s, p.input, f)
  }

  /** What a pass leaves: if its status was lost, the annotation and the vertices are still as it made them. */
  function Step(s: State, p: Tried): State {
    if p.saved then Arrived(s, p) else Arrived(s, p).(phase := s.phase, drained := s.drained)
  }

  /** The pass ended without an error and its status was written. */
  predicate Succeeded(p: Tried) { p.failure.None? && p.saved }

  predicate Possible(s: State, p: Tried) { p.failure.Some? ==> CanFail(s, p.input, p.failure.value) }

  lemma FailedVertex(s: State, i: Input, f: Failure, n: string)
    requires CanFail(s, i, f) && !f.Invalid? && !f.AtResources?
    ensures var b, t := Adopted(s, i), FailedPass(s, i, f);
            && (n in t.vertices <==> n in b.vertices)
            && (n in b.vertices && t.vertices[n] != b.vertices[n] ==>
                  Acts(b, i) && t.vertices[n] == Patched(b, i, b.vertices[n]))
  {
    hide Adopted, Acts, ToPatch;
  }

  /** A failed pass has done part of what it was to do: each vertex is as before or as it would be after the pass, and
      none that is specified is gone. */
  lemma FailedPassIsPartial(s: State, i: Input, f: Failure, n: string)
    requires CanFail(s, i, f)
    ensures var t, u := FailedPass(s, i, f), Pass(s, i);
            && (n in t.vertices ==>
                  || (n in s.vertices && t.vertices[n] == s.vertices[n])
                  || (n in u.vertices && t.vertices[n] == u.vertices[n]))
            && (n in s.vertices && n !in t.vertices ==> n !in i.spec)
  {
    hide Adopted, Acts, Patched, Pass, CanFail;
    AdoptedKeys(s, i);
    if n in i.spec {
      AdoptedVertex(s, i, n);
      PassVertex(s, i, n);
    }
    if !f.Invalid? && !f.AtResources? {
      FailedVertex(s, i, f, n);
    }
  }

  /** The annotation is lost by a resume that fails at the vertices and otherwise as before; the drained flag is as
      before; the phase tells how far the pass came. */
  lemma FailedPassRecords(s: State, i: Input, f: Failure)
    requires CanFail(s, i, f)
    ensures var t := FailedPass(s, i, f);
            && t.drained == s.drained
            && t.pausedAt == (if f.AtVertices? && !i.wantPaused then None else s.pausedAt)
            && t.phase == (match f
                           case Invalid => Failed
                           case AtResources(_) => Failed
                           case AtChildren => if i.wantPaused || PauseInvolved(s) then s.phase else Running
                           case AtAnnotation => if i.wantPaused then Pausing else s.phase
                           case AtVertices(_) => if i.wantPaused then Pausing else s.phase)
  {}

  /** An existing vertex that is not a source is paused only after sources were told to pause in an earlier
      pass, and only on an observed drain or past the deadline. */
  lemma PausedOnlyAfterDrainOrDeadline(s: State, p: Tried, n: string)
    requires Possible(s, p) && n in s.vertices && n in Step(s, p).vertices
    requires !s.vertices[n].isSource && !s.vertices[n].paused && Step(s, p).vertices[n].paused
    ensures p.input.wantPaused && s.pausedAt.Some? && (Expired(s.pausedAt.value, p.input) || DrainSeen(p.input))
  {}

  /** The drained flag is raised only on an observed drain, and lowered by resuming; any other pass leaves it. */
  lemma DrainedOnlyIfSeen(s: State, p: Tried)
    ensures var t := Step(s, p);
            && (t.drained && !s.drained ==>
                  Succeeded(p) && p.input.wantPaused && DrainSeen(p.input) && t.phase.Paused? && t.pausedAt.Some?)
            && (s.drained && !t.drained ==> Succeeded(p) && !p.input.wantPaused && t.phase.Running?)
  {}

  // ----- every run of error-free passes -----

  ghost predicate AllPaused(vs: Vertices) { forall n | n in vs :: vs[n].paused }

  ghost predicate SourcesPaused(vs: Vertices) { forall n | n in vs && vs[n].isSource :: vs[n].paused }

  /** A pipeline recorded as paused has all vertices paused; while the annotation stands the sources are. */
  ghost predicate LifecycleInv(s: State) {
    && (s.phase.Paused? ==> AllPaused(s.vertices) && s.pausedAt.Some?)
    && (s.pausedAt.Some? ==> SourcesPaused(s.vertices))
  }

  lemma PassInv(s: State, i: Input)
    requires LifecycleInv(s)
    ensures LifecycleInv(Pass(s, i))
  {}

  ghost function Passes(s: State, run: seq<Input>): State {
    if run == [] then s else Pass(Passes(s, run[..|run| - 1]), run[|run| - 1])
  }

  lemma {:induction false} RunKeepsInv(s: State, run: seq<Input>)
    requires LifecycleInv(s)
    ensures LifecycleInv(Passes(s, run))
  {
    if run != [] {
      RunKeepsInv(s, run[..|run| - 1]);
      PassInv(Passes(s, run[..|run| - 1]), run[|run| - 1]);
    }
  }

  // ----- every run, failed passes included -----

  ghost function Steps(s: State, run: seq<Tried>): State {
    if run == [] then s else Step(Steps(s, run[..|run| - 1]), run[|run| - 1])
  }

  ghost predicate AllPossible(s: State, run: seq<Tried>) {
    forall j | 0 <= j < |run| :: Possible(Steps(s, run[..j]), run[j])
  }

  /** A pass after which no pause that was under way is: it ended without an error and wanted the pipeline running, or
      it failed while resuming vertices. */
  predicate EndsPause(p: Tried) {
    !p.input.wantPaused && (p.failure.None? || p.failure.value.AtVertices?)
  }

  lemma AnnotationStep(s: State, p: Tried)
    requires Possible(s, p)
    ensures var t := Step(s, p);
            && (t.pausedAt.Some? && s.pausedAt.Some? ==> t.pausedAt == s.pausedAt && !EndsPause(p))
            && (t.pausedAt.Some? && s.pausedAt.None? ==>
                  p.failure.None? && p.input.wantPaused && t.pausedAt == Some(p.input.now / SECOND))
  {}

  /** A pause was begun at second `t`, and if the pipeline is recorded as paused all its vertices are. */
  ghost predicate PauseBegun(s: State, t: int) {
    s.pausedAt == Some(t) && (s.phase.Paused? ==> AllPaused(s.vertices))
  }

  lemma PauseBegins(s: State, p: Tried)
    requires p.input.wantPaused && p.failure.None? && s.pausedAt.None? && !s.phase.Paused?
    ensures PauseBegun(Step(s, p), p.input.now / SECOND)
  {}

  lemma PauseGoesOn(s: State, p: Tried, t: int)
    requires Possible(s, p) && p.input.wantPaused && PauseBegun(s, t)
    ensures PauseBegun(Step(s, p), t)
    ensures Succeeded(p) && (Expired(t, p.input) || DrainSeen(p.input)) ==>
              && Step(s, p).phase.Paused? && AllPaused(Step(s, p).vertices)
              && (DrainSeen(p.input) && !s.phase.Paused? ==> Step(s, p).drained)
  {}

  /** Pass `k` of the run begins a pause that is wanted up to pass `n`; failures in between do not matter. */
  ghost predicate WantedSince(s: State, run: seq<Tried>, k: nat, n: nat) {
    && k < n <= |run| && AllPossible(s, run)
    && Steps(s, run[..k]).pausedAt.None? && !Steps(s, run[..k]).phase.Paused? && run[k].failure.None?
    && forall j | k <= j < n :: run[j].input.wantPaused
  }

  /** While pausing stays wanted, the annotation a pass wrote stands, whichever passes fail. */
  lemma {:induction false} AnnotationStays(s: State, run: seq<Tried>, k: nat, n: nat)
    requires WantedSince(s, run, k, n)
    ensures PauseBegun(Steps(s, run[..n]), run[k].input.now / SECOND)
    decreases n
  {
    hide Step, Possible, PauseBegun;
    var m := n - 1;
    assert run[..n][..m] == run[..m];
    if k < m {
      AnnotationStays(s, run, k, m);
      PauseGoesOn(Steps(s, run[..m]), run[m], run[k].input.now / SECOND);
    } else {
      PauseBegins(Steps(s, run[..m]), run[m]);
    }
  }

  /** Over every run, whatever was answered about pods and buffers and whichever passes failed meanwhile: once the grace
      period of a pause still wanted is over, every pass without an error leaves the pipeline paused with all its
      vertices. */
  lemma DeadlineForcesPause(s: State, run: seq<Tried>, k: nat, n: nat)
    requires n < |run| && WantedSince(s, run, k, n) && run[n].input.wantPaused && Succeeded(run[n])
    requires run[n].input.later > (run[k].input.now / SECOND + run[n].input.grace) * SECOND
    ensures var t := Steps(s, run[..n + 1]); t.phase.Paused? && AllPaused(t.vertices)
  {
    hide Step, Possible, PauseBegun, AllPaused, Succeeded;
    AnnotationStays(s, run, k, n);
    PauseGoesOn(Steps(s, run[..n]), run[n], run[k].input.now / SECOND);
    assert run[..n + 1][..n] == run[..n];
  }

  /** Likewise for every pass without an error that sees no source pods and drained buffers; it also marks the pipeline
      drained unless an earlier pass had already paused it. */
  lemma DrainEndsPause(s: State, run: seq<Tried>, k: nat, n: nat)
    requires n < |run| && WantedSince(s, run, k, n) && run[n].input.wantPaused && Succeeded(run[n])
    requires run[n].input.pods.NoneLeft? && run[n].input.drain.Drained?
    ensures var before, t := Steps(s, run[..n]), Steps(s, run[..n + 1]);
            t.phase.Paused? && AllPaused(t.vertices) && (!before.phase.Paused? ==> t.drained)
  {
    hide Step, Possible, PauseBegun, AllPaused, Succeeded;
    AnnotationStays(s, run, k, n);
    PauseGoesOn(Steps(s, run[..n]), run[n], run[k].input.now / SECOND);
    assert run[..n + 1][..n] == run[..n];
  }

  /** Where an annotation comes from: the latest pass that started a pause, rounded down to the second; no pass has
      ended that pause since. */
  lemma {:induction false} AnnotationOrigin(s: State, run: seq<Tried>) returns (k: nat)
    requires s.pausedAt.None? && Steps(s, run).pausedAt.Some? && AllPossible(s, run)
    ensures k < |run| && run[k].failure.None? && run[k].input.wantPaused
    ensures Steps(s, run).pausedAt == Some(run[k].input.now / SECOND)
    ensures forall j | k <= j < |run| :: !EndsPause(run[j])
  {
    hide Step, Possible, EndsPause;
    var n := |run| - 1;
    var before := Steps(s, run[..n]);
    AnnotationStep(before, run[n]);
    assert forall j | 0 <= j < n :: run[..n][j] == run[j] && run[..n][..j] == run[..j];
    if before.pausedAt.Some? {
      k := AnnotationOrigin(s, run[..n]);
    } else {
      k := n;
      WantingEndsNothing(run[k]);
    }
  }

  lemma WantingEndsNothing(p: Tried)
    ensures p.input.wantPaused ==> !EndsPause(p)
  {}

  /** No failed pass created a vertex. */
  ghost predicate NoneCreated(s: State, run: seq<Tried>) {
    forall j | 0 <= j < |run| && run[j].failure.Some? :: run[j].input.spec.Keys <= Steps(s, run[..j]).vertices.Keys
  }

  lemma StepPausesSources(s: State, p: Tried)
    requires Possible(s, p) && (p.failure.Some? ==> p.input.spec.Keys <= s.vertices.Keys)
    requires s.pausedAt.Some? ==> SourcesPaused(s.vertices)
    ensures Step(s, p).pausedAt.Some? ==> SourcesPaused(Step(s, p).vertices)
  {}

  lemma {:induction false} RunPausesSources(s: State, run: seq<Tried>)
    requires AllPossible(s, run) && NoneCreated(s, run) && (s.pausedAt.Some? ==> SourcesPaused(s.vertices))
    ensures Steps(s, run).pausedAt.Some? ==> SourcesPaused(Steps(s, run).vertices)
  {
    if run != [] {
      hide Step, Possible, SourcesPaused;
      var n := |run| - 1;
      assert forall j | 0 <= j < n :: run[..n][j] == run[j] && run[..n][..j] == run[..j];
      RunPausesSources(s, run[..n]);
      StepPausesSources(Steps(s, run[..n]), run[n]);
    }
  }

  /** Over every run, failed passes included, from a pipeline that was not pausing: if pass `n` pauses a vertex that is
      not a source, an earlier pass had begun the pause and none has ended it since, pausing is wanted now, and either
      the drain is observed or more than the grace period has gone by, to the second. The sources are paused by then,
      unless a failed pass created one. */
  lemma PauseOrder(s: State, run: seq<Tried>, n: nat, v: string) returns (k: nat)
    requires s.pausedAt.None? && n < |run| && AllPossible(s, run)
    requires var before, after := Steps(s, run[..n]), Step(Steps(s, run[..n]), run[n]);
             && v in before.vertices && v in after.vertices && !before.vertices[v].isSource
             && !before.vertices[v].paused && after.vertices[v].paused
    ensures k < n && run[k].failure.None? && run[k].input.wantPaused && run[n].input.wantPaused
    ensures forall j | k <= j < n :: !EndsPause(run[j])
    ensures DrainSeen(run[n].input) ||
            run[n].input.later > (run[k].input.now / SECOND + run[n].input.grace) * SECOND
    ensures NoneCreated(s, run[..n]) ==> SourcesPaused(Steps(s, run[..n]).vertices)
  {
    hide Step, Possible, EndsPause, SourcesPaused, NoneCreated;
    var before := Steps(s, run[..n]);
    assert forall j | 0 <= j < n :: run[..n][j] == run[j] && run[..n][..j] == run[..j];
    PausedOnlyAfterDrainOrDeadline(before, run[n], v);
    k := AnnotationOrigin(s, run[..n]);
    if NoneCreated(s, run[..n]) {
      RunPausesSources(s, run[..n]);
    }
  }

  /** A pipeline that is marked drained was seen drained in some pass; without failed passes it has been wanted paused
      ever since. */
  lemma {:induction false} DrainedOrigin(s: State, run: seq<Tried>) returns (k: nat)
    requires !s.drained && Steps(s, run).drained
    ensures k < |run| && Succeeded(run[k]) && run[k].input.wantPaused && DrainSeen(run[k].input)
    ensures (forall j | 0 <= j < |run| :: Succeeded(run[j])) ==>
              Steps(s, run).pausedAt.Some? && forall j | k <= j < |run| :: run[j].input.wantPaused
  {
    hide Step, DrainSeen, Succeeded;
    var n := |run| - 1;
    var before := Steps(s, run[..n]);
    assert forall j | 0 <= j < n :: run[..n][j] == run[j];
    DrainedOnlyIfSeen(before, run[n]);
    if before.drained {
      k := DrainedOrigin(s, run[..n]);
      DrainedStays(before, run[n]);
    } else {
      k := n;
    }
  }

  lemma DrainedStays(s: State, p: Tried)
    ensures s.drained && s.pausedAt.Some? && Succeeded(p) && Step(s, p).drained ==>
              p.input.wantPaused && Step(s, p).pausedAt.Some?
  {}

  /** The vertices stay the specified ones, and every pass fails only where it can. */
  ghost predicate Feasible(s: State, run: seq<Tried>) {
    forall j | 0 <= j < |run| ::
      run[j].input.spec.Keys == s.vertices.Keys && Possible(Steps(s, run[..j]), run[j])
  }

  /** Recorded as paused without the annotation a pause always has. */
  predicate HalfResumed(s: State) { s.phase.Paused? && s.pausedAt.None? }

  /** A resume from Paused that removed the annotation but did not get to record its end: a vertex could not be patched,
      or the new status could not be written. */
  predicate BreaksResume(s: State, p: Tried) {
    EndsPause(p) && s.phase.Paused? && !Succeeded(p)
  }

  /** A pass that lets a half-resumed pipeline out: it resumes it, or fails before the lifecycle is looked at, and
      records so. */
  predicate LetsGo(p: Tried) {
    && p.saved
    && match p.failure
       case None => !p.input.wantPaused
       case Some(f) => f.Invalid? || f.AtResources?
  }

  lemma StepKeys(s: State, p: Tried)
    requires p.input.spec.Keys == s.vertices.Keys
    ensures Step(s, p).vertices.Keys == s.vertices.Keys
  {}

  lemma {:induction false} StepsKeys(s: State, run: seq<Tried>)
    requires forall j | 0 <= j < |run| :: run[j].input.spec.Keys == s.vertices.Keys
    ensures Steps(s, run).vertices.Keys == s.vertices.Keys
  {
    if run != [] {
      hide Step;
      StepsKeys(s, run[..|run| - 1]);
      StepKeys(Steps(s, run[..|run| - 1]), run[|run| - 1]);
    }
  }

  /** One pass, failed or not, keeps the invariant exactly if it does not break a resume in the middle. */
  lemma StepKeepsIff(s: State, p: Tried)
    requires LifecycleInv(s) && p.input.spec.Keys == s.vertices.Keys
    requires Possible(s, p)
    ensures LifecycleInv(Step(s, p)) <==> !BreaksResume(s, p)
    ensures BreaksResume(s, p) ==> HalfResumed(Step(s, p))
  {
    assert Synced(s, p.input).vertices == s.vertices;
  }

  /** From a half-resumed pipeline a pass either leads back to the invariant or leaves it half resumed. */
  lemma HalfResumedStep(s: State, p: Tried)
    requires HalfResumed(s) && p.input.spec.Keys == s.vertices.Keys
    requires Possible(s, p)
    ensures if LetsGo(p) then LifecycleInv(Step(s, p)) else HalfResumed(Step(s, p))
    ensures p.input.wantPaused && !LetsGo(p) ==> Step(s, p) == s
  {
    assert Synced(s, p.input).vertices == s.vertices;
  }

  /** Where the invariant is lost, over every run: it fails at the end if and only if some pass broke a resume in the
      middle and no later pass let the pipeline go. */
  ghost predicate Broken(s: State, run: seq<Tried>) {
    exists k | 0 <= k < |run| :: BreaksResume(Steps(s, run[..k]), run[k]) && forall j | k < j < |run| :: !LetsGo(run[j])
  }

  lemma {:induction false} RunKeepsIff(s: State, run: seq<Tried>)
    requires LifecycleInv(s) && Feasible(s, run)
    ensures LifecycleInv(Steps(s, run)) <==> !Broken(s, run)
    ensures LifecycleInv(Steps(s, run)) || HalfResumed(Steps(s, run))
  {
    if run != [] {
      hide Step, LifecycleInv, BreaksResume, LetsGo, HalfResumed, Possible;
      var n := |run| - 1;
      var before := Steps(s, run[..n]);
      assert forall j | 0 <= j < n :: run[..n][j] == run[j] && run[..n][..j] == run[..j];
      RunKeepsIff(s, run[..n]);
      StepsKeys(s, run[..n]);
      BrokenStep(s, run);
      if LifecycleInv(before) {
        StepKeepsIff(before, run[n]);
      } else {
        HalfResumedStep(before, run[n]);
        HalfResumedBreaks(Step(before, run[n]));
      }
    }
  }

  lemma HalfResumedBreaks(s: State)
    ensures HalfResumed(s) ==> !LifecycleInv(s)
  {}

  lemma BrokenStep(s: State, run: seq<Tried>)
    requires run != []
    ensures var n := |run| - 1;
            Broken(s, run) <==> BreaksResume(Steps(s, run[..n]), run[n]) || (Broken(s, run[..n]) && !LetsGo(run[n]))
  {
    hide BreaksResume, LetsGo, Steps;
    var n := |run| - 1;
    if Broken(s, run[..n]) && !LetsGo(run[n]) {
      var k :| 0 <= k < n && BreaksResume(Steps(s, run[..n][..k]), run[..n][k])
               && forall j | k < j < n :: !LetsGo(run[..n][j]);
      assert run[..n][..k] == run[..k] && run[..n][k] == run[k];
      forall j | k < j < |run| ensures !LetsGo(run[j]) { assert j < n ==> run[..n][j] == run[j]; }
      assert BreaksResume(Steps(s, run[..k]), run[k]);
    }
    if Broken(s, run) {
      var k :| 0 <= k < |run| && BreaksResume(Steps(s, run[..k]), run[k])
               && forall j | k < j < |run| :: !LetsGo(run[j]);
      if k < n {
        assert run[..n][..k] == run[..k] && run[..n][k] == run[k];
        assert BreaksResume(Steps(s, run[..n][..k]), run[..n][k]);
      }
    }
  }

  /** A paused pipeline of two vertices. */
  const TWO_PAUSED := State(
    Paused, false, Some(0), map["in" := Vertex(true, true, None), "out" := Vertex(false, true, None)])

  /** What losing it can mean: a pipeline of two paused vertices whose resume fails after one of them is recorded as
      paused with that one running; if pausing is then wanted again, it stays so however many passes follow. */
  lemma PausedButRunning(i: Input, n: string, again: seq<Tried>)
    requires !i.wantPaused && i.spec.Keys == {"in", "out"} && n in i.spec
    requires forall k | 0 <= k < |again| ::
               Succeeded(again[k]) && again[k].input.wantPaused && again[k].input.spec.Keys == i.spec.Keys
    ensures LifecycleInv(TWO_PAUSED) && CanFail(TWO_PAUSED, i, AtVertices({n}))
    ensures var u := Steps(FailedPass(TWO_PAUSED, i, AtVertices({n})), again);
            u.phase.Paused? && n in u.vertices && !u.vertices[n].paused
  {
    HalfResumedTwo(i, n);
    Stuck(FailedPass(TWO_PAUSED, i, AtVertices({n})), again);
  }

  function Other(n: string): string { if n == "in" then "out" else "in" }

  lemma HalfResumedTwo(i: Input, n: string)
    requires !i.wantPaused && i.spec.Keys == {"in", "out"} && n in i.spec
    ensures LifecycleInv(TWO_PAUSED) && CanFail(TWO_PAUSED, i, AtVertices({n}))
    ensures var t := FailedPass(TWO_PAUSED, i, AtVertices({n}));
            && HalfResumed(t) && t.vertices.Keys == i.spec.Keys && !t.vertices[n].paused && t.vertices[Other(n)].paused
  {
    AdoptedSame(TWO_PAUSED, i);
    assert ToResume(TWO_PAUSED.vertices) == {"in", "out"};
    assert Other(n) in {"in", "out"} && Other(n) !in {n};
  }

  lemma {:induction false} Stuck(s: State, run: seq<Tried>)
    requires HalfResumed(s)
    requires forall k | 0 <= k < |run| ::
               Succeeded(run[k]) && run[k].input.wantPaused && run[k].input.spec.Keys == s.vertices.Keys
    ensures Steps(s, run) == s
  {
    if run != [] {
      Stuck(s, run[..|run| - 1]);
      HalfResumedStep(s, run[|run| - 1]);
    }
  }

  // ----- running with paused vertices -----

  ghost predicate SomePaused(vs: Vertices) { exists n | n in vs :: vs[n].paused }

  /** Nothing in the record tells of a pause, yet some vertex is paused: no pass that wants the pipeline running will
      look at it. */
  ghost predicate Stranded(s: State) {
    !s.phase.Paused? && !s.phase.Pausing? && s.pausedAt.None? && SomePaused(s.vertices)
  }

  predicate Quiet(s: State) { !s.phase.Paused? && !s.phase.Pausing? }

  /** The pass wipes the last trace of a pause while vertices are paused: it records a failure where only the phase told
      of the pause, fails while resuming vertices where only the annotation did, or fails while pausing sources and
      loses the status that would have told of it. */
  ghost predicate Strands(s: State, p: Tried) {
    match p.failure
    case None => false
    case Some(Invalid) => p.saved && s.pausedAt.None? && SomePaused(s.vertices)
    case Some(AtResources(_)) => p.saved && s.pausedAt.None? && SomePaused(s.vertices)
    case Some(AtChildren) => false
    case Some(AtAnnotation) =>
      p.input.wantPaused && !p.saved && Quiet(s) && SomePaused(WithPaused(s.vertices, true))
    case Some(AtVertices(done)) =>
      if p.input.wantPaused
      then !p.saved && Quiet(s) && s.pausedAt.None? && SomePaused(PausedAmong(s.vertices, true, done))
      else Quiet(s) && SomePaused(ResumedAmong(s.vertices, p.input.slow, done))
  }

  /** Exactly such a pass strands a pipeline; a pass without an error never does. */
  lemma StrandsIff(s: State, p: Tried)
    requires !Stranded(s) && Possible(s, p) && p.input.spec.Keys == s.vertices.Keys
    ensures Stranded(Step(s, p)) <==> Strands(s, p)
  {
    AdoptedSame(s, p.input);
    assert !SomePaused(WithResumed(s.vertices, p.input.slow));
    hide Adopted, SyncedAmong, Partly, ToPatch, CreatedFirst;
  }

  /** Over every run: a pipeline found stranded was stranded by such a pass. */
  lemma {:induction false} StrandedOrigin(s: State, run: seq<Tried>) returns (k: nat)
    requires !Stranded(s) && Feasible(s, run) && Stranded(Steps(s, run))
    ensures k < |run| && Strands(Steps(s, run[..k]), run[k])
  {
    hide Step, Stranded, Strands, Possible;
    var n := |run| - 1;
    assert forall j | 0 <= j < n :: run[..n][j] == run[j] && run[..n][..j] == run[..j];
    if Stranded(Steps(s, run[..n])) {
      k := StrandedOrigin(s, run[..n]);
    } else {
      k := n;
      StepsKeys(s, run[..n]);
      StrandsIff(Steps(s, run[..n]), run[n]);
    }
  }

  /** It stays stranded, its vertices untouched, through any passes that want it running. */
  lemma {:induction false} StrandedStays(s: State, run: seq<Tried>)
    requires Stranded(s) && Feasible(s, run) && forall j | 0 <= j < |run| :: !run[j].input.wantPaused
    ensures Stranded(Steps(s, run)) && Steps(s, run).vertices == s.vertices
    ensures run != [] && Succeeded(run[|run| - 1]) ==> Steps(s, run).phase.Running?
  {
    if run != [] {
      hide Step, Stranded, Possible, Succeeded;
      var n := |run| - 1;
      assert forall j | 0 <= j < n :: run[..n][j] == run[j] && run[..n][..j] == run[..j];
      StrandedStays(s, run[..n]);
      StrandedStep(Steps(s, run[..n]), run[n]);
    }
  }

  lemma StrandedStep(s: State, p: Tried)
    requires Stranded(s) && Possible(s, p) && p.input.spec.Keys == s.vertices.Keys && !p.input.wantPaused
    ensures Stranded(Step(s, p)) && Step(s, p).vertices == s.vertices
    ensures Succeeded(p) ==> Step(s, p).phase.Running?
  {
    assert Synced(s, p.input).vertices == s.vertices;
    assert forall f: Failure | f.AtResources? :: SyncedAmong(s, p.input, f.touched) == s.vertices;
  }

  /** It happens: a paused pipeline's resume fails halfway, the next pass finds the specification invalid, and from then
      on passes without an error report the pipeline running while one of its vertices stays paused. */
  lemma RunningButPaused(i: Input, n: string, again: seq<Tried>)
    requires !i.wantPaused && i.spec.Keys == {"in", "out"} && n in i.spec && again != []
    requires forall k | 0 <= k < |again| ::
               Succeeded(again[k]) && !again[k].input.wantPaused && again[k].input.spec.Keys == i.spec.Keys
    ensures LifecycleInv(TWO_PAUSED) && CanFail(TWO_PAUSED, i, AtVertices({n}))
    ensures var u := Steps(FailedPass(FailedPass(TWO_PAUSED, i, AtVertices({n})), i, Invalid), again);
            u.phase.Running? && Other(n) in u.vertices && u.vertices[Other(n)].paused
  {
    HalfResumedTwo(i, n);
    StrandedTwo(i, n);
    StrandedStays(FailedPass(FailedPass(TWO_PAUSED, i, AtVertices({n})), i, Invalid), again);
  }

  lemma StrandedTwo(i: Input, n: string)
    requires !i.wantPaused && i.spec.Keys == {"in", "out"} && n in i.spec
    ensures var t := FailedPass(FailedPass(TWO_PAUSED, i, AtVertices({n})), i, Invalid);
            Stranded(t) && t.vertices.Keys == i.spec.Keys && t.vertices[Other(n)].paused
  {
    HalfResumedTwo(i, n);
  }

  // ----- pausing and resuming again -----

  /** Same vertices but for their desired phase. */
  ghost predicate SameButPhase(vs: Vertices, ws: Vertices) {
    vs.Keys == ws.Keys && forall n | n in vs :: ws[n].isSource == vs[n].isSource && ws[n].replicas == vs[n].replicas
  }

  lemma PausePassKeeps(s: State, i: Input)
    requires i.wantPaused && i.spec.Keys == s.vertices.Keys
    ensures SameButPhase(s.vertices, Pass(s, i).vertices)
  {
    assert Synced(s, i).vertices == s.vertices;
  }

  lemma {:induction false} PausingKeepsVertices(s: State, run: seq<Input>)
    requires forall j | 0 <= j < |run| :: run[j].wantPaused && run[j].spec.Keys == s.vertices.Keys
    ensures SameButPhase(s.vertices, Passes(s, run).vertices)
  {
    if run != [] {
      hide Pass;
      var n := |run| - 1;
      PausingKeepsVertices(s, run[..n]);
      PausePassKeeps(Passes(s, run[..n]), run[n]);
    }
  }

  /** The vertices as they were, but for the replicas the slow strategy forgets. */
  function Restored(vs: Vertices, paused: Vertices, slow: bool): Vertices
    requires paused.Keys == vs.Keys
  {
    map n | n in vs :: vs[n].(replicas := if slow && paused[n].paused then None else vs[n].replicas)
  }

  /** Resuming undoes what pausing did to vertices that were running. */
  lemma ResumedVertices(vs: Vertices, ws: Vertices, slow: bool)
    requires SameButPhase(vs, ws) && forall n | n in vs :: !vs[n].paused
    ensures WithResumed(ws, slow) == Restored(vs, ws, slow)
    ensures Restored(vs, ws, false) == vs
  {}

  lemma ResumePassDoes(p: State, i: Input)
    requires !i.wantPaused && i.spec.Keys == p.vertices.Keys && (p.pausedAt.Some? || p.phase.Paused?)
    ensures Pass(p, i) == ResumePass(p, i)
  {}

  /** A running pipeline, paused for any number of passes with any outcome and then resumed, has exactly the vertices it
      started with, except that the slow strategy makes those that had been paused forget their replicas. */
  lemma PauseResumeRoundTrip(s: State, run: seq<Input>, i: Input)
    requires forall n | n in s.vertices :: !s.vertices[n].paused
    requires forall j | 0 <= j < |run| :: run[j].wantPaused && run[j].spec.Keys == s.vertices.Keys
    requires run != [] && !i.wantPaused && i.spec.Keys == s.vertices.Keys
    ensures var t, p := Pass(Passes(s, run), i), Passes(s, run);
            && t.phase.Running? && t.pausedAt.None? && !t.drained
            && p.vertices.Keys == s.vertices.Keys && t.vertices == Restored(s.vertices, p.vertices, i.slow)
            && (!i.slow ==> t.vertices == s.vertices)
  {
    PausingKeepsVertices(s, run);
    PausingLeavesMark(s, run);
    hide Pass, Passes, WithResumed, SameButPhase, Restored;
    SameKeys(s.vertices, Passes(s, run).vertices);
    ResumePassDoes(Passes(s, run), i);
    ResumedVertices(s.vertices, Passes(s, run).vertices, i.slow);
  }

  lemma SameKeys(vs: Vertices, ws: Vertices)
    requires SameButPhase(vs, ws)
    ensures vs.Keys == ws.Keys
  {}

  /** After a pass that wants pausing, the next one knows: the annotation stands, or the pipeline was already
      paused. */
  lemma PausingLeavesMark(s: State, run: seq<Input>)
    requires run != [] && run[|run| - 1].wantPaused
    ensures var p := Passes(s, run); p.pausedAt.Some? || p.phase.Paused?
  {}

  // ----- the controller -----

  lemma CreateOne(s: State, i: Input, created: set<string>, n: string)
    requires n in Missing(s, i)
    ensures n in i.spec
    ensures SyncedAmong(s, i, created + {n}) == SyncedAmong(s, i, created)[n := Created(s, i, n)]
  {}

  /** All missing vertices were created, and of the stale ones those in `removed` removed. */
  function WithoutStale(s: State, i: Input, removed: set<string>): Vertices {
    SyncedAmong(s, i, Missing(s, i) + removed)
  }

  lemma RemoveOne(s: State, i: Input, removed: set<string>, n: string)
    requires n in Stale(s, i)
    ensures WithoutStale(s, i, removed + {n}) == WithoutStale(s, i, removed) - {n}
  {}

  lemma Listed(calls: int, ok: bool, done: set<string>, need: set<string>)
    ensures PatchCalls(1, false, {}, need)
    ensures EachCalled(calls, ok, done, need) ==> PatchCalls(calls + 1, ok, done, need)
  {}

  lemma PausedAll(vs: Vertices)
    ensures AllPaused(WithPaused(vs, false))
  {}

  lemma CreationCalls(s: State, i: Input, calls: int, created: set<string>)
    requires PatchCalls(calls, false, created, Missing(s, i))
    ensures SyncCalls(calls, false, created, Missing(s, i), Stale(s, i))
  {}

  /** The calls for creating and for removing vertices add up; one more is for the other resources. */
  lemma RemovalCalls(s: State, i: Input, calls: int, more: nat, ok: bool, removed: set<string>)
    requires PatchCalls(calls, true, Missing(s, i), Missing(s, i)) && EachCalled(more, ok, removed, Stale(s, i))
    ensures WithoutStale(s, i, removed) == SyncedAmong(s, i, Missing(s, i) + removed)
    ensures var touched := Missing(s, i) + removed;
            if ok
            then SyncCalls(calls + more + 1, true, touched, Missing(s, i), Stale(s, i))
                 && SyncCalls(calls + more + 1, false, touched, Missing(s, i), Stale(s, i))
            else SyncCalls(calls + more, false, touched, Missing(s, i), Stale(s, i))
  {
    assert |Missing(s, i) + removed| == |Missing(s, i)| + |removed|;
  }

  lemma RemoveNone(s: State, i: Input)
    ensures WithoutStale(s, i, {}) == SyncedAmong(s, i, Missing(s, i))
    ensures Stale(s.(vertices := WithoutStale(s, i, {})), i) == Stale(s, i)
  {
    assert Missing(s, i) + {} == Missing(s, i);
  }

  lemma TouchNone(s: State, i: Input)
    ensures SyncedAmong(s, i, {}) == s.vertices
  {}

  lemma RemoveAll(s: State, i: Input)
    ensures WithoutStale(s, i, Stale(s, i)) == Synced(s, i).vertices
  {}

  lemma PauseNone(vs: Vertices, sourcesOnly: bool)
    ensures PausedAmong(vs, sourcesOnly, {}) == vs && ToPause(vs, sourcesOnly) - vs.Keys == {}
    ensures ToPause(vs, sourcesOnly) - {} == ToPause(vs, sourcesOnly)
    ensures PausedAmong(vs, sourcesOnly, ToPause(vs, sourcesOnly)) == WithPaused(vs, sourcesOnly)
  {}

  /** The next vertex is as it was; if it needs a patch, it is one more that gets it. */
  lemma PauseOne(vs: Vertices, sourcesOnly: bool, done: set<string>, n: string)
    requires n in vs
    ensures var ws := PausedAmong(vs, sourcesOnly, done);
            && n in ws && ws[n].isSource == vs[n].isSource && (n !in done ==> ws[n] == vs[n])
            && (n in ToPause(vs, sourcesOnly) <==> (!sourcesOnly || vs[n].isSource) && !vs[n].paused)
            && (n in ToPause(vs, sourcesOnly) - done ==>
                  PausedAmong(vs, sourcesOnly, done + {n}) == ws[n := ws[n].(paused := true)])
  {}

  lemma ResumeNone(vs: Vertices, slow: bool)
    ensures ResumedAmong(vs, slow, {}) == vs && ToResume(vs) - vs.Keys == {} && ToResume(vs) - {} == ToResume(vs)
    ensures ResumedAmong(vs, slow, ToResume(vs)) == WithResumed(vs, slow)
  {}

  lemma ResumeOne(vs: Vertices, slow: bool, done: set<string>, n: string)
    requires n in vs
    ensures var ws := ResumedAmong(vs, slow, done);
            && n in ws && (n !in done ==> ws[n] == vs[n]) && (n in ToResume(vs) <==> vs[n].paused)
            && (n in ToResume(vs) - done ==>
                  ResumedAmong(vs, slow, done + {n}) ==
                  ws[n := ws[n].(paused := false, replicas := if slow then None else ws[n].replicas)])
  {}

  lemma PatchedPartly(b: State, i: Input, failure: Option<Failure>, calls: int)
    requires ActCalls(b, i, failure, calls)
    ensures failure.Some? && failure.value.AtVertices? ==> Partly(failure.value.done, ToPatch(b, i))
  {}

  lemma SyncedCalls(s: State, i: Input, touched: set<string>)
    requires touched == Missing(s, i) + Stale(s, i)
    ensures 3 + |touched| == CallsBefore(s, i)
  {}

  class Reconciler {
    var phase: Phase
    var drained: bool
    var pausedAt: Option<int>
    var vertices: Vertices
    const cluster: Cluster

    /** No call of this controller failed since call number `from`. */
    ghost predicate Answered(from: nat)
      reads this, cluster
    {
      from <= cluster.calls && cluster.Answers(from, cluster.calls)
    }

    function Recorded(): State
      reads this
    {
      State(phase, drained, pausedAt, vertices)
    }

    constructor (s: State, cluster: Cluster)
      ensures Recorded() == s && this.cluster == cluster
    {
      this.cluster := cluster;
      phase, drained, pausedAt, vertices := s.phase, s.drained, s.pausedAt, s.vertices;
    }

    /** `updateVerticeDesiredPhase` towards paused: lists the vertices and patches the matching ones that need it, in
        any order, up to the first call that fails. The vertices in `done`, and no others, were paused by it. */
    method PauseVertices(sourcesOnly: bool) returns (ok: bool, done: set<string>)
      modifies this`vertices, cluster
      ensures cluster.Ended(old(cluster.calls), cluster.calls, ok)
      ensures PatchCalls(cluster.calls - old(cluster.calls), ok, done, ToPause(old(vertices), sourcesOnly))
      ensures vertices == PausedAmong(old(vertices), sourcesOnly, done)
      ensures ok ==> vertices == WithPaused(old(vertices), sourcesOnly)
    {
      hide PausedAmong, ToPause, WithPaused, Cluster.Ended;
      ghost var start, first := vertices, cluster.calls;
      PauseNone(start, sourcesOnly);
      done := {};
      ok := cluster.Call();
      if !ok {
        return;
      }
      var todo := vertices.Keys;
      while todo != {}
        invariant todo <= start.Keys && done == ToPause(start, sourcesOnly) - todo
        invariant vertices == PausedAmong(start, sourcesOnly, done)
        invariant cluster.calls == first + 1 + |done| && cluster.Ended(first, cluster.calls, true)
        decreases todo
      {
        var n :| n in todo;
        PauseOne(start, sourcesOnly, done, n);
        if (!sourcesOnly || vertices[n].isSource) && !vertices[n].paused {
          ghost var before := cluster.calls;
          ok := cluster.Call();
          EndedTwice(cluster, first, before, cluster.calls, ok);
          if !ok {
            return;
          }
          vertices := vertices[n := vertices[n].(paused := true)];
          done := done + {n};
        }
        todo := todo - {n};
      }
      ok := true;
    }

    /** `vertexResumeHandler`, likewise. */
    method ResumeVertices(slow: bool) returns (ok: bool, done: set<string>)
      modifies this`vertices, cluster
      ensures cluster.Ended(old(cluster.calls), cluster.calls, ok)
      ensures PatchCalls(cluster.calls - old(cluster.calls), ok, done, ToResume(old(vertices)))
      ensures vertices == ResumedAmong(old(vertices), slow, done)
      ensures ok ==> vertices == WithResumed(old(vertices), slow)
    {
      hide ResumedAmong, ToResume, WithResumed, Cluster.Ended;
      ghost var start, first := vertices, cluster.calls;
      ResumeNone(start, slow);
      done := {};
      ok := cluster.Call();
      if !ok {
        return;
      }
      var todo := vertices.Keys;
      while todo != {}
        invariant todo <= start.Keys && done == ToResume(start) - todo
        invariant vertices == ResumedAmong(start, slow, done)
        invariant cluster.calls == first + 1 + |done| && cluster.Ended(first, cluster.calls, true)
        decreases todo
      {
        var n :| n in todo;
        ResumeOne(start, slow, done, n);
        var v := vertices[n];
        if v.paused {
          ghost var before := cluster.calls;
          ok := cluster.Call();
          EndedTwice(cluster, first, before, cluster.calls, ok);
          if !ok {
            return;
          }
          vertices := vertices[n := v.(paused := false, replicas := if slow then None else v.replicas)];
          done := done + {n};
        }
        todo := todo - {n};
      }
      ok := true;
    }

    /** `pausePipeline`. */
    method PausePipeline(i: Input) returns (failure: Option<Failure>)
      requires phase != Paused
      modifies this, cluster
      ensures cluster.Ended(old(cluster.calls), cluster.calls, failure.None?)
      ensures ActCalls(old(Recorded()), i.(wantPaused := true), failure, cluster.calls - old(cluster.calls))
      ensures failure.None? && old(pausedAt).Some? && Expired(old(pausedAt).value, i) ==>
                phase == Paused && AllPaused(vertices)
      ensures failure.None? ==> Recorded() == PausePass(old(Recorded()), i)
      ensures failure == Some(AtAnnotation) ==>
                && old(pausedAt).None?
                && Recorded() == old(Recorded()).(phase := Pausing, vertices := WithPaused(old(vertices), true))
      ensures failure.Some? && failure.value.AtVertices? ==>
                && (old(pausedAt).Some? ==> Expired(old(pausedAt).value, i) || DrainSeen(i))
                && Recorded() == old(Recorded()).(phase := Pausing,
                     vertices := PausedAmong(old(vertices), old(pausedAt).None?, failure.value.done))
      ensures failure.Some? ==> failure.value.AtAnnotation? || failure.value.AtVertices?
    {
      hide PausedAmong, WithPaused, ToPause, AllPaused, Cluster.Ended;
      ghost var first := cluster.calls;
      PausedAll(vertices);
      NoCalls(cluster, first);
      var stored := phase;
      phase := Pausing;
      if pausedAt.None? {
        var ok, done := PauseVertices(true);
        if !ok {
          return Some(AtVertices(done));
        }
        ghost var answered := cluster.calls;
        ok := cluster.Call();
        EndedTwice(cluster, first, answered, cluster.calls, ok);
        if !ok {
          return Some(AtAnnotation);
        }
        pausedAt := Some(i.now / SECOND);
        if i.refresh {
          phase := stored;
        }
        return None;
      }
      var drainCompleted := false;
      if i.pods.NoneLeft? {
        drainCompleted := i.drain.Drained?;
      }
      if i.later > (pausedAt.value + i.grace) * SECOND || drainCompleted {
        var ok, done := PauseVertices(false);
        if !ok {
          return Some(AtVertices(done));
        }
        if drainCompleted {
          drained := true;
        }
        phase := Paused;
      }
      failure := None;
    }

    /** `resumePipeline`. A failure after the annotation is gone leaves it gone, and the phase as it was. */
    method ResumePipeline(i: Input) returns (failure: Option<Failure>)
      modifies this, cluster
      ensures cluster.Ended(old(cluster.calls), cluster.calls, failure.None?)
      ensures ActCalls(old(Recorded()), i.(wantPaused := false), failure, cluster.calls - old(cluster.calls))
      ensures failure.None? ==> Recorded() == ResumePass(old(Recorded()), i)
      ensures failure == Some(AtAnnotation) ==> old(pausedAt).Some? && Recorded() == old(Recorded())
      ensures failure.Some? && failure.value.AtVertices? ==>
                Recorded() == old(Recorded()).(pausedAt := None,
                                               vertices := ResumedAmong(old(vertices), i.slow, failure.value.done))
      ensures failure.Some? ==> failure.value.AtAnnotation? || failure.value.AtVertices?
    {
      if pausedAt.Some? {
        var ok := cluster.Call();
        if !ok {
          return Some(AtAnnotation);
        }
        pausedAt := None;
      }
      var ok, done := ResumeVertices(i.slow);
      if !ok {
        return Some(AtVertices(done));
      }
      drained := false;
      phase := Running;
      failure := None;
    }

    /** The vertices' part of `reconcileFixedResources`: creates what is missing, then removes what is stale, up to the
        first call that fails. The vertices in `touched`, and no others, were created or removed. */
    method SyncVertices(i: Input) returns (ok: bool, touched: set<string>)
      modifies this`vertices, cluster
      ensures cluster.Ended(old(cluster.calls), cluster.calls, ok)
      ensures var before := old(Recorded());
              SyncCalls(cluster.calls - old(cluster.calls), ok, touched, Missing(before, i), Stale(before, i))
      ensures vertices == SyncedAmong(old(Recorded()), i, touched)
      ensures ok ==> vertices == Synced(old(Recorded()), i).vertices
    {
      hide SyncedAmong, WithoutStale, LifecycleChange, Missing, Stale, PatchCalls, SyncCalls, EachCalled;
      ghost var start, first := Recorded(), cluster.calls;
      ok, touched := CreateMissing(i);
      if !ok {
        CreationCalls(start, i, cluster.calls - first, touched);
        return;
      }
      ghost var second := cluster.calls;
      var removed;
      ok, removed := RemoveStale(start, i);
      touched := touched + removed;
      RemovalCalls(start, i, second - first, cluster.calls - second, ok, removed);
      if !ok {
        return;
      }
      RemoveAll(start, i);
      ok := cluster.Call();
    }

    /** The first half: lists the vertices and creates those that are missing. */
    method CreateMissing(i: Input) returns (ok: bool, created: set<string>)
      modifies this`vertices, cluster
      ensures cluster.Ended(old(cluster.calls), cluster.calls, ok)
      ensures ok ==> created == Missing(old(Recorded()), i)
      ensures PatchCalls(cluster.calls - old(cluster.calls), ok, created, Missing(old(Recorded()), i))
      ensures vertices == SyncedAmong(old(Recorded()), i, created)
    {
      hide SyncedAmong, Cluster.Ended, LifecycleChange, Missing, Stale, Through, EachCalled, PatchCalls;
      ghost var start, first := Recorded(), cluster.calls;
      TouchNone(start, i);
      ThroughStart(Missing(start, i));
      Listed(0, false, {}, Missing(start, i));
      created := {};
      ok := cluster.Call();
      if !ok {
        return;
      }
      var missing, change := Missing(Recorded(), i), LifecycleChange(Recorded(), i);
      while missing != {}
        invariant Through(Missing(start, i), missing, created, cluster.calls - first - 1)
        invariant vertices == SyncedAmong(start, i, created) && cluster.Ended(first, cluster.calls, true)
        decreases missing
      {
        var n :| n in missing;
        ThroughStep(Missing(start, i), missing, created, cluster.calls - first - 1, n);
        Listed(cluster.calls - first, false, created, Missing(start, i));
        ghost var before := cluster.calls;
        ok := cluster.Call();
        EndedTwice(cluster, first, before, cluster.calls, ok);
        if !ok {
          return;
        }
        CreateOne(start, i, created, n);
        var replicas := if change then 0 else i.spec[n].replicas;
        vertices := vertices[n := Vertex(i.spec[n].isSource, i.wantPaused, Some(replicas))];
        missing, created := missing - {n}, created + {n};
      }
      ThroughEnd(Missing(start, i), created, cluster.calls - first - 1);
      Listed(cluster.calls - first - 1, true, created, Missing(start, i));
      ok := true;
    }

    /** The second half: removes the vertices that are not specified any more. */
    method RemoveStale(ghost start: State, i: Input) returns (ok: bool, removed: set<string>)
      requires Recorded() == start.(vertices := vertices)
      requires vertices == SyncedAmong(start, i, Missing(start, i))
      modifies this`vertices, cluster
      ensures cluster.Ended(old(cluster.calls), cluster.calls, ok)
      ensures ok ==> removed == Stale(start, i)
      ensures EachCalled(cluster.calls - old(cluster.calls), ok, removed, Stale(start, i))
      ensures vertices == WithoutStale(start, i, removed)
    {
      hide SyncedAmong, WithoutStale, Cluster.Ended, Missing, Stale, Through, EachCalled;
      ghost var first := cluster.calls;
      NoCalls(cluster, first);
      RemoveNone(start, i);
      removed := {};
      ThroughStart(Stale(start, i));
      var stale := Stale(Recorded(), i);
      while stale != {}
        invariant Through(Stale(start, i), stale, removed, cluster.calls - first)
        invariant vertices == WithoutStale(start, i, removed)
        invariant cluster.Ended(first, cluster.calls, true)
        decreases stale
      {
        var n :| n in stale;
        RemoveOne(start, i, removed, n);
        ThroughStep(Stale(start, i), stale, removed, cluster.calls - first, n);
        ghost var before := cluster.calls;
        ok := cluster.Call();
        EndedTwice(cluster, first, before, cluster.calls, ok);
        if !ok {
          return;
        }
        vertices := vertices - {n};
        stale, removed := stale - {n}, removed + {n};
      }
      ThroughEnd(Stale(start, i), removed, cluster.calls - first);
      ok := true;
    }

    /** `reconcile`, wherever it ends: a pass without errors does exactly what `Pass` says, a failed one exactly what
        `FailedPass` says. It fails exactly if the specification is not valid or a call failed, and then makes no
        further call; failing to learn about source pods or buffers is no failure of the pass. */
    method Reconcile(i: Input, valid: bool) returns (failure: Option<Failure>)
      modifies this, cluster
      ensures failure == Some(Invalid) <==> !valid
      ensures if valid then cluster.Ended(old(cluster.calls), cluster.calls, failure.None?)
              else cluster.calls == old(cluster.calls)
      ensures PassCalls(old(Recorded()), i, failure, cluster.calls - old(cluster.calls))
      ensures failure.None? ==> Recorded() == Pass(old(Recorded()), i)
      ensures failure.Some? ==>
                && CanFail(old(Recorded()), i, failure.value)
                && Recorded() == FailedPass(old(Recorded()), i, failure.value)
    {
      hide SyncedAmong, PausedAmong, ResumedAmong, PausePass, ResumePass, Adopted, ActCalls, CallsBefore, SyncCalls,
           CreatedFirst, Partly, ToPatch;
      if !valid {
        phase := Failed;
        return Some(Invalid);
      }
      failure := Adopt(i);
      if failure.Some? {
        return;
      }
      ghost var b, before := Recorded(), cluster.calls;
      if LifecycleChange(Recorded(), i) && (phase != DesiredPhase(i) || StrandedPause(Recorded(), i)) {
        if i.wantPaused {
          failure := PausePipeline(i);
        } else {
          failure := ResumePipeline(i);
        }
        PatchedPartly(b, i, failure, cluster.calls - before);
      }
    }

    /** The part of `reconcile` before the pause or resume. */
    method Adopt(i: Input) returns (failure: Option<Failure>)
      modifies this, cluster
      ensures cluster.Ended(old(cluster.calls), cluster.calls, failure.None?)
      ensures failure.None? ==> cluster.calls - old(cluster.calls) == CallsBefore(old(Recorded()), i)
      ensures failure.Some? ==>
                && (failure.value.AtResources? || failure.value.AtChildren?)
                && PassCalls(old(Recorded()), i, failure, cluster.calls - old(cluster.calls))
                && CanFail(old(Recorded()), i, failure.value)
      ensures Recorded() == if failure.None? then Adopted(old(Recorded()), i)
                            else FailedPass(old(Recorded()), i, failure.value)
    {
      hide SyncedAmong, Missing, Stale, PausedAmong, ResumedAmong, ToPatch, Acts;
      ghost var start := Recorded();
      var ok, touched := SyncVertices(i);
      if !ok {
        phase := Failed;
        return Some(AtResources(touched));
      }
      SyncedCalls(start, i, touched);
      if !LifecycleChange(Recorded(), i) {
        phase := DesiredPhase(i);
      }
      ok := cluster.Call();
      failure := if ok then None else Some(AtChildren);
    }

    /** `Reconcile` of the controller: a pass on a copy of the object, whose status is then written, if it can be. It
        succeeds exactly if the specification is valid and no call failed; then, once the grace period of a pause is
        over, it ends Paused, whatever was answered about pods and buffers. */
    method ReconcileAndSave(i: Input, valid: bool) returns (p: Tried)
      modifies this, cluster
      ensures old(cluster.calls) <= cluster.calls && (Succeeded(p) <==> valid && Answered(old(cluster.calls)))
      ensures old(cluster.calls) < cluster.calls && (p.saved <==> !cluster.fails(cluster.calls - 1))
      ensures valid ==> cluster.Ended(old(cluster.calls), cluster.calls - 1, p.failure.None?)
      ensures p.failure == Some(Invalid) <==> !valid
      ensures PassCalls(old(Recorded()), i, p.failure, cluster.calls - 1 - old(cluster.calls))
      ensures p.input == i && Possible(old(Recorded()), p) && Recorded() == Step(old(Recorded()), p)
      ensures valid && Answered(old(cluster.calls)) && i.wantPaused && old(pausedAt).Some?
              && PauseBegun(old(Recorded()), old(pausedAt).value) && Expired(old(pausedAt).value, i) ==>
                phase == Paused && AllPaused(vertices)
    {
      hide Pass, FailedPass, CanFail, AllPaused, PauseBegun, PassCalls;
      ghost var before := Recorded();
      var storedPhase, storedDrained := phase, drained;
      var failure := Reconcile(i, valid);
      var saved := cluster.Call();
      if !saved {
        phase, drained := storedPhase, storedDrained;
      }
      p := Tried(i, failure, saved);
      if i.wantPaused && before.pausedAt.Some? && PauseBegun(before, before.pausedAt.value) {
        PauseGoesOn(before, p, before.pausedAt.value);
      }
    }
  }

  // ----- two runs of the controller -----

  /** The cluster of these runs fails one call. */
  predicate SeventhFails(k: nat) { k == 6 }

  lemma FailsHalfway(i: Input, failure: Option<Failure>, calls: int) returns (n: string)
    requires !i.wantPaused && i.spec.Keys == {"in", "out"} && failure != Some(Invalid)
    requires PassCalls(TWO_PAUSED, i, failure, calls) && if failure.None? then calls <= 6 else calls == 7
    ensures n in i.spec && failure == Some(AtVertices({n}))
  {
    AdoptedSame(TWO_PAUSED, i);
    assert ToResume(TWO_PAUSED.vertices) == {"in", "out"} == i.spec.Keys;
    assert Missing(TWO_PAUSED, i) == {} && Stale(TWO_PAUSED, i) == {};
    assert CallsBefore(TWO_PAUSED, i) == 3;
    hide Adopted, ToResume, Missing, Stale;
    n := Only(failure.value.done);
  }

  lemma Only(names: set<string>) returns (n: string)
    requires |names| == 1
    ensures names == {n}
  {
    n :| n in names;
    assert names == (names - {n}) + {n} && |names - {n}| == 0;
  }

  /** A resume of two paused vertices whose second patch fails: exactly one of them is resumed, whichever was listed
      first. */
  method BreakResume(i: Input) returns (r: Reconciler, ghost n: string)
    requires !i.wantPaused && i.spec.Keys == {"in", "out"}
    ensures fresh(r) && fresh(r.cluster) && r.cluster.fails == SeventhFails && r.cluster.calls > 6
    ensures n in i.spec && r.Recorded() == FailedPass(TWO_PAUSED, i, AtVertices({n}))
  {
    hide PassCalls, Pass, FailedPass, CanFail;
    var cluster := new Cluster(SeventhFails);
    r := new Reconciler(TWO_PAUSED, cluster);
    var p := r.ReconcileAndSave(i, true);
    assert cluster.fails(6) && (cluster.calls > 1 && cluster.fails(cluster.calls - 2) ==> cluster.calls == 8);
    n := FailsHalfway(i, p.failure, cluster.calls - 1);
  }

  /** Followed by any number of passes that want it paused, all their calls answered: the pipeline is recorded as paused
      with a vertex running. */
  method BreakThenPause(i: Input, again: seq<Input>) returns (r: Reconciler, ghost n: string)
    requires !i.wantPaused && i.spec.Keys == {"in", "out"}
    requires forall k | 0 <= k < |again| :: again[k].wantPaused && again[k].spec.Keys == i.spec.Keys
    ensures r.phase.Paused? && n in r.vertices && !r.vertices[n].paused
  {
    hide Step, PassCalls, HalfResumed, FailedPass, CanFail;
    r, n := BreakResume(i);
    ghost var t := r.Recorded();
    HalfResumedTwo(i, n);
    for k := 0 to |again|
      invariant fresh(r) && fresh(r.cluster) && r.cluster.fails == SeventhFails && r.cluster.calls > 6
      invariant r.Recorded() == t
    {
      var p := r.ReconcileAndSave(again[k], true);
      HalfResumedStep(t, p);
    }
    assert HalfResumed(t);
  }

  /** Followed by a pass that finds the specification invalid, and then by passes that want it running: the pipeline is
      reported running with a vertex paused. */
  method BreakThenRun(i: Input, again: seq<Input>) returns (r: Reconciler, ghost n: string)
    requires !i.wantPaused && i.spec.Keys == {"in", "out"} && again != []
    requires forall k | 0 <= k < |again| :: !again[k].wantPaused && again[k].spec.Keys == i.spec.Keys
    ensures r.phase.Running? && n in r.vertices && r.vertices[n].paused
  {
    hide PassCalls, Stranded, Pass, CanFail;
    ghost var m;
    r, m := BreakResume(i);
    n := Other(m);
    HalfResumedTwo(i, m);
    StrandedTwo(i, m);
    var q := r.ReconcileAndSave(i, false);
    ghost var vs := r.vertices;
    for k := 0 to |again|
      invariant fresh(r) && fresh(r.cluster) && r.cluster.fails == SeventhFails && r.cluster.calls > 6
      invariant Stranded(r.Recorded()) && r.vertices == vs && (k > 0 ==> r.phase.Running?)
    {
      hide Step, Succeeded;
      ghost var before := r.Recorded();
      var p := r.ReconcileAndSave(again[k], true);
      StrandedStep(before, p);
    }
  }
}
