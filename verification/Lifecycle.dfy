/**
 The gRPC server's resources as pure state and pure critical sections: registries of contexts, inputs and
 outputs with their ID counters, the one-shot start of a context, the end channel that both
 `CloseContext` and the pipeline goroutine may close, and `Die`, which closes none.
 */
module Lifecycle {
  import opened Wrappers
  import Runs
  import opened Conversion
  import opened Sequences

  /** A context object. `cancelFn` stands for a set cancel function; `endCloses` counts closings of its
      end channel, `starts` the calls that got past the started check, `pipelines` the goroutines
      running for it. */
  datatype Ctx = Ctx(
    inputNode: bool, outputNode: bool, cancelFn: bool, closeOnce: bool,
    endCloses: nat, starts: nat, pipelines: nat)

  const NEW_CTX := Ctx(false, false, false, false, 0, 0, 0)

  /** Context objects are numbered in order of creation; `contexts` maps registered IDs to them. The
      `issued` sequences are the IDs handed out. `crashed`: a handler panicked; nothing recovers from
      that, so it ends the process. */
  datatype Server = Server(
    objs: seq<Ctx>, contexts: map<nat, nat>, nextContext: nat,
    inputs: set<nat>, nextInput: nat, outputs: set<nat>, nextOutput: nat,
    issuedContexts: seq<nat>, issuedInputs: seq<nat>, issuedOutputs: seq<nat>,
    crashed: bool)

  const INITIAL := Server([], map[], 0, {}, 0, {}, 0, [], [], [], false)

  // ---------------------------------------------------------------- Context.Close

  function CloseCtx(c: Ctx): Ctx {
    if c.closeOnce then c else c.(closeOnce := true, endCloses := c.endCloses + 1)
  }

  // ---------------------------------------------------------------- StartRecoding

  datatype Outcome =
    | NoContext | AlreadyStarted | NoInput | NoOutput   // refused before anything changes
    | Rejected                                          // refused for its configuration, the context marked
    | Panicked                                          // the conversion of the configuration panics
    | Started

  /** videoQualityToCodecQuality and audioQualityToCodecQuality */
  predicate ConvertibleQuality(media: Media, q: Quality) {
    match q
    case NilQuality => true
    case ConstantBitrate(_) => true
    case ConstantQuality(_) => media == VideoTrack
    case OtherQuality => false
  }

  predicate BadTracks(media: Media, tracks: seq<TrackConfig>) {
    |tracks| > 1 || (|tracks| == 1 && !ConvertibleQuality(media, tracks[0].config.quality))
  }

  /** What the optional encoder configuration of the request leads to. */
  function Verdict(config: Option<ConfigMsg>): Outcome {
    if config.None? then Started
    else match FromMsg(config.value)
      case None => Panicked
      case Some((cfg, isEnabled)) =>
        if isEnabled && (BadTracks(VideoTrack, cfg.video) || BadTracks(AudioTrack, cfg.audio)) then Rejected
        else Started
  }

  /** The quality checks never fire: a configuration is rejected exactly for asking for more than one
      track of a media type. */
  lemma RejectedExactlyWhen(config: Option<ConfigMsg>)
    ensures Verdict(config) == Rejected <==>
              && config.Some? && FromMsg(config.value).Some? && config.value.enable
              && (|config.value.video| > 1 || |config.value.audio| > 1)
  {
    if config.Some? && FromMsg(config.value).Some? {
      var m, cfg := config.value, FromMsg(config.value).value.0;
      if |m.video| == 1 {
        assert TrackFromMsg(VideoTrack, m.video[0]) == Some(cfg.video[0]);
      }
      if |m.audio| == 1 {
        assert TrackFromMsg(AudioTrack, m.audio[0]) == Some(cfg.audio[0]);
      }
    }
  }

  function StartOutcome(s: Server, contextID: nat, inputID: nat, outputID: nat, config: Option<ConfigMsg>): Outcome {
    if contextID !in s.contexts || s.contexts[contextID] >= |s.objs| then NoContext
    else if s.objs[s.contexts[contextID]].cancelFn then AlreadyStarted
    else if inputID !in s.inputs then NoInput
    else if outputID !in s.outputs then NoOutput
    else Verdict(config)
  }

  predicate Consumed(out: Outcome) {
    out.Rejected? || out.Panicked? || out.Started?
  }

  function StartCtx(c: Ctx, out: Outcome): Ctx {
    if !Consumed(out) then c
    else c.(cancelFn := true, inputNode := true, outputNode := true, starts := c.starts + 1,
            pipelines := if out.Started? then c.pipelines + 1 else c.pipelines)
  }

  // ---------------------------------------------------------------- the critical sections

  function DoNewContext(s: Server): Server {
    var id := s.nextContext + 1;
    s.(objs := s.objs + [NEW_CTX], contexts := s.contexts[id := |s.objs|], nextContext := id,
       issuedContexts := s.issuedContexts + [id])
  }

  function DoCloseContext(s: Server, id: nat): Server {
    if id !in s.contexts || s.contexts[id] >= |s.objs| then s
    else
      var o := s.contexts[id];
      s.(objs := s.objs[o := CloseCtx(s.objs[o])], contexts := s.contexts - {id})
  }

  function DoStartRecoding(s: Server, contextID: nat, inputID: nat, outputID: nat, config: Option<ConfigMsg>): Server {
    var out := StartOutcome(s, contextID, inputID, outputID, config);
    if !Consumed(out) then s
    else
      var o := s.contexts[contextID];
      s.(objs := s.objs[o := StartCtx(s.objs[o], out)], crashed := s.crashed || out.Panicked?)
  }

  /** The pipeline goroutine of context object `o` ends: its deferred calls close the end channel. */
  function DoPipelineEnds(s: Server, o: nat): Option<Server> {
    if o >= |s.objs| || s.objs[o].pipelines == 0 then None
    else Some(s.(objs := s.objs[o := CloseCtx(s.objs[o]).(pipelines := s.objs[o].pipelines - 1)]))
  }

  /** `reachable` tells whether the library could open the URL. */
  function DoNewInput(s: Server, reachable: bool): Server {
    var id := s.nextInput + 1;
    if !reachable then s
    else s.(inputs := s.inputs + {id}, nextInput := id, issuedInputs := s.issuedInputs + [id])
  }

  function DoNewOutput(s: Server, reachable: bool): Server {
    var id := s.nextOutput + 1;
    if !reachable then s
    else s.(outputs := s.outputs + {id}, nextOutput := id, issuedOutputs := s.issuedOutputs + [id])
  }

  /** RecodingEndedChan gets hold of the context to wait on its end channel; for an unknown ID that
      dereferences a nil context. */
  function DoAwaitEnd(s: Server, id: nat): Server {
    s.(crashed := s.crashed || id !in s.contexts)
  }

  /** The order in which a Go map is ranged over. */
  predicate IsOrder(order: seq<nat>, keys: set<nat>) {
    && (set id | id in order) == keys
    && (forall i, j :: 0 <= i < j < |order| ==> order[i] != order[j])
  }

  /** The loop of `Die` over the contexts: each is cancelled, loses its cancel function and is
      unregistered, without being closed. Calling a nil cancel function panics. */
  function DieLoop(s: Server, order: seq<nat>): Server {
    if order == [] then s
    else
      var before, id := DieLoop(s, order[..|order| - 1]), order[|order| - 1];
      if before.crashed || id !in before.contexts || before.contexts[id] >= |before.objs| then before
      else DieOne(before, id)
  }

  function DieOne(s: Server, id: nat): Server
    requires id in s.contexts && s.contexts[id] < |s.objs|
  {
    var o := s.contexts[id];
    if !s.objs[o].cancelFn then s.(crashed := true)
    else s.(objs := s.objs[o := s.objs[o].(cancelFn := false)], contexts := s.contexts - {id})
  }

  /** Die: after the contexts it closes the inputs, and then the inputs again instead of the outputs. */
  function DoDie(s: Server, order: seq<nat>): Server {
    var s' := DieLoop(s, order);
    if s'.crashed then s' else s'.(inputs := {})
  }

  datatype Act =
    | NewContext | CloseContext(id: nat)
    | StartRecoding(contextID: nat, inputID: nat, outputID: nat, config: Option<ConfigMsg>)
    | PipelineEnds(o: nat)
    | NewInput(reachable: bool) | CloseInput(inputID: nat)
    | NewOutput(reachable: bool) | CloseOutput(outputID: nat)
    | Die(order: seq<nat>) | AwaitEnd(id: nat)

  /** One step; `None` when it is not enabled. */
  function Next(s: Server, a: Act): Option<Server> {
    if s.crashed then None else
    match a
    case NewContext => Some(DoNewContext(s))
    case CloseContext(id) => Some(DoCloseContext(s, id))
    case StartRecoding(c, i, o, config) => Some(DoStartRecoding(s, c, i, o, config))
    case PipelineEnds(o) => DoPipelineEnds(s, o)
    case NewInput(reachable) => Some(DoNewInput(s, reachable))
    case CloseInput(id) => Some(s.(inputs := s.inputs - {id}))
    case NewOutput(reachable) => Some(DoNewOutput(s, reachable))
    case CloseOutput(id) => Some(s.(outputs := s.outputs - {id}))
    case AwaitEnd(id) => Some(DoAwaitEnd(s, id))
    case Die(order) => if IsOrder(order, s.contexts.Keys) then Some(DoDie(s, order)) else None
  }

  function Exec(acts: seq<Act>): Option<Server> {
    Runs.Exec(Next, INITIAL, acts)
  }

  // ---------------------------------------------------------------- the invariant

  /** One context object: started at most once, its nodes set exactly then, its cancel function too
      while it is registered; its end channel closed at most once, and an unregistered context whose end
      channel is open has lost its cancel function to `Die`. */
  predicate CtxInv(c: Ctx, registered: bool) {
    && c.starts <= 1
    && (c.cancelFn ==> c.starts == 1)
    && (registered && c.starts == 1 ==> c.cancelFn)
    && c.inputNode == c.outputNode == (c.starts == 1)
    && c.endCloses == (if c.closeOnce then 1 else 0)
    && c.pipelines <= c.starts
    && (!registered && c.endCloses == 0 ==> c.starts == 1 && !c.cancelFn)
  }

  predicate CountingUp(ids: seq<nat>, next: nat) {
    |ids| == next && forall i :: 0 <= i < |ids| ==> ids[i] == i + 1
  }

  /** Context object `o` was created for ID `o + 1`. */
  predicate Inv(s: Server) {
    && CountingUp(s.issuedContexts, s.nextContext)
    && CountingUp(s.issuedInputs, s.nextInput)
    && CountingUp(s.issuedOutputs, s.nextOutput)
    && |s.objs| == s.nextContext
    && (forall id :: id in s.contexts ==> 1 <= id <= |s.objs| && s.contexts[id] == id - 1)
    && (forall id :: id in s.inputs ==> 1 <= id <= s.nextInput)
    && (forall id :: id in s.outputs ==> 1 <= id <= s.nextOutput)
    && (forall o :: 0 <= o < |s.objs| ==> CtxInv(s.objs[o], o + 1 in s.contexts))
  }

  lemma StartKeepsCtx(c: Ctx, out: Outcome, registered: bool)
    requires CtxInv(c, registered) && (Consumed(out) ==> registered && !c.cancelFn)
    ensures CtxInv(StartCtx(c, out), registered)
  {
  }

  /** Changing one object, and perhaps unregistering it. */
  lemma ObjectKeepsInv(s: Server, o: nat, c: Ctx, ids: set<nat>)
    requires Inv(s) && o < |s.objs| && ids <= {o + 1}
    requires CtxInv(c, o + 1 in s.contexts - ids)
    ensures Inv(s.(objs := s.objs[o := c], contexts := s.contexts - ids))
  {
  }

  lemma NewContextKeepsInv(s: Server)
    requires Inv(s)
    ensures Inv(DoNewContext(s))
  {
  }

  lemma StreamsKeepInv(s: Server, reachable: bool, id: nat)
    requires Inv(s)
    ensures Inv(DoNewInput(s, reachable)) && Inv(s.(inputs := s.inputs - {id}))
    ensures Inv(DoNewOutput(s, reachable)) && Inv(s.(outputs := s.outputs - {id}))
  {
  }

  lemma CloseContextKeepsInv(s: Server, id: nat)
    requires Inv(s)
    ensures Inv(DoCloseContext(s, id))
  {
    if id in s.contexts {
      assert CtxInv(s.objs[id - 1], id in s.contexts);
      ObjectKeepsInv(s, id - 1, CloseCtx(s.objs[id - 1]), {id});
    }
  }

  lemma StartKeepsInv(s: Server, id: nat, i: nat, o: nat, config: Option<ConfigMsg>)
    requires Inv(s)
    ensures Inv(DoStartRecoding(s, id, i, o, config))
  {
    var out := StartOutcome(s, id, i, o, config);
    if Consumed(out) {
      StartKeepsCtx(s.objs[id - 1], out, id in s.contexts);
      ObjectKeepsInv(s, id - 1, StartCtx(s.objs[id - 1], out), {});
      assert s.contexts - {} == s.contexts;
      assert Inv(s.(objs := s.objs[id - 1 := StartCtx(s.objs[id - 1], out)]));
    }
  }

  lemma PipelineEndsKeepsInv(s: Server, o: nat)
    requires Inv(s) && DoPipelineEnds(s, o).Some?
    ensures Inv(DoPipelineEnds(s, o).value)
  {
    assert CtxInv(s.objs[o], o + 1 in s.contexts);
    ObjectKeepsInv(s, o, CloseCtx(s.objs[o]).(pipelines := s.objs[o].pipelines - 1), {});
    assert s.contexts - {} == s.contexts;
  }

  lemma DieOneKeepsInv(s: Server, id: nat)
    requires Inv(s) && id in s.contexts
    ensures Inv(DieOne(s, id))
  {
    var o := id - 1;
    assert CtxInv(s.objs[o], id in s.contexts);
    if s.objs[o].cancelFn {
      ObjectKeepsInv(s, o, s.objs[o].(cancelFn := false), {id});
    }
  }

  lemma DieLoopStep(s: Server, order: seq<nat>, i: nat)
    requires i < |order| && !DieLoop(s, order[..i]).crashed
    requires var before := DieLoop(s, order[..i]);
      order[i] in before.contexts && before.contexts[order[i]] < |before.objs|
    ensures DieLoop(s, order[..i + 1]) == DieOne(DieLoop(s, order[..i]), order[i])
  {
    assert order[..i + 1][..i] == order[..i];
  }

  lemma {:induction false} DieKeepsInv(s: Server, order: seq<nat>)
    requires Inv(s)
    ensures Inv(DieLoop(s, order)) && Inv(DoDie(s, order))
  {
    if order != [] {
      DieKeepsInv(s, order[..|order| - 1]);
      var before, id := DieLoop(s, order[..|order| - 1]), order[|order| - 1];
      if id in before.contexts {
        DieOneKeepsInv(before, id);
      }
    }
  }

  lemma StepKeepsInv(s: Server, a: Act)
    requires Inv(s) && Next(s, a).Some?
    ensures Inv(Next(s, a).value)
  {
    match a
    case NewContext => NewContextKeepsInv(s);
    case CloseContext(id) => CloseContextKeepsInv(s, id);
    case StartRecoding(id, i, o, config) => StartKeepsInv(s, id, i, o, config);
    case PipelineEnds(o) => PipelineEndsKeepsInv(s, o);
    case NewInput(reachable) => StreamsKeepInv(s, reachable, 0);
    case CloseInput(id) => StreamsKeepInv(s, false, id);
    case NewOutput(reachable) => StreamsKeepInv(s, reachable, 0);
    case CloseOutput(id) => StreamsKeepInv(s, false, id);
    case AwaitEnd(_) =>
    case Die(order) => DieKeepsInv(s, order);
  }

  lemma {:induction false} ReachableInv(acts: seq<Act>)
    requires Exec(acts).Some?
    ensures Inv(Exec(acts).value)
  {
    if acts != [] {
      ReachableInv(acts[..|acts| - 1]);
      StepKeepsInv(Exec(acts[..|acts| - 1]).value, acts[|acts| - 1]);
    }
  }

  // ---------------------------------------------------------------- over whole runs

  /** IDs are never reused. */
  lemma IDsNeverReused(acts: seq<Act>, i: nat, j: nat)
    requires Exec(acts).Some? && i < j
    ensures var s := Exec(acts).value;
      && (j < |s.issuedContexts| ==> s.issuedContexts[i] != s.issuedContexts[j])
      && (j < |s.issuedInputs| ==> s.issuedInputs[i] != s.issuedInputs[j])
      && (j < |s.issuedOutputs| ==> s.issuedOutputs[i] != s.issuedOutputs[j])
      && (forall id :: id in s.contexts ==> id in s.issuedContexts)
      && (forall id :: id in s.inputs ==> id in s.issuedInputs)
      && (forall id :: id in s.outputs ==> id in s.issuedOutputs)
  {
    ReachableInv(acts);
    var s := Exec(acts).value;
    forall id | id in s.contexts ensures id in s.issuedContexts {
      assert s.issuedContexts[id - 1] == id;
    }
    forall id | id in s.inputs ensures id in s.issuedInputs {
      assert s.issuedInputs[id - 1] == id;
    }
    forall id | id in s.outputs ensures id in s.issuedOutputs {
      assert s.issuedOutputs[id - 1] == id;
    }
  }

  /** Every context in every reachable state: unconditionally at most one start, at most one closing of
      the end channel, nodes set exactly by the start, and at most one pipeline; the cancel function is
      set exactly by the start as long as the context is registered. */
  lemma ContextLifecycle(acts: seq<Act>, o: nat)
    requires Exec(acts).Some? && o < |Exec(acts).value.objs|
    ensures var s := Exec(acts).value;
      var c := s.objs[o];
      && c.starts <= 1 && c.endCloses <= 1 && c.pipelines <= c.starts
      && (c.inputNode <==> c.starts == 1) && (c.outputNode <==> c.starts == 1)
      && (o in s.contexts.Values ==> (c.cancelFn <==> c.starts == 1))
  {
    ReachableInv(acts);
    var s := Exec(acts).value;
    assert CtxInv(s.objs[o], o + 1 in s.contexts);
  }

  /** The run closed the end channel of context object `o`: its pipeline ended, or `CloseContext` found
      it registered. */
  predicate ClosedInRun(acts: seq<Act>, o: nat) {
    && acts != []
    && var front, a := acts[..|acts| - 1], acts[|acts| - 1];
    || ClosedInRun(front, o)
    || a == PipelineEnds(o)
    || (a == CloseContext(o + 1) && Exec(front).Some? && o + 1 in Exec(front).value.contexts)
  }

  /** When the end channel of a context gets closed, in every run. */
  lemma {:induction false} EndChannelClosedExactlyWhen(acts: seq<Act>, o: nat)
    requires Exec(acts).Some? && o < |Exec(acts).value.objs|
    ensures Exec(acts).value.objs[o].endCloses == 1 <==> ClosedInRun(acts, o)
  {
    var front, a := acts[..|acts| - 1], acts[|acts| - 1];
    ReachableInv(front);
    var s := Exec(front).value;
    if o < |s.objs| {
      EndChannelClosedExactlyWhen(front, o);
      StepCloses(s, a, o);
    } else {
      NotClosedBeforeMade(front, o);
      NewContextIsLast(s, a, o);
    }
  }

  lemma StepCloses(s: Server, a: Act, o: nat)
    requires Inv(s) && Next(s, a).Some? && o < |s.objs|
    ensures o < |Next(s, a).value.objs|
    ensures Next(s, a).value.objs[o].endCloses == 1
            <==> s.objs[o].endCloses == 1 || a == PipelineEnds(o) || (a == CloseContext(o + 1) && o + 1 in s.contexts)
  {
    assert CtxInv(s.objs[o], o + 1 in s.contexts);
    if a.Die? {
      DieClosesNothing(s, a.order);
    }
  }

  lemma NewContextIsLast(s: Server, a: Act, o: nat)
    requires Inv(s) && Next(s, a).Some? && |s.objs| <= o < |Next(s, a).value.objs|
    ensures a == NewContext && Next(s, a).value.objs[o].endCloses == 0
  {
    if a.Die? {
      DieClosesNothing(s, a.order);
    }
  }

  lemma {:induction false} NotClosedBeforeMade(acts: seq<Act>, o: nat)
    requires Exec(acts).Some? && o >= |Exec(acts).value.objs|
    ensures !ClosedInRun(acts, o)
  {
    if acts != [] {
      var front, a := acts[..|acts| - 1], acts[|acts| - 1];
      ReachableInv(front);
      if a.Die? {
        DieClosesNothing(Exec(front).value, a.order);
      }
      NotClosedBeforeMade(front, o);
    }
  }

  /** `Die` takes the cancel functions and nothing else from the contexts. */
  lemma {:induction false} DieClosesNothing(s: Server, order: seq<nat>)
    ensures var s' := DieLoop(s, order);
      && |s'.objs| == |s.objs| && s'.contexts.Keys <= s.contexts.Keys
      && (forall o :: 0 <= o < |s.objs| ==>
            s'.objs[o] == s.objs[o] || s'.objs[o] == s.objs[o].(cancelFn := false))
  {
    if order != [] {
      DieClosesNothing(s, order[..|order| - 1]);
    }
  }

  /** `Die` gets through exactly when every registered context was started, whatever the order of the
      map; then no context and no input is left, and the outputs are still there. */
  lemma DieCompletesExactlyWhen(acts: seq<Act>, order: seq<nat>)
    requires Exec(acts).Some? && Next(Exec(acts).value, Die(order)).Some?
    ensures var s, s' := Exec(acts).value, Next(Exec(acts).value, Die(order)).value;
      && (!s'.crashed <==> forall id :: id in s.contexts ==> 1 <= id <= |s.objs| && s.objs[id - 1].starts == 1)
      && (!s'.crashed ==> s'.contexts == map[] && s'.inputs == {} && s'.outputs == s.outputs)
  {
    ReachableInv(acts);
    var s := Exec(acts).value;
    forall id | id in s.contexts ensures Cancellable(s, id) <==> s.objs[id - 1].starts == 1 {
      assert CtxInv(s.objs[id - 1], id in s.contexts);
    }
    assert forall i :: 0 <= i < |order| ==> order[i] in s.contexts;
    DieProgress(s, order);
    var s' := DieLoop(s, order);
    if !s'.crashed {
      assert forall id :: id in s'.contexts ==> id in order;
      assert s'.contexts == map[];
    }
  }

  predicate Cancellable(s: Server, id: nat) {
    1 <= id <= |s.objs| && s.objs[id - 1].cancelFn
  }

  /** Context `id` and its registration are as before. */
  predicate Untouched(s: Server, s': Server, id: nat) {
    && 1 <= id <= |s.objs| == |s'.objs|
    && id in s'.contexts && s'.contexts[id] == id - 1 && s'.objs[id - 1] == s.objs[id - 1]
  }

  lemma {:induction false} OthersUntouched(s: Server, order: seq<nat>, id: nat)
    requires Inv(s) && id in s.contexts && id !in order
    ensures Untouched(s, DieLoop(s, order), id)
  {
    if order != [] {
      var front := order[..|order| - 1];
      OthersUntouched(s, front, id);
      DieKeepsInv(s, front);
    }
  }

  lemma {:induction false} DieProgress(s: Server, order: seq<nat>)
    requires Inv(s) && !s.crashed
    requires forall i, j :: 0 <= i < j < |order| ==> order[i] != order[j]
    requires forall i :: 0 <= i < |order| ==> order[i] in s.contexts
    ensures var s' := DieLoop(s, order);
      && s'.outputs == s.outputs
      && (!s'.crashed <==> forall i :: 0 <= i < |order| ==> Cancellable(s, order[i]))
      && (!s'.crashed ==> forall id :: id in s'.contexts ==> id in s.contexts && id !in order)
  {
    if order != [] {
      var front, id := order[..|order| - 1], order[|order| - 1];
      DieProgress(s, front);
      assert forall x :: x in order <==> x in front || x == id;
      var before := DieLoop(s, front);
      OthersUntouched(s, front, id);
      assert before.crashed || DieLoop(s, order) == DieOne(before, id);
      assert forall i :: 0 <= i < |front| ==> front[i] == order[i];
    }
  }

  /** It can panic: a context that was never started is enough. */
  lemma DiePanics() returns (acts: seq<Act>)
    ensures Exec(acts).Some? && Exec(acts).value.crashed && |acts| == 2 && acts[1] == Die([1])
  {
    acts := Runs.Then(Next, INITIAL, [], NewContext);
    var s := Exec(acts).value;
    var order := [1];
    assert order[..|order| - 1] == [];
    assert DieLoop(s, order) == DieOne(s, 1);
    assert IsOrder(order, s.contexts.Keys);
    acts := Runs.Then(Next, INITIAL, acts, Die(order));
  }

  /** Nobody ever closes the end channel of such a context. */
  predicate Stranded(s: Server, o: nat) {
    o < |s.objs| && o + 1 !in s.contexts && s.objs[o].endCloses == 0 && s.objs[o].pipelines == 0
  }

  lemma {:induction false} StrandedForever(acts: seq<Act>, more: seq<Act>, o: nat)
    requires Exec(acts).Some? && Exec(acts + more).Some? && Stranded(Exec(acts).value, o)
    ensures Stranded(Exec(acts + more).value, o)
    decreases |more|
  {
    if more == [] {
      assert acts + more == acts;
    } else {
      var front, a := more[..|more| - 1], more[|more| - 1];
      assert (acts + more)[..|acts + more| - 1] == acts + front;
      StrandedForever(acts, front, o);
      ReachableInv(acts + front);
      StrandedStep(Exec(acts + front).value, a, o);
    }
  }

  lemma StrandedStep(s: Server, a: Act, o: nat)
    requires Inv(s) && Next(s, a).Some? && Stranded(s, o)
    ensures Stranded(Next(s, a).value, o)
  {
    if a.Die? {
      DieClosesNothing(s, a.order);
    }
  }

  /** A client waiting for the end of an unregistered context can still be answered, now or later,
      exactly when the end channel is closed or the pipeline is still running. */
  lemma EndCanComeExactlyWhen(acts: seq<Act>, o: nat)
    requires Exec(acts).Some? && !Exec(acts).value.crashed
    requires o < |Exec(acts).value.objs| && o + 1 !in Exec(acts).value.contexts
    ensures (exists more :: Exec(acts + more).Some? && o < |Exec(acts + more).value.objs|
                            && Exec(acts + more).value.objs[o].endCloses == 1)
            <==> Exec(acts).value.objs[o].endCloses == 1 || Exec(acts).value.objs[o].pipelines == 1
  {
    var s := Exec(acts).value;
    ReachableInv(acts);
    assert CtxInv(s.objs[o], false);
    if s.objs[o].endCloses == 1 {
      assert acts + [] == acts;
    } else if s.objs[o].pipelines == 1 {
      var more := [PipelineEnds(o)];
      assert (acts + more)[..|acts + more| - 1] == acts;
      assert Exec(acts + more).value.objs[o].endCloses == 1;
    } else {
      forall more | Exec(acts + more).Some? ensures Stranded(Exec(acts + more).value, o) {
        StrandedForever(acts, more, o);
      }
    }
  }

  /** Such contexts exist: one whose configuration was rejected, when `Die` comes. */
  lemma DieStrandsAContext() returns (acts: seq<Act>)
    ensures Exec(acts).Some? && !Exec(acts).value.crashed && Stranded(Exec(acts).value, 0)
    ensures Exec(acts).value.objs[0].starts == 1 && !Exec(acts).value.objs[0].cancelFn
  {
    var config := RejectedConfig();
    acts := OneOfEach();
    RejectedStart(Exec(acts).value, config);
    acts := Runs.Then(Next, INITIAL, acts, StartRecoding(1, 1, 1, config));
    DieAlone(Exec(acts).value);
    acts := Runs.Then(Next, INITIAL, acts, Die([1]));
  }

  lemma OneOfEach() returns (acts: seq<Act>)
    ensures Exec(acts).Some?
    ensures var s := Exec(acts).value;
      s.contexts == map[1 := 0] && s.objs == [NEW_CTX] && 1 in s.inputs && 1 in s.outputs && !s.crashed
  {
    acts := Runs.Then(Next, INITIAL, [], NewContext);
    acts := Runs.Then(Next, INITIAL, acts, NewInput(true));
    acts := Runs.Then(Next, INITIAL, acts, NewOutput(true));
  }

  lemma RejectedStart(s: Server, config: Option<ConfigMsg>)
    requires s.contexts == map[1 := 0] && s.objs == [NEW_CTX] && 1 in s.inputs && 1 in s.outputs
    requires Verdict(config) == Rejected
    ensures DoStartRecoding(s, 1, 1, 1, config) == s.(objs := [StartCtx(NEW_CTX, Rejected)])
  {
    assert StartOutcome(s, 1, 1, 1, config) == Rejected;
  }

  lemma RejectedConfig() returns (config: Option<ConfigMsg>)
    ensures Verdict(config) == Rejected
  {
    var track := Some(TrackMsg([], Some(EncodeMsg(0, Some(BitrateMsg(0))))));
    assert TrackFromMsg(VideoTrack, track).Some?;
    config := Some(ConfigMsg(true, [], [track, track]));
    RejectedExactlyWhen(config);
  }

  lemma DieAlone(s: Server)
    requires s.contexts == map[1 := 0] && |s.objs| == 1 && s.objs[0].cancelFn && !s.crashed
    ensures Next(s, Die([1])) == Some(DieOne(s, 1).(inputs := {}))
  {
    var order := [1];
    assert order[..|order| - 1] == [];
    assert DieLoop(s, order) == DieOne(s, 1);
    assert IsOrder(order, s.contexts.Keys);
  }

  /** What never goes back, for one context object: having been started, an end channel once closed,
      absence from the registry, and for a registered context its cancel function. */
  predicate Settles(s: Server, s': Server, o: nat) {
    o < |s.objs| ==>
      && o < |s'.objs|
      && (s.objs[o].starts == 1 ==> s'.objs[o].starts == 1)
      && (s.objs[o].endCloses == 1 ==> s'.objs[o].endCloses == 1)
      && (o + 1 !in s.contexts ==> o + 1 !in s'.contexts)
      && (o + 1 in s'.contexts && s.objs[o].cancelFn ==> s'.objs[o].cancelFn)
  }

  lemma StepSettles(s: Server, a: Act, o: nat)
    requires Inv(s) && Next(s, a).Some?
    ensures Settles(s, Next(s, a).value, o)
  {
    StepKeepsInv(s, a);
    if o < |s.objs| {
      assert CtxInv(s.objs[o], o + 1 in s.contexts);
      if a.Die? {
        DieClosesNothing(s, a.order);
      }
      assert CtxInv(Next(s, a).value.objs[o], o + 1 in Next(s, a).value.contexts);
    }
  }

  /** Over any continuation of any run. */
  lemma {:induction false} RunSettles(acts: seq<Act>, more: seq<Act>, o: nat)
    requires Exec(acts).Some? && Exec(acts + more).Some?
    ensures Settles(Exec(acts).value, Exec(acts + more).value, o)
    decreases |more|
  {
    if more == [] {
      assert acts + more == acts;
    } else {
      var front := more[..|more| - 1];
      assert (acts + more)[..|acts + more| - 1] == acts + front;
      RunSettles(acts, front, o);
      ReachableInv(acts + front);
      StepSettles(Exec(acts + front).value, more[|more| - 1], o);
    }
  }

  lemma StartedStaysRefused(s: Server, s': Server, id: nat, inputID: nat, outputID: nat, config: Option<ConfigMsg>)
    requires Inv(s) && Inv(s') && id in s.contexts && s.objs[id - 1].cancelFn && Settles(s, s', id - 1)
    ensures var out := StartOutcome(s', id, inputID, outputID, config); out == AlreadyStarted || out == NoContext
  {
  }

  // ---------------------------------------------------------------- starting

  /** An enabled request for more than one track of a media type. */
  predicate TooManyTracks(m: ConfigMsg) {
    m.enable && (|m.video| > 1 || |m.audio| > 1)
  }

  /** The three answers a configuration can lead to. */
  lemma VerdictExactlyWhen(config: Option<ConfigMsg>)
    ensures Verdict(config) == Started <==>
              config.None? || (WellFormed(config.value) && !TooManyTracks(config.value))
    ensures Verdict(config) == Rejected <==>
              config.Some? && WellFormed(config.value) && TooManyTracks(config.value)
    ensures Verdict(config) == Panicked <==> config.Some? && !WellFormed(config.value)
  {
    RejectedExactlyWhen(config);
    if config.Some? {
      MsgRoundTrip(config.value);
    }
  }

  /** A context that may be started. */
  predicate Startable(s: Server, id: nat) {
    id in s.contexts && 1 <= id <= |s.objs| && s.objs[id - 1].starts == 0
  }

  /** Every answer of StartRecoding, after every run: the context must exist and never have been started,
      the input and the output must be registered, and then the configuration decides. */
  lemma StartOutcomeExactlyWhen(acts: seq<Act>, id: nat, inputID: nat, outputID: nat, config: Option<ConfigMsg>)
    requires Exec(acts).Some?
    ensures var s := Exec(acts).value;
      var out := StartOutcome(s, id, inputID, outputID, config);
      var ready := Startable(s, id) && inputID in s.inputs && outputID in s.outputs;
      && (out == NoContext <==> id !in s.contexts)
      && (out == AlreadyStarted <==> id in s.contexts && !Startable(s, id))
      && (out == NoInput <==> Startable(s, id) && inputID !in s.inputs)
      && (out == NoOutput <==> Startable(s, id) && inputID in s.inputs && outputID !in s.outputs)
      && (out == Started <==>
            ready && (config.None? || (WellFormed(config.value) && !TooManyTracks(config.value))))
      && (out == Rejected <==> ready && config.Some? && WellFormed(config.value) && TooManyTracks(config.value))
      && (out == Panicked <==> ready && config.Some? && !WellFormed(config.value))
  {
    ReachableInv(acts);
    var s := Exec(acts).value;
    VerdictExactlyWhen(config);
    if id in s.contexts {
      assert CtxInv(s.objs[id - 1], id in s.contexts);
    }
  }

  /** What a start does: a refusal nothing; past the guards the context is marked with both nodes, a
      pipeline runs only if it was not rejected, and nothing else changes. */
  lemma StartEffect(acts: seq<Act>, id: nat, inputID: nat, outputID: nat, config: Option<ConfigMsg>)
    requires Exec(acts).Some?
    ensures var s := Exec(acts).value;
      var out, s' := StartOutcome(s, id, inputID, outputID, config), DoStartRecoding(s, id, inputID, outputID, config);
      && (!Consumed(out) ==> s' == s)
      && (Consumed(out) ==>
            && Startable(s, id) && |s'.objs| == |s.objs|
            && s'.objs[id - 1] == s.objs[id - 1].(cancelFn := true, inputNode := true, outputNode := true,
                                                  starts := 1, pipelines := if out == Started then 1 else 0)
            && (forall o :: 0 <= o < |s.objs| && o != id - 1 ==> s'.objs[o] == s.objs[o])
            && s'.contexts == s.contexts && s'.inputs == s.inputs && s'.outputs == s.outputs
            && s'.crashed == (s.crashed || out == Panicked))
  {
    ReachableInv(acts);
    StartOutcomeExactlyWhen(acts, id, inputID, outputID, config);
    var s := Exec(acts).value;
    if id in s.contexts {
      assert CtxInv(s.objs[id - 1], id in s.contexts);
    }
  }

  /** The run started context object `o`: a call found it registered and not started, with a registered
      input and output. */
  predicate StartedInRun(acts: seq<Act>, o: nat) {
    && acts != []
    && var front, a := acts[..|acts| - 1], acts[|acts| - 1];
    || StartedInRun(front, o)
    || (a.StartRecoding? && a.contextID == o + 1 && Exec(front).Some?
        && var s := Exec(front).value;
           Startable(s, o + 1) && a.inputID in s.inputs && a.outputID in s.outputs)
  }

  lemma {:induction false} ContextStartedExactlyWhen(acts: seq<Act>, o: nat)
    requires Exec(acts).Some?
    ensures o < |Exec(acts).value.objs| && Exec(acts).value.objs[o].starts == 1 <==> StartedInRun(acts, o)
  {
    if acts != [] {
      var front, a := acts[..|acts| - 1], acts[|acts| - 1];
      ContextStartedExactlyWhen(front, o);
      ReachableInv(front);
      StepStarts(front, a, o);
    }
  }

  lemma StepStarts(front: seq<Act>, a: Act, o: nat)
    requires Exec(front).Some? && Next(Exec(front).value, a).Some?
    ensures var s, s' := Exec(front).value, Next(Exec(front).value, a).value;
      o < |s'.objs| && s'.objs[o].starts == 1
      <==> || (o < |s.objs| && s.objs[o].starts == 1)
           || (a.StartRecoding? && a.contextID == o + 1
               && Startable(s, o + 1) && a.inputID in s.inputs && a.outputID in s.outputs)
  {
    ReachableInv(front);
    var s := Exec(front).value;
    if a.Die? {
      DieClosesNothing(s, a.order);
    } else if a.StartRecoding? {
      StartOutcomeExactlyWhen(front, a.contextID, a.inputID, a.outputID, a.config);
      StartEffect(front, a.contextID, a.inputID, a.outputID, a.config);
    }
  }

  // ---------------------------------------------------------------- what is registered, and for how long

  /** A closed context is gone for good: no later call finds it. */
  lemma ClosedContextIsGone(acts: seq<Act>, more: seq<Act>, id: nat, inputID: nat, outputID: nat,
                            config: Option<ConfigMsg>)
    requires Exec(acts).Some? && id in Exec(acts).value.contexts
    requires Exec(acts + [CloseContext(id)] + more).Some?
    ensures var s' := Exec(acts + [CloseContext(id)] + more).value;
      && id !in s'.contexts && DoCloseContext(s', id) == s'
      && StartOutcome(s', id, inputID, outputID, config) == NoContext
  {
    ReachableInv(acts);
    var closed := Runs.Then(Next, INITIAL, acts, CloseContext(id));
    Runs.Beginning(Next, INITIAL, closed, more);
    RunSettles(closed, more, id - 1);
  }

  /** A registered context stays registered until it is closed or `Die` comes. */
  lemma {:induction false} ContextStays(acts: seq<Act>, more: seq<Act>, id: nat)
    requires Exec(acts).Some? && Exec(acts + more).Some? && id in Exec(acts).value.contexts
    requires forall i :: 0 <= i < |more| ==> more[i] != CloseContext(id) && !more[i].Die?
    ensures id in Exec(acts + more).value.contexts
    decreases |more|
  {
    if more == [] {
      assert acts + more == acts;
    } else {
      var front := more[..|more| - 1];
      FrontOfConcat(acts, more);
      ContextStays(acts, front, id);
    }
  }

  /** A new input gets an ID never issued, under which it is registered; and an input stays registered until
      it is closed or `Die` comes, after which its ID never comes back. */
  lemma {:induction false} InputStays(acts: seq<Act>, more: seq<Act>, id: nat)
    requires Exec(acts).Some? && Exec(acts + more).Some?
    ensures var s, s' := Exec(acts).value, Exec(acts + more).value;
      && (id in s.inputs && (forall i :: 0 <= i < |more| ==> more[i] != CloseInput(id) && !more[i].Die?) ==>
            id in s'.inputs)
      && (id in s.issuedInputs && id !in s.inputs ==> id !in s'.inputs && id in s'.issuedInputs)
    decreases |more|
  {
    if more == [] {
      assert acts + more == acts;
    } else {
      var front, a := more[..|more| - 1], more[|more| - 1];
      FrontOfConcat(acts, more);
      InputStays(acts, front, id);
      ReachableInv(acts + front);
      StreamsStep(Exec(acts + front).value, a, id);
    }
  }

  /** The same for outputs, which `Die` leaves alone. */
  lemma {:induction false} OutputStays(acts: seq<Act>, more: seq<Act>, id: nat)
    requires Exec(acts).Some? && Exec(acts + more).Some?
    ensures var s, s' := Exec(acts).value, Exec(acts + more).value;
      && (id in s.outputs && (forall i :: 0 <= i < |more| ==> more[i] != CloseOutput(id)) ==> id in s'.outputs)
      && (id in s.issuedOutputs && id !in s.outputs ==> id !in s'.outputs && id in s'.issuedOutputs)
    decreases |more|
  {
    if more == [] {
      assert acts + more == acts;
    } else {
      var front, a := more[..|more| - 1], more[|more| - 1];
      FrontOfConcat(acts, more);
      OutputStays(acts, front, id);
      ReachableInv(acts + front);
      StreamsStep(Exec(acts + front).value, a, id);
    }
  }

  lemma StreamsStep(s: Server, a: Act, id: nat)
    requires Inv(s) && Next(s, a).Some?
    ensures var s' := Next(s, a).value;
      && (id in s.inputs && a != CloseInput(id) && !a.Die? ==> id in s'.inputs)
      && (id in s.issuedInputs && id !in s.inputs ==> id !in s'.inputs && id in s'.issuedInputs)
      && (id in s.outputs && a != CloseOutput(id) ==> id in s'.outputs)
      && (id in s.issuedOutputs && id !in s.outputs ==> id !in s'.outputs && id in s'.issuedOutputs)
  {
    if a.Die? {
      DieKeepsStreams(s, a.order);
    }
  }

  lemma {:induction false} DieKeepsStreams(s: Server, order: seq<nat>)
    ensures var s' := DieLoop(s, order);
      s'.inputs == s.inputs && s'.issuedInputs == s.issuedInputs
      && s'.outputs == s.outputs && s'.issuedOutputs == s.issuedOutputs
  {
    if order != [] {
      DieKeepsStreams(s, order[..|order| - 1]);
    }
  }

  /** Opening registers exactly one new ID, and nothing if the URL cannot be opened; closing removes the ID;
      neither touches the other registries. */
  lemma StreamEffect(acts: seq<Act>, id: nat)
    requires Exec(acts).Some?
    ensures var s := Exec(acts).value;
      var i, o := DoNewInput(s, true), DoNewOutput(s, true);
      && i.nextInput !in s.issuedInputs && i.inputs == s.inputs + {i.nextInput} && i.outputs == s.outputs
      && o.nextOutput !in s.issuedOutputs && o.outputs == s.outputs + {o.nextOutput} && o.inputs == s.inputs
      && DoNewInput(s, false) == s && DoNewOutput(s, false) == s
      && (!s.crashed ==>
            && Next(s, CloseInput(id)) == Some(s.(inputs := s.inputs - {id}))
            && Next(s, CloseOutput(id)) == Some(s.(outputs := s.outputs - {id})))
  {
    ReachableInv(acts);
  }

  /** The process crashes in a step exactly when a startable context is started with an ill-formed
      configuration, `Die` meets a context never started, or the end of an unknown context is awaited. */
  lemma CrashesExactlyWhen(acts: seq<Act>, a: Act)
    requires Exec(acts).Some? && Next(Exec(acts).value, a).Some?
    ensures var s := Exec(acts).value;
      Next(s, a).value.crashed
      <==> match a
           case StartRecoding(id, i, o, config) =>
             Startable(s, id) && i in s.inputs && o in s.outputs && config.Some? && !WellFormed(config.value)
           case Die(_) => exists id :: id in s.contexts && Startable(s, id)
           case AwaitEnd(id) => id !in s.contexts
           case _ => false
  {
    ReachableInv(acts);
    var s := Exec(acts).value;
    if a.StartRecoding? {
      StartOutcomeExactlyWhen(acts, a.contextID, a.inputID, a.outputID, a.config);
    } else if a.Die? {
      DieCompletesExactlyWhen(acts, a.order);
      forall id | id in s.contexts ensures Startable(s, id) <==> !(1 <= id <= |s.objs| && s.objs[id - 1].starts == 1) {
        assert CtxInv(s.objs[id - 1], id in s.contexts);
      }
    }
  }

  /** Starting a context twice, with anything in between: the second call never gets past the check,
      even when the configuration of the first was rejected. */
  lemma SecondStartRefused(acts: seq<Act>, more: seq<Act>,
                           id: nat, inputID: nat, outputID: nat, config: Option<ConfigMsg>)
    requires Exec(acts).Some? && Exec(acts + more).Some?
    requires var s := Exec(acts).value;
      id in s.contexts && s.contexts[id] < |s.objs| && s.objs[s.contexts[id]].cancelFn
    ensures var out := StartOutcome(Exec(acts + more).value, id, inputID, outputID, config);
      out == AlreadyStarted || out == NoContext
  {
    ReachableInv(acts);
    ReachableInv(acts + more);
    RunSettles(acts, more, id - 1);
    StartedStaysRefused(Exec(acts).value, Exec(acts + more).value, id, inputID, outputID, config);
  }
}
