/**
 The gRPC server's objects, updated in place. Each method is one critical section of `server.go`, run
 under the locks listed in module `Locks`, and is proved against the pure step of module `Lifecycle`.
 */
module GrpcServer {
  import opened Wrappers
  import opened Conversion
  import L = Lifecycle

  class Context {
    /** The number of this object among all contexts ever made. */
    ghost const number: nat

    var InputNode: bool
    var OutputNode: bool
    var RecoderCancelFn: bool
    var closeOnce: bool
    var recordingEndChanClosed: bool
    ghost var endCloses: nat
    ghost var starts: nat
    ghost var pipelines: nat

    ghost function View(): L.Ctx
      reads this
    {
      L.Ctx(InputNode, OutputNode, RecoderCancelFn, closeOnce, endCloses, starts, pipelines)
    }

    /** The end channel is closed exactly when the once has run. */
    ghost predicate Valid()
      reads this
    {
      recordingEndChanClosed == closeOnce
    }

    constructor (ghost number: nat)
      ensures this.number == number && Valid() && View() == L.NEW_CTX
    {
      this.number := number;
      InputNode, OutputNode, RecoderCancelFn, closeOnce, recordingEndChanClosed := false, false, false, false, false;
      endCloses, starts, pipelines := 0, 0, 0;
    }

    /** Context.Close: reports an error on every call but the first, and never closes a closed channel. */
    method Close() returns (ok: bool)
      requires Valid()
      modifies this
      ensures Valid() && View() == L.CloseCtx(old(View()))
      ensures ok == !old(closeOnce)
    {
      ok := false;
      if !closeOnce {
        closeOnce := true;
        assert !recordingEndChanClosed;  // closing a closed channel would panic
        recordingEndChanClosed := true;
        endCloses := endCloses + 1;
        ok := true;
      }
    }

    /** What `Die` does to a context with a cancel function: it is not closed. */
    method Cancel()
      requires Valid() && RecoderCancelFn
      modifies this`RecoderCancelFn
      ensures Valid() && View() == old(View()).(cancelFn := false)
    {
      RecoderCancelFn := false;
    }

    /** The part of StartRecoding behind its guards: the context is marked, with both nodes, before the
        configuration is looked at. */
    method Start(config: Option<ConfigMsg>) returns (out: L.Outcome)
      requires Valid()
      modifies this
      ensures Valid() && out == L.Verdict(config) && View() == L.StartCtx(old(View()), out)
    {
      RecoderCancelFn := true;
      InputNode := true;
      OutputNode := true;
      starts := starts + 1;
      out := L.Verdict(config);
      if out.Started? {
        pipelines := pipelines + 1;
      }
    }
  }

  /** How `RecodingEndedChan` goes on after its lookup. */
  datatype Answer = NilContext | Ended | Waiting(context: Context)

  class GRPCServer {
    var Context: map<nat, Context>
    var ContextNextID: nat
    var Input: set<nat>
    var InputNextID: nat
    var Output: set<nat>
    var OutputNextID: nat

    /** Every context ever made, in order, and the IDs handed out. */
    ghost var objs: seq<Context>
    ghost var issuedContexts: seq<nat>
    ghost var issuedInputs: seq<nat>
    ghost var issuedOutputs: seq<nat>
    /** A handler panicked. */
    ghost var crashed: bool

    ghost function View(): L.Server
      reads this, objs
    {
      L.Server(
        seq(|objs|, i requires 0 <= i < |objs| reads this, objs => objs[i].View()),
        map id | id in Context :: Context[id].number, ContextNextID,
        Input, InputNextID, Output, OutputNextID,
        issuedContexts, issuedInputs, issuedOutputs, crashed)
    }

    ghost predicate Valid()
      reads this, objs
    {
      Wired() && L.Inv(View())
    }

    ghost predicate Wired()
      reads this, objs
    {
      && (forall i :: 0 <= i < |objs| ==> objs[i].number == i && objs[i].Valid())
      && (forall id :: id in Context ==> Context[id] in objs)
    }

    constructor ()
      ensures Valid() && View() == L.INITIAL && fresh(objs)
    {
      Context, ContextNextID := map[], 0;
      Input, InputNextID, Output, OutputNextID := {}, 0, {}, 0;
      objs, issuedContexts, issuedInputs, issuedOutputs, crashed := [], [], [], [], false;
    }

    /** A registered context is the object its ID was issued for. */
    lemma Registered(id: nat)
      requires Valid() && id in Context
      ensures 1 <= id <= |objs| && Context[id] == objs[id - 1]
    {
      assert View().contexts[id] == Context[id].number;
    }

    method NewContext() returns (id: nat)
      requires Valid()
      modifies this
      ensures Valid() && View() == L.DoNewContext(old(View()))
      ensures fresh(objs[|old(objs)|..]) && id in Context && id == ContextNextID
    {
      var contextInstance := new Context(|objs|);
      ContextNextID := ContextNextID + 1;
      id := ContextNextID;
      Context := Context[id := contextInstance];
      objs := objs + [contextInstance];
      issuedContexts := issuedContexts + [id];
      ghost var was, now := L.DoNewContext(old(View())), View();
      assert now.contexts == was.contexts;
      assert now.objs == was.objs;
      L.NewContextKeepsInv(old(View()));
    }

    /** Reports an error for an unknown ID; otherwise the context is closed and unregistered, even when
        closing it reports that the pipeline was first. */
    method CloseContext(contextID: nat) returns (ok: bool)
      requires Valid()
      modifies this`Context, objs
      ensures Valid() && View() == L.DoCloseContext(old(View()), contextID) && objs == old(objs)
      ensures ok == old(contextID in Context)
    {
      if contextID !in Context {
        return false;
      }
      Registered(contextID);
      var first := CloseObject(Context[contextID]);
      Unregister(contextID);
      ok := true;
      L.CloseContextKeepsInv(old(View()), contextID);
    }

    method Unregister(contextID: nat)
      requires Wired()
      modifies this`Context
      ensures Wired() && Context == old(Context) - {contextID}
      ensures View() == old(View()).(contexts := old(View()).contexts - {contextID})
    {
      Context := Context - {contextID};
      assert View().contexts == old(View()).contexts - {contextID};
      assert View().objs == old(View()).objs;
    }

    /** Closing a context, as a change of the whole server. */
    method CloseObject(context: Context) returns (first: bool)
      requires Wired() && context in objs
      modifies objs
      ensures Wired()
      ensures var was, o := old(View()), context.number;
        View() == was.(objs := was.objs[o := L.CloseCtx(was.objs[o])])
    {
      first := context.Close();
      ghost var was := old(View());
      assert View().objs == was.objs[context.number := L.CloseCtx(was.objs[context.number])];
    }

    method StartRecoding(contextID: nat, inputID: nat, outputID: nat, config: Option<ConfigMsg>)
      returns (out: L.Outcome)
      requires Valid()
      modifies this`crashed, objs
      ensures Valid() && View() == L.DoStartRecoding(old(View()), contextID, inputID, outputID, config)
      ensures out == L.StartOutcome(old(View()), contextID, inputID, outputID, config) && objs == old(objs)
    {
      if contextID !in Context {
        return L.NoContext;
      }
      Registered(contextID);
      var srvContext := Context[contextID];
      if srvContext.RecoderCancelFn {
        return L.AlreadyStarted;
      }
      if inputID !in Input {
        return L.NoInput;
      }
      if outputID !in Output {
        return L.NoOutput;
      }
      out := StartContext(srvContext, config);
      L.StartKeepsInv(old(View()), contextID, inputID, outputID, config);
    }

    /** The part of StartRecoding behind its guards, as a change of the whole server. */
    method StartContext(srvContext: Context, config: Option<ConfigMsg>) returns (out: L.Outcome)
      requires Wired() && srvContext in objs
      modifies this`crashed, objs
      ensures Wired() && out == L.Verdict(config)
      ensures var was, o := old(View()), srvContext.number;
        View() == was.(objs := was.objs[o := L.StartCtx(was.objs[o], out)], crashed := was.crashed || out.Panicked?)
    {
      out := srvContext.Start(config);
      crashed := crashed || out.Panicked?;
      ghost var was := old(View());
      assert View().objs == was.objs[srvContext.number := L.StartCtx(was.objs[srvContext.number], out)];
    }

    /** The deferred calls of the pipeline goroutine; they hold no lock of the server. */
    method PipelineEnds(srvContext: Context)
      requires Valid() && srvContext in objs && srvContext.pipelines > 0
      modifies objs
      ensures Valid() && objs == old(objs)
      ensures L.DoPipelineEnds(old(View()), srvContext.number) == Some(View())
    {
      var first := srvContext.Close();
      srvContext.pipelines := srvContext.pipelines - 1;
      ghost var was, now := L.DoPipelineEnds(old(View()), srvContext.number).value, View();
      assert now.objs == was.objs;
      L.PipelineEndsKeepsInv(old(View()), srvContext.number);
    }

    /** RecodingEndedChan, up to its select: it panics for an unknown ID, and otherwise is answered at once
        exactly when the end channel of the ID's context is closed. */
    method AwaitEnd(contextID: nat) returns (answer: Answer)
      requires Valid()
      modifies this`crashed
      ensures Valid() && View() == L.DoAwaitEnd(old(View()), contextID)
      ensures match answer
              case NilContext => contextID !in Context
              case Ended => contextID in Context && Context[contextID].endCloses == 1
              case Waiting(c) => contextID in Context && c == Context[contextID] && c.endCloses == 0
    {
      var context := FindContext(contextID);
      if context == null {
        crashed := true;
        answer := NilContext;
      } else {
        assert View().objs[context.number] == context.View();
        assert L.CtxInv(context.View(), context.number + 1 in View().contexts);
        answer := if context.recordingEndChanClosed then Ended else Waiting(context);
      }
      assert View().objs == old(View()).objs && View().contexts == old(View()).contexts;
    }

    /** The lookup of `RecodingEndedChan`; an unknown ID is a nil context. */
    method FindContext(contextID: nat) returns (context: Context?)
      requires Valid()
      ensures contextID in Context <==> context != null
      ensures context != null ==>
                context == Context[contextID] && context.number + 1 == contextID && context in objs
    {
      if contextID in Context {
        Registered(contextID);
        context := Context[contextID];
      } else {
        context := null;
      }
    }

    method NewInput(reachable: bool) returns (id: Option<nat>)
      requires Valid()
      modifies this`Input, this`InputNextID, this`issuedInputs
      ensures Valid() && View() == L.DoNewInput(old(View()), reachable)
      ensures id == if reachable then Some(InputNextID) else None
    {
      if !reachable {
        return None;
      }
      InputNextID := InputNextID + 1;
      Input := Input + {InputNextID};
      issuedInputs := issuedInputs + [InputNextID];
      id := Some(InputNextID);
      assert View().objs == old(View()).objs && View().contexts == old(View()).contexts;
      L.StreamsKeepInv(old(View()), reachable, 0);
    }

    method CloseInput(inputID: nat) returns (ok: bool)
      requires Valid()
      modifies this`Input
      ensures Valid() && View() == old(View()).(inputs := old(Input) - {inputID})
      ensures ok == old(inputID in Input)
    {
      ok := inputID in Input;
      Input := Input - {inputID};
      assert View().objs == old(View()).objs && View().contexts == old(View()).contexts;
      L.StreamsKeepInv(old(View()), false, inputID);
    }

    method NewOutput(reachable: bool) returns (id: Option<nat>)
      requires Valid()
      modifies this`Output, this`OutputNextID, this`issuedOutputs
      ensures Valid() && View() == L.DoNewOutput(old(View()), reachable)
      ensures id == if reachable then Some(OutputNextID) else None
    {
      if !reachable {
        return None;
      }
      OutputNextID := OutputNextID + 1;
      Output := Output + {OutputNextID};
      issuedOutputs := issuedOutputs + [OutputNextID];
      id := Some(OutputNextID);
      assert View().objs == old(View()).objs && View().contexts == old(View()).contexts;
      L.StreamsKeepInv(old(View()), reachable, 0);
    }

    method CloseOutput(outputID: nat) returns (ok: bool)
      requires Valid()
      modifies this`Output
      ensures Valid() && View() == old(View()).(outputs := old(Output) - {outputID})
      ensures ok == old(outputID in Output)
    {
      ok := outputID in Output;
      Output := Output - {outputID};
      assert View().objs == old(View()).objs && View().contexts == old(View()).contexts;
      L.StreamsKeepInv(old(View()), false, outputID);
    }

    /** One pass of the loop of `Die` over the contexts. */
    method DieOne(id: nat) returns (panics: bool)
      requires Valid() && id in Context
      modifies this`Context, this`crashed, objs
      ensures Valid() && objs == old(objs) && View() == L.DieOne(old(View()), id)
      ensures panics == !old(Context[id].RecoderCancelFn) && (crashed <==> panics || old(crashed))
      ensures Context == if panics then old(Context) else old(Context) - {id}
    {
      Registered(id);
      var context := Context[id];
      panics := !context.RecoderCancelFn;
      if panics {
        crashed := true;
      } else {
        context.Cancel();
        Context := Context - {id};
      }
      ghost var was, now := L.DieOne(old(View()), id), View();
      assert now.contexts == was.contexts;
      assert now.objs == was.objs;
      L.DieOneKeepsInv(old(View()), id);
    }

    /** Die, ranging over the contexts in the given order; calling a nil cancel function panics. Both
        loops after that one close inputs, the second the same again. */
    method Die(order: seq<nat>) returns (panics: bool)
      requires Valid() && !crashed && L.IsOrder(order, Context.Keys)
      modifies this`Context, this`Input, this`crashed, objs
      ensures Valid() && objs == old(objs) && View() == L.DoDie(old(View()), order) && panics == crashed
    {
      panics := CancelAll(order);
      if !panics {
        Input := {};
        assert View().objs == L.DoDie(old(View()), order).objs;
        L.DieKeepsInv(old(View()), order);
      }
    }

    method CancelAll(order: seq<nat>) returns (panics: bool)
      requires Valid() && !crashed && L.IsOrder(order, Context.Keys)
      modifies this`Context, this`crashed, objs
      ensures Valid() && objs == old(objs) && View() == L.DieLoop(old(View()), order) && panics == crashed
    {
      for i := 0 to |order|
        invariant Valid() && objs == old(objs) && !crashed
        invariant View() == L.DieLoop(old(View()), order[..i])
        invariant forall k :: i <= k < |order| ==> order[k] in Context
      {
        Registered(order[i]);
        L.DieLoopStep(old(View()), order, i);
        panics := DieOne(order[i]);
        if panics {
          DieStopped(old(View()), order, i + 1);
          return;
        }
      }
      assert order[..|order|] == order;
      panics := false;
    }
  }

  /** After a panic the rest of the order does not matter. */
  lemma {:induction false} DieStopped(s: L.Server, order: seq<nat>, i: nat)
    requires i <= |order| && L.DieLoop(s, order[..i]).crashed
    ensures L.DieLoop(s, order) == L.DieLoop(s, order[..i])
    decreases |order|
  {
    if i < |order| {
      assert order[..|order| - 1][..i] == order[..i];
      DieStopped(s, order[..|order| - 1], i);
    } else {
      assert order[..i] == order;
    }
  }
}
