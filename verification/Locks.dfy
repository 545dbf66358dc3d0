/**
 The locks of the gRPC server: any number of concurrent calls, each running its critical sections in
 order, taking the locks of a section one by one and releasing them last-in first-out.
 */
module Locks {
  import opened Wrappers
  import Runs

  datatype Lock = BeltLocker | ContextLocker | InputLocker | OutputLocker

  function Rank(l: Lock): nat {
    match l
    case BeltLocker => 0 case ContextLocker => 1 case InputLocker => 2 case OutputLocker => 3
  }

  datatype Rpc =
    | SetLoggingLevel | NewInput | NewOutput | NewContext | CloseContext | CloseInput | CloseOutput
    | StartRecoding | RecodingEndedChan | GetStats | GetStream | Die

  /** The critical sections of a call, each with the locks it takes, in order. The first section of many
      calls only reads the logger. `CloseOutput` takes the input lock. */
  function Sections(rpc: Rpc): seq<seq<Lock>> {
    match rpc
    case SetLoggingLevel => [[BeltLocker], [BeltLocker]]
    case NewInput => [[BeltLocker], [InputLocker]]
    case NewOutput => [[BeltLocker], [OutputLocker]]
    case NewContext => [[BeltLocker], [ContextLocker]]
    case CloseContext => [[ContextLocker]]
    case CloseInput => [[InputLocker]]
    case CloseOutput => [[InputLocker]]
    case StartRecoding => [[BeltLocker], [ContextLocker, InputLocker, OutputLocker]]
    case RecodingEndedChan => [[BeltLocker], [ContextLocker]]
    case GetStats => [[ContextLocker]]
    case GetStream => [[InputLocker]]
    case Die => [[ContextLocker, InputLocker, OutputLocker]]
  }

  /** A call in its current section, holding the first `held` of its locks. */
  datatype Thread = Thread(rpc: Rpc, section: nat, held: nat, releasing: bool)

  predicate Finished(t: Thread) {
    t.section >= |Sections(t.rpc)|
  }

  function Needs(t: Thread): seq<Lock> {
    if Finished(t) then [] else Sections(t.rpc)[t.section]
  }

  predicate WellFormed(t: Thread) {
    t.held <= |Needs(t)|
  }

  function Held(t: Thread): seq<Lock>
    requires WellFormed(t)
  {
    Needs(t)[..t.held]
  }

  /** The lock a thread is about to take. */
  function Wants(t: Thread): Option<Lock> {
    if !t.releasing && t.held < |Needs(t)| then Some(Needs(t)[t.held]) else None
  }

  type World = seq<Thread>

  predicate HeldBy(w: World, l: Lock, j: nat)
    requires j < |w|
  {
    WellFormed(w[j]) && l in Held(w[j])
  }

  predicate CanStep(w: World, i: nat)
    requires i < |w|
  {
    && !Finished(w[i])
    && match Wants(w[i])
       case Some(l) => forall j :: 0 <= j < |w| ==> !HeldBy(w, l, j)
       case None => true
  }

  function Advance(t: Thread): Thread {
    if !t.releasing then
      if t.held < |Needs(t)| then t.(held := t.held + 1) else t.(releasing := true)
    else if t.held > 0 then t.(held := t.held - 1)
    else t.(section := t.section + 1, releasing := false)
  }

  datatype Act = Arrive(rpc: Rpc) | Step(i: nat)

  function Next(w: World, a: Act): Option<World> {
    match a
    case Arrive(rpc) => Some(w + [Thread(rpc, 0, 0, false)])
    case Step(i) => if i >= |w| || !CanStep(w, i) then None else Some(w[i := Advance(w[i])])
  }

  function Exec(acts: seq<Act>): Option<World> {
    Runs.Exec(Next, [], acts)
  }

  // ---------------------------------------------------------------- mutual exclusion

  /** Every section takes its locks in ascending rank. */
  lemma Ascending(rpc: Rpc, k: nat)
    requires k < |Sections(rpc)|
    ensures var s := Sections(rpc)[k];
      forall a, b :: 0 <= a < b < |s| ==> Rank(s[a]) < Rank(s[b])
  {
  }

  predicate Inv(w: World) {
    && (forall i :: 0 <= i < |w| ==> WellFormed(w[i]))
    && (forall l, i, j | 0 <= i < |w| && 0 <= j < |w| :: HeldBy(w, l, i) && HeldBy(w, l, j) ==> i == j)
  }

  lemma AdvanceHolds(t: Thread)
    requires WellFormed(t) && !Finished(t)
    ensures WellFormed(Advance(t))
    ensures forall l :: l in Held(Advance(t)) ==> l in Held(t) || Wants(t) == Some(l)
  {
  }

  lemma StepKeepsInv(w: World, i: nat)
    requires Inv(w) && i < |w| && CanStep(w, i)
    ensures Inv(w[i := Advance(w[i])])
  {
    var w' := w[i := Advance(w[i])];
    AdvanceHolds(w[i]);
    forall l, p, q | 0 <= p < |w'| && 0 <= q < |w'| && HeldBy(w', l, p) && HeldBy(w', l, q) ensures p == q {
      assert p != i ==> HeldBy(w, l, p);
      assert q != i ==> HeldBy(w, l, q);
      assert HeldBy(w, l, i) || Wants(w[i]) == Some(l) || (p != i && q != i);
    }
  }

  lemma {:induction false} ReachableInv(acts: seq<Act>)
    requires Exec(acts).Some?
    ensures Inv(Exec(acts).value)
  {
    if acts != [] {
      ReachableInv(acts[..|acts| - 1]);
      var w, a := Exec(acts[..|acts| - 1]).value, acts[|acts| - 1];
      if a.Step? {
        StepKeepsInv(w, a.i);
      } else {
        var w' := Next(w, a).value;
        forall l, p, q | 0 <= p < |w'| && 0 <= q < |w'| && HeldBy(w', l, p) && HeldBy(w', l, q) ensures p == q {
          assert p < |w| ==> HeldBy(w, l, p);
          assert q < |w| ==> HeldBy(w, l, q);
        }
      }
    }
  }

  // ---------------------------------------------------------------- deadlock freedom

  /** Thread `i` waits for a lock that thread `j` holds. */
  predicate WaitsFor(w: World, i: nat, j: nat)
    requires i < |w| && j < |w|
  {
    Wants(w[i]).Some? && HeldBy(w, Wants(w[i]).value, j)
  }

  /** Whoever is waited for wants only locks of a higher rank. */
  lemma WaitingClimbs(w: World, i: nat, j: nat)
    requires i < |w| && j < |w| && WaitsFor(w, i, j) && Wants(w[j]).Some?
    ensures Rank(Wants(w[i]).value) < Rank(Wants(w[j]).value)
  {
    var l := Wants(w[i]).value;
    Ascending(w[j].rpc, w[j].section);
    var a :| 0 <= a < w[j].held && Needs(w[j])[a] == l;
  }

  predicate WaitPath(w: World, p: seq<nat>) {
    && (forall k :: 0 <= k < |p| ==> p[k] < |w|)
    && (forall k :: 0 <= k < |p| - 1 ==> WaitsFor(w, p[k], p[k + 1]))
  }

  /** The wait-for graph is acyclic: no path of waiting threads comes back to its start. */
  lemma {:induction false} NoWaitCycle(w: World, p: seq<nat>)
    requires WaitPath(w, p) && |p| >= 2
    ensures Wants(w[p[0]]).Some?
    ensures p[0] != p[|p| - 1]
    ensures Wants(w[p[|p| - 1]]).Some? ==> Rank(Wants(w[p[0]]).value) < Rank(Wants(w[p[|p| - 1]]).value)
  {
    var n := |p|;
    assert WaitsFor(w, p[n - 2], p[(n - 2) + 1]);
    if n > 2 {
      NoWaitCycle(w, p[..n - 1]);
    }
    if Wants(w[p[n - 1]]).Some? {
      WaitingClimbs(w, p[n - 2], p[n - 1]);
    }
  }

  /** From an unfinished thread, following who waits for whom reaches one that can step. */
  lemma {:induction false} SomeoneSteps(w: World, i: nat) returns (k: nat)
    requires i < |w| && WellFormed(w[i]) && !Finished(w[i])
    ensures k < |w| && CanStep(w, k)
    decreases if Wants(w[i]).Some? then 4 - Rank(Wants(w[i]).value) else 0
  {
    if CanStep(w, i) {
      k := i;
    } else {
      var j :| 0 <= j < |w| && HeldBy(w, Wants(w[i]).value, j);
      assert WaitsFor(w, i, j);
      if CanStep(w, j) {
        k := j;
      } else {
        WaitingClimbs(w, i, j);
        k := SomeoneSteps(w, j);
      }
    }
  }

  /** Deadlock freedom: in every reachable world with an unfinished call, some unfinished call can step;
      and no lock is ever held by two calls. */
  lemma DeadlockFreedom(acts: seq<Act>, i: nat)
    requires Exec(acts).Some? && i < |Exec(acts).value| && !Finished(Exec(acts).value[i])
    ensures var w := Exec(acts).value;
      && (exists k :: 0 <= k < |w| && CanStep(w, k))
      && (forall l, p, q | 0 <= p < |w| && 0 <= q < |w| :: HeldBy(w, l, p) && HeldBy(w, l, q) ==> p == q)
  {
    ReachableInv(acts);
    var k := SomeoneSteps(Exec(acts).value, i);
  }

  // ---------------------------------------------------------------- which sections exclude each other

  /** A call with all the locks of its section `k`. */
  function Inside(rpc: Rpc, k: nat): Thread
    requires k < |Sections(rpc)|
  {
    Thread(rpc, k, |Sections(rpc)[k]|, false)
  }

  /** Two different calls are inside their sections at the same time. */
  predicate Together(w: World, a: Rpc, k: nat, b: Rpc, l: nat)
    requires k < |Sections(a)| && l < |Sections(b)|
  {
    exists i, j :: 0 <= i < |w| && 0 <= j < |w| && i != j && w[i] == Inside(a, k) && w[j] == Inside(b, l)
  }

  predicate NoneHeldBut(w: World, i: nat) {
    forall j :: 0 <= j < |w| && j != i ==> w[j].held == 0
  }

  /** Thread `i` takes the rest of its locks; nobody else holds one of them. */
  lemma {:induction false} TakeAll(acts: seq<Act>, i: nat) returns (more: seq<Act>)
    requires Exec(acts).Some? && i < |Exec(acts).value|
    requires var w := Exec(acts).value;
      && !Finished(w[i]) && !w[i].releasing && w[i].held <= |Needs(w[i])|
      && forall j, l :: 0 <= j < |w| && l in Needs(w[i])[w[i].held..] ==> !HeldBy(w, l, j)
    ensures var w := Exec(acts).value;
      Exec(more) == Some(w[i := w[i].(held := |Needs(w[i])|)])
    decreases |Needs(Exec(acts).value[i])| - Exec(acts).value[i].held
  {
    var w := Exec(acts).value;
    var t := w[i];
    if t.held == |Needs(t)| {
      more := acts;
      assert w[i := t] == w;
    } else {
      assert Needs(t)[t.held] in Needs(t)[t.held..];
      more := Runs.Then(Next, [], acts, Step(i));
      var w' := w[i := t.(held := t.held + 1)];
      assert Exec(more) == Some(w');
      forall j, l | 0 <= j < |w'| && l in Needs(t)[t.held + 1..] ensures !HeldBy(w', l, j) {
        RestUntaken(w, i, j, l);
      }
      more := TakeAll(more, i);
      assert w'[i := t.(held := |Needs(t)|)] == w[i := t.(held := |Needs(t)|)];
    }
  }

  /** A section lists each lock once. */
  lemma RestUntaken(w: World, i: nat, j: nat, l: Lock)
    requires i < |w| && j < |w| && !Finished(w[i]) && w[i].held < |Needs(w[i])|
    requires l in Needs(w[i])[w[i].held + 1..]
    requires forall j, l :: 0 <= j < |w| && l in Needs(w[i])[w[i].held..] ==> !HeldBy(w, l, j)
    ensures !HeldBy(w[i := w[i].(held := w[i].held + 1)], l, j)
  {
    var t := w[i];
    Ascending(t.rpc, t.section);
    assert l in Needs(t)[t.held..] by {
      var x :| 0 <= x < |Needs(t)[t.held + 1..]| && Needs(t)[t.held + 1..][x] == l;
      assert Needs(t)[t.held..][x + 1] == l;
    }
    assert !HeldBy(w, l, j);
  }

  /** Thread `i` gives its locks back and leaves the section. */
  lemma {:induction false} LeaveSection(acts: seq<Act>, i: nat) returns (more: seq<Act>)
    requires Exec(acts).Some? && i < |Exec(acts).value|
    requires !Finished(Exec(acts).value[i]) && Exec(acts).value[i].releasing
    ensures var w := Exec(acts).value;
      Exec(more) == Some(w[i := Thread(w[i].rpc, w[i].section + 1, 0, false)])
    decreases Exec(acts).value[i].held
  {
    var w := Exec(acts).value;
    more := Runs.Then(Next, [], acts, Step(i));
    if w[i].held > 0 {
      var w' := w[i := w[i].(held := w[i].held - 1)];
      assert Exec(more) == Some(w');
      more := LeaveSection(more, i);
      var t := Thread(w[i].rpc, w[i].section + 1, 0, false);
      assert w'[i := t] == w[i := t];
    }
  }

  /** While nobody else holds a lock, thread `i` goes through its sections up to section `k`. */
  lemma {:induction false} GoTo(acts: seq<Act>, i: nat, k: nat) returns (more: seq<Act>)
    requires Exec(acts).Some? && i < |Exec(acts).value|
    requires var w := Exec(acts).value;
      NoneHeldBut(w, i) && w[i] == Thread(w[i].rpc, w[i].section, 0, false) && w[i].section <= k <= |Sections(w[i].rpc)|
    ensures var w := Exec(acts).value; Exec(more) == Some(w[i := Thread(w[i].rpc, k, 0, false)])
    decreases k - Exec(acts).value[i].section
  {
    var w := Exec(acts).value;
    if w[i].section == k {
      more := acts;
      assert w[i := w[i]] == w;
    } else {
      more := TakeAll(acts, i);
      more := Runs.Then(Next, [], more, Step(i));
      more := LeaveSection(more, i);
      var w' := w[i := Thread(w[i].rpc, w[i].section + 1, 0, false)];
      assert Exec(more).value == w';
      more := GoTo(more, i, k);
      assert w'[i := Thread(w[i].rpc, k, 0, false)] == w[i := Thread(w[i].rpc, k, 0, false)];
    }
  }

  lemma BothArrive(a: Rpc, b: Rpc) returns (acts: seq<Act>)
    ensures Exec(acts) == Some([Thread(a, 0, 0, false), Thread(b, 0, 0, false)])
  {
    acts := Runs.Then(Next, [], [], Arrive(a));
    acts := Runs.Then(Next, [], acts, Arrive(b));
    assert Exec(acts).value == [Thread(a, 0, 0, false), Thread(b, 0, 0, false)];
  }

  /** Two sections that share no lock can be held together: both calls walk up to them first. */
  lemma HeldTogether(a: Rpc, k: nat, b: Rpc, l: nat) returns (acts: seq<Act>)
    requires k < |Sections(a)| && l < |Sections(b)|
    requires ShareNoLock(Sections(a)[k], Sections(b)[l])
    ensures Exec(acts) == Some([Inside(a, k), Inside(b, l)])
  {
    acts := BothArrive(a, b);
    acts := GoTo(acts, 0, k);
    assert Exec(acts).value == [Thread(a, k, 0, false), Thread(b, 0, 0, false)];
    acts := GoTo(acts, 1, l);
    assert Exec(acts).value == [Thread(a, k, 0, false), Thread(b, l, 0, false)];
    acts := TakeAll(acts, 0);
    assert Exec(acts).value == [Inside(a, k), Thread(b, l, 0, false)];
    acts := TakeAll(acts, 1);
    assert Exec(acts).value == [Inside(a, k), Inside(b, l)];
  }

  predicate ShareNoLock(s: seq<Lock>, t: seq<Lock>) {
    forall x :: x in s ==> x !in t
  }

  predicate Reachable(acts: seq<Act>, a: Rpc, k: nat, b: Rpc, l: nat)
    requires k < |Sections(a)| && l < |Sections(b)|
  {
    Exec(acts).Some? && Together(Exec(acts).value, a, k, b, l)
  }

  /** Two critical sections of any two calls can be held together exactly when they share no lock. */
  lemma TogetherExactlyWhen(a: Rpc, k: nat, b: Rpc, l: nat)
    requires k < |Sections(a)| && l < |Sections(b)|
    ensures (exists acts :: Reachable(acts, a, k, b, l)) <==> ShareNoLock(Sections(a)[k], Sections(b)[l])
  {
    if ShareNoLock(Sections(a)[k], Sections(b)[l]) {
      var acts := HeldTogether(a, k, b, l);
      assert Exec(acts).value[0] == Inside(a, k) && Exec(acts).value[1] == Inside(b, l);
      assert Reachable(acts, a, k, b, l);
    }
    forall acts | Reachable(acts, a, k, b, l) ensures ShareNoLock(Sections(a)[k], Sections(b)[l]) {
      TogetherShareNothing(acts, a, k, b, l);
    }
  }

  lemma TogetherShareNothing(acts: seq<Act>, a: Rpc, k: nat, b: Rpc, l: nat)
    requires k < |Sections(a)| && l < |Sections(b)| && Reachable(acts, a, k, b, l)
    ensures ShareNoLock(Sections(a)[k], Sections(b)[l])
  {
    ReachableInv(acts);
    var w := Exec(acts).value;
    var i, j :| 0 <= i < |w| && 0 <= j < |w| && i != j && w[i] == Inside(a, k) && w[j] == Inside(b, l);
    forall x | x in Sections(a)[k] ensures x !in Sections(b)[l] {
      assert HeldBy(w, x, i);
      assert !HeldBy(w, x, j);
    }
  }

  /** The output registry has no single lock: `CloseOutput`, holding the input lock, and `NewOutput`
      change it together, while two calls of `CloseOutput` exclude each other. */
  lemma OutputsNotExclusive()
    ensures exists acts :: Reachable(acts, CloseOutput, 0, NewOutput, 1)
    ensures !exists acts :: Reachable(acts, CloseOutput, 0, CloseOutput, 0)
  {
    TogetherExactlyWhen(CloseOutput, 0, NewOutput, 1);
    TogetherExactlyWhen(CloseOutput, 0, CloseOutput, 0);
    assert InputLocker in Sections(CloseOutput)[0];
  }

  // ---------------------------------------------------------------- who guards what

  /** The section in which a call reads or changes a registry; `None` for a call that does not. */
  function ContextSection(rpc: Rpc): Option<nat> {
    match rpc
    case NewContext => Some(1)
    case StartRecoding => Some(1)
    case RecodingEndedChan => Some(1)
    case CloseContext => Some(0)
    case GetStats => Some(0)
    case Die => Some(0)
    case _ => None
  }

  function InputSection(rpc: Rpc): Option<nat> {
    match rpc
    case NewInput => Some(1)
    case StartRecoding => Some(1)
    case CloseInput => Some(0)
    case GetStream => Some(0)
    case Die => Some(0)
    case _ => None
  }

  function OutputSection(rpc: Rpc): Option<nat> {
    match rpc
    case NewOutput => Some(1)
    case StartRecoding => Some(1)
    case CloseOutput => Some(0)
    case _ => None
  }

  /** The section in which a call fetches the logger. */
  function LoggerSection(rpc: Rpc): Option<nat> {
    if rpc in {SetLoggingLevel, NewInput, NewOutput, NewContext, StartRecoding, RecodingEndedChan}
    then Some(0) else None
  }

  /** Replacing the logger excludes fetching it and replacing it. */
  lemma LoggerGuarded(a: Rpc)
    ensures LoggerSection(a).Some? ==> Exclusive(a, 0, SetLoggingLevel, 1)
    ensures Exclusive(SetLoggingLevel, 1, SetLoggingLevel, 1)
    ensures Takes(a, BeltLocker) <==> LoggerSection(a).Some?
  {
    assert Sections(SetLoggingLevel)[1] == [BeltLocker] && BeltLocker in Sections(SetLoggingLevel)[1];
    TogetherExactlyWhen(SetLoggingLevel, 1, SetLoggingLevel, 1);
    if LoggerSection(a).Some? {
      assert BeltLocker in Sections(a)[0];
      TogetherExactlyWhen(a, 0, SetLoggingLevel, 1);
    }
  }

  /** Any two calls on the context registry exclude each other, and any two on the input registry; on the
      output registry exactly those do that are not `CloseOutput` and `NewOutput`. */
  lemma RegistriesGuarded(a: Rpc, b: Rpc)
    ensures ContextSection(a).Some? && ContextSection(b).Some? ==>
              Exclusive(a, ContextSection(a).value, b, ContextSection(b).value)
    ensures InputSection(a).Some? && InputSection(b).Some? ==>
              Exclusive(a, InputSection(a).value, b, InputSection(b).value)
    ensures OutputSection(a).Some? && OutputSection(b).Some? ==>
              (Exclusive(a, OutputSection(a).value, b, OutputSection(b).value)
               <==> !(a == CloseOutput && b == NewOutput) && !(a == NewOutput && b == CloseOutput))
  {
    if ContextSection(a).Some? && ContextSection(b).Some? {
      TogetherExactlyWhen(a, ContextSection(a).value, b, ContextSection(b).value);
      assert ContextLocker in Sections(a)[ContextSection(a).value];
      assert ContextLocker in Sections(b)[ContextSection(b).value];
    }
    if InputSection(a).Some? && InputSection(b).Some? {
      TogetherExactlyWhen(a, InputSection(a).value, b, InputSection(b).value);
      assert InputLocker in Sections(a)[InputSection(a).value];
      assert InputLocker in Sections(b)[InputSection(b).value];
    }
    if OutputSection(a).Some? && OutputSection(b).Some? {
      OutputsGuarded(a, b);
    }
  }

  lemma OutputsGuarded(a: Rpc, b: Rpc)
    requires OutputSection(a).Some? && OutputSection(b).Some?
    ensures Exclusive(a, OutputSection(a).value, b, OutputSection(b).value)
            <==> !(a == CloseOutput && b == NewOutput) && !(a == NewOutput && b == CloseOutput)
  {
    TogetherExactlyWhen(a, OutputSection(a).value, b, OutputSection(b).value);
    var s, t := Sections(a)[OutputSection(a).value], Sections(b)[OutputSection(b).value];
    assert a != CloseOutput ==> OutputLocker in s;
    assert b != CloseOutput ==> OutputLocker in t;
    assert a != NewOutput ==> InputLocker in s;
    assert b != NewOutput ==> InputLocker in t;
  }

  /** In no reachable world are two different calls inside these sections. */
  ghost predicate Exclusive(a: Rpc, k: nat, b: Rpc, l: nat) {
    k < |Sections(a)| && l < |Sections(b)| && !exists acts :: Reachable(acts, a, k, b, l)
  }

  predicate Takes(rpc: Rpc, l: Lock) {
    var s := Sections(rpc);
    && 1 <= |s| <= 2
    && (l in s[0] || (|s| == 2 && l in s[1]))
  }

  /** Which calls take a lock at all, lock by lock. */
  lemma LockUsers(rpc: Rpc)
    ensures Takes(rpc, ContextLocker) <==> ContextSection(rpc).Some?
    ensures Takes(rpc, InputLocker) <==> InputSection(rpc).Some? || rpc == CloseOutput
    ensures Takes(rpc, OutputLocker) <==> (OutputSection(rpc).Some? && rpc != CloseOutput) || rpc == Die
  {
  }
}
