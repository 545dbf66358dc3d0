/**
 The relay's stream registry as a step relation: publishers install and remove pubsubs under names, each
 change closes the current broadcast channel and installs a fresh one, and any number of `WaitPubsub`
 callers loop on it.
 */
module Relay {
  import opened Wrappers
  import Runs

  type Key = string

  /** Pubsubs and channels are numbered in order of creation; `names[p]` is the name pubsub `p` was
      created with, `closes[c]` counts how often channel `c` was closed. */
  datatype Registry = Registry(names: seq<Key>, streams: map<Key, nat>, channel: nat, closes: seq<nat>)

  const EMPTY := Registry([], map[], 0, [0])

  function Get(r: Registry, key: Key): Option<nat> {
    if key in r.streams then Some(r.streams[key]) else None
  }

  /** Close the installed channel, install a fresh one. */
  function Rotate(r: Registry): Registry {
    r.(closes := (if r.channel < |r.closes| then r.closes[r.channel := r.closes[r.channel] + 1] else r.closes) + [0],
       channel := |r.closes|)
  }

  /** removePubsub; an unknown name is an error and changes nothing. */
  function Remove(r: Registry, key: Key): Registry {
    if key !in r.streams then r
    else Rotate(r).(streams := r.streams - {key})
  }

  /** What `Deregister` of pubsub `p` does to the registry: removal by name as written; the repair R3
      removes only if `p` itself is registered. */
  function RemoveBy(r3: bool, r: Registry, p: nat): Registry {
    if p >= |r.names| || (r3 && Get(r, r.names[p]) != Some(p)) then r else Remove(r, r.names[p])
  }

  /** The second half of `NewPubsub`. */
  function Install(r: Registry, key: Key): Registry {
    Rotate(r).(names := r.names + [key], streams := r.streams[key := |r.names|])
  }

  // ---------------------------------------------------------------- processes

  datatype WaitPc = Starting | Looping | Blocked(ch: nat) | Done(pubsub: nat)

  /** A `WaitPubsub` call; `since` is how many pubsubs existed at its first read. */
  datatype Waiter = Waiter(key: Key, waitForNext: bool, pc: WaitPc, current: Option<nat>, since: nat)

  /** `installing` is the name a `NewPubsub` call, holding the service's lock, has deregistered and is
      about to install. */
  datatype World = World(reg: Registry, installing: Option<Key>, waiters: seq<Waiter>)

  const INITIAL := World(EMPTY, None, [])

  datatype Act =
    | NewBegin(key: Key) | NewEnd
    | Deregister(p: nat) | RemoveByName(key: Key)
    | StartWait(key: Key, waitForNext: bool) | FirstRead(i: nat) | Poll(i: nat) | Wake(i: nat)

  /** Reading the current pubsub once when waiting for the next one. */
  function ReadFirst(r: Registry, x: Waiter): Waiter {
    x.(pc := Looping, current := if x.waitForNext then Get(r, x.key) else None, since := |r.names|)
  }

  /** One pass of the waiting loop up to its select. */
  function PollOnce(r: Registry, x: Waiter): Waiter {
    var p := Get(r, x.key);
    if p.Some? && p != x.current then x.(pc := Done(p.value)) else x.(pc := Blocked(r.channel))
  }

  /** One step; `None` when it is not enabled. `Deregister` reaches the registry without the lock. The
      select of a waiter has no other way out: the context it listens to is a fresh one. */
  function Next(r3: bool, w: World, a: Act): Option<World> {
    match a
    case NewBegin(key) =>
      if w.installing.Some? then None
      else Some(w.(installing := Some(key),
                   reg := if key in w.reg.streams then RemoveBy(r3, w.reg, w.reg.streams[key]) else w.reg))
    case NewEnd =>
      if w.installing.None? then None
      else Some(w.(installing := None, reg := Install(w.reg, w.installing.value)))
    case Deregister(p) => if p >= |w.reg.names| then None else Some(w.(reg := RemoveBy(r3, w.reg, p)))
    case RemoveByName(key) => if w.installing.Some? then None else Some(w.(reg := Remove(w.reg, key)))
    case StartWait(key, waitForNext) =>
      Some(w.(waiters := w.waiters + [Waiter(key, waitForNext, Starting, None, 0)]))
    case FirstRead(i) =>
      if w.installing.Some? || i >= |w.waiters| || w.waiters[i].pc != Starting then None
      else Some(w.(waiters := w.waiters[i := ReadFirst(w.reg, w.waiters[i])]))
    case Poll(i) =>
      if w.installing.Some? || i >= |w.waiters| || w.waiters[i].pc != Looping then None
      else Some(w.(waiters := w.waiters[i := PollOnce(w.reg, w.waiters[i])]))
    case Wake(i) =>
      if i >= |w.waiters| || !w.waiters[i].pc.Blocked?
         || w.waiters[i].pc.ch >= |w.reg.closes| || w.reg.closes[w.waiters[i].pc.ch] == 0 then None
      else Some(w.(waiters := w.waiters[i := w.waiters[i].(pc := Looping)]))
  }

  function Steps(r3: bool): (World, Act) -> Option<World> {
    (w: World, a: Act) => Next(r3, w, a)
  }

  function Exec(r3: bool, w: World, acts: seq<Act>): Option<World> {
    Runs.Exec(Steps(r3), w, acts)
  }

  // ---------------------------------------------------------------- the invariant

  ghost predicate RegistryInv(r: Registry) {
    && r.channel + 1 == |r.closes|
    && r.closes[r.channel] == 0
    && (forall c :: 0 <= c < r.channel ==> r.closes[c] == 1)
    && (forall k :: k in r.streams ==> r.streams[k] < |r.names| && r.names[r.streams[k]] == k)
  }

  ghost predicate WaiterInv(r: Registry, x: Waiter) {
    && x.since <= |r.names|
    && (x.waitForNext || x.current.None?)
    && (x.current.Some? ==> x.current.value < x.since)
    && (x.pc.Blocked? ==>
          && x.pc.ch <= r.channel
          && (x.pc.ch == r.channel ==> Get(r, x.key).None? || Get(r, x.key) == x.current))
    && (x.pc != Starting && x.waitForNext && !x.pc.Done? && Get(r, x.key).Some? && Get(r, x.key).value < x.since ==>
          Get(r, x.key) == x.current)
    && (x.pc.Done? ==>
          && x.pc.pubsub < |r.names| && r.names[x.pc.pubsub] == x.key
          && (x.waitForNext ==> x.pc.pubsub >= x.since))
  }

  ghost predicate Inv(w: World) {
    && RegistryInv(w.reg)
    && forall i :: 0 <= i < |w.waiters| ==> WaiterInv(w.reg, w.waiters[i])
  }

  /** How the registry may change in one step: nothing, or a rotated channel with one name removed or
      bound to a new pubsub. */
  ghost predicate Changes(r: Registry, r': Registry) {
    && RegistryInv(r')
    && r.names <= r'.names
    && r.channel <= r'.channel
    && (r'.channel == r.channel ==> r' == r)
    && (forall k: Key :: Get(r', k).None? || Get(r', k) == Get(r, k) || Get(r', k).value >= |r.names|)
  }

  lemma RemoveChanges(r: Registry, key: Key)
    requires RegistryInv(r)
    ensures Changes(r, Remove(r, key))
  {
  }

  lemma InstallChanges(r: Registry, key: Key)
    requires RegistryInv(r)
    ensures Changes(r, Install(r, key))
  {
  }

  lemma ChangeKeepsWaiters(w: World, r': Registry)
    requires Inv(w) && Changes(w.reg, r')
    ensures Inv(w.(reg := r'))
  {
    forall i | 0 <= i < |w.waiters| ensures WaiterInv(r', w.waiters[i]) {
      assert WaiterInv(w.reg, w.waiters[i]);
      assert Get(r', w.waiters[i].key).None? || Get(r', w.waiters[i].key) == Get(w.reg, w.waiters[i].key)
             || Get(r', w.waiters[i].key).value >= |w.reg.names|;
    }
  }

  lemma WaiterKeepsInv(w: World, i: nat, x: Waiter)
    requires Inv(w) && i < |w.waiters| && WaiterInv(w.reg, x)
    ensures Inv(w.(waiters := w.waiters[i := x]))
  {
  }

  lemma StepKeepsInv(r3: bool, w: World, a: Act)
    requires Inv(w) && Next(r3, w, a).Some?
    ensures Inv(Next(r3, w, a).value)
    ensures w.reg.names <= Next(r3, w, a).value.reg.names
  {
    match a
    case NewBegin(key) =>
      RemoveChanges(w.reg, key);
      ChangeKeepsWaiters(w, Next(r3, w, a).value.reg);
    case NewEnd =>
      InstallChanges(w.reg, w.installing.value);
      ChangeKeepsWaiters(w, Install(w.reg, w.installing.value));
    case Deregister(p) =>
      RemoveChanges(w.reg, w.reg.names[p]);
      ChangeKeepsWaiters(w, RemoveBy(r3, w.reg, p));
    case RemoveByName(key) =>
      RemoveChanges(w.reg, key);
      ChangeKeepsWaiters(w, Remove(w.reg, key));
    case StartWait(_, _) =>
    case FirstRead(i) =>
      assert WaiterInv(w.reg, w.waiters[i]);
      WaiterKeepsInv(w, i, ReadFirst(w.reg, w.waiters[i]));
    case Poll(i) =>
      assert WaiterInv(w.reg, w.waiters[i]);
      WaiterKeepsInv(w, i, PollOnce(w.reg, w.waiters[i]));
    case Wake(i) =>
      assert WaiterInv(w.reg, w.waiters[i]);
      WaiterKeepsInv(w, i, w.waiters[i].(pc := Looping));
  }

  lemma {:induction false} ReachableInv(r3: bool, acts: seq<Act>)
    requires Exec(r3, INITIAL, acts).Some?
    ensures Inv(Exec(r3, INITIAL, acts).value)
  {
    if acts != [] {
      ReachableInv(r3, acts[..|acts| - 1]);
      StepKeepsInv(r3, Exec(r3, INITIAL, acts[..|acts| - 1]).value, acts[|acts| - 1]);
    }
  }

  // ---------------------------------------------------------------- what it promises

  /** What a waiter is to return now: the pubsub bound to its name, but while waiting for the next one only
      one created after its first read. */
  function Due(r: Registry, x: Waiter): Option<nat> {
    var p := Get(r, x.key);
    if p.Some? && x.waitForNext && p.value < x.since then None else p
  }

  /** No lost wakeup: a waiter blocked on an open channel has nothing to return, and one that has can
      wake up, and only those whose channel was closed. The installed channel is open, every earlier one
      was closed exactly once. */
  lemma NoLostWakeup(r3: bool, acts: seq<Act>, i: nat)
    requires Exec(r3, INITIAL, acts).Some? && i < |Exec(r3, INITIAL, acts).value.waiters|
    ensures var w := Exec(r3, INITIAL, acts).value;
      var r, x := w.reg, w.waiters[i];
      && r.channel + 1 == |r.closes| && r.closes[r.channel] == 0
      && (forall c :: 0 <= c < r.channel ==> r.closes[c] == 1)
      && (x.pc.Blocked? ==>
            && x.pc.ch < |r.closes|
            && (r.closes[x.pc.ch] == 0 ==> Get(r, x.key).None? || Get(r, x.key) == x.current)
            && (r.closes[x.pc.ch] == 0 ==> Due(r, x) == None)
            && (Next(r3, w, Wake(i)).Some? <==> r.closes[x.pc.ch] > 0)
            && (Get(r, x.key).Some? && Get(r, x.key) != x.current ==> Next(r3, w, Wake(i)).Some?))
  {
    ReachableInv(r3, acts);
    assert WaiterInv(Exec(r3, INITIAL, acts).value.reg, Exec(r3, INITIAL, acts).value.waiters[i]);
  }

  /** A pass of the loop returns exactly the pubsub that is due, and else blocks on the installed channel;
      a plain waiter returns whatever is bound to its name. */
  lemma PollAnswers(r3: bool, acts: seq<Act>, i: nat)
    requires Exec(r3, INITIAL, acts).Some? && i < |Exec(r3, INITIAL, acts).value.waiters|
    requires var w := Exec(r3, INITIAL, acts).value; w.installing.None? && w.waiters[i].pc == Looping
    ensures var w := Exec(r3, INITIAL, acts).value;
      var x, w' := w.waiters[i], Next(r3, w, Poll(i));
      && w'.Some? && i < |w'.value.waiters| && w'.value.reg == w.reg
      && w'.value.waiters[i].pc
         == (if Due(w.reg, x).Some? then Done(Due(w.reg, x).value) else Blocked(w.reg.channel))
      && (!x.waitForNext ==> Due(w.reg, x) == Get(w.reg, x.key))
  {
    ReachableInv(r3, acts);
    assert WaiterInv(Exec(r3, INITIAL, acts).value.reg, Exec(r3, INITIAL, acts).value.waiters[i]);
  }

  predicate OnlyWaiter(acts: seq<Act>, i: nat) {
    forall k :: 0 <= k < |acts| ==> acts[k] == FirstRead(i) || acts[k] == Poll(i) || acts[k] == Wake(i)
  }

  /** A waiter that something is due for can return it, by its own steps, at most three. */
  lemma WaiterCanReturn(r3: bool, acts: seq<Act>, i: nat) returns (more: seq<Act>)
    requires Exec(r3, INITIAL, acts).Some? && i < |Exec(r3, INITIAL, acts).value.waiters|
    requires var w := Exec(r3, INITIAL, acts).value;
      var x := w.waiters[i];
      && w.installing.None? && Due(w.reg, x).Some? && !x.pc.Done?
      && (x.pc == Starting ==> !x.waitForNext)
    ensures |more| <= 3 && OnlyWaiter(more, i) && Exec(r3, INITIAL, acts + more).Some?
    ensures var w, w' := Exec(r3, INITIAL, acts).value, Exec(r3, INITIAL, acts + more).value;
      i < |w'.waiters| && w'.waiters[i].pc == Done(Due(w.reg, w.waiters[i]).value)
  {
    var x := Exec(r3, INITIAL, acts).value.waiters[i];
    if x.pc == Looping {
      PollAnswers(r3, acts, i);
      more := [Poll(i)];
      var done := Runs.Then(Steps(r3), INITIAL, acts, Poll(i));
    } else {
      var a := if x.pc == Starting then FirstRead(i) else Wake(i);
      NoLostWakeup(r3, acts, i);
      var looping := Runs.Then(Steps(r3), INITIAL, acts, a);
      PollAnswers(r3, looping, i);
      more := [a] + [Poll(i)];
      var done := Runs.Then(Steps(r3), INITIAL, looping, Poll(i));
      assert acts + more == looping + [Poll(i)];
    }
  }

  /** Every step closes the installed channel exactly when it changes what is registered. */
  lemma ChannelChangesExactlyWhen(r3: bool, acts: seq<Act>, a: Act)
    requires Exec(r3, INITIAL, acts).Some? && Next(r3, Exec(r3, INITIAL, acts).value, a).Some?
    ensures var w, w' := Exec(r3, INITIAL, acts).value, Next(r3, Exec(r3, INITIAL, acts).value, a).value;
      && (w'.reg.channel == w.reg.channel <==> w'.reg.streams == w.reg.streams)
      && w'.reg.channel <= w.reg.channel + 1
  {
    ReachableInv(r3, acts);
    var w := Exec(r3, INITIAL, acts).value;
    StepKeepsInv(r3, w, a);
    var w' := Next(r3, w, a).value;
    if a == NewEnd {
      assert w'.reg.streams[w.installing.value] == |w.reg.names|;
    }
  }

  /** The name the last `NewPubsub` call asked for. */
  function Asked(acts: seq<Act>): Key {
    if acts == [] then ""
    else if acts[|acts| - 1].NewBegin? then acts[|acts| - 1].key
    else Asked(acts[..|acts| - 1])
  }

  /** The names of the pubsubs the calls created, in order. */
  function Names(acts: seq<Act>): seq<Key> {
    if acts == [] then []
    else
      var front := acts[..|acts| - 1];
      if acts[|acts| - 1].NewEnd? then Names(front) + [Asked(front)] else Names(front)
  }

  /** Call `n` creates pubsub `p` under the name. */
  predicate Creates(acts: seq<Act>, n: nat, key: Key, p: nat) {
    n < |acts| && acts[n] == NewEnd && Asked(acts[..n]) == key && p == |Names(acts[..n])|
  }

  /** The call takes pubsub `p` from the name: it replaces or removes the name, or deregisters a pubsub
      of that name; under R3 the latter must be `p` itself. */
  predicate TakesOut(r3: bool, names: seq<Key>, a: Act, key: Key, p: nat) {
    match a
    case NewBegin(k) => k == key
    case RemoveByName(k) => k == key
    case Deregister(q) => q < |names| && names[q] == key && (r3 ==> q == p)
    case _ => false
  }

  /** No call after the `n`-th takes the pubsub out. */
  predicate Stays(r3: bool, acts: seq<Act>, n: nat, key: Key, p: nat) {
    forall m :: n < m < |acts| ==> !TakesOut(r3, Names(acts[..m]), acts[m], key, p)
  }

  /** Pubsub `p` was created under the name, and no later call took it out. */
  ghost predicate Lives(r3: bool, acts: seq<Act>, key: Key, p: nat) {
    exists n: nat :: Creates(acts, n, key, p) && Stays(r3, acts, n, key, p)
  }

  lemma LivesSnoc(r3: bool, front: seq<Act>, a: Act, key: Key, p: nat)
    ensures Lives(r3, front + [a], key, p)
      <==> || (a == NewEnd && Asked(front) == key && p == |Names(front)|)
           || (Lives(r3, front, key, p) && !TakesOut(r3, Names(front), a, key, p))
  {
    var acts := front + [a];
    forall n: nat | n < |front|
      ensures Creates(acts, n, key, p) <==> Creates(front, n, key, p)
      ensures Stays(r3, acts, n, key, p)
              <==> Stays(r3, front, n, key, p) && !TakesOut(r3, Names(front), a, key, p)
    {
      assert acts[..n] == front[..n];
      StaysSnoc(r3, front, a, n, key, p);
    }
    assert acts[..|front|] == front && acts[|front|] == a;
    if Creates(acts, |front|, key, p) {
      assert Stays(r3, acts, |front|, key, p);
    }
  }

  lemma StaysSnoc(r3: bool, front: seq<Act>, a: Act, n: nat, key: Key, p: nat)
    requires n < |front|
    ensures Stays(r3, front + [a], n, key, p)
            <==> Stays(r3, front, n, key, p) && !TakesOut(r3, Names(front), a, key, p)
  {
    var acts := front + [a];
    assert acts[..|front|] == front && acts[|front|] == a;
    assert forall m :: 0 <= m < |front| ==> acts[..m] == front[..m];
  }

  /** The registry is a fold over the calls made: a name is bound to the pubsub last created under it,
      unless a later call took that out; and a registered pubsub has the name it is found under. */
  lemma RegistryIsFold(r3: bool, acts: seq<Act>, key: Key, p: nat)
    requires Exec(r3, INITIAL, acts).Some?
    ensures var r := Exec(r3, INITIAL, acts).value.reg;
      && r.names == Names(acts)
      && (Get(r, key) == Some(p) <==> Lives(r3, acts, key, p))
      && (key in r.streams ==> r.streams[key] < |r.names| && r.names[r.streams[key]] == key)
  {
    ReachableInv(r3, acts);
    FollowsCalls(r3, acts, key, p);
  }

  lemma {:induction false} FollowsCalls(r3: bool, acts: seq<Act>, key: Key, p: nat)
    requires Exec(r3, INITIAL, acts).Some?
    ensures Exec(r3, INITIAL, acts).value.reg.names == Names(acts)
    ensures Get(Exec(r3, INITIAL, acts).value.reg, key) == Some(p) <==> Lives(r3, acts, key, p)
  {
    NamesFollow(r3, acts);
    if acts != [] {
      var front, a := acts[..|acts| - 1], acts[|acts| - 1];
      FollowsCalls(r3, front, key, p);
      NamesFollow(r3, front);
      ReachableInv(r3, front);
      assert front + [a] == acts;
      LivesSnoc(r3, front, a, key, p);
      StepBinds(r3, Exec(r3, INITIAL, front).value, a, key, p);
    }
  }

  lemma {:induction false} NamesFollow(r3: bool, acts: seq<Act>)
    requires Exec(r3, INITIAL, acts).Some?
    ensures var w := Exec(r3, INITIAL, acts).value;
      && w.reg.names == Names(acts)
      && (w.installing.Some? ==> w.installing.value == Asked(acts) && Get(w.reg, w.installing.value).None?)
  {
    if acts != [] {
      var front, a := acts[..|acts| - 1], acts[|acts| - 1];
      NamesFollow(r3, front);
      ReachableInv(r3, front);
      assert front + [a] == acts;
      StepNames(r3, Exec(r3, INITIAL, front).value, front, a);
    }
  }

  lemma StepNames(r3: bool, w: World, front: seq<Act>, a: Act)
    requires RegistryInv(w.reg) && Next(r3, w, a).Some? && w.reg.names == Names(front)
    requires w.installing.Some? ==> w.installing.value == Asked(front) && Get(w.reg, w.installing.value).None?
    ensures var w', acts := Next(r3, w, a).value, front + [a];
      && w'.reg.names == Names(acts)
      && (w'.installing.Some? ==> w'.installing.value == Asked(acts) && Get(w'.reg, w'.installing.value).None?)
  {
    assert (front + [a])[..|front|] == front;
  }

  lemma StepBinds(r3: bool, w: World, a: Act, key: Key, p: nat)
    requires RegistryInv(w.reg) && Next(r3, w, a).Some?
    requires w.installing.Some? ==> Get(w.reg, w.installing.value).None?
    ensures Get(Next(r3, w, a).value.reg, key) == Some(p)
      <==> || (a == NewEnd && w.installing.Some? && w.installing.value == key && p == |w.reg.names|)
           || (Get(w.reg, key) == Some(p) && !TakesOut(r3, w.reg.names, a, key, p))
  {
  }

  /** ABA-free waiting: what a call waiting for the next pubsub returns has the name asked for and was
      created after the call's first read. */
  lemma WaitReturnsNewPubsub(r3: bool, acts: seq<Act>, i: nat)
    requires Exec(r3, INITIAL, acts).Some? && i < |Exec(r3, INITIAL, acts).value.waiters|
    ensures var w := Exec(r3, INITIAL, acts).value;
      var x := w.waiters[i];
      x.pc.Done? ==>
        && x.pc.pubsub < |w.reg.names| && w.reg.names[x.pc.pubsub] == x.key
        && (x.waitForNext ==> x.pc.pubsub >= x.since)
  {
    ReachableInv(r3, acts);
    assert WaiterInv(Exec(r3, INITIAL, acts).value.reg, Exec(r3, INITIAL, acts).value.waiters[i]);
  }

  /** `since` is what it claims: set by the first read to the number of pubsubs then, and kept. */
  lemma SinceIsFirstRead(r3: bool, w: World, a: Act, i: nat)
    requires Next(r3, w, a).Some? && i < |w.waiters|
    ensures var w' := Next(r3, w, a).value;
      && i < |w'.waiters|
      && w'.waiters[i].key == w.waiters[i].key && w'.waiters[i].waitForNext == w.waiters[i].waitForNext
      && (a == FirstRead(i) ==> w'.waiters[i].since == |w.reg.names|)
      && (a == FirstRead(i) && w.waiters[i].waitForNext ==> w'.waiters[i].current == Get(w.reg, w.waiters[i].key))
      && (w.waiters[i].pc != Starting ==> w'.waiters[i].current == w.waiters[i].current)
      && (w.waiters[i].pc != Starting ==> w'.waiters[i].since == w.waiters[i].since)
      && (w.waiters[i].pc == Starting && w'.waiters[i].pc != Starting ==> a == FirstRead(i))
  {
  }

  /** A call of `WaitPubsub` waits for what it was asked for. */
  lemma WaitsAsAsked(r3: bool, w: World, key: Key, waitForNext: bool)
    ensures var w' := Next(r3, w, StartWait(key, waitForNext));
      && w'.Some? && |w'.value.waiters| == |w.waiters| + 1
      && var x := w'.value.waiters[|w.waiters|];
      x.key == key && x.waitForNext == waitForNext && x.pc == Starting
  {
  }

  /** Removed pubsubs never come back. */
  lemma {:induction false} NeverRegisteredAgain(r3: bool, acts: seq<Act>, more: seq<Act>, p: nat)
    requires Exec(r3, INITIAL, acts).Some? && Exec(r3, INITIAL, acts + more).Some?
    requires p < |Exec(r3, INITIAL, acts).value.reg.names| && p !in Exec(r3, INITIAL, acts).value.reg.streams.Values
    ensures p < |Exec(r3, INITIAL, acts + more).value.reg.names|
    ensures p !in Exec(r3, INITIAL, acts + more).value.reg.streams.Values
    decreases |more|
  {
    if more == [] {
      assert acts + more == acts;
    } else {
      var front := more[..|more| - 1];
      assert (acts + more)[..|acts + more| - 1] == acts + front;
      NeverRegisteredAgain(r3, acts, front, p);
      ReachableInv(r3, acts + front);
      StaysUnregistered(r3, Exec(r3, INITIAL, acts + front).value, more[|more| - 1], p);
    }
  }

  lemma StaysUnregistered(r3: bool, w: World, a: Act, p: nat)
    requires Inv(w) && Next(r3, w, a).Some?
    requires p < |w.reg.names| && p !in w.reg.streams.Values
    ensures p < |Next(r3, w, a).value.reg.names| && p !in Next(r3, w, a).value.reg.streams.Values
  {
    StepKeepsInv(r3, w, a);
    var r' := Next(r3, w, a).value.reg;
    forall k | k in r'.streams ensures r'.streams[k] != p {
      assert k in w.reg.streams && r'.streams[k] == w.reg.streams[k] ==> w.reg.streams[k] in w.reg.streams.Values;
    }
  }

  // ---------------------------------------------------------------- stale publishers

  /** A publisher's deregistration leaves the registry alone exactly when: as written, its name is
      free; under R3, its own pubsub is not the registered one. */
  lemma DeregisterHarmlessExactlyWhen(r3: bool, r: Registry, p: nat)
    requires RegistryInv(r) && p < |r.names|
    ensures RemoveBy(r3, r, p).streams == r.streams
            <==> if r3 then Get(r, r.names[p]) != Some(p) else r.names[p] !in r.streams
  {
    var k := r.names[p];
    if k in r.streams {
      assert k !in (r.streams - {k});
    }
  }

  /** Whatever other pubsub is registered, wherever, stays when pubsub `p` is deregistered. */
  ghost predicate TouchesNoOther(r3: bool, r: Registry, p: nat) {
    forall k: Key, q: nat :: q != p && Get(r, k) == Some(q) ==> Get(RemoveBy(r3, r, p), k) == Some(q)
  }

  /** As written exactly when the name is free or bound to `p` itself; under R3 always. */
  lemma TouchesNoOtherExactlyWhen(r: Registry, p: nat)
    requires RegistryInv(r) && p < |r.names|
    ensures TouchesNoOther(false, r, p) <==> Get(r, r.names[p]).None? || Get(r, r.names[p]) == Some(p)
    ensures TouchesNoOther(true, r, p)
  {
    var k := r.names[p];
    if Get(r, k).Some? && Get(r, k) != Some(p) {
      assert Get(RemoveBy(false, r, p), k) == None;
      assert !TouchesNoOther(false, r, p);
    }
  }

  /** After any run, in terms of the calls made: as written a deregistration touches no other pubsub
      exactly when none was created under the name of `p` and is still living; under R3 always. */
  lemma DeregistrationTouchesNoOther(acts: seq<Act>, p: nat, r3: bool)
    requires Exec(r3, INITIAL, acts).Some? && p < |Names(acts)|
    ensures var r := Exec(r3, INITIAL, acts).value.reg;
      TouchesNoOther(r3, r, p) <==> r3 || forall q :: q != p ==> !Lives(r3, acts, Names(acts)[p], q)
  {
    var r, k := Exec(r3, INITIAL, acts).value.reg, Names(acts)[p];
    ReachableInv(r3, acts);
    NamesFollow(r3, acts);
    TouchesNoOtherExactlyWhen(r, p);
    forall q: nat ensures Get(r, k) == Some(q) <==> Lives(r3, acts, k, q) {
      RegistryIsFold(r3, acts, k, q);
    }
    if Get(r, k).Some? {
      assert Lives(r3, acts, k, Get(r, k).value);
    }
  }

  /** Under R3 a successor stays registered until it is deregistered, replaced or removed by name,
      whatever its predecessors do. */
  lemma {:induction false} SuccessorSurvives(acts: seq<Act>, more: seq<Act>, key: Key)
    requires Exec(true, INITIAL, acts).Some? && Exec(true, INITIAL, acts + more).Some?
    requires var w := Exec(true, INITIAL, acts).value;
      && key in w.reg.streams && w.installing != Some(key)
      && forall i :: 0 <= i < |more| ==>
           && more[i] != Deregister(w.reg.streams[key])
           && more[i] != RemoveByName(key) && more[i] != NewBegin(key)
    ensures var w, w' := Exec(true, INITIAL, acts).value, Exec(true, INITIAL, acts + more).value;
      Get(w'.reg, key) == Get(w.reg, key) && w'.installing != Some(key)
    decreases |more|
  {
    if more == [] {
      assert acts + more == acts;
    } else {
      var front := more[..|more| - 1];
      assert (acts + more)[..|acts + more| - 1] == acts + front;
      SuccessorSurvives(acts, front, key);
      ReachableInv(true, acts + front);
      assert more[|more| - 1] == (acts + more)[|acts + more| - 1];
      SuccessorStep(Exec(true, INITIAL, acts + front).value, more[|more| - 1], key);
    }
  }

  lemma SuccessorStep(w: World, a: Act, key: Key)
    requires RegistryInv(w.reg) && Next(true, w, a).Some?
    requires key in w.reg.streams && w.installing != Some(key)
    requires a != Deregister(w.reg.streams[key]) && a != RemoveByName(key) && a != NewBegin(key)
    ensures var w' := Next(true, w, a).value;
      Get(w'.reg, key) == Get(w.reg, key) && w'.installing != Some(key)
  {
  }

  /** As written the late `Deregister` of a replaced publisher removes its successor. */
  lemma StaleDeregisterAsWritten(key: Key) returns (acts: seq<Act>)
    ensures Exec(false, INITIAL, acts).Some? && Exec(false, INITIAL, acts + [Deregister(0)]).Some?
    ensures Get(Exec(false, INITIAL, acts).value.reg, key) == Some(1)
    ensures Get(Exec(false, INITIAL, acts + [Deregister(0)]).value.reg, key) == None
  {
    acts := PublishOnce([], key);
    acts := PublishOnce(acts, key);
    var late := Runs.Then(Steps(false), INITIAL, acts, Deregister(0));
  }

  lemma PublishOnce(acts: seq<Act>, key: Key) returns (more: seq<Act>)
    requires Exec(false, INITIAL, acts).Some? && Exec(false, INITIAL, acts).value.installing.None?
    ensures Exec(false, INITIAL, more).Some?
    ensures var w, w' := Exec(false, INITIAL, acts).value, Exec(false, INITIAL, more).value;
      w'.reg.names == w.reg.names + [key] && w'.installing.None? && Get(w'.reg, key) == Some(|w.reg.names|)
  {
    more := Runs.Then(Steps(false), INITIAL, acts, NewBegin(key));
    more := Runs.Then(Steps(false), INITIAL, more, NewEnd);
  }
}
