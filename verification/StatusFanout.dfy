/**
 The status fan-out of StrmOutGrpcServer: streamStatusFromNative broadcasts under statusLock to the
 registered observers, streamoutWatchStatus registers an observer and primes it under the same
 lock, and clients cancel at any time without the lock.
 */
module StatusFanout {
  import opened Options

  const STREAM_STATUS_UNSPECIFIED: int := 0

  datatype Msg = Msg(id: int, code: int, info: string)

  /** One StreamoutWatchStatus call.  `joined` is the number of broadcasts before its registration,
      `log` what the client received, `failed` whether a send to it threw. */
  datatype Sub = Sub(id: int, cancelled: bool, failed: bool, joined: nat, log: seq<Msg>)

  /** A client that cancels while a broadcast runs, its cancel handler running at once or later. */
  datatype Departure = Departure(sub: nat, handlerRan: bool)

  /** What the holder of statusLock has left to do. */
  datatype Lock =
    | Unlocked
    | Broadcasting(msg: Msg, rest: seq<nat>)
    | Priming(sub: nat, snapshot: Msg)

  datatype State = State(
    lastStatusById: map<int, Msg>,
    observers: seq<nat>,   // streamStatusObservers, by position in subs
    subs: seq<Sub>,
    lock: Lock,
    history: seq<Msg>)     // every broadcast begun so far

  datatype Action =
    | Report(id: int, code: int, text: Option<string>)
    | Deliver(ok: bool)
    | EndBroadcast
    | Subscribe(id: int, alreadyCancelled: bool)
    | Prime(ok: bool)
    | Cancel(sub: nat)
    | CancelHandler(sub: nat)

  function Unspecified(id: int): Msg {
    Msg(id, STREAM_STATUS_UNSPECIFIED, "No status reported yet")
  }

  function CurrentStatusForId(last: map<int, Msg>, id: int): Msg {
    if id in last then last[id] else Unspecified(id)
  }

  /** List.remove: the first occurrence goes. */
  function Remove(s: seq<nat>, x: nat): (r: seq<nat>)
    ensures x !in s ==> r == s
    ensures forall y :: y in r ==> y in s
    ensures forall y :: y in s && y != x ==> y in r
    ensures Distinct(s) ==> Distinct(r) && x !in r
  {
    if s == [] then []
    else if s[0] == x then
      assert Distinct(s) ==> x !in s[1..];
      s[1..]
    else
      var r := Remove(s[1..], x);
      assert Distinct(s) ==> s[0] !in s[1..] && Distinct(s[1..]);
      assert forall y :: y in s ==> y == s[0] || y in s[1..];
      [s[0]] + r
  }

  predicate Distinct(s: seq<nat>) {
    forall i, j :: 0 <= i < j < |s| ==> s[i] != s[j]
  }

  /** wrappedObserver.onNext: a cancelled or failing client is taken off the list. */
  function OnNext(s: State, u: nat, msg: Msg, ok: bool): State
    requires u < |s.subs|
  {
    var sub := s.subs[u];
    if sub.cancelled then s.(observers := Remove(s.observers, u))
    else if ok then s.(subs := s.subs[u := sub.(log := sub.log + [msg])])
    else s.(subs := s.subs[u := sub.(failed := true)], observers := Remove(s.observers, u))
  }

  predicate Enabled(s: State, a: Action) {
    match a
    case Report(_, _, _) => s.lock.Unlocked?
    case Deliver(_) => s.lock.Broadcasting? && s.lock.rest != [] && s.lock.rest[0] < |s.subs|
    case EndBroadcast => s.lock.Broadcasting? && s.lock.rest == []
    case Subscribe(_, _) => s.lock.Unlocked?
    case Prime(_) => s.lock.Priming? && s.lock.sub < |s.subs|
    case Cancel(u) => u < |s.subs|
    case CancelHandler(u) => u < |s.subs| && s.subs[u].cancelled
  }

  function Next(s: State, a: Action): State
    requires Enabled(s, a)
  {
    match a
    case Report(id, code, text) =>
      var msg := Msg(id, code, text.GetOr(""));
      s.(lastStatusById := s.lastStatusById[id := msg], history := s.history + [msg],
         lock := Broadcasting(msg, s.observers))
    case Deliver(ok) =>
      OnNext(s, s.lock.rest[0], s.lock.msg, ok).(lock := Broadcasting(s.lock.msg, s.lock.rest[1..]))
    case EndBroadcast => s.(lock := Unlocked)
    case Subscribe(id, alreadyCancelled) =>
      s.(observers := s.observers + [|s.subs|],
         subs := s.subs + [Sub(id, alreadyCancelled, false, |s.history|, [])],
         lock := Priming(|s.subs|, CurrentStatusForId(s.lastStatusById, id)))
    case Prime(ok) => OnNext(s, s.lock.sub, s.lock.snapshot, ok).(lock := Unlocked)
    case Cancel(u) => s.(subs := s.subs[u := s.subs[u].(cancelled := true)])
    case CancelHandler(u) => s.(observers := Remove(s.observers, u))
  }

  const START := State(map[], [], [], Unlocked, [])

  predicate ValidRun(s: State, run: seq<Action>)
    decreases run
  {
    run == [] || (Enabled(s, run[0]) && ValidRun(Next(s, run[0]), run[1..]))
  }

  function Run(s: State, run: seq<Action>): State
    requires ValidRun(s, run)
    decreases run
  {
    if run == [] then s else Run(Next(s, run[0]), run[1..])
  }

  // ---------------------------------------------------------------------------
  // What a subscriber should see
  // ---------------------------------------------------------------------------

  /** The last message of a sequence that carries the id, or UNSPECIFIED. */
  function Latest(msgs: seq<Msg>, id: int): Msg {
    if msgs == [] then Unspecified(id)
    else if msgs[|msgs| - 1].id == id then msgs[|msgs| - 1]
    else Latest(msgs[..|msgs| - 1], id)
  }

  /** The snapshot at registration, then every broadcast from there up to the n-th, in order. */
  function Ideal(sub: Sub, history: seq<Msg>, n: nat): seq<Msg>
    requires sub.joined <= n <= |history|
  {
    [Latest(history[..sub.joined], sub.id)] + history[sub.joined..n]
  }

  /** The client got nothing yet, or exactly the ideal log of some point in the past. */
  ghost predicate SawPrefix(sub: Sub, history: seq<Msg>) {
    && sub.joined <= |history|
    && (sub.log == [] || exists n :: sub.joined <= n <= |history| && sub.log == Ideal(sub, history, n))
  }

  /** Where subscriber u stands: not primed, not yet visited by the running broadcast, or level. */
  ghost predicate Level(s: State, u: nat)
    requires u < |s.subs|
  {
    var sub := s.subs[u];
    && sub.joined <= |s.history|
    && if s.lock == Priming(u, Latest(s.history, sub.id)) then sub.log == [] && sub.joined == |s.history|
       else if s.lock.Broadcasting? && u in s.lock.rest then
         sub.joined < |s.history| && sub.log == Ideal(sub, s.history, |s.history| - 1)
       else sub.log == Ideal(sub, s.history, |s.history|)
  }

  ghost predicate LockInv(s: State) {
    match s.lock
    case Unlocked => true
    case Broadcasting(msg, rest) =>
      && Distinct(rest) && s.history != [] && msg == s.history[|s.history| - 1]
      && forall u :: u in rest ==> u < |s.subs| && (u !in s.observers ==> s.subs[u].cancelled)
    case Priming(u, snapshot) =>
      && u < |s.subs| && snapshot == Latest(s.history, s.subs[u].id)
      && s.subs[u].joined == |s.history| && s.subs[u].log == []
      && (u !in s.observers ==> s.subs[u].cancelled)
  }

  ghost predicate Inv(s: State) {
    && Distinct(s.observers)
    && (forall u :: u in s.observers ==> u < |s.subs|)
    && (forall id :: CurrentStatusForId(s.lastStatusById, id) == Latest(s.history, id))
    && LockInv(s)
    && (forall u: nat :: u < |s.subs| ==> SawPrefix(s.subs[u], s.history))
    && (forall u: nat :: u < |s.subs| && u in s.observers ==> Level(s, u))
    && (forall u: nat :: u < |s.subs| && !s.subs[u].cancelled && !s.subs[u].failed ==> u in s.observers)
  }

  // ---------------------------------------------------------------------------
  // Preservation
  // ---------------------------------------------------------------------------

  lemma IdealStable(sub: Sub, h: seq<Msg>, x: Msg, n: nat)
    requires sub.joined <= n <= |h|
    ensures Ideal(sub, h + [x], n) == Ideal(sub, h, n)
  {
    assert (h + [x])[..sub.joined] == h[..sub.joined];
    assert (h + [x])[sub.joined..n] == h[sub.joined..n];
  }

  lemma IdealExtend(sub: Sub, h: seq<Msg>)
    requires h != [] && sub.joined < |h|
    ensures Ideal(sub, h, |h| - 1) + [h[|h| - 1]] == Ideal(sub, h, |h|)
  {
    assert h[sub.joined..] == h[sub.joined..|h| - 1] + [h[|h| - 1]];
  }

  lemma SawPrefixStable(sub: Sub, h: seq<Msg>, x: Msg)
    requires SawPrefix(sub, h)
    ensures SawPrefix(sub, h + [x])
  {
    if sub.log != [] {
      var n :| sub.joined <= n <= |h| && sub.log == Ideal(sub, h, n);
      IdealStable(sub, h, x, n);
    }
  }

  lemma ReportKeeps(s: State, id: int, code: int, text: Option<string>)
    requires Inv(s) && s.lock.Unlocked?
    ensures Inv(Next(s, Report(id, code, text)))
  {
    var t := Next(s, Report(id, code, text));
    var msg := Msg(id, code, text.GetOr(""));
    assert t.history[..|s.history|] == s.history;
    forall u: nat | u < |t.subs|
      ensures SawPrefix(t.subs[u], t.history)
      ensures u in t.observers ==> Level(t, u)
    {
      SawPrefixStable(s.subs[u], s.history, msg);
      if u in s.observers {
        assert Level(s, u);
        IdealStable(s.subs[u], s.history, msg, |s.history|);
      }
    }
  }

  lemma SubscribeKeeps(s: State, id: int, alreadyCancelled: bool)
    requires Inv(s) && s.lock.Unlocked?
    ensures Inv(Next(s, Subscribe(id, alreadyCancelled)))
  {
    var t := Next(s, Subscribe(id, alreadyCancelled));
    forall i | 0 <= i < |s.observers| ensures s.observers[i] != |s.subs| {
      assert s.observers[i] in s.observers;
    }
    forall u: nat | u < |t.subs|
      ensures SawPrefix(t.subs[u], t.history)
      ensures u in t.observers ==> Level(t, u)
      ensures !t.subs[u].cancelled && !t.subs[u].failed ==> u in t.observers
    {
      if u < |s.subs| {
        assert t.subs[u] == s.subs[u];
        if u in s.observers { assert Level(s, u); }
      } else {
        assert t.observers[|s.observers|] == u;
      }
    }
  }

  /** The client whose turn it is catches up, or leaves, or had left before. */
  lemma DeliverTarget(s: State, ok: bool)
    requires Inv(s) && Enabled(s, Deliver(ok))
    ensures var t, v := Next(s, Deliver(ok)), s.lock.rest[0];
            && SawPrefix(t.subs[v], t.history)
            && v !in t.lock.rest
            && (v in t.observers ==> Level(t, v))
            && (!t.subs[v].cancelled && !t.subs[v].failed ==> v in t.observers)
  {
    var t, v := Next(s, Deliver(ok)), s.lock.rest[0];
    assert v in s.lock.rest;
    assert SawPrefix(s.subs[v], s.history);
    if !s.subs[v].cancelled && ok {
      assert Level(s, v);
      IdealExtend(s.subs[v], s.history);
      assert t.subs[v].log == Ideal(t.subs[v], t.history, |t.history|);
    } else if s.subs[v].log != [] {
      var n :| s.subs[v].joined <= n <= |s.history| && s.subs[v].log == Ideal(s.subs[v], s.history, n);
      assert t.subs[v].log == Ideal(t.subs[v], t.history, n);
    }
  }

  /** The other subscribers keep their places. */
  lemma DeliverPlaces(s: State, ok: bool, u: nat)
    requires Inv(s) && Enabled(s, Deliver(ok)) && u < |s.subs| && u != s.lock.rest[0]
    ensures var t := Next(s, Deliver(ok));
            && t.history == s.history && |t.subs| == |s.subs| && t.subs[u] == s.subs[u]
            && t.lock == Broadcasting(s.lock.msg, s.lock.rest[1..])
            && (u in t.observers <==> u in s.observers)
            && (u in t.lock.rest <==> u in s.lock.rest)
  {
    var rest := s.lock.rest;
    assert rest == [rest[0]] + rest[1..];
  }

  lemma DeliverOther(s: State, ok: bool, u: nat)
    requires Inv(s) && Enabled(s, Deliver(ok)) && u < |s.subs| && u != s.lock.rest[0]
    ensures var t := Next(s, Deliver(ok));
            && t.subs[u] == s.subs[u]
            && (u in t.observers <==> u in s.observers)
            && (u in t.lock.rest <==> u in s.lock.rest)
            && (u in t.observers ==> Level(t, u))
  {
    DeliverPlaces(s, ok, u);
    if u in s.observers { assert Level(s, u); }
  }

  lemma DeliverLock(s: State, ok: bool)
    requires Inv(s) && Enabled(s, Deliver(ok))
    ensures LockInv(Next(s, Deliver(ok)))
  {
    var t := Next(s, Deliver(ok));
    assert forall u :: u in t.lock.rest ==> u in s.lock.rest;
    forall u | u in t.lock.rest
      ensures u < |t.subs| && (u !in t.observers ==> t.subs[u].cancelled)
    {
      DeliverTarget(s, ok);
      DeliverOther(s, ok, u);
    }
  }

  lemma DeliverKeeps(s: State, ok: bool)
    requires Inv(s) && Enabled(s, Deliver(ok))
    ensures Inv(Next(s, Deliver(ok)))
  {
    var t := Next(s, Deliver(ok));
    DeliverTarget(s, ok);
    forall u: nat | u < |t.subs| && u != s.lock.rest[0]
      ensures t.subs[u] == s.subs[u] && (u in t.observers ==> Level(t, u))
      ensures u in t.observers <==> u in s.observers
    {
      DeliverOther(s, ok, u);
    }
    DeliverLock(s, ok);
  }

  lemma PrimeKeeps(s: State, ok: bool)
    requires Inv(s) && s.lock.Priming?
    ensures Inv(Next(s, Prime(ok)))
  {
    var t := Next(s, Prime(ok));
    var v := s.lock.sub;
    assert s.history[..|s.history|] == s.history;
    forall u: nat | u < |t.subs|
      ensures SawPrefix(t.subs[u], t.history)
      ensures u in t.observers ==> Level(t, u)
      ensures !t.subs[u].cancelled && !t.subs[u].failed ==> u in t.observers
    {
      assert SawPrefix(s.subs[u], s.history);
      if u == v {
        if !s.subs[v].cancelled && ok {
          assert t.subs[v].log == Ideal(t.subs[v], t.history, |t.history|);
        }
      } else {
        assert t.subs[u] == s.subs[u];
        if u in t.observers { assert Level(s, u); }
      }
    }
  }

  /** A cancelled flag changes nothing about what a client has seen. */
  lemma CancelSaw(sub: Sub, history: seq<Msg>)
    requires SawPrefix(sub, history)
    ensures SawPrefix(sub.(cancelled := true), history)
  {
    if sub.log != [] {
      var n :| sub.joined <= n <= |history| && sub.log == Ideal(sub, history, n);
      assert Ideal(sub.(cancelled := true), history, n) == Ideal(sub, history, n);
    }
  }

  lemma CancelKeeps(s: State, v: nat)
    requires Inv(s) && v < |s.subs|
    ensures Inv(Next(s, Cancel(v)))
  {
    var t := Next(s, Cancel(v));
    forall u: nat | u < |t.subs|
      ensures SawPrefix(t.subs[u], t.history)
      ensures u in t.observers ==> Level(t, u)
    {
      assert SawPrefix(s.subs[u], s.history);
      if u == v { CancelSaw(s.subs[v], s.history); } else { assert t.subs[u] == s.subs[u]; }
      if u in s.observers { assert Level(s, u); }
    }
  }

  lemma CancelHandlerKeeps(s: State, v: nat)
    requires Inv(s) && v < |s.subs| && s.subs[v].cancelled
    ensures Inv(Next(s, CancelHandler(v)))
  {
    var t := Next(s, CancelHandler(v));
    forall u: nat | u < |t.subs| && u in t.observers
      ensures Level(t, u)
    {
      assert Level(s, u);
    }
  }

  lemma NextKeeps(s: State, a: Action)
    requires Inv(s) && Enabled(s, a)
    ensures Inv(Next(s, a))
  {
    match a
    case Report(id, code, text) => ReportKeeps(s, id, code, text);
    case Deliver(ok) => DeliverKeeps(s, ok);
    case EndBroadcast =>
      forall u: nat | u < |s.subs| && u in s.observers ensures Level(Next(s, a), u) { assert Level(s, u); }
    case Subscribe(id, c) => SubscribeKeeps(s, id, c);
    case Prime(ok) => PrimeKeeps(s, ok);
    case Cancel(u) => CancelKeeps(s, u);
    case CancelHandler(u) => CancelHandlerKeeps(s, u);
  }

  lemma {:induction false} RunKeeps(s: State, run: seq<Action>)
    requires Inv(s) && ValidRun(s, run)
    ensures Inv(Run(s, run))
    decreases run
  {
    if run != [] {
      NextKeeps(s, run[0]);
      RunKeeps(Next(s, run[0]), run[1..]);
    }
  }

  // ---------------------------------------------------------------------------
  // Main result
  // ---------------------------------------------------------------------------

  lemma LeaverUntouched(s: State, a: Action, u: nat)
    requires Enabled(s, a) && u < |s.subs| && s.subs[u].cancelled
    ensures var t := Next(s, a);
      u < |t.subs| && t.subs[u].cancelled && t.subs[u].log == s.subs[u].log
  {
  }

  /** A client that has cancelled is sent nothing any more, also if it is still on the list or in the
      middle of a broadcast. */
  lemma {:induction false} CancelledGetsNothing(s: State, run: seq<Action>, u: nat)
    requires ValidRun(s, run) && u < |s.subs| && s.subs[u].cancelled
    ensures var t := Run(s, run);
      u < |t.subs| && t.subs[u].cancelled && t.subs[u].log == s.subs[u].log
    decreases run
  {
    if run != [] {
      LeaverUntouched(s, run[0], u);
      CancelledGetsNothing(Next(s, run[0]), run[1..], u);
    }
  }

  lemma OffTheListStep(s: State, a: Action, u: nat)
    requires Enabled(s, a) && u < |s.subs| && u !in s.observers
    ensures var t := Next(s, a); u < |t.subs| && u !in t.observers
  {
  }

  lemma {:induction false} StaysOffTheList(s: State, run: seq<Action>, u: nat)
    requires ValidRun(s, run) && u < |s.subs| && u !in s.observers
    ensures u !in Run(s, run).observers
    decreases run
  {
    if run != [] {
      OffTheListStep(s, run[0], u);
      StaysOffTheList(Next(s, run[0]), run[1..], u);
    }
  }

  /** Once its cancel handler has run, a client is on the list never again. */
  lemma HandledCancelIsFinal(s: State, run: seq<Action>, u: nat)
    requires Inv(s) && Enabled(s, CancelHandler(u)) && ValidRun(Next(s, CancelHandler(u)), run)
    ensures u !in Run(Next(s, CancelHandler(u)), run).observers
  {
    StaysOffTheList(Next(s, CancelHandler(u)), run, u);
  }

  lemma {:induction false} LatestOfIdeal(sub: Sub, h: seq<Msg>, n: nat)
    requires sub.joined <= n <= |h|
    ensures Latest(Ideal(sub, h, n), sub.id) == Latest(h[..n], sub.id)
    decreases n
  {
    var log := Ideal(sub, h, n);
    if n == sub.joined {
      LatestHasId(h[..n], sub.id);
    } else {
      assert log[..|log| - 1] == Ideal(sub, h, n - 1);
      assert h[..n][..n - 1] == h[..n - 1];
      LatestOfIdeal(sub, h, n - 1);
    }
  }

  lemma LatestHasId(msgs: seq<Msg>, id: int)
    ensures Latest(msgs, id).id == id
  {
  }

  /** Whatever clients cancel and whenever, between two critical sections every subscriber that has
      neither cancelled nor failed has received exactly its snapshot followed by every broadcast
      since its registration, in order, so its last message for its id is the current status; and
      a subscriber that has left saw a prefix of that, never a gap or a reordering. */
  lemma SubscribersSeeEverything(run: seq<Action>)
    requires ValidRun(START, run)
    ensures var s := Run(START, run);
            forall u: nat :: u < |s.subs| ==>
              var sub := s.subs[u];
              && SawPrefix(sub, s.history)
              && (s.lock.Unlocked? && !sub.cancelled && !sub.failed ==>
                    && sub.log == Ideal(sub, s.history, |s.history|)
                    && Latest(sub.log, sub.id) == CurrentStatusForId(s.lastStatusById, sub.id))
  {
    RunKeeps(START, run);
    var s := Run(START, run);
    forall u: nat | u < |s.subs| && s.lock.Unlocked? && !s.subs[u].cancelled && !s.subs[u].failed
      ensures s.subs[u].log == Ideal(s.subs[u], s.history, |s.history|)
      ensures Latest(s.subs[u].log, s.subs[u].id) == CurrentStatusForId(s.lastStatusById, s.subs[u].id)
    {
      assert Level(s, u);
      LatestOfIdeal(s.subs[u], s.history, |s.history|);
      assert s.history[..|s.history|] == s.history;
    }
  }

  // ---------------------------------------------------------------------------
  // The code itself
  // ---------------------------------------------------------------------------

  /** The statics of StrmOutGrpcServer; `subs` is the client side of the calls. */
  class StatusHub {
    var lastStatusById: map<int, Msg>
    var observers: seq<nat>
    var subs: seq<Sub>
    ghost var lock: Lock
    var history: seq<Msg>  // kept for the specification only

    ghost function Snapshot(): State
      reads this
    {
      State(lastStatusById, observers, subs, lock, history)
    }

    constructor ()
      ensures Snapshot() == START && Inv(Snapshot())
    {
      lastStatusById, observers, subs, lock, history := map[], [], [], Unlocked, [];
    }

    /** wrappedObserver.onNext */
    method Send(u: nat, msg: Msg, ok: bool)
      requires u < |subs|
      modifies this`observers, this`subs
      ensures Snapshot() == OnNext(old(Snapshot()), u, msg, ok)
      ensures subs[u].log == old(subs)[u].log + if old(subs)[u].cancelled || !ok then [] else [msg]
      ensures !old(subs)[u].cancelled && ok ==> observers == old(observers)
      ensures (old(subs)[u].cancelled || !ok) && Distinct(old(observers)) ==> u !in observers
    {
      if !subs[u].cancelled {
        if ok {
          subs := subs[u := subs[u].(log := subs[u].log + [msg])];
        } else {
          subs := subs[u := subs[u].(failed := true)];
          observers := Remove(observers, u);
        }
      } else {
        observers := Remove(observers, u);
      }
    }

    /** A client goes away: the flag is set, and the cancel handler may have run already. */
    method ClientCancels(u: nat, handlerRan: bool)
      requires Inv(Snapshot()) && u < |subs|
      modifies this`observers, this`subs
      ensures Inv(Snapshot()) && |subs| == old(|subs|)
    {
      NextKeeps(Snapshot(), Cancel(u));
      subs := subs[u := subs[u].(cancelled := true)];
      if handlerRan {
        NextKeeps(Snapshot(), CancelHandler(u));
        observers := Remove(observers, u);
      }
    }

    /** One turn of the broadcast loop, with the client that cancels just before it. */
    method SendNext(u: nat, msg: Msg, ok: bool, leaving: Option<Departure>)
      requires Inv(Snapshot()) && lock.Broadcasting? && lock.msg == msg && lock.rest != [] && lock.rest[0] == u
      requires leaving.Some? ==> leaving.value.sub < |subs|
      modifies this`observers, this`subs, this`lock
      ensures Inv(Snapshot()) && |subs| == old(|subs|)
      ensures lock == Broadcasting(msg, old(lock).rest[1..])
    {
      if leaving.Some? { ClientCancels(leaving.value.sub, leaving.value.handlerRan); }
      assert u in lock.rest;
      NextKeeps(Snapshot(), Deliver(ok));
      Send(u, msg, ok);
      lock := Broadcasting(msg, lock.rest[1..]);
    }

    /** streamStatusFromNative: afterwards every live subscriber has the message.  `sends` tells
        which sends go through, `leaving` who cancels just before each of them. */
    method StreamStatusFromNative(id: int, code: int, text: Option<string>,
                                  sends: seq<bool>, leaving: seq<Option<Departure>>)
      requires Inv(Snapshot()) && lock.Unlocked?
      requires |sends| == |leaving| == |observers|
      requires forall i :: 0 <= i < |leaving| && leaving[i].Some? ==> leaving[i].value.sub < |subs|
      modifies this
      ensures Inv(Snapshot()) && lock.Unlocked?
      ensures |subs| == old(|subs|)
      ensures history == old(history) + [Msg(id, code, text.GetOr(""))]
      ensures lastStatusById == old(lastStatusById)[id := Msg(id, code, text.GetOr(""))]
    {
      NextKeeps(Snapshot(), Report(id, code, text));
      var msg := Msg(id, code, text.GetOr(""));
      lastStatusById := lastStatusById[id := msg];
      history := history + [msg];
      var targets := observers;
      lock := Broadcasting(msg, targets);
      var i := 0;
      while i < |targets|
        invariant 0 <= i <= |targets| == |sends|
        invariant Inv(Snapshot()) && |subs| == old(|subs|)
        invariant lock == Broadcasting(msg, targets[i..])
        invariant history == old(history) + [msg] && lastStatusById == old(lastStatusById)[id := msg]
      {
        assert targets[i..][0] == targets[i] && targets[i..][1..] == targets[i + 1..];
        SendNext(targets[i], msg, sends[i], leaving[i]);
        i := i + 1;
      }
      NextKeeps(Snapshot(), EndBroadcast);
      lock := Unlocked;
    }

    /** The subscriber joins the list, and its snapshot is taken, under one hold of the lock. */
    method Register(id: int, alreadyCancelled: bool) returns (u: nat, snapshot: Msg)
      requires Inv(Snapshot()) && lock.Unlocked?
      modifies this
      ensures Inv(Snapshot()) && Snapshot() == Next(old(Snapshot()), Subscribe(id, alreadyCancelled))
      ensures lock == Priming(u, snapshot) && u == old(|subs|)
      ensures snapshot == CurrentStatusForId(lastStatusById, id)
    {
      NextKeeps(Snapshot(), Subscribe(id, alreadyCancelled));
      u := |subs|;
      subs := subs + [Sub(id, alreadyCancelled, false, |history|, [])];
      observers := observers + [u];
      snapshot := CurrentStatusForId(lastStatusById, id);
      lock := Priming(u, snapshot);
    }

    /** streamoutWatchStatus: the new subscriber is primed before any later broadcast. */
    method StreamoutWatchStatus(id: int, alreadyCancelled: bool, cancelsInBetween: bool, ok: bool) returns (u: nat)
      requires Inv(Snapshot()) && lock.Unlocked?
      modifies this
      ensures Inv(Snapshot()) && lock.Unlocked?
      ensures u == old(|subs|) && |subs| == u + 1 && subs[u].id == id && subs[u].joined == |history|
      ensures history == old(history) && lastStatusById == old(lastStatusById)
      ensures !alreadyCancelled && !cancelsInBetween && ok ==>
                subs[u].log == [CurrentStatusForId(lastStatusById, id)]
    {
      var snapshot;
      u, snapshot := Register(id, alreadyCancelled);
      if cancelsInBetween {
        NextKeeps(Snapshot(), Cancel(u));
        subs := subs[u := subs[u].(cancelled := true)];
      }
      NextKeeps(Snapshot(), Prime(ok));
      Send(u, snapshot, ok);
      lock := Unlocked;
    }
  }
}
