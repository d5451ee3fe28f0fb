/**
 * SimplePromise<T>: a single-assignment promise made of two independent
 * four-state channels, a success channel (Resolve / Then) and a failure
 * channel (Reject / Rejected).
 *
 * The pure part of this module describes ONE channel as a state machine
 * (Channel, Settle, Register) and proves what a whole sequence of calls on a
 * channel does. The class Promise holds the fields of the C# class and each of
 * its methods is specified by that state machine.
 */
module SimplePromise {
  import opened Basics

  /** The C# enum `ResolutionState`. */
  datatype ResolutionState = NoValueOrResolver | HaveResolver | HaveValue | ResolutionComplete

  /** An `Action<T>` or `Action<Exception>` delegate, known by its identity. */
  datatype Callback = Callback(id: nat)

  /** One invocation of a callback with its argument. */
  datatype Call<V> = Call(callback: Callback, arg: V)

  /** One channel: its state, its registered callback (`None` is C#'s null) and its stored value. */
  datatype Channel<V> = Channel(state: ResolutionState, callback: Option<Callback>, value: V)
  {
    /** A channel waiting in HaveResolver knows the callback it waits with. */
    predicate Wf() { state == HaveResolver ==> callback.Some? }
  }

  /** The channel after one call, and the callback invocation the call performed, if any. */
  datatype Step<V> = Step(next: Channel<V>, fired: Option<Call<V>>)

  /** `Resolve(v)` on the success channel, or `Reject(v)` on the failure channel. */
  function Settle<V>(c: Channel<V>, v: V): (s: Step<V>)
    requires c.Wf()
    ensures s.next.Wf() && s.next.callback == c.callback
    ensures s.fired.Some? <==> c.state == HaveResolver
    ensures s.fired.Some? ==> s.fired.value.arg == v
    ensures c.state == ResolutionComplete ==> s.next == c
  {
    match c.state
    case NoValueOrResolver => Step(c.(state := HaveValue, value := v), None)
    case HaveResolver => Step(c.(state := ResolutionComplete), Some(Call(c.callback.value, v)))
    case HaveValue => Step(c, None)
    case ResolutionComplete => Step(c, None)
  }

  /** `Then(cb)` on the success channel, or `Rejected(cb)` on the failure channel. */
  function Register<V>(c: Channel<V>, cb: Callback): (s: Step<V>)
    requires c.Wf()
    ensures s.next.Wf() && s.next.value == c.value
    ensures s.fired.Some? <==> c.state == HaveValue
    ensures s.fired.Some? ==> s.fired.value == Call(cb, c.value)
    ensures c.state == ResolutionComplete ==> s.next == c
  {
    match c.state
    case NoValueOrResolver => Step(c.(state := HaveResolver, callback := Some(cb)), None)
    case HaveValue => Step(c.(state := ResolutionComplete), Some(Call(cb, c.value)))
    case HaveResolver => Step(c, None)
    case ResolutionComplete => Step(c, None)
  }

  /** A call made on one channel. */
  datatype Op<V> = SettleOp(v: V) | RegisterOp(cb: Callback)

  function Apply<V>(c: Channel<V>, op: Op<V>): (s: Step<V>)
    requires c.Wf()
    ensures s.next.Wf()
  {
    match op
    case SettleOp(v) => Settle(c, v)
    case RegisterOp(cb) => Register(c, cb)
  }

  /** The invocations recorded for one optional invocation. */
  function Calls<V>(fired: Option<Call<V>>): seq<Call<V>>
  {
    if fired.Some? then [fired.value] else []
  }

  /** The final channel and every invocation, in order, of a sequence of calls. */
  datatype Trace<V> = Trace(final: Channel<V>, calls: seq<Call<V>>)

  function Run<V>(c: Channel<V>, ops: seq<Op<V>>): (t: Trace<V>)
    requires c.Wf()
    ensures t.final.Wf()
    decreases |ops|
  {
    if ops == [] then Trace(c, [])
    else
      var s := Apply(c, ops[0]);
      var t := Run(s.next, ops[1..]);
      Trace(t.final, Calls(s.fired) + t.calls)
  }

  /** The value of the first settling call in `ops`, if there is one. */
  function FirstSettle<V>(ops: seq<Op<V>>): (r: Option<V>)
    ensures r.Some? <==> exists i :: 0 <= i < |ops| && ops[i].SettleOp?
    ensures r.Some? ==> exists i :: 0 <= i < |ops| && ops[i] == SettleOp(r.value)
                                  && forall j :: 0 <= j < i ==> !ops[j].SettleOp?
    decreases |ops|
  {
    if ops == [] then None
    else if ops[0].SettleOp? then Some(ops[0].v)
    else
      var r := FirstSettle(ops[1..]);
      assert forall i :: 1 <= i < |ops| ==> ops[i] == ops[1..][i - 1];
      r
  }

  /** The callback of the first registering call in `ops`, if there is one. */
  function FirstRegister<V>(ops: seq<Op<V>>): (r: Option<Callback>)
    ensures r.Some? <==> exists i :: 0 <= i < |ops| && ops[i].RegisterOp?
    ensures r.Some? ==> exists i :: 0 <= i < |ops| && ops[i] == RegisterOp(r.value)
                                  && forall j :: 0 <= j < i ==> !ops[j].RegisterOp?
    decreases |ops|
  {
    if ops == [] then None
    else if ops[0].RegisterOp? then Some(ops[0].cb)
    else
      var r := FirstRegister(ops[1..]);
      assert forall i :: 1 <= i < |ops| ==> ops[i] == ops[1..][i - 1];
      r
  }

  /**
   * The invocations a channel starting in `c` performs under `ops`, stated
   * without running the calls: only the first settle and the first
   * registration matter, and only one invocation ever happens.
   */
  ghost function Expected<V>(c: Channel<V>, ops: seq<Op<V>>): seq<Call<V>>
    requires c.Wf()
  {
    match c.state
    case NoValueOrResolver =>
      if FirstSettle(ops).Some? && FirstRegister(ops).Some?
      then [Call(FirstRegister(ops).value, FirstSettle(ops).value)] else []
    case HaveResolver =>
      if FirstSettle(ops).Some? then [Call(c.callback.value, FirstSettle(ops).value)] else []
    case HaveValue =>
      if FirstRegister(ops).Some? then [Call(FirstRegister(ops).value, c.value)] else []
    case ResolutionComplete => []
  }

  /** Running the calls performs exactly the expected invocations and completes exactly when one was performed. */
  lemma {:induction false} RunPerformsExpected<V>(c: Channel<V>, ops: seq<Op<V>>)
    requires c.Wf()
    ensures Run(c, ops).calls == Expected(c, ops)
    ensures Run(c, ops).final.state == ResolutionComplete
            <==> c.state == ResolutionComplete || |Expected(c, ops)| == 1
    decreases |ops|
  {
    if ops != [] {
      RunPerformsExpected(Apply(c, ops[0]).next, ops[1..]);
    }
  }

  /**
   * On a fresh channel, whatever the order of the calls: the callback runs at
   * most once; it runs exactly when both a settle and a registration were made;
   * it runs with the first registered callback and the first settled value; the
   * channel is complete exactly when it ran.
   */
  lemma ExactlyOnce<V>(c: Channel<V>, ops: seq<Op<V>>)
    requires c.Wf() && c.state == NoValueOrResolver
    ensures |Run(c, ops).calls| <= 1
    ensures |Run(c, ops).calls| == 1 <==> FirstSettle(ops).Some? && FirstRegister(ops).Some?
    ensures |Run(c, ops).calls| == 1 ==>
              Run(c, ops).calls[0] == Call(FirstRegister(ops).value, FirstSettle(ops).value)
    ensures Run(c, ops).final.state == ResolutionComplete <==> |Run(c, ops).calls| == 1
  {
    RunPerformsExpected(c, ops);
  }

  /** Registering before settling and settling before registering both run the callback once with the value. */
  lemma OrderIndependent<V>(c: Channel<V>, cb: Callback, v: V)
    requires c.Wf() && c.state == NoValueOrResolver
    ensures Run(c, [RegisterOp(cb), SettleOp(v)]).calls == [Call(cb, v)]
    ensures Run(c, [SettleOp(v), RegisterOp(cb)]).calls == [Call(cb, v)]
    ensures Run(c, [RegisterOp(cb), SettleOp(v)]).final.state == ResolutionComplete
    ensures Run(c, [SettleOp(v), RegisterOp(cb)]).final.state == ResolutionComplete
  {
    ExactlyOnce(c, [RegisterOp(cb), SettleOp(v)]);
    ExactlyOnce(c, [SettleOp(v), RegisterOp(cb)]);
  }

  /** A completed channel ignores every later call. */
  lemma {:induction false} CompleteIsAbsorbing<V>(c: Channel<V>, ops: seq<Op<V>>)
    requires c.Wf() && c.state == ResolutionComplete
    ensures Run(c, ops) == Trace(c, [])
    decreases |ops|
  {
    if ops != [] {
      CompleteIsAbsorbing(c, ops[1..]);
    }
  }

  /** Once a value is held, further settles neither overwrite it nor run anything. */
  lemma {:induction false} SecondSettleIgnored<V>(c: Channel<V>, vs: seq<V>)
    requires c.Wf() && c.state == HaveValue
    ensures Run(c, seq(|vs|, i requires 0 <= i < |vs| => SettleOp(vs[i]))) == Trace(c, [])
    decreases |vs|
  {
    var ops: seq<Op<V>> := seq(|vs|, i requires 0 <= i < |vs| => SettleOp(vs[i]));
    if vs != [] {
      SecondSettleIgnored(c, vs[1..]);
      assert ops[1..] == seq(|vs[1..]|, i requires 0 <= i < |vs[1..]| => SettleOp(vs[1..][i]));
    }
  }

  /** Once a callback is waiting, further registrations neither replace it nor run anything. */
  lemma {:induction false} SecondRegisterIgnored<V>(c: Channel<V>, cbs: seq<Callback>)
    requires c.Wf() && c.state == HaveResolver
    ensures Run(c, seq(|cbs|, i requires 0 <= i < |cbs| => RegisterOp(cbs[i]))) == Trace(c, [])
    decreases |cbs|
  {
    var ops: seq<Op<V>> := seq(|cbs|, i requires 0 <= i < |cbs| => RegisterOp(cbs[i]));
    if cbs != [] {
      SecondRegisterIgnored(c, cbs[1..]);
      assert ops[1..] == seq(|cbs[1..]|, i requires 0 <= i < |cbs[1..]| => RegisterOp(cbs[1..][i]));
    }
  }

  /** One entry of a promise's log: which channel's callback ran, and with what. */
  datatype Invocation<T> = ResolverRan(cb: Callback, value: T) | RejecterRan(cb: Callback, error: Exception)

  function ResolverLog<T>(fired: Option<Call<T>>): seq<Invocation<T>>
  {
    if fired.Some? then [ResolverRan(fired.value.callback, fired.value.arg)] else []
  }

  function RejecterLog<T>(fired: Option<Call<Exception>>): seq<Invocation<T>>
  {
    if fired.Some? then [RejecterRan(fired.value.callback, fired.value.arg)] else []
  }

  /**
   * The C# class SimplePromise<T>. Running a callback is modelled by returning
   * the invocation (`fired`) to the caller, which then performs the callback's
   * body, and by recording it in the ghost `log`.
   */
  class Promise<T(0)> {
    var resolverState: ResolutionState
    var resolver: Option<Callback>
    var rejectorState: ResolutionState
    var rejecter: Option<Callback>
    var resolveValue: T
    var rejectValue: Exception
    /** Every callback invocation made by this promise, in order. */
    ghost var log: seq<Invocation<T>>

    /** The success channel. */
    function Success(): Channel<T>
      reads this
    {
      Channel(resolverState, resolver, resolveValue)
    }

    /** The failure channel. */
    function Failure(): Channel<Exception>
      reads this
    {
      Channel(rejectorState, rejecter, rejectValue)
    }

    predicate Valid()
      reads this
    {
      Success().Wf() && Failure().Wf()
    }

    /** `new SimplePromise<T>()`: both channels empty, no callbacks. */
    constructor ()
      ensures Valid() && log == []
      ensures resolverState == NoValueOrResolver && resolver == None
      ensures rejectorState == NoValueOrResolver && rejecter == None
    {
      resolver := None;
      rejecter := None;
      resolverState := NoValueOrResolver;
      rejectorState := NoValueOrResolver;
      log := [];
    }

    /**
     * `new SimplePromise<T>(resolve, reject)`: stores both callbacks but leaves
     * both states at the enum default, so a later Resolve or Reject stores
     * its value instead of running the stored callback.
     */
    constructor WithCallbacks(resolve: Callback, reject: Callback)
      ensures Valid() && log == []
      ensures resolverState == NoValueOrResolver && resolver == Some(resolve)
      ensures rejectorState == NoValueOrResolver && rejecter == Some(reject)
    {
      resolver := Some(resolve);
      rejecter := Some(reject);
      resolverState := NoValueOrResolver;
      rejectorState := NoValueOrResolver;
      log := [];
    }

    /**
     * The two-callback constructor as evidently intended: both callbacks are
     * registered, so the first Resolve runs `resolve` and the first Reject
     * runs `reject`.
     */
    constructor WithRegisteredCallbacks(resolve: Callback, reject: Callback)
      ensures Valid() && log == []
      ensures resolverState == HaveResolver && resolver == Some(resolve)
      ensures rejectorState == HaveResolver && rejecter == Some(reject)
    {
      resolver := Some(resolve);
      rejecter := Some(reject);
      resolverState := HaveResolver;
      rejectorState := HaveResolver;
      log := [];
    }

    /** Called by the producer to complete the promise with a value. */
    method Resolve(val: T) returns (fired: Option<Call<T>>)
      requires Valid()
      modifies this`resolverState, this`resolveValue, this`log
      ensures Valid()
      ensures Step(Success(), fired) == Settle(old(Success()), val)
      ensures log == old(log) + ResolverLog(fired)
      ensures Failure() == old(Failure())
    {
      match resolverState {
        case NoValueOrResolver =>
          resolveValue := val;
          resolverState := HaveValue;
          fired := None;
        case HaveResolver =>
          fired := Some(Call(resolver.value, val));
          log := log + ResolverLog(fired);
          resolverState := ResolutionComplete;
        case HaveValue =>
          fired := None;
        case ResolutionComplete =>
          fired := None;
      }
    }

    /** Called by the producer to fail the promise with an exception. */
    method Reject(e: Exception) returns (fired: Option<Call<Exception>>)
      requires Valid()
      modifies this`rejectorState, this`rejectValue, this`log
      ensures Valid()
      ensures Step(Failure(), fired) == Settle(old(Failure()), e)
      ensures log == old(log) + RejecterLog(fired)
      ensures Success() == old(Success())
    {
      match rejectorState {
        case NoValueOrResolver =>
          rejectValue := e;
          rejectorState := HaveValue;
          fired := None;
        case HaveResolver =>
          fired := Some(Call(rejecter.value, e));
          log := log + RejecterLog(fired);
          rejectorState := ResolutionComplete;
        case HaveValue =>
          fired := None;
        case ResolutionComplete =>
          fired := None;
      }
    }

    /** Registers the success callback; returns this promise for chaining. */
    method Then(resolve: Callback) returns (self: Promise<T>, fired: Option<Call<T>>)
      requires Valid()
      modifies this`resolverState, this`resolver, this`log
      ensures Valid() && self == this
      ensures Step(Success(), fired) == Register(old(Success()), resolve)
      ensures log == old(log) + ResolverLog(fired)
      ensures Failure() == old(Failure())
    {
      match resolverState {
        case NoValueOrResolver =>
          resolver := Some(resolve);
          resolverState := HaveResolver;
          fired := None;
        case HaveValue =>
          fired := Some(Call(resolve, resolveValue));
          log := log + ResolverLog(fired);
          resolverState := ResolutionComplete;
        case HaveResolver =>
          fired := None;
        case ResolutionComplete =>
          fired := None;
      }
      self := this;
    }

    /** Registers the failure callback; returns this promise for chaining. */
    method Rejected(reject: Callback) returns (self: Promise<T>, fired: Option<Call<Exception>>)
      requires Valid()
      modifies this`rejectorState, this`rejecter, this`log
      ensures Valid() && self == this
      ensures Step(Failure(), fired) == Register(old(Failure()), reject)
      ensures log == old(log) + RejecterLog(fired)
      ensures Success() == old(Success())
    {
      match rejectorState {
        case NoValueOrResolver =>
          rejecter := Some(reject);
          rejectorState := HaveResolver;
          fired := None;
        case HaveValue =>
          fired := Some(Call(reject, rejectValue));
          log := log + RejecterLog(fired);
          rejectorState := ResolutionComplete;
        case HaveResolver =>
          fired := None;
        case ResolutionComplete =>
          fired := None;
      }
      self := this;
    }
  }

  /**
   * A client of the class: Then-then-Resolve and Resolve-then-Then each run
   * the callback exactly once with the value; a second Resolve and a second
   * Then run nothing; a Reject after a Resolve is still recorded.
   */
  method OrderIndependenceOnPromise<T(0)>(cb: Callback, other: Callback, v: T, w: T, e: Exception)
    returns (first: seq<Call<T>>, second: seq<Call<T>>, rejected: bool)
    ensures first == [Call(cb, v)] && second == [Call(cb, v)]
    ensures rejected
  {
    var p := new Promise<T>();
    var _, f1 := p.Then(cb);
    var f2 := p.Resolve(v);
    var f3 := p.Resolve(w);
    first := Calls(f1) + Calls(f2) + Calls(f3);

    var q := new Promise<T>();
    var g1 := q.Resolve(v);
    var _, g2 := q.Then(cb);
    var _, g3 := q.Then(other);
    second := Calls(g1) + Calls(g2) + Calls(g3);

    var _ := q.Reject(e);
    rejected := q.rejectorState == HaveValue && q.rejectValue == e;
  }

  /**
   * The two-callback constructor as written: a Resolve and a Reject right
   * after it run neither callback; they only store the value and the error.
   */
  method ConstructorCallbacksNeverRun<T(==,0)>(onValue: Callback, onError: Callback, v: T, e: Exception)
    returns (resolved: Option<Call<T>>, rejected: Option<Call<Exception>>, stored: bool)
    ensures resolved == None && rejected == None
    ensures stored
  {
    var p := new Promise<T>.WithCallbacks(onValue, onError);
    resolved := p.Resolve(v);
    rejected := p.Reject(e);
    stored := p.resolverState == HaveValue && p.resolveValue == v
              && p.rejectorState == HaveValue && p.rejectValue == e;
  }

  /** With the corrected constructor the same calls run each callback once, with the value and the error. */
  method RegisteredCallbacksRun<T(0)>(onValue: Callback, onError: Callback, v: T, e: Exception)
    returns (resolved: Option<Call<T>>, rejected: Option<Call<Exception>>, complete: bool)
    ensures resolved == Some(Call(onValue, v)) && rejected == Some(Call(onError, e))
    ensures complete
  {
    var p := new Promise<T>.WithRegisteredCallbacks(onValue, onError);
    resolved := p.Resolve(v);
    rejected := p.Reject(e);
    complete := p.resolverState == ResolutionComplete && p.rejectorState == ResolutionComplete;
  }
}
