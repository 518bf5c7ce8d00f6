/** The dispose-once pattern every demo overrides: a `disposed` flag guards the
    release of the GPU resources the demo owns, and `base.Dispose(disposing)` (the
    render host's own teardown) runs on every call. Two shapes of guard occur. */
module Lifecycle {

  /** The GPU resources a demo owns and hands to Util.ReleaseCom in its Dispose. */
  datatype Resource =
    | VertexBuffer | IndexBuffer | InputLayout | Effect | DiffuseMapSphere | DiffuseMapFloor

  /** The two shapes of the guard around the release block. */
  datatype Guard =
      /** if (disposing) { if (!disposed) { release } disposed = true; } */
    | FlagWhenDisposing
      /** if (!disposed) { if (disposing) { release } disposed = true; } */
    | FlagAlways

  /** One observable action of a demo's Dispose: handing a resource to Util.ReleaseCom,
      or calling base.Dispose(disposing). The argument passed on is not recorded. */
  datatype Event = Release(resource: Resource) | BaseDispose

  /** What a run of Dispose calls leaves observable: the flag, and every event so far in
      the order it happened. */
  datatype DisposeState = DisposeState(disposed: bool, log: seq<Event>)

  /** A freshly constructed demo: not disposed, nothing done yet. */
  const Initial := DisposeState(false, [])

  /** The owned resources are listed once each. */
  predicate NoDuplicates(owned: seq<Resource>) {
    forall i, j :: 0 <= i < j < |owned| ==> owned[i] != owned[j]
  }

  /** The release block of a Dispose override: one Util.ReleaseCom call per owned resource,
      in the order they are written. */
  function ReleaseCalls(owned: seq<Resource>): seq<Event> {
    seq(|owned|, i requires 0 <= i < |owned| => Release(owned[i]))
  }

  /** n calls of base.Dispose and nothing else. */
  function BaseCalls(n: nat): seq<Event> {
    seq(n, _ => BaseDispose)
  }

  /** The resources a log hands to Util.ReleaseCom, in order. */
  function Released(log: seq<Event>): seq<Resource> {
    if log == [] then []
    else Released(log[..|log| - 1]) + (if log[|log| - 1].Release? then [log[|log| - 1].resource] else [])
  }

  /** How many times a log calls base.Dispose. */
  function BaseDisposeCount(log: seq<Event>): nat {
    if log == [] then 0
    else BaseDisposeCount(log[..|log| - 1]) + (if log[|log| - 1] == BaseDispose then 1 else 0)
  }

  /** Nothing released yet, or each owned resource released once and the flag set. */
  predicate Consistent(owned: seq<Resource>, s: DisposeState) {
    NoDuplicates(owned) && (Released(s.log) == [] || (Released(s.log) == owned && s.disposed))
  }

  /** One call Dispose(disposing) under the given guard: the guarded release block, then
      base.Dispose whatever the guard decided. */
  function Step(guard: Guard, owned: seq<Resource>, s: DisposeState, disposing: bool): DisposeState {
    var afterGuard :=
      match guard
      case FlagWhenDisposing =>
        if !disposing then s
        else DisposeState(true, if s.disposed then s.log else s.log + ReleaseCalls(owned))
      case FlagAlways =>
        if s.disposed then s
        else DisposeState(true, if disposing then s.log + ReleaseCalls(owned) else s.log);
    afterGuard.(log := afterGuard.log + [BaseDispose])
  }

  /** The state after Dispose(calls[0]), ..., Dispose(calls[|calls| - 1]) on a new demo. */
  function Run(guard: Guard, owned: seq<Resource>, calls: seq<bool>): DisposeState {
    if calls == [] then Initial
    else Step(guard, owned, Run(guard, owned, calls[..|calls| - 1]), calls[|calls| - 1])
  }

  /** Whether a run of calls sets the flag: any call with the FlagAlways guard, only a
      call with disposing = true with the FlagWhenDisposing guard. */
  predicate SetsFlag(guard: Guard, calls: seq<bool>) {
    match guard
    case FlagWhenDisposing => true in calls
    case FlagAlways => calls != []
  }

  /** Whether a run of calls releases the owned resources: with FlagWhenDisposing, as soon
      as some call has disposing = true; with FlagAlways, only if the FIRST call has it,
      since that call sets the flag whichever way it goes. */
  predicate Releases(guard: Guard, calls: seq<bool>) {
    match guard
    case FlagWhenDisposing => true in calls
    case FlagAlways => calls != [] && calls[0]
  }

  /** The position of the first call with disposing = true. */
  function FirstTrue(calls: seq<bool>): (k: nat)
    requires true in calls
    ensures k < |calls| && calls[k]
    ensures forall j :: 0 <= j < k ==> !calls[j]
  {
    var prefix := calls[..|calls| - 1];
    assert calls == prefix + [calls[|calls| - 1]];
    if true in prefix then FirstTrue(prefix) else |calls| - 1
  }

  /** The log of a run of calls, written out call by call. With FlagWhenDisposing: a bare
      base.Dispose for each call before the first with disposing = true, then that call's
      releases followed by its base.Dispose, then a bare base.Dispose for each later call.
      With FlagAlways: the releases only when the first call has disposing = true, and then
      before that call's base.Dispose; a base.Dispose for every call. */
  function ExpectedLog(guard: Guard, owned: seq<Resource>, calls: seq<bool>): seq<Event> {
    match guard
    case FlagWhenDisposing =>
      if true in calls then
        BaseCalls(FirstTrue(calls)) + ReleaseCalls(owned) + BaseCalls(|calls| - FirstTrue(calls))
      else BaseCalls(|calls|)
    case FlagAlways =>
      if calls != [] && calls[0] then ReleaseCalls(owned) + BaseCalls(|calls|)
      else BaseCalls(|calls|)
  }

  /** Any run of Dispose calls leaves exactly the log ExpectedLog writes out, and the flag
      as SetsFlag says. */
  lemma RunOutcome(guard: Guard, owned: seq<Resource>, calls: seq<bool>)
    ensures Run(guard, owned, calls).log == ExpectedLog(guard, owned, calls)
    ensures Run(guard, owned, calls).disposed == SetsFlag(guard, calls)
  {
    match guard
    case FlagWhenDisposing => RunWhenDisposing(owned, calls);
    case FlagAlways => RunAlways(owned, calls);
  }

  lemma {:induction false} RunWhenDisposing(owned: seq<Resource>, calls: seq<bool>)
    ensures Run(FlagWhenDisposing, owned, calls).log == ExpectedLog(FlagWhenDisposing, owned, calls)
    ensures Run(FlagWhenDisposing, owned, calls).disposed == (true in calls)
  {
    if calls != [] {
      var n := |calls|;
      var prefix := calls[..n - 1];
      RunWhenDisposing(owned, prefix);
      assert calls == prefix + [calls[n - 1]];
      assert true in calls <==> true in prefix || calls[n - 1];
      if true in prefix {
        var k := FirstTrue(prefix);
        assert FirstTrue(calls) == k;
        assert BaseCalls(n - 1 - k) + [BaseDispose] == BaseCalls(n - k);
      } else if calls[n - 1] {
        assert FirstTrue(calls) == n - 1;
        assert BaseCalls(1) == [BaseDispose];
      } else {
        assert BaseCalls(n - 1) + [BaseDispose] == BaseCalls(n);
      }
    }
  }

  lemma {:induction false} RunAlways(owned: seq<Resource>, calls: seq<bool>)
    ensures Run(FlagAlways, owned, calls).log == ExpectedLog(FlagAlways, owned, calls)
    ensures Run(FlagAlways, owned, calls).disposed == (calls != [])
  {
    if calls != [] {
      var n := |calls|;
      var prefix := calls[..n - 1];
      RunAlways(owned, prefix);
      assert BaseCalls(n - 1) + [BaseDispose] == BaseCalls(n);
      if prefix == [] {
        assert BaseCalls(1) == [BaseDispose];
      } else {
        assert prefix[0] == calls[0];
      }
    }
  }

  lemma {:induction false} ReleasedAppend(a: seq<Event>, b: seq<Event>)
    ensures Released(a + b) == Released(a) + Released(b)
    ensures BaseDisposeCount(a + b) == BaseDisposeCount(a) + BaseDisposeCount(b)
  {
    if b != [] {
      var m := |b|;
      assert (a + b)[..|a + b| - 1] == a + b[..m - 1];
      assert (a + b)[|a + b| - 1] == b[m - 1];
      ReleasedAppend(a, b[..m - 1]);
    } else {
      assert a + b == a;
    }
  }

  /** The release block hands over exactly the owned resources and never calls
      base.Dispose. */
  lemma {:induction false} ReleaseBlockContents(owned: seq<Resource>)
    ensures Released(ReleaseCalls(owned)) == owned && BaseDisposeCount(ReleaseCalls(owned)) == 0
  {
    if owned != [] {
      var m := |owned|;
      ReleaseBlockContents(owned[..m - 1]);
      assert ReleaseCalls(owned)[..m - 1] == ReleaseCalls(owned[..m - 1]);
      assert owned == owned[..m - 1] + [owned[m - 1]];
    }
  }

  /** n bare base.Dispose calls release nothing. */
  lemma {:induction false} BaseBlockContents(n: nat)
    ensures Released(BaseCalls(n)) == [] && BaseDisposeCount(BaseCalls(n)) == n
  {
    if n > 0 {
      BaseBlockContents(n - 1);
      assert BaseCalls(n)[..n - 1] == BaseCalls(n - 1);
    }
  }

  /** Some bare base.Dispose calls, the release block, more bare base.Dispose calls. */
  lemma ThreeBlocks(k: nat, owned: seq<Resource>, m: nat)
    ensures Released(BaseCalls(k) + ReleaseCalls(owned) + BaseCalls(m)) == owned
    ensures BaseDisposeCount(BaseCalls(k) + ReleaseCalls(owned) + BaseCalls(m)) == k + m
  {
    BaseBlockContents(k);
    BaseBlockContents(m);
    ReleaseBlockContents(owned);
    ReleasedAppend(BaseCalls(k), ReleaseCalls(owned));
    ReleasedAppend(BaseCalls(k) + ReleaseCalls(owned), BaseCalls(m));
  }

  /** The closed-form log hands over the owned resources once, in order, or nothing, as
      Releases says, and calls base.Dispose once per call. */
  lemma ExpectedReleases(guard: Guard, owned: seq<Resource>, calls: seq<bool>)
    ensures Released(ExpectedLog(guard, owned, calls)) == (if Releases(guard, calls) then owned else [])
    ensures BaseDisposeCount(ExpectedLog(guard, owned, calls)) == |calls|
  {
    var n := |calls|;
    BaseBlockContents(n);
    match guard
    case FlagWhenDisposing =>
      if true in calls {
        ThreeBlocks(FirstTrue(calls), owned, n - FirstTrue(calls));
      }
    case FlagAlways =>
      if calls != [] && calls[0] {
        ThreeBlocks(0, owned, n);
        assert BaseCalls(0) + ReleaseCalls(owned) + BaseCalls(n) == ReleaseCalls(owned) + BaseCalls(n);
      }
  }

  /** What any run of calls hands to Util.ReleaseCom: the owned resources once, in order, or
      nothing, as Releases says; and base.Dispose runs once per call. */
  lemma RunReleases(guard: Guard, owned: seq<Resource>, calls: seq<bool>)
    ensures Released(Run(guard, owned, calls).log) == (if Releases(guard, calls) then owned else [])
    ensures BaseDisposeCount(Run(guard, owned, calls).log) == |calls|
  {
    RunOutcome(guard, owned, calls);
    ExpectedReleases(guard, owned, calls);
  }

  /** The FlagWhenDisposing guard, for any run of calls: every call ends with base.Dispose;
      the first call with disposing = true sets the flag and releases the owned resources,
      in order, before its own base.Dispose; no other call releases anything. */
  lemma OutcomeWhenDisposing(owned: seq<Resource>, calls: seq<bool>)
    ensures Run(FlagWhenDisposing, owned, calls).log ==
      if true in calls then
        BaseCalls(FirstTrue(calls)) + ReleaseCalls(owned) + BaseCalls(|calls| - FirstTrue(calls))
      else BaseCalls(|calls|)
    ensures Run(FlagWhenDisposing, owned, calls).disposed == (true in calls)
    ensures Released(Run(FlagWhenDisposing, owned, calls).log) == (if true in calls then owned else [])
  {
    RunWhenDisposing(owned, calls);
    RunReleases(FlagWhenDisposing, owned, calls);
  }

  /** The FlagAlways guard, for any run of calls: every call ends with base.Dispose; the
      first call sets the flag, and releases the owned resources, in order, before its own
      base.Dispose exactly when it has disposing = true; no other call releases anything. */
  lemma OutcomeAlways(owned: seq<Resource>, calls: seq<bool>)
    ensures Run(FlagAlways, owned, calls).log ==
      if calls != [] && calls[0] then ReleaseCalls(owned) + BaseCalls(|calls|) else BaseCalls(|calls|)
    ensures Run(FlagAlways, owned, calls).disposed == (calls != [])
    ensures Released(Run(FlagAlways, owned, calls).log) == (if calls != [] && calls[0] then owned else [])
  {
    RunAlways(owned, calls);
    RunReleases(FlagAlways, owned, calls);
  }

  /** One call keeps the state consistent: it releases nothing new, or all the owned
      resources on a demo that had released nothing. */
  lemma StepConsistent(guard: Guard, owned: seq<Resource>, s: DisposeState, disposing: bool)
    requires Consistent(owned, s)
    ensures Consistent(owned, Step(guard, owned, s, disposing))
    ensures Released(Step(guard, owned, s, disposing).log) == Released(s.log)
      || (Released(s.log) == [] && Released(Step(guard, owned, s, disposing).log) == owned)
  {
    var t := Step(guard, owned, s, disposing);
    var released := t.log[..|t.log| - 1];
    assert t.log == released + [BaseDispose];
    ReleasedAppend(released, [BaseDispose]);
    assert Released([BaseDispose]) == [];
    ReleaseBlockContents(owned);
    ReleasedAppend(s.log, ReleaseCalls(owned));
  }

  lemma {:induction false} NoDuplicatesCount(owned: seq<Resource>, r: Resource)
    requires NoDuplicates(owned)
    ensures multiset(owned)[r] == if r in owned then 1 else 0
  {
    if owned != [] {
      NoDuplicatesCount(owned[1..], r);
      assert owned == [owned[0]] + owned[1..];
      assert owned[0] !in owned[1..];
    }
  }

  /** However Dispose is called, each owned resource reaches ReleaseCom at most once,
      exactly once when the run releases, and nothing else is ever released. */
  lemma ReleasedAtMostOnce(guard: Guard, owned: seq<Resource>, calls: seq<bool>, r: Resource)
    requires NoDuplicates(owned)
    ensures multiset(Released(Run(guard, owned, calls).log))[r] <= 1
    ensures multiset(Released(Run(guard, owned, calls).log))[r] == 1 <==> r in owned && Releases(guard, calls)
  {
    RunReleases(guard, owned, calls);
    NoDuplicatesCount(owned, r);
  }

  /** A demo's disposal state, updated in place by Dispose. */
  class Disposable {
    const guard: Guard
    /** The owned resources in the order Dispose hands them to Util.ReleaseCom. */
    const owned: seq<Resource>
    var disposed: bool
    /** Every Util.ReleaseCom and base.Dispose call so far, in order. */
    var log: seq<Event>

    ghost function State(): DisposeState
      reads this
    {
      DisposeState(disposed, log)
    }

    /** Nothing released yet, or each owned resource released once and the flag set. */
    ghost predicate Valid()
      reads this
    {
      Consistent(owned, State())
    }

    /** How many times resource r has been handed to Util.ReleaseCom. */
    function ReleaseCount(r: Resource): nat
      reads this
    {
      multiset(Released(log))[r]
    }

    constructor (guard: Guard, owned: seq<Resource>)
      requires NoDuplicates(owned)
      ensures this.guard == guard && this.owned == owned
      ensures State() == Initial && Valid()
    {
      this.guard := guard;
      this.owned := owned;
      disposed := false;
      log := [];
    }

    /** Dispose(disposing): the guarded release block, then base.Dispose. The log only
        grows, and the call's releases all come before its base.Dispose. */
    method Dispose(disposing: bool)
      requires Valid()
      modifies this
      ensures Valid()
      ensures State() == Step(guard, owned, old(State()), disposing)
      ensures forall r :: ReleaseCount(r) <= 1
      ensures Released(log) == old(Released(log)) || (old(Released(log)) == [] && Released(log) == owned)
    {
      ghost var s0 := State();
      if guard == FlagWhenDisposing {
        if disposing {
          if !disposed {
            log := log + ReleaseCalls(owned);
          }
          disposed := true;
        }
      } else {
        if !disposed {
          if disposing {
            log := log + ReleaseCalls(owned);
          }
          disposed := true;
        }
      }
      log := log + [BaseDispose];
      assert State() == Step(guard, owned, s0, disposing);
      StepConsistent(guard, owned, s0, disposing);
      forall r ensures ReleaseCount(r) <= 1 {
        NoDuplicatesCount(owned, r);
      }
    }
  }
}
