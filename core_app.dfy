// core/app.go: the App that owns the engine's systems, sets them up in
// registration order, tears them down in reverse, and runs the frame loop.
// The systems' Setup results, the user hooks' results, the window's
// ShouldClose answer and the time system's LogicUpdate answers are parameters;
// the signal handler and logging are left out.

module CoreApp {
  import opened Common

  /** At most this many fixed updates run per frame. */
  const MaxFrameSkip: nat := 5

  /** The four built-in system names. Their string values are defined outside
      core/app.go; only their being distinct matters here. */
  const SysNameWindow: string := "window"
  const SysNameInstance: string := "instance"
  const SysNameAsset: string := "asset"
  const SysNameTime: string := "time"

  /** A registered system: its name and what its Setup returns. */
  datatype RegisteredSystem = RegisteredSystem(name: string, setupResult: Outcome)

  /** The calls Setup and Teardown make, in the order they make them. */
  datatype Call =
    | PreSetup | SetupSystem(name: string) | PostSetup
    | PreTeardown | TeardownSystem(name: string) | PostTeardown

  /** Some registered system has this name. */
  predicate Registered(systems: seq<RegisteredSystem>, name: string) {
    exists i :: 0 <= i < |systems| && systems[i].name == name
  }

  /** No two registered systems share a name. */
  predicate UniqueNames(systems: seq<RegisteredSystem>) {
    forall i, j :: 0 <= i < j < |systems| ==> systems[i].name != systems[j].name
  }

  function Names(systems: seq<RegisteredSystem>): seq<string> {
    seq(|systems|, i requires 0 <= i < |systems| => systems[i].name)
  }

  /** One Setup call per system, in registration order. */
  function SetupCalls(systems: seq<RegisteredSystem>): seq<Call> {
    seq(|systems|, i requires 0 <= i < |systems| => SetupSystem(systems[i].name))
  }

  /** One Teardown call per system, last registered first. */
  function TeardownCalls(systems: seq<RegisteredSystem>): seq<Call> {
    seq(|systems|, k requires 0 <= k < |systems| => TeardownSystem(systems[|systems| - 1 - k].name))
  }

  /** The call a hook makes when it is set. */
  function PreSetupCalls(hook: Option<Outcome>): seq<Call> {
    if hook.Some? then [PreSetup] else []
  }

  function PostSetupCalls(hook: Option<Outcome>): seq<Call> {
    if hook.Some? then [PostSetup] else []
  }

  /** An independent definition of reversal. */
  function Reverse<T>(s: seq<T>): seq<T> {
    if |s| == 0 then [] else Reverse(s[1..]) + [s[0]]
  }

  function CallNames(calls: seq<Call>): seq<string>
    requires forall k :: 0 <= k < |calls| ==> calls[k].SetupSystem? || calls[k].TeardownSystem?
  {
    seq(|calls|, k requires 0 <= k < |calls| => calls[k].name)
  }

  /** Teardown visits the systems in exactly the reverse of the order in which
      Setup visits them. */
  lemma {:induction false} TeardownReversesSetup(systems: seq<RegisteredSystem>)
    ensures CallNames(TeardownCalls(systems)) == Reverse(CallNames(SetupCalls(systems)))
    decreases |systems|
  {
    if |systems| > 0 {
      var rest := systems[1..];
      TeardownReversesSetup(rest);
      assert CallNames(SetupCalls(systems)) == [systems[0].name] + CallNames(SetupCalls(rest));
      assert CallNames(SetupCalls(systems))[1..] == CallNames(SetupCalls(rest));
      assert CallNames(TeardownCalls(systems)) == CallNames(TeardownCalls(rest)) + [systems[0].name];
    }
  }

  /** Appending a system whose name is not yet registered keeps names unique. */
  lemma RegisterKeepsUnique(systems: seq<RegisteredSystem>, s: RegisteredSystem)
    requires UniqueNames(systems) && !Registered(systems, s.name)
    ensures UniqueNames(systems + [s])
    ensures forall n :: Registered(systems + [s], n) <==> Registered(systems, n) || n == s.name
  {
    var ext := systems + [s];
    forall n | Registered(ext, n)
      ensures Registered(systems, n) || n == s.name
    {
      var i :| 0 <= i < |ext| && ext[i].name == n;
      if i < |systems| {
        assert systems[i].name == n;
      }
    }
    forall n | Registered(systems, n)
      ensures Registered(ext, n)
    {
      var i :| 0 <= i < |systems| && systems[i].name == n;
      assert ext[i].name == n;
    }
    assert ext[|systems|].name == s.name;
  }

  /** The setup loop of App.Setup: each system's Setup in registration order;
      the first failure stops the loop and is returned. */
  method SetupSystems(systems: seq<RegisteredSystem>) returns (o: Outcome, trace: seq<Call>)
    ensures o.Pass? <==> forall i :: 0 <= i < |systems| ==> systems[i].setupResult.Pass?
    ensures o.Pass? ==> trace == SetupCalls(systems)
    ensures o.Fail? ==> exists i :: && 0 <= i < |systems| && o == systems[i].setupResult
                                    && (forall j :: 0 <= j < i ==> systems[j].setupResult.Pass?)
                                    && trace == SetupCalls(systems[..i + 1])
  {
    trace := [];
    var i := 0;
    while i < |systems|
      invariant 0 <= i <= |systems|
      invariant forall j :: 0 <= j < i ==> systems[j].setupResult.Pass?
      invariant trace == SetupCalls(systems[..i])
    {
      trace := trace + [SetupSystem(systems[i].name)];
      if systems[i].setupResult.Fail? {
        return systems[i].setupResult, trace;
      }
      i := i + 1;
    }
    assert systems[..i] == systems;
    return Pass, trace;
  }

  /** The teardown loop of App.Teardown: from the last registered system down
      to the first. */
  method TeardownSystems(systems: seq<RegisteredSystem>) returns (trace: seq<Call>)
    ensures trace == TeardownCalls(systems)
  {
    trace := [];
    var i := |systems|;
    while i > 0
      invariant 0 <= i <= |systems|
      invariant |trace| == |systems| - i
      invariant forall k :: 0 <= k < |trace| ==> trace[k] == TeardownSystem(systems[|systems| - 1 - k].name)
    {
      i := i - 1;
      trace := trace + [TeardownSystem(systems[i].name)];
    }
  }

  /** The fixed-update loop of one frame of Run: LogicUpdate is asked before
      each fixed update, and the count is checked after it, so at most
      MaxFrameSkip fixed updates run whatever LogicUpdate answers. The n-th
      answer of LogicUpdate within the frame is logicUpdate(n). */
  method FixedUpdates(logicUpdate: nat -> bool) returns (loops: nat)
    ensures loops <= MaxFrameSkip
    ensures forall n :: 0 <= n < loops ==> logicUpdate(n)
    ensures loops < MaxFrameSkip ==> !logicUpdate(loops)
  {
    loops := 0;
    while logicUpdate(loops) && loops < MaxFrameSkip
      invariant loops <= MaxFrameSkip
      invariant forall n :: 0 <= n < loops ==> logicUpdate(n)
      decreases MaxFrameSkip - loops
    {
      loops := loops + 1;
    }
  }

  /** The package-level appInst and appOnce. */
  class Globals {
    var appInst: App?
    var appOnce: bool

    constructor ()
      ensures appInst == null && !appOnce
    {
      appInst := null;
      appOnce := false;
    }

    /** CurrentApp: the app set by the first setApp, if any. */
    function CurrentApp(): App?
      reads this
    {
      appInst
    }

    /** setApp records the app only the first time it is called. */
    method SetApp(a: App)
      modifies this
      ensures old(appOnce) ==> appInst == old(appInst)
      ensures !old(appOnce) ==> appInst == a
      ensures appOnce
    {
      if !appOnce {
        appInst := a;
        appOnce := true;
      }
    }
  }

  class App {
    var name: string
    var company: string
    /** The hooks: None when nil, otherwise what the hook returns. */
    var preSetupFunc: Option<Outcome>
    var postSetupFunc: Option<Outcome>
    var preTeardownFunc: bool
    var postTeardownFunc: bool
    var systems: seq<RegisteredSystem>
    var running: bool

    /** NewApp: no systems, no hooks, not running. */
    constructor ()
      ensures systems == [] && !running
      ensures preSetupFunc == None && postSetupFunc == None && !preTeardownFunc && !postTeardownFunc
    {
      name, company := "", "";
      preSetupFunc, postSetupFunc := None, None;
      preTeardownFunc, postTeardownFunc := false, false;
      systems := [];
      running := false;
    }

    /** SystemRegistered: whether some registered system has this name. */
    method SystemRegistered(name: string) returns (found: bool)
      ensures found <==> Registered(systems, name)
    {
      var i := 0;
      while i < |systems|
        invariant 0 <= i <= |systems|
        invariant forall j :: 0 <= j < i ==> systems[j].name != name
      {
        if systems[i].name == name {
          return true;
        }
        i := i + 1;
      }
      return false;
    }

    /** System: the first registered system with this name, or ErrSystemNotFound. */
    method System(name: string) returns (r: Result<RegisteredSystem>)
      ensures r.Ok? <==> Registered(systems, name)
      ensures r.Ok? ==> exists i :: && 0 <= i < |systems| && systems[i] == r.value && r.value.name == name
                                    && forall j :: 0 <= j < i ==> systems[j].name != name
      ensures r.Err? ==> r.error == SystemNotFound(name)
    {
      var i := 0;
      while i < |systems|
        invariant 0 <= i <= |systems|
        invariant forall j :: 0 <= j < i ==> systems[j].name != name
      {
        if systems[i].name == name {
          return Ok(systems[i]);
        }
        i := i + 1;
      }
      return Err(SystemNotFound(name));
    }

    /** MustSystem panics exactly when System fails. */
    method MustSystem(name: string) returns (s: RegisteredSystem)
      requires Registered(systems, name)
      ensures exists i :: && 0 <= i < |systems| && systems[i] == s && s.name == name
                          && forall j :: 0 <= j < i ==> systems[j].name != name
    {
      var r := System(name);
      s := r.value;
    }

    /** RegisterSystem panics on a name already registered; otherwise it
        appends the system, so names stay unique. */
    method RegisterSystem(s: RegisteredSystem)
      requires !Registered(systems, s.name)
      modifies this
      ensures systems == old(systems) + [s]
      ensures running == old(running)
      ensures preSetupFunc == old(preSetupFunc) && postSetupFunc == old(postSetupFunc)
      ensures preTeardownFunc == old(preTeardownFunc) && postTeardownFunc == old(postTeardownFunc)
    {
      var dup := SystemRegistered(s.name);
      if dup {
        assert false;
      }
      systems := systems + [s];
    }

    /** Setup fails with nothing registered when an app is already current.
        Otherwise it records this app, registers the window, instance, asset
        and time systems in that order, and runs the pre-setup hook, each
        system's Setup in registration order and the post-setup hook, stopping
        at the first error. */
    method Setup(g: Globals, windowSetup: Outcome, instanceSetup: Outcome, assetSetup: Outcome, timeSetup: Outcome)
      returns (o: Outcome, trace: seq<Call>)
      requires g.appInst == null ==>
                 && !Registered(systems, SysNameWindow) && !Registered(systems, SysNameInstance)
                 && !Registered(systems, SysNameAsset) && !Registered(systems, SysNameTime)
      modifies this, g
      ensures old(g.appInst) != null ==> && o == Fail(AppAlreadyCreated) && trace == []
                                         && systems == old(systems) && g.appInst == old(g.appInst)
      ensures old(g.appInst) == null ==>
                && systems == old(systems) + [RegisteredSystem(SysNameWindow, windowSetup), RegisteredSystem(SysNameInstance, instanceSetup),
                                              RegisteredSystem(SysNameAsset, assetSetup), RegisteredSystem(SysNameTime, timeSetup)]
                && (!old(g.appOnce) ==> g.appInst == this)
      ensures old(g.appInst) == null && preSetupFunc.Some? && preSetupFunc.value.Fail? ==>
                o == preSetupFunc.value && trace == [PreSetup]
      ensures o.Pass? <==> && old(g.appInst) == null
                           && (preSetupFunc.Some? ==> preSetupFunc.value.Pass?)
                           && (forall i :: 0 <= i < |systems| ==> systems[i].setupResult.Pass?)
                           && (postSetupFunc.Some? ==> postSetupFunc.value.Pass?)
      ensures o.Pass? ==> trace == PreSetupCalls(preSetupFunc) + SetupCalls(systems) + PostSetupCalls(postSetupFunc)
      ensures && old(g.appInst) == null && (preSetupFunc.Some? ==> preSetupFunc.value.Pass?)
              && !(forall i :: 0 <= i < |systems| ==> systems[i].setupResult.Pass?) ==>
                exists i :: && 0 <= i < |systems| && systems[i].setupResult.Fail?
                            && (forall j :: 0 <= j < i ==> systems[j].setupResult.Pass?)
                            && o == systems[i].setupResult
                            && trace == PreSetupCalls(preSetupFunc) + SetupCalls(systems[..i + 1])
      ensures && old(g.appInst) == null && (preSetupFunc.Some? ==> preSetupFunc.value.Pass?)
              && (forall i :: 0 <= i < |systems| ==> systems[i].setupResult.Pass?) ==>
                && o == (if postSetupFunc.Some? then postSetupFunc.value else Pass)
                && trace == PreSetupCalls(preSetupFunc) + SetupCalls(systems) + PostSetupCalls(postSetupFunc)
      ensures running == old(running)
      ensures preSetupFunc == old(preSetupFunc) && postSetupFunc == old(postSetupFunc)
    {
      if g.appInst != null {
        return Fail(AppAlreadyCreated), [];
      }
      g.SetApp(this);
      RegisterSystem(RegisteredSystem(SysNameWindow, windowSetup));
      RegisterSystem(RegisteredSystem(SysNameInstance, instanceSetup));
      RegisterSystem(RegisteredSystem(SysNameAsset, assetSetup));
      RegisterSystem(RegisteredSystem(SysNameTime, timeSetup));

      trace := [];
      if preSetupFunc.Some? {
        trace := [PreSetup];
        if preSetupFunc.value.Fail? {
          return preSetupFunc.value, trace;
        }
      }
      var setupResult, calls := SetupSystems(systems);
      trace := trace + calls;
      if setupResult.Fail? {
        return setupResult, trace;
      }
      if postSetupFunc.Some? {
        trace := trace + [PostSetup];
        if postSetupFunc.value.Fail? {
          return postSetupFunc.value, trace;
        }
      }
      return Pass, trace;
    }

    /** Teardown: the pre-teardown hook, every system's Teardown from the last
        registered to the first, then the post-teardown hook. */
    method Teardown() returns (trace: seq<Call>)
      ensures trace == (if preTeardownFunc then [PreTeardown] else []) + TeardownCalls(systems)
                       + (if postTeardownFunc then [PostTeardown] else [])
    {
      trace := [];
      if preTeardownFunc {
        trace := [PreTeardown];
      }
      var calls := TeardownSystems(systems);
      trace := trace + calls;
      if postTeardownFunc {
        trace := trace + [PostTeardown];
      }
    }

    /** Run: the window reports ShouldClose first at frame closeFrame, so the
        loop runs closeFrame + 1 frames; frame f runs FixedUpdates over
        logicUpdate(f), so never more than MaxFrameSkip fixed updates. The
        time and window systems must be registered (MustSystem panics
        otherwise). The result lists the fixed updates of each frame. */
    method Run(closeFrame: nat, logicUpdate: nat -> nat -> bool) returns (fixedPerFrame: seq<nat>)
      requires Registered(systems, SysNameTime) && Registered(systems, SysNameWindow)
      modifies this
      ensures !running && systems == old(systems)
      ensures |fixedPerFrame| == closeFrame + 1
      ensures forall f :: 0 <= f < |fixedPerFrame| ==> fixedPerFrame[f] <= MaxFrameSkip
      ensures forall f, n :: 0 <= f < |fixedPerFrame| && 0 <= n < fixedPerFrame[f] ==> logicUpdate(f)(n)
      ensures forall f :: 0 <= f < |fixedPerFrame| && fixedPerFrame[f] < MaxFrameSkip ==>
                !logicUpdate(f)(fixedPerFrame[f])
    {
      running := true;
      var time := MustSystem(SysNameTime);
      var window := MustSystem(SysNameWindow);
      var frame: nat := 0;
      fixedPerFrame := [];
      while running
        invariant frame <= closeFrame + 1
        invariant |fixedPerFrame| == frame
        invariant running <==> frame <= closeFrame
        invariant systems == old(systems)
        invariant forall f :: 0 <= f < frame ==> fixedPerFrame[f] <= MaxFrameSkip
        invariant forall f, n :: 0 <= f < frame && 0 <= n < fixedPerFrame[f] ==> logicUpdate(f)(n)
        invariant forall f :: 0 <= f < frame && fixedPerFrame[f] < MaxFrameSkip ==> !logicUpdate(f)(fixedPerFrame[f])
        decreases closeFrame + 1 - frame
      {
        running := frame != closeFrame;
        var loops := FixedUpdates(logicUpdate(frame));
        fixedPerFrame := fixedPerFrame + [loops];
        frame := frame + 1;
      }
    }

    /** Quit stops the frame loop after the current frame. */
    method Quit()
      modifies this
      ensures !running && systems == old(systems)
    {
      running := false;
    }
  }
}
