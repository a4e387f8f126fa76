/**
 * Child processes and the interpreter's exit registry, as the command-line
 * layer sees them. A process handle is an abstract id (its position in the
 * table of started processes); `atexit` is a sequence of handle ids, each
 * standing for the registered bound method `process.terminate`.
 */
module Processes {
  import opened Wrappers
  import opened PyValues

  type Handle = nat

  /** An environment: variable name to value. */
  type Env = map<string, string>

  /** What the server process is started with; it does not change across reloads. */
  datatype ServerConfig = ServerConfig(app: string, host: Value, port: Value, production: Value)

  /** How a child was started. */
  datatype Invocation =
    | Popen(argv: seq<string>, env: Option<Env>)   // subprocess.Popen; env None inherits the parent's
    | ServerProcess(config: ServerConfig)          // multiprocessing.Process running the application server

  datatype Status = Running | Terminated | Exited

  datatype Proc = Proc(invocation: Invocation, status: Status)

  /** `process.terminate()`: a running process is terminated; on one that already ended it does nothing. */
  function Stopped(p: Proc): (q: Proc)
    ensures q.invocation == p.invocation && q.status != Running
    ensures p.status != Running ==> q == p
  {
    if p.status == Running then p.(status := Terminated) else p
  }

  /** `process.wait()`: returns once the process has ended. */
  function Waited(p: Proc): (q: Proc)
    ensures q.invocation == p.invocation && q.status != Running
    ensures p.status != Running ==> q == p
  {
    if p.status == Running then p.(status := Exited) else p
  }

  /** Freshly started processes, one per invocation, in order. */
  function Started(invs: seq<Invocation>): (ps: seq<Proc>)
    ensures |ps| == |invs|
    ensures forall i :: 0 <= i < |invs| ==> ps[i] == Proc(invs[i], Running)
  {
    seq(|invs|, i requires 0 <= i < |invs| => Proc(invs[i], Running))
  }

  /** The handles `from`, `from + 1`, ..., `from + count - 1`. */
  function Span(from: nat, count: nat): (hs: seq<Handle>)
    ensures |hs| == count
    ensures forall i :: 0 <= i < count ==> hs[i] == from + i
  {
    seq(count, i requires 0 <= i < count => from + i)
  }

  /** `atexit.unregister(h)`: every registration of `h` is removed, the others keep their order. */
  function Without(hooks: seq<Handle>, h: Handle): (r: seq<Handle>)
    ensures multiset(r) == multiset(hooks)[h := 0]
    ensures forall x :: x in r <==> x in hooks && x != h
  {
    if hooks == [] then []
    else
      assert hooks == [hooks[0]] + hooks[1..];
      if hooks[0] == h then Without(hooks[1..], h)
      else [hooks[0]] + Without(hooks[1..], h)
  }

  /** Unregistering distributes over concatenation: the order of the remaining hooks is kept. */
  lemma {:induction false} WithoutAppend(a: seq<Handle>, b: seq<Handle>, h: Handle)
    ensures Without(a + b, h) == Without(a, h) + Without(b, h)
  {
    if a == [] {
      assert a + b == b;
    } else {
      var ab := a + b;
      assert ab[0] == a[0] && ab[1..] == a[1..] + b;
      WithoutAppend(a[1..], b, h);
    }
  }

  /** Every registered hook names a started process. */
  predicate HooksInRange(procs: seq<Proc>, hooks: seq<Handle>) {
    forall h :: h in hooks ==> h < |procs|
  }

  /** No orphan: every process still running has a terminate hook registered for exit. */
  predicate NoOrphans(procs: seq<Proc>, hooks: seq<Handle>) {
    forall h :: 0 <= h < |procs| && procs[h].status == Running ==> h in hooks
  }

  /** The running server processes. */
  function LiveServers(procs: seq<Proc>): set<Handle> {
    set h | 0 <= h < |procs| && procs[h].status == Running && procs[h].invocation.ServerProcess?
  }

  /**
   * The effect of interpreter exit on the children: the registered hooks run
   * last-registered first, each terminating its process.
   */
  function RunExitHooks(procs: seq<Proc>, hooks: seq<Handle>): (r: seq<Proc>)
    requires HooksInRange(procs, hooks)
    ensures |r| == |procs|
    ensures forall h :: 0 <= h < |procs| ==> r[h].invocation == procs[h].invocation
    ensures forall h :: 0 <= h < |procs| && h in hooks ==> r[h].status != Running
    ensures forall h :: 0 <= h < |procs| && h !in hooks ==> r[h] == procs[h]
    decreases |hooks|
  {
    if hooks == [] then procs
    else
      var last := hooks[|hooks| - 1];
      assert hooks == hooks[..|hooks| - 1] + [last];
      assert last in hooks;
      var rest, procs' := hooks[..|hooks| - 1], procs[last := Stopped(procs[last])];
      assert HooksInRange(procs', rest) by {
        forall h | h in rest ensures h < |procs'| {
          assert h in hooks;
        }
      }
      RunExitHooks(procs', rest)
  }

  /** When no child is orphaned, running the exit hooks leaves no child running. */
  lemma NoChildOutlivesExit(procs: seq<Proc>, hooks: seq<Handle>)
    requires HooksInRange(procs, hooks) && NoOrphans(procs, hooks)
    ensures forall h :: 0 <= h < |procs| ==> RunExitHooks(procs, hooks)[h].status != Running
  {
  }

  /**
   * The process table and the exit registry, which the spawn helpers, the
   * reload handler and the dispatch update in place.
   */
  class Runtime {
    var procs: seq<Proc>
    var exitHooks: seq<Handle>

    ghost predicate Valid()
      reads this
    {
      HooksInRange(procs, exitHooks) && NoOrphans(procs, exitHooks)
    }

    constructor ()
      ensures Valid()
      ensures procs == [] && exitHooks == []
    {
      procs, exitHooks := [], [];
    }

    /** Start a child; its handle is the next free id. */
    method Spawn(inv: Invocation) returns (h: Handle)
      modifies this
      ensures h == |old(procs)|
      ensures procs == old(procs) + [Proc(inv, Running)]
      ensures exitHooks == old(exitHooks)
    {
      h := |procs|;
      procs := procs + [Proc(inv, Running)];
    }

    /** `atexit.register(process.terminate)`. */
    method Register(h: Handle)
      requires h < |procs|
      modifies this
      ensures exitHooks == old(exitHooks) + [h]
      ensures procs == old(procs)
    {
      exitHooks := exitHooks + [h];
    }

    /** `atexit.unregister(process.terminate)`. */
    method Unregister(h: Handle)
      modifies this
      ensures exitHooks == Without(old(exitHooks), h)
      ensures procs == old(procs)
    {
      exitHooks := Without(exitHooks, h);
    }

    /** `process.terminate()`. */
    method Terminate(h: Handle)
      requires h < |procs|
      modifies this
      ensures procs == old(procs)[h := Stopped(old(procs)[h])]
      ensures exitHooks == old(exitHooks)
    {
      procs := procs[h := Stopped(procs[h])];
    }

    /** `process.wait()`. */
    method Wait(h: Handle)
      requires h < |procs|
      modifies this
      ensures procs == old(procs)[h := Waited(old(procs)[h])]
      ensures exitHooks == old(exitHooks)
    {
      procs := procs[h := Waited(procs[h])];
    }
  }

  /**
   * The table and the registry grew by one started, registered process per
   * invocation, in order: the shape every spawn helper promises.
   */
  predicate Appended(procs0: seq<Proc>, hooks0: seq<Handle>, procs1: seq<Proc>, hooks1: seq<Handle>, invs: seq<Invocation>) {
    procs1 == procs0 + Started(invs) && hooks1 == hooks0 + Span(|procs0|, |invs|)
  }

  /** Two spawn steps in a row make one. */
  lemma AppendedTrans(procs0: seq<Proc>, hooks0: seq<Handle>, procs1: seq<Proc>, hooks1: seq<Handle>,
                      procs2: seq<Proc>, hooks2: seq<Handle>, a: seq<Invocation>, b: seq<Invocation>)
    requires Appended(procs0, hooks0, procs1, hooks1, a)
    requires Appended(procs1, hooks1, procs2, hooks2, b)
    ensures Appended(procs0, hooks0, procs2, hooks2, a + b)
  {
    assert Started(a + b) == Started(a) + Started(b);
    assert Span(|procs0|, |a + b|) == Span(|procs0|, |a|) + Span(|procs1|, |b|);
  }

  /** Spawning and registering keeps every hook in range and leaves no orphan. */
  lemma AppendedKeepsValid(procs0: seq<Proc>, hooks0: seq<Handle>, procs1: seq<Proc>, hooks1: seq<Handle>, invs: seq<Invocation>)
    requires Appended(procs0, hooks0, procs1, hooks1, invs)
    requires HooksInRange(procs0, hooks0) && NoOrphans(procs0, hooks0)
    ensures HooksInRange(procs1, hooks1) && NoOrphans(procs1, hooks1)
  {
    forall h | 0 <= h < |procs1| && procs1[h].status == Running
      ensures h in hooks1
    {
      if h < |procs0| {
        assert procs1[h] == procs0[h];
      } else {
        assert hooks1[|hooks0| + (h - |procs0|)] == h;
      }
    }
  }
}
