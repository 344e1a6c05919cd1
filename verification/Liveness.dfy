module Liveness {
  // Running an execution plan under its fences: a command starts once some command carrying its dependency
  // fence has completed.  Every accepted plan can always make progress until all of it has completed.

  import opened Common
  import opened ExecutionPlan
  import opened ExecutionMapper

  datatype State = State(started: set<int>, completed: set<int>)

  datatype Event = Start(i: nat) | Complete(i: nat)

  ghost predicate Released(cmds: seq<ExecCommand>, s: State, dep: int) {
    dep == 0 || exists j :: 0 <= j < |cmds| && j in s.completed && cmds[j].fence == dep
  }

  ghost predicate Enabled(cmds: seq<ExecCommand>, s: State, e: Event) {
    match e
    case Start(i) => i < |cmds| && i !in s.started && Released(cmds, s, cmds[i].dep)
    case Complete(i) => i in s.started && i !in s.completed
  }

  function After(s: State, e: Event): State {
    match e
    case Start(i) => s.(started := s.started + {i})
    case Complete(i) => s.(completed := s.completed + {i})
  }

  function StateAfter(run: seq<Event>): State {
    if |run| == 0 then State({}, {}) else After(StateAfter(run[..|run| - 1]), run[|run| - 1])
  }

  /** A sequence of events each of which was enabled when it happened. */
  ghost predicate Run(cmds: seq<ExecCommand>, run: seq<Event>) {
    |run| == 0 || (Run(cmds, run[..|run| - 1]) && Enabled(cmds, StateAfter(run[..|run| - 1]), run[|run| - 1]))
  }

  /** Every dependency names the fence of an earlier command. */
  ghost predicate Backward(cmds: seq<ExecCommand>) {
    forall i :: 0 <= i < |cmds| ==> cmds[i].dep == 0 || FenceSeen(cmds, i, cmds[i].dep)
  }

  ghost predicate Finished(cmds: seq<ExecCommand>, s: State) {
    forall i :: 0 <= i < |cmds| ==> i in s.completed
  }

  ghost predicate Consistent(cmds: seq<ExecCommand>, s: State) {
    && s.completed <= s.started
    && (forall i :: i in s.started ==> 0 <= i < |cmds|)
    && (forall i :: i in s.started ==> Released(cmds, s, cmds[i].dep))
  }

  lemma {:induction false} ReleasedGrows(cmds: seq<ExecCommand>, s: State, t: State, dep: int)
    requires Released(cmds, s, dep) && s.completed <= t.completed
    ensures Released(cmds, t, dep)
  {
  }

  /** How many of the first n command positions are in s. */
  function Members(s: set<int>, n: nat): nat {
    if n == 0 then 0 else Members(s, n - 1) + if n - 1 in s then 1 else 0
  }

  /** Starts and completions so far. */
  function Progress(s: State, n: nat): nat {
    Members(s.started, n) + Members(s.completed, n)
  }

  lemma {:induction false} NoMembers(n: nat)
    ensures Members({}, n) == 0
  {
    if n > 0 {
      NoMembers(n - 1);
    }
  }

  lemma {:induction false} MembersAdd(s: set<int>, i: nat, n: nat)
    requires i !in s
    ensures Members(s + {i}, n) == Members(s, n) + if i < n then 1 else 0
  {
    if n > 0 {
      MembersAdd(s, i, n - 1);
    }
  }

  lemma {:induction false} StepConsistent(cmds: seq<ExecCommand>, s: State, e: Event)
    requires Consistent(cmds, s) && Enabled(cmds, s, e)
    ensures Consistent(cmds, After(s, e))
    ensures Progress(After(s, e), |cmds|) == Progress(s, |cmds|) + 1
  {
    var t := After(s, e);
    match e {
      case Start(i) => MembersAdd(s.started, i, |cmds|);
      case Complete(i) => MembersAdd(s.completed, i, |cmds|);
    }
    forall i | i in t.started
      ensures Released(cmds, t, cmds[i].dep)
    {
      ReleasedGrows(cmds, s, t, cmds[i].dep);
    }
  }

  /** What holds after every run: nothing completes unstarted, nothing starts before a completed command
      carries its fence, and each event adds one start or completion. */
  lemma {:induction false} RunConsistent(cmds: seq<ExecCommand>, run: seq<Event>)
    requires Run(cmds, run)
    ensures Consistent(cmds, StateAfter(run))
    ensures Progress(StateAfter(run), |cmds|) == |run|
  {
    if |run| == 0 {
      NoMembers(|cmds|);
    } else {
      var init, e := run[..|run| - 1], run[|run| - 1];
      RunConsistent(cmds, init);
      StepConsistent(cmds, StateAfter(init), e);
    }
  }

  /** The least command that has not started, from k on. */
  function FirstUnstarted(started: set<int>, n: nat, k: nat): (i: nat)
    requires k <= n
    ensures k <= i <= n
    ensures forall j :: k <= j < i ==> j in started
    ensures i < n ==> i !in started
    decreases n - k
  {
    if k == n then n else if k !in started then k else FirstUnstarted(started, n, k + 1)
  }

  /** The step to take next: complete what runs, otherwise start the earliest command still waiting. */
  lemma {:induction false} NeverStuck(cmds: seq<ExecCommand>, s: State) returns (e: Event)
    requires Backward(cmds) && Consistent(cmds, s) && !Finished(cmds, s)
    ensures Enabled(cmds, s, e)
  {
    if i: nat :| i in s.started && i !in s.completed {
      e := Complete(i);
    } else {
      var i := FirstUnstarted(s.started, |cmds|, 0);
      e := Start(i);
      if i == |cmds| {
        assert false;
      }
      if cmds[i].dep != 0 {
        var j :| 0 <= j < i && cmds[j].fence == cmds[i].dep;
        assert j in s.started && j in s.completed;
      }
    }
  }

  /** A full count means everything is there. */
  lemma {:induction false} MembersBounded(s: set<int>, n: nat)
    ensures Members(s, n) <= n
    ensures Members(s, n) == n <==> forall i :: 0 <= i < n ==> i in s
  {
    if n > 0 {
      MembersBounded(s, n - 1);
    }
  }

  /** Main result: a run of a plan whose dependencies point backwards has at most two events per command,
      can be continued as long as something is unfinished, and is over exactly when every command has
      started and completed. */
  lemma {:induction false} RunsFinish(cmds: seq<ExecCommand>, run: seq<Event>)
    requires Backward(cmds) && Run(cmds, run)
    ensures |run| <= 2 * |cmds|
    ensures |run| == 2 * |cmds| <==> Finished(cmds, StateAfter(run))
    ensures |run| < 2 * |cmds| ==> exists e :: Run(cmds, run + [e])
  {
    RunConsistent(cmds, run);
    var s := StateAfter(run);
    MembersBounded(s.started, |cmds|);
    MembersBounded(s.completed, |cmds|);
    if !Finished(cmds, s) {
      var e := NeverStuck(cmds, s);
      assert (run + [e])[..|run|] == run;
      assert Run(cmds, run + [e]);
    }
  }

  /** Every plan the mapper accepts is live, in either mode. */
  lemma {:induction false} AcceptedPlansAreLive(p: ExecPlan, strict: bool, run: seq<Event>)
    requires MapPlan(p, strict).Ok? && Run(p.commands, run)
    ensures |run| <= 2 * |p.commands|
    ensures |run| == 2 * |p.commands| <==> Finished(p.commands, StateAfter(run))
    ensures |run| < 2 * |p.commands| ==> exists e :: Run(p.commands, run + [e])
  {
    MapPlanIff(p, strict);
    BackwardIfOk(p.commands, p.tileCount, strict);
    hide MapPlan;
    RunsFinish(p.commands, run);
  }

  lemma {:induction false} BackwardIfOk(cmds: seq<ExecCommand>, tileCount: int, strict: bool)
    requires forall i :: 0 <= i < |cmds| ==> CommandOk(cmds, i, tileCount, strict)
    ensures Backward(cmds)
  {
    hide FenceSeen;
    hide IdSeen;
    forall i | 0 <= i < |cmds|
      ensures cmds[i].dep == 0 || FenceSeen(cmds, i, cmds[i].dep)
    {
      assert CommandOk(cmds, i, tileCount, strict);
    }
  }

  /** Running the commands to completion one by one in list order. */
  function ListOrder(n: nat): seq<Event> {
    if n == 0 then [] else ListOrder(n - 1) + [Start(n - 1), Complete(n - 1)]
  }

  lemma {:induction false} ListOrderState(n: nat)
    ensures forall i :: i in StateAfter(ListOrder(n)).started <==> 0 <= i < n
    ensures forall i :: i in StateAfter(ListOrder(n)).completed <==> 0 <= i < n
  {
    if n > 0 {
      ListOrderState(n - 1);
      var r := ListOrder(n);
      assert r[..|r| - 1][..|r| - 2] == ListOrder(n - 1);
      assert r[..|r| - 1] == ListOrder(n - 1) + [Start(n - 1)];
    }
  }

  /** List order is a topological order of the fence dependencies: it is itself a run, and it finishes. */
  lemma {:induction false} ListOrderRuns(cmds: seq<ExecCommand>, n: nat)
    requires Backward(cmds) && n <= |cmds|
    ensures Run(cmds, ListOrder(n))
  {
    if n > 0 {
      ListOrderRuns(cmds, n - 1);
      ListOrderState(n - 1);
      var r := ListOrder(n);
      var q := ListOrder(n - 1) + [Start(n - 1)];
      assert r[..|r| - 1] == q && q[..|q| - 1] == ListOrder(n - 1);
      var s := StateAfter(ListOrder(n - 1));
      if cmds[n - 1].dep != 0 {
        var j :| 0 <= j < n - 1 && cmds[j].fence == cmds[n - 1].dep;
        assert j in s.completed;
      }
      assert Run(cmds, q);
    }
  }
}
