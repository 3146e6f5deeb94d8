/** `linux_commands` (build.py:302-311): the one-time setup commands, issued
    through the shell one at a time in list order; the first one that exits
    non-zero ends the process with `sys.exit(1)`. */
module Preflight {
  import opened Shell

  /** The commands issued and how the step ends, starting after `trace`. */
  function RunAll(exit: Oracle, trace: seq<string>, commands: seq<string>): Run
    decreases |commands|
  {
    if commands == [] then Run(trace, Returned)
    else if exit(trace, commands[0]) != 0 then Run(trace + [commands[0]], Exited(1))
    else RunAll(exit, trace + [commands[0]], commands[1..])
  }

  /** Every command exits 0 when it is issued after the ones before it. */
  ghost predicate AllSucceed(exit: Oracle, trace: seq<string>, commands: seq<string>)
  {
    forall i :: 0 <= i < |commands| ==> exit(trace + commands[..i], commands[i]) == 0
  }

  lemma AllSucceedTail(exit: Oracle, trace: seq<string>, commands: seq<string>)
    requires commands != []
    ensures AllSucceed(exit, trace, commands) <==>
      exit(trace, commands[0]) == 0 && AllSucceed(exit, trace + [commands[0]], commands[1..])
  {
    forall i | 0 <= i < |commands| - 1
      ensures trace + commands[..i + 1] == (trace + [commands[0]]) + commands[1..][..i]
    {
      assert commands[..i + 1] == [commands[0]] + commands[1..][..i];
    }
    assert trace + commands[..0] == trace;
  }

  /** The step returns normally exactly when every command succeeds, and then
      the trace has issued the whole list. */
  lemma {:induction false} CompletesIffAllSucceed(exit: Oracle, trace: seq<string>, commands: seq<string>)
    ensures RunAll(exit, trace, commands).status == Returned <==> AllSucceed(exit, trace, commands)
    ensures AllSucceed(exit, trace, commands) ==> RunAll(exit, trace, commands) == Run(trace + commands, Returned)
    decreases |commands|
  {
    if commands != [] {
      AllSucceedTail(exit, trace, commands);
      CompletesIffAllSucceed(exit, trace + [commands[0]], commands[1..]);
      assert (trace + [commands[0]]) + commands[1..] == trace + commands;
    }
  }

  /** When the first `k` commands succeed and command `k` fails, the trace
      stops right after command `k` and the process exits with status 1:
      none of the later commands is issued. */
  lemma {:induction false} StopsAtFirstFailure(exit: Oracle, trace: seq<string>, commands: seq<string>, k: nat)
    requires k < |commands|
    requires AllSucceed(exit, trace, commands[..k])
    requires exit(trace + commands[..k], commands[k]) != 0
    ensures RunAll(exit, trace, commands) == Run(trace + commands[..k + 1], Exited(1))
    decreases k
  {
    if k == 0 {
      assert trace + commands[..0] == trace;
      assert commands[..1] == [commands[0]];
    } else {
      AllSucceedTail(exit, trace, commands[..k]);
      assert commands[..k][0] == commands[0];
      assert commands[..k][1..] == commands[1..][..k - 1];
      assert trace + commands[..k] == (trace + [commands[0]]) + commands[1..][..k - 1];
      StopsAtFirstFailure(exit, trace + [commands[0]], commands[1..], k - 1);
      assert (trace + [commands[0]]) + commands[1..][..k] == trace + commands[..k + 1];
    }
  }

  /** Whatever the host answers, the step issues a prefix of the list in list
      order and ends either normally or with exit status 1. */
  lemma {:induction false} TraceIsPrefix(exit: Oracle, trace: seq<string>, commands: seq<string>)
    ensures var r := RunAll(exit, trace, commands);
      && |trace| <= |r.trace| <= |trace| + |commands|
      && r.trace == trace + commands[..|r.trace| - |trace|]
      && (r.status == Returned || r.status == Exited(1))
    decreases |commands|
  {
    var r := RunAll(exit, trace, commands);
    if commands == [] {
    } else if exit(trace, commands[0]) != 0 {
      assert commands[..1] == [commands[0]];
    } else {
      TraceIsPrefix(exit, trace + [commands[0]], commands[1..]);
      var n := |r.trace| - |trace|;
      assert commands[..n] == [commands[0]] + commands[1..][..n - 1];
    }
  }

  /** When the step exits, it issued the first `n` commands for some `n >= 1`:
      command `n - 1` is the one that failed and every earlier one succeeded. */
  lemma {:induction false} ExitBlamesLast(exit: Oracle, trace: seq<string>, commands: seq<string>)
    requires RunAll(exit, trace, commands).status == Exited(1)
    ensures var n := |RunAll(exit, trace, commands).trace| - |trace|;
      && 1 <= n <= |commands|
      && RunAll(exit, trace, commands).trace == trace + commands[..n]
      && AllSucceed(exit, trace, commands[..n - 1])
      && exit(trace + commands[..n - 1], commands[n - 1]) != 0
    decreases |commands|
  {
    if exit(trace, commands[0]) != 0 {
      assert commands[..1] == [commands[0]];
      assert trace + commands[..0] == trace;
    } else {
      var t1 := trace + [commands[0]];
      ExitBlamesLast(exit, t1, commands[1..]);
      var n := |RunAll(exit, trace, commands).trace| - |trace|;
      assert commands[..n] == [commands[0]] + commands[1..][..n - 1];
      assert t1 + commands[1..][..n - 2] == trace + commands[..n - 1];
      assert commands[1..][n - 2] == commands[n - 1];
      AllSucceedTail(exit, trace, commands[..n - 1]);
      assert commands[..n - 1][1..] == commands[1..][..n - 2];
    }
  }
}
