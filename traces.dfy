/** Observations about event traces, used to state what the plugin may and may
    not do. */
module Traces {
  import opened Host

  /** How many times the language server is started in a trace. */
  function LaunchCount(trace: seq<Event>): nat
  {
    if trace == [] then 0
    else (if trace[0].StartLsp? then 1 else 0) + LaunchCount(trace[1..])
  }

  /** How many times a given command is run in a trace. */
  function CommandCount(trace: seq<Event>, command: Event): nat
  {
    if trace == [] then 0
    else (if trace[0] == command then 1 else 0) + CommandCount(trace[1..], command)
  }

  /** An error-level message shown to the user. */
  predicate IsErrorMessage(e: Event)
  {
    e.ShowMessage? && e.severity == Error
  }

  /** The server is never started after an error has been shown. */
  predicate NoLaunchAfterError(trace: seq<Event>)
  {
    forall i, j :: 0 <= i < j < |trace| && IsErrorMessage(trace[i]) ==> !trace[j].StartLsp?
  }

  /** Both counts add up over concatenated traces. */
  lemma {:induction false} CountsAppend(a: seq<Event>, b: seq<Event>, command: Event)
    ensures LaunchCount(a + b) == LaunchCount(a) + LaunchCount(b)
    ensures CommandCount(a + b, command) == CommandCount(a, command) + CommandCount(b, command)
  {
    if a == [] {
      assert a + b == b;
    } else {
      assert (a + b)[1..] == a[1..] + b;
      CountsAppend(a[1..], b, command);
    }
  }

  /** A trace counts no launch exactly when it holds no `StartLsp` event. */
  lemma {:induction false} LaunchCountZero(trace: seq<Event>)
    ensures LaunchCount(trace) == 0 <==> forall i :: 0 <= i < |trace| ==> !trace[i].StartLsp?
  {
    if trace != [] {
      LaunchCountZero(trace[1..]);
      assert forall i :: 0 < i < |trace| ==> trace[i] == trace[1..][i - 1];
    }
  }

  /** A command is counted zero times exactly when it does not occur. */
  lemma {:induction false} CommandCountZero(trace: seq<Event>, command: Event)
    ensures CommandCount(trace, command) == 0 <==> command !in trace
  {
    if trace != [] {
      CommandCountZero(trace[1..], command);
      assert trace == [trace[0]] + trace[1..];
    }
  }
}
