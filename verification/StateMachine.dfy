/** The run state machine: the table of transitions and the object that applies them to a row. */
module StateMachine {
  import opened Domain

  const ERROR_MESSAGE_MAX_LEN: nat := 2000

  function Targets(from: RunStatus): set<RunStatus> {
    match from
    case Pending => {Running, Failed}
    case Running => {Succeeded, Failed, Dead}
    case Succeeded => {}
    case Failed => {Pending, Dead}
    case Dead => {}
  }

  /** Who may come before whom: RUNNING only after PENDING, SUCCEEDED only after RUNNING, DEAD only after RUNNING or FAILED, FAILED only
      after PENDING or RUNNING, PENDING only after FAILED; and all of these are listed. */
  lemma TargetsIff(a: RunStatus, b: RunStatus)
    ensures b in Targets(a) <==>
      match b
      case Pending => a == Failed
      case Running => a == Pending
      case Succeeded => a == Running
      case Failed => a == Pending || a == Running
      case Dead => a == Running || a == Failed
  {
  }

  /** How far a row is from PENDING on the transitions the workers use: all but FAILED to PENDING. */
  function Rank(status: RunStatus): nat {
    match status
    case Pending => 0
    case Running => 1
    case Failed => 2
    case Succeeded => 3
    case Dead => 3
  }

  lemma RankRises(a: RunStatus, b: RunStatus)
    requires b in Targets(a) && b != Pending
    ensures Rank(a) < Rank(b)
  {
  }

  datatype Outcome = Applied | InvalidState(current: RunStatus, attempted: RunStatus)

  class JobRun {
    var status: RunStatus
    var errorMessage: string

    constructor (status: RunStatus)
      ensures this.status == status && errorMessage == ""
    {
      this.status := status;
      errorMessage := "";
    }
  }

  class JobRunStateMachine {
    const run: JobRun

    constructor (run: JobRun)
      ensures this.run == run
    {
      this.run := run;
    }

    function CurrentState(): RunStatus
      reads run
    {
      run.status
    }

    predicate CanTransitionTo(target: RunStatus)
      reads run
    {
      target in Targets(CurrentState())
    }

    /** Apply a transition the table lists; refuse any other and leave the row alone. The message is kept
        only with FAILED and DEAD, only when there is one, and cut to the column's length. */
    method TransitionTo(target: RunStatus, message: Option<string>) returns (r: Outcome)
      modifies run
      ensures r == if target in Targets(old(run.status)) then Applied else InvalidState(old(run.status), target)
      ensures run.status == if r.Applied? then target else old(run.status)
      ensures run.errorMessage ==
        if r.Applied? && message.Some? && message.value != "" && target in {Failed, Dead}
        then (if |message.value| <= 2000 then message.value else message.value[..2000])
        else old(run.errorMessage)
      ensures r.Applied? && target != Pending ==> Rank(old(run.status)) < Rank(run.status)
    {
      if !CanTransitionTo(target) {
        return InvalidState(run.status, target);
      }
      run.status := target;
      if message.Some? && message.value != "" && (target == Failed || target == Dead) {
        var text := message.value;
        run.errorMessage := if |text| <= ERROR_MESSAGE_MAX_LEN then text else text[..ERROR_MESSAGE_MAX_LEN];
      }
      r := Applied;
    }

    /** A guard: refuse when the row is in none of the allowed states. */
    method AssertInState(allowed: seq<RunStatus>) returns (ok: bool)
      ensures ok <==> run.status in allowed
    {
      ok := false;
      var i := 0;
      while i < |allowed| && !ok
        invariant 0 <= i <= |allowed|
        invariant ok <==> run.status in allowed[..i]
      {
        assert allowed[..i + 1] == allowed[..i] + [allowed[i]];
        ok := allowed[i] == CurrentState();
        i := i + 1;
      }
      assert !ok ==> allowed[..i] == allowed;
    }
  }

  /** The statuses a row goes through when each change is applied by the machine. */
  ghost predicate Path(statuses: seq<RunStatus>) {
    && |statuses| > 0
    && forall i :: 0 < i < |statuses| ==> statuses[i] in Targets(statuses[i - 1]) && statuses[i] != Pending
  }

  /** A row that never goes back to PENDING changes at most three times. */
  lemma {:induction false} AtMostThreeChanges(statuses: seq<RunStatus>)
    requires Path(statuses)
    ensures |statuses| <= 4 && |statuses| - 1 <= Rank(statuses[|statuses| - 1])
  {
    var n := |statuses| - 1;
    if n > 0 {
      AtMostThreeChanges(statuses[..n]);
      RankRises(statuses[n - 1], statuses[n]);
    }
  }
}
