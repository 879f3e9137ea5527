/** AsyncTaskTracker: counts completions, and fires its callback when nothing is pending any more. */
module TaskTracker {
  import opened Sequences

  datatype TaskStatus = Success | EmptyResponse | Skipped | Error | Cancelled

  /** pending is an int because only a debug check stops one completion too many. */
  datatype Counts = Counts(
    tracked: nat, pending: int, successful: nat, empty: nat, skipped: nat, error: nat, cancelled: nat)
  {
    function Completed(status: TaskStatus): Counts {
      var c := this.(pending := pending - 1);
      match status
      case Success => c.(successful := successful + 1)
      case EmptyResponse => c.(empty := empty + 1)
      case Skipped => c.(skipped := skipped + 1)
      case Error => c.(error := error + 1)
      case Cancelled => c.(cancelled := cancelled + 1)
    }

    /** Empty and skipped count as success because of chaff; all cancelled counts as success too. */
    predicate AnyTaskSuccessfullyCompleted() {
      successful > 0 || empty > 0 || skipped > 0 || error == 0
    }
  }

  function Tracking(n: nat): Counts {
    Counts(n, n, 0, 0, 0, 0, 0)
  }

  function CompletedAll(counts: Counts, statuses: seq<TaskStatus>): Counts {
    if statuses == [] then counts
    else CompletedAll(counts, statuses[..|statuses| - 1]).Completed(statuses[|statuses| - 1])
  }

  lemma {:induction false} CountsAreMultiplicities(n: nat, statuses: seq<TaskStatus>)
    ensures var c := CompletedAll(Tracking(n), statuses);
      var m := multiset(statuses);
      c == Counts(n, n - |statuses|, m[Success], m[EmptyResponse], m[Skipped], m[Error], m[Cancelled])
  {
    if statuses != [] {
      var front, last := statuses[..|statuses| - 1], statuses[|statuses| - 1];
      CountsAreMultiplicities(n, front);
      assert statuses == front + [last];
    }
  }

  /** Of the n completions only the last one fires, whatever the order; the verdict is false iff there was an error
      and everything else was cancelled. */
  lemma FiresOnceWithTheSameVerdict(n: nat, statuses: seq<TaskStatus>, k: nat)
    requires |statuses| == n && k < n
    ensures CompletedAll(Tracking(n), statuses[..k + 1]).pending == 0 <==> k == n - 1
    ensures !CompletedAll(Tracking(n), statuses).AnyTaskSuccessfullyCompleted() <==>
            Error in statuses && forall status :: status in statuses ==> status in {Error, Cancelled}
  {
    CountsAreMultiplicities(n, statuses[..k + 1]);
    CountsAreMultiplicities(n, statuses);
    var m := multiset(statuses);
    assert Error in m <==> Error in statuses;
    assert Success in m <==> Success in statuses;
    assert EmptyResponse in m <==> EmptyResponse in statuses;
    assert Skipped in m <==> Skipped in statuses;
    assert CompletedAll(Tracking(n), statuses).AnyTaskSuccessfullyCompleted() <==>
      Success in m || EmptyResponse in m || Skipped in m || Error !in m;
    forall status | status in statuses && status !in {Error, Cancelled}
      ensures Success in statuses || EmptyResponse in statuses || Skipped in statuses
    {
      assert status.Success? || status.EmptyResponse? || status.Skipped?;
    }
  }

  class AsyncTaskTracker {
    var tracked: nat
    var pending: int
    var successful: nat
    var empty: nat
    var skipped: nat
    var error: nat
    var cancelled: nat

    ghost function View(): Counts
      reads this
    {
      Counts(tracked, pending, successful, empty, skipped, error, cancelled)
    }

    constructor (numTasksToTrack: nat)
      ensures View() == Tracking(numTasksToTrack)
    {
      tracked, pending, successful, empty, skipped, error, cancelled :=
        numTasksToTrack, numTasksToTrack, 0, 0, 0, 0, 0;
    }

    method SetNumTasksToTrack(numTasksToTrack: nat)
      modifies this
      ensures View() == Tracking(numTasksToTrack)
    {
      tracked, pending, successful, empty, skipped, error, cancelled :=
        numTasksToTrack, numTasksToTrack, 0, 0, 0, 0, 0;
    }

    /** The argument the callback is run with, if this completion runs it. */
    method TaskCompleted(status: TaskStatus) returns (fired: Option<bool>)
      modifies this
      ensures View() == old(View()).Completed(status)
      ensures fired == if View().pending == 0 then Some(View().AnyTaskSuccessfullyCompleted()) else None
    {
      pending := pending - 1;
      match status {
        case Error => error := error + 1;
        case EmptyResponse => empty := empty + 1;
        case Skipped => skipped := skipped + 1;
        case Cancelled => cancelled := cancelled + 1;
        case Success => successful := successful + 1;
      }
      fired := None;
      if pending == 0 {
        var possibleChaff := empty > 0 || skipped > 0;
        fired := Some(successful > 0 || possibleChaff || error == 0);
      }
    }
  }
}
