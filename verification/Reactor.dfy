/**
  The callback-driven client `Chatter`: a writer that starts the next request from the
  completion of the last one, a reader that restarts itself, and a waiter.
 */
module Reactor {
  import opened MuxModel

  datatype Status = Status(code: int, message: string)

  /** What happens on the call, in the order in which it happens. */
  datatype Happening =
    | WriteStarted(request: Request)
    | WriteCompleted(ok: bool)
    | WritesDoneStarted
    | ReadStarted
    | ReadCompleted(ok: bool)
    | Finished(status: Status)

  // ---- Reading a log ----

  function Writes(log: seq<Happening>): seq<Request> {
    if log == [] then []
    else Writes(log[..|log| - 1]) + (if log[|log| - 1].WriteStarted? then [log[|log| - 1].request] else [])
  }

  function Count(log: seq<Happening>, p: Happening -> bool): nat {
    if log == [] then 0
    else Count(log[..|log| - 1], p) + (if p(log[|log| - 1]) then 1 else 0)
  }

  function WritesCompleted(log: seq<Happening>): nat { Count(log, (x: Happening) => x.WriteCompleted?) }
  function Closings(log: seq<Happening>): nat { Count(log, (x: Happening) => x.WritesDoneStarted?) }
  function ReadsStarted(log: seq<Happening>): nat { Count(log, (x: Happening) => x.ReadStarted?) }
  function ReadsCompleted(log: seq<Happening>): nat { Count(log, (x: Happening) => x.ReadCompleted?) }
  function ReadsFailed(log: seq<Happening>): nat { Count(log, (x: Happening) => x.ReadCompleted? && !x.ok) }
  function Finishes(log: seq<Happening>): nat { Count(log, (x: Happening) => x.Finished?) }

  /** What holds at every moment of a call. */
  ghost predicate Orderly(requests: seq<Request>, log: seq<Happening>) {
    // requests are started in order, each once, at most one at a time
    && Writes(log) <= requests
    && WritesCompleted(log) <= |Writes(log)| <= WritesCompleted(log) + 1
    // the writer is closed once, and only after the last write has completed
    && Closings(log) <= 1
    && (Closings(log) == 1 ==> WritesCompleted(log) == |requests|)
    // at most one read is outstanding, and none is started after a failed one
    && ReadsCompleted(log) <= ReadsStarted(log) <= ReadsCompleted(log) + 1
    && ReadsFailed(log) <= 1
    && (ReadsFailed(log) == 1 ==> ReadsStarted(log) == ReadsCompleted(log))
    // the call finishes at most once, with nothing outstanding
    && Finishes(log) <= 1
    && (Finishes(log) == 1 ==> WritesCompleted(log) == |Writes(log)| && ReadsStarted(log) == ReadsCompleted(log))
  }

  /** Every moment of the call was orderly. */
  ghost predicate Disciplined(requests: seq<Request>, log: seq<Happening>) {
    forall k | 0 <= k <= |log| :: Orderly(requests, log[..k])
  }

  lemma Extend(requests: seq<Request>, log: seq<Happening>, x: Happening)
    requires Disciplined(requests, log) && Orderly(requests, log + [x])
    ensures Disciplined(requests, log + [x])
  {
    hide Orderly;
    forall k | 0 <= k <= |log| + 1
      ensures Orderly(requests, (log + [x])[..k])
    {
      if k <= |log| {
        assert (log + [x])[..k] == log[..k];
      } else {
        assert (log + [x])[..k] == log + [x];
      }
    }
  }

  /** How one more happening changes what a log says. */
  lemma OneMore(log: seq<Happening>, x: Happening)
    ensures Writes(log + [x]) == Writes(log) + (if x.WriteStarted? then [x.request] else [])
    ensures WritesCompleted(log + [x]) == WritesCompleted(log) + (if x.WriteCompleted? then 1 else 0)
    ensures Closings(log + [x]) == Closings(log) + (if x.WritesDoneStarted? then 1 else 0)
    ensures ReadsStarted(log + [x]) == ReadsStarted(log) + (if x.ReadStarted? then 1 else 0)
    ensures ReadsCompleted(log + [x]) == ReadsCompleted(log) + (if x.ReadCompleted? then 1 else 0)
    ensures ReadsFailed(log + [x]) == ReadsFailed(log) + (if x.ReadCompleted? && !x.ok then 1 else 0)
    ensures Finishes(log + [x]) == Finishes(log) + (if x.Finished? then 1 else 0)
  {
    assert (log + [x])[..|log|] == log;
  }

  lemma NothingYet(requests: seq<Request>)
    ensures Disciplined(requests, []) && Orderly(requests, [])
    ensures Writes([]) == [] && WritesCompleted([]) == 0 && Closings([]) == 0
    ensures ReadsStarted([]) == 0 && ReadsCompleted([]) == 0 && ReadsFailed([]) == 0 && Finishes([]) == 0
  {
    var none: seq<Happening> := [];
    assert none[..0] == none;
  }

  // ---- What a disciplined log looks like ----

  /** The counts one happening later. */
  lemma OneLater(log: seq<Happening>, k: nat)
    requires k < |log|
    ensures var a, b, x := log[..k], log[..k + 1], log[k];
            && Writes(b) == Writes(a) + (if x.WriteStarted? then [x.request] else [])
            && WritesCompleted(b) == WritesCompleted(a) + (if x.WriteCompleted? then 1 else 0)
            && Closings(b) == Closings(a) + (if x.WritesDoneStarted? then 1 else 0)
            && ReadsStarted(b) == ReadsStarted(a) + (if x.ReadStarted? then 1 else 0)
            && ReadsCompleted(b) == ReadsCompleted(a) + (if x.ReadCompleted? then 1 else 0)
            && ReadsFailed(b) == ReadsFailed(a) + (if x.ReadCompleted? && !x.ok then 1 else 0)
            && Finishes(b) == Finishes(a) + (if x.Finished? then 1 else 0)
  {
    OneMore(log[..k], log[k]);
    assert log[..k] + [log[k]] == log[..k + 1];
  }

  /** From `i` to `j` nothing is taken back, and what does not happen is not counted. */
  lemma {:induction false} Later(log: seq<Happening>, i: nat, j: nat)
    requires i <= j <= |log|
    ensures var a, b := log[..i], log[..j];
            && |Writes(a)| <= |Writes(b)| && Closings(a) <= Closings(b) && ReadsFailed(a) <= ReadsFailed(b)
            && ReadsStarted(a) <= ReadsStarted(b) && Finishes(a) <= Finishes(b)
            && WritesCompleted(a) <= WritesCompleted(b)
            && ((forall k | i <= k < j :: !log[k].WriteCompleted?) ==> WritesCompleted(b) == WritesCompleted(a))
            && ((forall k | i <= k < j :: !log[k].ReadCompleted?) ==> ReadsCompleted(b) == ReadsCompleted(a))
    decreases j - i
  {
    hide Writes, WritesCompleted, Closings, ReadsStarted, ReadsCompleted, ReadsFailed, Finishes;
    if i < j {
      Later(log, i, j - 1);
      OneLater(log, j - 1);
    }
  }

  /** The requests are started in order: the next one after as many as were started before. */
  lemma StartedInOrder(requests: seq<Request>, log: seq<Happening>, i: nat)
    requires Disciplined(requests, log) && i < |log| && log[i].WriteStarted?
    ensures var n := |Writes(log[..i])|;
            n < |requests| && log[i].request == requests[n]
    ensures |Writes(log[..i])| == |Starts(log[..i])|
  {
    hide Writes, WritesCompleted, Closings, ReadsStarted, ReadsCompleted, ReadsFailed, Finishes;
    OneLater(log, i);
    assert Orderly(requests, log[..i + 1]);
    StartsCounted(log[..i]);
  }

  /** When writes were started. */
  function Starts(log: seq<Happening>): set<int> {
    set k | 0 <= k < |log| && log[k].WriteStarted?
  }

  lemma {:induction false} StartsCounted(log: seq<Happening>)
    ensures |Writes(log)| == |Starts(log)|
  {
    if log == [] {
      assert Starts(log) == {};
    } else {
      var n := |log| - 1;
      StartsCounted(log[..n]);
      assert Starts(log) == if log[n].WriteStarted? then Starts(log[..n]) + {n} else Starts(log[..n]);
    }
  }

  /** Between two writes, and between two reads, the first is completed. */
  lemma OneAtATime(requests: seq<Request>, log: seq<Happening>, i: nat, j: nat)
    requires Disciplined(requests, log) && i < j < |log|
    ensures log[i].WriteStarted? && log[j].WriteStarted? ==> exists k :: i < k < j && log[k].WriteCompleted?
    ensures log[i].ReadStarted? && log[j].ReadStarted? ==> exists k :: i < k < j && log[k].ReadCompleted?
  {
    hide Writes, WritesCompleted, Closings, ReadsStarted, ReadsCompleted, ReadsFailed, Finishes;
    OneLater(log, i);
    Later(log, i + 1, j);
    OneLater(log, j);
    assert Orderly(requests, log[..i]) && Orderly(requests, log[..j + 1]);
  }

  /** After the close nothing is written; the close comes when every request has been written and completed. */
  lemma ClosedForGood(requests: seq<Request>, log: seq<Happening>, i: nat, j: nat)
    requires Disciplined(requests, log) && i < j < |log| && log[i].WritesDoneStarted?
    ensures Writes(log[..i]) == requests && WritesCompleted(log[..i]) == |requests|
    ensures !log[j].WriteStarted? && !log[j].WriteCompleted? && !log[j].WritesDoneStarted?
  {
    hide Writes, WritesCompleted, Closings, ReadsStarted, ReadsCompleted, ReadsFailed, Finishes;
    OneLater(log, i);
    Later(log, i + 1, j);
    OneLater(log, j);
    assert Orderly(requests, log[..i]) && Orderly(requests, log[..i + 1]) && Orderly(requests, log[..j + 1]);
  }

  /** No read is started after a failed one, and nothing is started after the finish. */
  lemma NothingAfterTheEnd(requests: seq<Request>, log: seq<Happening>, i: nat, j: nat)
    requires Disciplined(requests, log) && i < j < |log|
    ensures log[i].ReadCompleted? && !log[i].ok ==> !log[j].ReadStarted? && !log[j].ReadCompleted?
    ensures log[i].Finished? ==> !log[j].WriteStarted? && !log[j].ReadStarted? && !log[j].Finished?
  {
    hide Writes, WritesCompleted, Closings, ReadsStarted, ReadsCompleted, ReadsFailed, Finishes;
    OneLater(log, i);
    Later(log, i + 1, j);
    OneLater(log, j);
    assert Orderly(requests, log[..j]) && Orderly(requests, log[..j + 1]);
  }

  /** A write, or a read, has been started and not completed. */
  predicate Writing(log: seq<Happening>) { |Writes(log)| > WritesCompleted(log) }
  predicate Reading(log: seq<Happening>) { ReadsStarted(log) > ReadsCompleted(log) }

  class Chatter {
    const requests: seq<Request>
    var next: nat
    var status: Option<Status>
    var done: bool
    var log: seq<Happening>

    /** The state between callbacks. */
    ghost predicate Valid()
      reads this
    {
      && Disciplined(requests, log) && Orderly(requests, log)
      && next == |Writes(log)| <= |requests|
      // the next write is always under way, and the close follows the last one at once
      && |Writes(log)| == (if WritesCompleted(log) < |requests| then WritesCompleted(log) + 1 else |requests|)
      && (Closings(log) == 1 <==> WritesCompleted(log) == |requests|)
      // the reader is always reading until a read fails
      && (ReadsStarted(log) == ReadsCompleted(log) <==> ReadsFailed(log) == 1)
      && (done <==> Finishes(log) == 1)
      && (done <==> status.Some?)
      && (done ==> log[|log| - 1] == Finished(status.value))
    }

    method Append(x: Happening)
      requires Disciplined(requests, log) && Orderly(requests, log + [x])
      modifies this`log
      ensures log == old(log) + [x] && Disciplined(requests, log) && Orderly(requests, log)
    {
      Extend(requests, log, x);
      log := log + [x];
    }

    method NextWrite()
      requires Disciplined(requests, log) && Orderly(requests, log) && Finishes(log) == 0
      requires next == |Writes(log)| == WritesCompleted(log) && Closings(log) == 0
      modifies this`log, this`next
      ensures Disciplined(requests, log) && Orderly(requests, log)
      ensures log == old(log) + [if old(next) < |requests| then WriteStarted(requests[old(next)]) else WritesDoneStarted]
      ensures next == if old(next) < |requests| then old(next) + 1 else old(next)
    {
      if next != |requests| {
        OneMore(log, WriteStarted(requests[next]));
        assert Writes(log) == requests[..next];
        Append(WriteStarted(requests[next]));
        next := next + 1;
      } else {
        OneMore(log, WritesDoneStarted);
        Append(WritesDoneStarted);
      }
    }

    /** For any vector of requests; the source builds one with a single element. */
    constructor (requests: seq<Request>)
      ensures Valid() && !done && this.requests == requests
      ensures log == [if requests == [] then WritesDoneStarted else WriteStarted(requests[0]), ReadStarted]
    {
      this.requests := requests;
      next, status, done, log := 0, None, false, [];
      new;
      Begin();
    }

    /** What the constructor does with the call: the first write and the first read. */
    method Begin()
      requires next == 0 && status == None && !done && log == []
      modifies this
      ensures Valid() && !done
      ensures log == [if requests == [] then WritesDoneStarted else WriteStarted(requests[0]), ReadStarted]
    {
      hide Writes, WritesCompleted, Closings, ReadsStarted, ReadsCompleted, ReadsFailed, Finishes, Disciplined;
      NothingYet(requests);
      NextWrite();
      ghost var first := log[0];
      OneMore([], first);
      assert [] + [first] == log;
      OneMore(log, ReadStarted);
      Append(ReadStarted);
    }

    /** Called when the write under way has completed. */
    method OnWriteDone(ok: bool)
      requires Valid() && !done && Writing(log)
      modifies this`log, this`next
      ensures Valid() && !done
      ensures log == old(log) + [WriteCompleted(ok),
                                 if old(next) < |requests| then WriteStarted(requests[old(next)]) else WritesDoneStarted]
    {
      hide Writes, WritesCompleted, Closings, ReadsStarted, ReadsCompleted, ReadsFailed, Finishes, Disciplined;
      OneMore(log, WriteCompleted(ok));
      Append(WriteCompleted(ok));
      ghost var log1 := log;
      NextWrite();
      OneMore(log1, log[|log1|]);
    }

    /** Called when the read under way has completed. */
    method OnReadDone(ok: bool)
      requires Valid() && !done && Reading(log)
      modifies this`log
      ensures Valid() && !done
      ensures log == old(log) + [ReadCompleted(ok)] + (if ok then [ReadStarted] else [])
    {
      hide Writes, WritesCompleted, Closings, ReadsStarted, ReadsCompleted, ReadsFailed, Finishes, Disciplined;
      OneMore(log, ReadCompleted(ok));
      Append(ReadCompleted(ok));
      if ok {
        OneMore(log, ReadStarted);
        Append(ReadStarted);
      }
    }

    /** Called once, when nothing is under way any more. */
    method OnDone(s: Status)
      requires Valid() && !done && !Writing(log) && !Reading(log)
      modifies this
      ensures Valid() && done && log == old(log) + [Finished(s)]
    {
      hide Writes, WritesCompleted, Closings, ReadsStarted, ReadsCompleted, ReadsFailed, Finishes, Disciplined;
      OneMore(log, Finished(s));
      Append(Finished(s));
      status := Some(s);
      done := true;
    }

    /**
      One look at the condition that `Await` waits for. The wait ends only when the call has
      finished, with the status it finished with; by then every request has been written and
      the writer closed.
     */
    method Await() returns (r: Option<Status>)
      requires Valid()
      ensures r.Some? <==> Finishes(log) == 1
      ensures r.Some? ==> log != [] && log[|log| - 1] == Finished(r.value)
      ensures r.Some? ==> Writes(log) == requests && Closings(log) == 1 && ReadsFailed(log) == 1
    {
      if done {
        r := status;
      } else {
        r := None;
      }
    }
  }
}
