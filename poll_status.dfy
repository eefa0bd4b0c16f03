/** `poll_status` of test_script.py: poll the job-queue service's status endpoint until the job
    is COMPLETED or FAILED. The wall clock is replaced by the finite sequence of replies the
    endpoint gives before the time budget runs out. */
module JobPolling {
  import opened Values

  /** What poll_status returns when the time budget runs out. */
  const TimeoutResult: Value := Obj([Field("error", Str("timeout"))])

  /** `status in ("COMPLETED", "FAILED")`. */
  predicate IsTerminal(status: Value)
    ensures IsTerminal(status) <==> status.Str? && status.s in {"COMPLETED", "FAILED"}
  {
    status == Str("COMPLETED") || status == Str("FAILED")
  }

  /** `result.get("status")`. */
  function JobStatus(result: Value): (r: Result<Value>)
    ensures r.Err? <==> !result.Obj?
    ensures result.Obj? ==>
              r == Ok(if Lookup(result.fields, "status").Some? then Lookup(result.fields, "status").value else Null)
  {
    DictGet(result, "status", Null)
  }

  /** What poll_status returns (or raises) when the successive polls answer `replies`. */
  function PollOutcome(replies: seq<Value>): Result<Value>
    decreases |replies|
  {
    if |replies| == 0 then Ok(TimeoutResult)
    else
      match JobStatus(replies[0])
      case Err(e) => Err(e)
      case Ok(status) => if IsTerminal(status) then Ok(replies[0]) else PollOutcome(replies[1..])
  }

  method PollStatus(replies: seq<Value>) returns (r: Result<Value>)
    ensures r == PollOutcome(replies)
  {
    var i := 0;
    while i < |replies|
      invariant 0 <= i <= |replies|
      invariant PollOutcome(replies[i..]) == PollOutcome(replies)
    {
      assert replies[i..][1..] == replies[i + 1..];
      var result := replies[i];
      var status := JobStatus(result);
      if status.Err? {
        return Err(status.error);
      }
      if IsTerminal(status.value) {
        return Ok(result);
      }
      i := i + 1;
    }
    return Ok(TimeoutResult);
  }

  /** The first `n` replies are objects whose status is not terminal: the loop went on past them. */
  ghost predicate KeptPolling(replies: seq<Value>, n: int)
    requires n <= |replies|
  {
    forall j :: 0 <= j < n ==> replies[j].Obj? && !IsTerminal(DictGet(replies[j], "status", Null).value)
  }

  /** poll_status hands back the first reply whose status is COMPLETED or FAILED. */
  lemma {:induction false} PollReturnsFirstTerminal(replies: seq<Value>, i: nat)
    requires i < |replies| && KeptPolling(replies, i)
    requires replies[i].Obj? && IsTerminal(DictGet(replies[i], "status", Null).value)
    ensures PollOutcome(replies) == Ok(replies[i])
    decreases i
  {
    if i > 0 {
      var rest := replies[1..];
      assert rest[i - 1] == replies[i];
      assert KeptPolling(rest, i - 1) by {
        forall j | 0 <= j < i - 1
          ensures rest[j].Obj? && !IsTerminal(DictGet(rest[j], "status", Null).value)
        {
          assert rest[j] == replies[j + 1];
        }
      }
      PollReturnsFirstTerminal(rest, i - 1);
    }
  }

  /** poll_status returns either the first reply with a terminal status, or, when every reply
      was polled past, `{"error": "timeout"}`. */
  lemma {:induction false} PollResultIsFirstTerminalOrTimeout(replies: seq<Value>, v: Value)
    requires PollOutcome(replies) == Ok(v)
    ensures || (v == TimeoutResult && KeptPolling(replies, |replies|))
            || exists i :: 0 <= i < |replies| && KeptPolling(replies, i) && v == replies[i] &&
                           replies[i].Obj? && IsTerminal(DictGet(replies[i], "status", Null).value)
    decreases |replies|
  {
    if |replies| > 0 {
      var rest := replies[1..];
      if IsTerminal(JobStatus(replies[0]).value) {
        assert KeptPolling(replies, 0);
      } else {
        PollResultIsFirstTerminalOrTimeout(rest, v);
        if v == TimeoutResult && KeptPolling(rest, |rest|) {
          assert KeptPolling(replies, |replies|) by {
            forall j | 0 <= j < |replies|
              ensures replies[j].Obj? && !IsTerminal(DictGet(replies[j], "status", Null).value)
            {
              if j > 0 { assert replies[j] == rest[j - 1]; }
            }
          }
        } else {
          var i :| 0 <= i < |rest| && KeptPolling(rest, i) && v == rest[i] &&
                   rest[i].Obj? && IsTerminal(DictGet(rest[i], "status", Null).value);
          assert replies[i + 1] == rest[i];
          assert KeptPolling(replies, i + 1) by {
            forall j | 0 <= j < i + 1
              ensures replies[j].Obj? && !IsTerminal(DictGet(replies[j], "status", Null).value)
            {
              if j > 0 { assert replies[j] == rest[j - 1]; }
            }
          }
        }
      }
    }
  }

  /** poll_status reports `{"error": "timeout"}` when no reply (all of them objects) has a
      terminal status. */
  lemma {:induction false} PollTimesOut(replies: seq<Value>)
    requires KeptPolling(replies, |replies|)
    ensures PollOutcome(replies) == Ok(TimeoutResult)
    decreases |replies|
  {
    if |replies| > 0 {
      var rest := replies[1..];
      assert KeptPolling(rest, |rest|) by {
        forall j | 0 <= j < |rest|
          ensures rest[j].Obj? && !IsTerminal(DictGet(rest[j], "status", Null).value)
        {
          assert rest[j] == replies[j + 1];
        }
      }
      PollTimesOut(rest);
    }
  }
}
