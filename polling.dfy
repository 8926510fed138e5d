/**
 * The wait loop shared by CallHandler.wait_rpc_return_call
 * (lib/addonconnector.py) and CallHandler.waitForReturn (lib/AddonSignals.py):
 *
 *   while not received:
 *     if clock > end_time: <time out>
 *     if abort requested:  <abort>
 *     sleep                (a return may be delivered meanwhile)
 *
 * The clock, Kodi's abort flag and the deliveries are not computed by the
 * connector; each pass of the loop observes one Poll.
 */
module Polling {
  import opened Values

  /** One pass: the clock reading, the abort flag, and the return delivered during the sleep, if any. */
  datatype Poll = Poll(now: real, abortRequested: bool, delivered: Option<Value>)

  /** How the loop ended; StillWaiting when the observations ran out first. */
  datatype Exit = Fulfilled(data: Value) | TimedOut | Aborted | StillWaiting

  /** What a blocking call hands back to its caller. */
  datatype CallOutcome = Returned(value: Value) | Raised(error: Exc) | Blocked

  /** A pass that neither times out, nor aborts, nor receives anything. */
  predicate IsQuiet(p: Poll, endTime: real) {
    p.now <= endTime && !p.abortRequested && p.delivered.None?
  }

  /** The loop, pass by pass, from the state (received, data). */
  function AwaitSpec(received: bool, data: Value, endTime: real, polls: seq<Poll>): Exit
    decreases |polls|
  {
    if received then Fulfilled(data)
    else if polls == [] then StillWaiting
    else if polls[0].now > endTime then TimedOut
    else if polls[0].abortRequested then Aborted
    else match polls[0].delivered
      case Some(v) => AwaitSpec(true, v, endTime, polls[1..])
      case None => AwaitSpec(false, data, endTime, polls[1..])
  }

  /**
   * A return delivered before the loop starts ends it at once: neither the
   * clock nor the abort flag is read, whatever the passes would observe.
   */
  lemma ReceivedBeforeWait(data: Value, endTime: real, polls: seq<Poll>)
    ensures AwaitSpec(true, data, endTime, polls) == Fulfilled(data)
  {
  }

  /** The index of the first pass that is not quiet, or |polls|. */
  function FirstEvent(polls: seq<Poll>, endTime: real): (k: nat)
    ensures k <= |polls|
    ensures forall j | 0 <= j < k :: IsQuiet(polls[j], endTime)
    ensures k < |polls| ==> !IsQuiet(polls[k], endTime)
  {
    if polls == [] || !IsQuiet(polls[0], endTime) then 0
    else
      var k := 1 + FirstEvent(polls[1..], endTime);
      assert forall j | 1 <= j < k :: polls[j] == polls[1..][j - 1];
      k
  }

  /** The exit a pass that is not quiet decides: the clock first, then the abort flag, then the delivery. */
  function Decision(p: Poll, endTime: real): (e: Exit)
    requires !IsQuiet(p, endTime)
    ensures e != StillWaiting
  {
    if p.now > endTime then TimedOut
    else if p.abortRequested then Aborted
    else Fulfilled(p.delivered.value)
  }

  /** Quiet passes change nothing. */
  lemma {:induction false} QuietPrefix(data: Value, endTime: real, quiet: seq<Poll>, rest: seq<Poll>)
    requires forall j | 0 <= j < |quiet| :: IsQuiet(quiet[j], endTime)
    ensures AwaitSpec(false, data, endTime, quiet + rest) == AwaitSpec(false, data, endTime, rest)
    decreases |quiet|
  {
    if quiet != [] {
      assert (quiet + rest)[0] == quiet[0];
      assert (quiet + rest)[1..] == quiet[1..] + rest;
      assert IsQuiet(quiet[0], endTime);
      assert AwaitSpec(false, data, endTime, quiet + rest) == AwaitSpec(false, data, endTime, quiet[1..] + rest);
      QuietPrefix(data, endTime, quiet[1..], rest);
    } else {
      assert quiet + rest == rest;
    }
  }

  /** The loop ends as the first pass that is not quiet decides, and keeps waiting if there is none. */
  lemma AwaitDecidedByFirstEvent(data: Value, endTime: real, polls: seq<Poll>)
    ensures var k := FirstEvent(polls, endTime);
            AwaitSpec(false, data, endTime, polls)
            == if k == |polls| then StillWaiting else Decision(polls[k], endTime)
  {
    var k := FirstEvent(polls, endTime);
    assert polls == polls[..k] + polls[k..];
    QuietPrefix(data, endTime, polls[..k], polls[k..]);
    if k < |polls| {
      var rest := polls[k..];
      assert rest[0] == polls[k];
      if rest[0].delivered.Some? && rest[0].now <= endTime && !rest[0].abortRequested {
        assert AwaitSpec(false, data, endTime, rest) == AwaitSpec(true, rest[0].delivered.value, endTime, rest[1..]);
      }
    }
  }

  /** A time-out happens exactly when the first eventful pass finds the clock past the deadline. */
  lemma TimedOutIff(data: Value, endTime: real, polls: seq<Poll>)
    ensures AwaitSpec(false, data, endTime, polls) == TimedOut
            <==> FirstEvent(polls, endTime) < |polls| && polls[FirstEvent(polls, endTime)].now > endTime
  {
    AwaitDecidedByFirstEvent(data, endTime, polls);
  }

  /** The clock is checked before the abort flag: a late pass times out even when abort is requested. */
  lemma TimeoutCheckedBeforeAbort(data: Value, endTime: real, quiet: seq<Poll>, p: Poll, rest: seq<Poll>)
    requires forall j | 0 <= j < |quiet| :: IsQuiet(quiet[j], endTime)
    requires p.now > endTime
    ensures AwaitSpec(false, data, endTime, quiet + [p] + rest) == TimedOut
  {
    assert quiet + [p] + rest == quiet + ([p] + rest);
    QuietPrefix(data, endTime, quiet, [p] + rest);
  }

  /** An abort happens exactly when the first eventful pass is on time and finds abort requested. */
  lemma AbortedIff(data: Value, endTime: real, polls: seq<Poll>)
    ensures AwaitSpec(false, data, endTime, polls) == Aborted
            <==> var k := FirstEvent(polls, endTime);
                 k < |polls| && polls[k].now <= endTime && polls[k].abortRequested
  {
    AwaitDecidedByFirstEvent(data, endTime, polls);
  }

  /** The loop finishes only after a delivery, and hands back the data of that delivery. */
  lemma FulfilledIff(data: Value, endTime: real, polls: seq<Poll>, v: Value)
    ensures AwaitSpec(false, data, endTime, polls) == Fulfilled(v)
            <==> var k := FirstEvent(polls, endTime);
                 k < |polls| && polls[k].now <= endTime && !polls[k].abortRequested
                 && polls[k].delivered == Some(v)
  {
    AwaitDecidedByFirstEvent(data, endTime, polls);
  }
}
