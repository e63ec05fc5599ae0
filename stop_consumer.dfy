/**
  The standalone consumer script: it decodes the first event's metadata as
  JSON and checks it for a `stop` action, then keeps pulling until an event
  whose metadata, taken as it arrives and not decoded, has action `stop`.
 */
module StopConsumer {
  import opened Values
  import opened Broker

  /** `metadata["action"] == "stop"`, where an exception while reading the
      action counts as "not a stop": the script swallows it. */
  predicate IsStop(m: Metadata)
  {
    ActionOf(m) == Ok(Str("stop"))
  }

  /** The first position at or after `i` whose raw metadata is a stop. */
  function FirstRawStop(stream: seq<Event>, i: nat): (r: Option<nat>)
    requires i <= |stream|
    ensures r.Some? ==> i <= r.value < |stream| && IsStop(stream[r.value].raw)
    ensures r.Some? ==> forall j :: i <= j < r.value ==> !IsStop(stream[j].raw)
    ensures r.None? <==> forall j :: i <= j < |stream| ==> !IsStop(stream[j].raw)
    decreases |stream| - i
  {
    if i == |stream| then None
    else if IsStop(stream[i].raw) then Some(i)
    else FirstRawStop(stream, i + 1)
  }

  /** The exception `json.loads(metadata)` raises when it fails: ValueError
      (a JSONDecodeError) for text that does not parse, TypeError for any
      metadata that is not text at all. */
  function LoadsError(raw: Metadata): (e: Error)
    ensures e == ValueError <==> raw.Other? && raw.v.Str?
    ensures e == ValueError || e == TypeError
  {
    if raw.Other? && raw.v.Str? then ValueError else TypeError
  }

  /** How the script ends on the events the broker delivers. A first event
      whose metadata does not decode raises out of the script (the decode is
      outside the `try`), with the exception `json.loads` raises for that
      metadata; a first event whose action is `stop` ends it
      without another pull; otherwise it ends right after the first later
      event whose raw metadata is a stop, and blocks when there is none. */
  function Consume(stream: seq<Event>): Outcome
  {
    if |stream| == 0 then Blocked(0)
    else match stream[0].decoded
      case None => Crashed(1, LoadsError(stream[0].raw))
      case Some(m) =>
        if IsStop(m) then Stopped(1)
        else match FirstRawStop(stream, 1)
          case Some(k) => Stopped(k + 1)
          case None => Blocked(|stream|)
  }

  /** `main`'s pull loop. */
  method ConsumeUntilStop(stream: seq<Event>) returns (outcome: Outcome)
    ensures outcome == Consume(stream)
  {
    if |stream| == 0 {
      return Blocked(0);
    }
    var first := stream[0].decoded;
    if first.None? {
      return Crashed(1, LoadsError(stream[0].raw));
    }
    var running := true;
    var action := ActionOf(first.value);
    if action.Ok? && action.value == Str("stop") {
      running := false;
    }
    var pulls := 1;
    while running
      invariant 1 <= pulls <= |stream|
      invariant running ==> !IsStop(first.value)
      invariant running ==> forall j :: 1 <= j < pulls ==> !IsStop(stream[j].raw)
      invariant !running ==> Consume(stream) == Stopped(pulls)
      decreases |stream| - pulls
    {
      if pulls == |stream| {
        return Blocked(pulls);
      }
      var metadata := stream[pulls].raw;
      pulls := pulls + 1;
      action := ActionOf(metadata);
      if action.Ok? && action.value == Str("stop") {
        running := false;
      }
    }
    return Stopped(pulls);
  }

  /** The script crashes exactly when the first event does not decode, after
      that one pull; the exception is ValueError exactly when the undecodable
      metadata is text, and TypeError otherwise. */
  lemma FirstDecodeCrashes(stream: seq<Event>)
    ensures Consume(stream).Crashed? <==> |stream| > 0 && stream[0].decoded.None?
    ensures Consume(stream).Crashed? ==>
      && Consume(stream).pulls == 1
      && (Consume(stream).error == ValueError <==> stream[0].raw.Other? && stream[0].raw.v.Str?)
      && (Consume(stream).error == ValueError || Consume(stream).error == TypeError)
  {
  }

  /** The number of pulls is one more than the position of the first stop
      event, the first event counting by its decoded metadata and the later
      ones by their raw metadata; nothing is pulled after it. */
  lemma PullsEndAtFirstStop(stream: seq<Event>)
    ensures var outcome := Consume(stream);
      outcome.Stopped? ==>
        && 1 <= outcome.pulls <= |stream|
        && stream[0].decoded.Some?
        && (outcome.pulls == 1 <==> IsStop(stream[0].decoded.value))
        && (outcome.pulls > 1 ==> IsStop(stream[outcome.pulls - 1].raw))
        && forall j :: 1 <= j < outcome.pulls - 1 ==> !IsStop(stream[j].raw)
  {
  }

  /** Whenever the first event decodes and some event is a stop, the script
      ends: it does not block while a stop event is still to come. */
  lemma StopIsReached(stream: seq<Event>, k: nat)
    requires 1 <= k < |stream| && IsStop(stream[k].raw)
    requires stream[0].decoded.Some?
    ensures Consume(stream).Stopped? && Consume(stream).pulls <= k + 1
  {
  }

  /** Errors while reading the action are swallowed: an event whose raw
      metadata has no `action` or cannot be indexed does not end the loop,
      and the script goes on to the next pull. */
  lemma UnreadableActionContinues(stream: seq<Event>, j: nat)
    requires 1 <= j < |stream| && ActionOf(stream[j].raw).Err?
    ensures Consume(stream) != Stopped(j + 1)
    ensures Consume(stream).Crashed? ==> Consume(stream) == Crashed(1, LoadsError(stream[0].raw))
  {
  }

  /** Later events are tested on their raw metadata: when every raw metadata
      after the first event is text that has not been decoded, no later
      event ends the loop, whatever action its text spells. */
  lemma UndecodedTextNeverStops(stream: seq<Event>)
    requires forall j :: 1 <= j < |stream| ==> stream[j].raw.Other?
    ensures Consume(stream).Stopped? ==> Consume(stream).pulls == 1
  {
  }
}
