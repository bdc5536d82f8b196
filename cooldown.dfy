/** The two cooldown gates: the event layer accepts a key once at least the
    cooldown has passed (`>=`), the player controller once strictly more than
    the cooldown has passed (`>`). */
module Cooldown {

  datatype Gate = Inclusive | Strict

  /** Whether a use at `now` is accepted after the last accepted use at `last`. */
  predicate Ready(gate: Gate, now: int, last: int, cooldown: int) {
    match gate
    case Inclusive => now - last >= cooldown
    case Strict => now - last > cooldown
  }

  /** The times at which uses are accepted when requests arrive at the times in
      `requests`, the last accepted use having been at `last`. An accepted use
      becomes the new `last`; a rejected one changes nothing. */
  function Accepted(gate: Gate, last: int, cooldown: int, requests: seq<int>): seq<int>
    decreases |requests|
  {
    if requests == [] then []
    else if Ready(gate, requests[0], last, cooldown) then
      [requests[0]] + Accepted(gate, requests[0], cooldown, requests[1..])
    else
      Accepted(gate, last, cooldown, requests[1..])
  }

  /** Every accepted use is a request, and every two consecutive accepted uses
      (and the first one and the previous `last`) are a full cooldown apart. */
  lemma {:induction false} AcceptedAreSpaced(gate: Gate, last: int, cooldown: int, requests: seq<int>)
    decreases |requests|
    ensures forall t :: t in Accepted(gate, last, cooldown, requests) ==> t in requests
    ensures var a := Accepted(gate, last, cooldown, requests);
      && (|a| > 0 ==> Ready(gate, a[0], last, cooldown))
      && (forall i :: 0 < i < |a| ==> Ready(gate, a[i], a[i - 1], cooldown))
      && (|requests| > 0 ==> (Ready(gate, requests[0], last, cooldown) <==> |a| > 0 && a[0] == requests[0]))
  {
    if requests != [] {
      var rest := requests[1..];
      if Ready(gate, requests[0], last, cooldown) {
        AcceptedAreSpaced(gate, requests[0], cooldown, rest);
        var tail := Accepted(gate, requests[0], cooldown, rest);
        var a := [requests[0]] + tail;
        assert a == Accepted(gate, last, cooldown, requests);
        forall i | 0 < i < |a|
          ensures Ready(gate, a[i], a[i - 1], cooldown)
        {
          if i > 1 {
            assert a[i] == tail[i - 1] && a[i - 1] == tail[i - 2];
          }
        }
      } else {
        AcceptedAreSpaced(gate, last, cooldown, rest);
      }
    }
  }

  /** The time of the last accepted use: the last element of `a`, or `last`
      when nothing was accepted. */
  function LastUse(a: seq<int>, last: int): int {
    if a == [] then last else a[|a| - 1]
  }

  /** Requests are judged one at a time: a new request is accepted exactly
      when it is ready against the last accepted use, so a repeat at exactly
      the cooldown (inclusive gate) or just past it (strict gate) goes
      through, and nothing else changes. */
  lemma {:induction false} AcceptedOneMore(gate: Gate, last: int, cooldown: int, requests: seq<int>, t: int)
    decreases |requests|
    ensures var a := Accepted(gate, last, cooldown, requests);
      Accepted(gate, last, cooldown, requests + [t])
        == a + (if Ready(gate, t, LastUse(a, last), cooldown) then [t] else [])
  {
    if requests == [] {
      assert requests + [t] == [t];
    } else {
      var x := requests[0];
      var rest := requests[1..];
      assert (requests + [t])[0] == x;
      assert (requests + [t])[1..] == rest + [t];
      if Ready(gate, x, last, cooldown) {
        AcceptedOneMore(gate, x, cooldown, rest, t);
        var tail := Accepted(gate, x, cooldown, rest);
        assert LastUse([x] + tail, last) == LastUse(tail, x);
      } else {
        AcceptedOneMore(gate, last, cooldown, rest, t);
      }
    }
  }
}
