/** Value types shared by every part of the supervisor. */
module Basics {

  datatype Option<+T> = None | Some(value: T)

  /** Identifiers are handed out by a counter and never reused. */
  type ProcessId = nat

  type Label = string

  /** A point on the monotonic clock and a span of it, in seconds. */
  type Time = real
  type Duration = d: real | 0.0 <= d

  /** A pid the operating system has given to a child; pid 0 stands for "never spawned". */
  type OsPid = p: nat | 0 < p witness 1

  /** The span from `since` to `now`, saturating at zero like `Instant::duration_since`. */
  function Elapsed(since: Time, now: Time): (d: Duration)
    ensures since <= now ==> d == now - since
    ensures now <= since ==> d == 0.0
  {
    if since <= now then now - since else 0.0
  }

  /** The answer of a non-blocking wait on a child: alive, exited, or the wait itself failed. */
  datatype Poll = Alive | Exited(success: bool) | WaitFailed

  /** The answer of `kill(2)`: delivered, ESRCH, or any other error. */
  datatype SignalResult = Delivered | NoSuchProcess | Refused

  /** No element occurs twice. */
  ghost predicate Distinct<T>(s: seq<T>) {
    forall i, j :: 0 <= i < j < |s| ==> s[i] != s[j]
  }

  /** An enumeration of a map's keys in some order; extra entries are skipped by whoever iterates. */
  ghost predicate Enumerates<T>(order: seq<T>, keys: set<T>) {
    Distinct(order) && forall k :: k in keys ==> k in order
  }

  lemma Enumeration(keys: set<ProcessId>) returns (order: seq<ProcessId>)
    ensures Enumerates(order, keys) && forall x :: x in order ==> x in keys
  {
    if keys == {} {
      order := [];
    } else {
      var x :| x in keys;
      var rest := Enumeration(keys - {x});
      order := [x] + rest;
    }
  }
}
