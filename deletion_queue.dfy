/**
 * The deferred-destruction queue of the engine: cleanup actions are
 * registered one after another and run all at once, last-registered first,
 * when the queue is flushed.
 *
 * An action is represented by an opaque id; running it appends its id to an
 * execution log, so the log records which actions ran and in what order.
 */
module DeletionQueues {

  /** An opaque cleanup action (a captured std::function<void()>). */
  type ActionId = nat

  /** The actions of `s`, last first. */
  function Reversed(s: seq<ActionId>): (r: seq<ActionId>)
    ensures |r| == |s|
  {
    if s == [] then [] else [s[|s| - 1]] + Reversed(s[..|s| - 1])
  }

  /** Position k of the reversal holds the k-th action counted from the back. */
  lemma {:induction false} ReversedAt(s: seq<ActionId>, k: nat)
    requires k < |s|
    ensures Reversed(s)[k] == s[|s| - 1 - k]
  {
    if k > 0 {
      ReversedAt(s[..|s| - 1], k - 1);
    }
  }

  /** Reversal runs every registered action exactly as often as it was registered. */
  lemma {:induction false} ReversedIsPermutation(s: seq<ActionId>)
    ensures multiset(Reversed(s)) == multiset(s)
  {
    if s != [] {
      var init := s[..|s| - 1];
      ReversedIsPermutation(init);
      assert s == init + [s[|s| - 1]];
    }
  }

  /** Reversing a queue that gained one action at the back puts that action first. */
  lemma {:induction false} ReversedSnoc(s: seq<ActionId>, a: ActionId)
    ensures Reversed(s + [a]) == [a] + Reversed(s)
  {
    assert (s + [a])[..|s + [a]| - 1] == s;
  }

  /** The list of actions the flush has run so far, log-side. */
  class ExecutionLog {
    var ran: seq<ActionId>

    constructor ()
      ensures ran == []
    {
      ran := [];
    }

    /** Invoking an action: it is recorded as having run. */
    method Run(a: ActionId)
      modifies this
      ensures ran == old(ran) + [a]
    {
      ran := ran + [a];
    }
  }

  /** DeletionQueue: a deque of cleanup actions. */
  class DeletionQueue {
    var deletors: seq<ActionId>

    constructor ()
      ensures deletors == []
    {
      deletors := [];
    }

    /** push_function: the action joins the back; earlier entries are untouched. */
    method PushFunction(f: ActionId)
      modifies this
      ensures deletors == old(deletors) + [f]
    {
      deletors := deletors + [f];
    }

    /**
     * flush: walks the deque with a reverse iterator, invoking each action,
     * then clears it.
     */
    method Flush(log: ExecutionLog)
      modifies this, log
      ensures log.ran == old(log.ran) + Reversed(old(deletors))
      ensures deletors == []
    {
      var i := |deletors|;
      while i > 0
        invariant 0 <= i <= |deletors|
        invariant log.ran == old(log.ran) + Reversed(deletors[i..])
        invariant deletors == old(deletors)
      {
        i := i - 1;
        ReversedPrepend(deletors[i..]);
        assert deletors[i..][1..] == deletors[i + 1..];
        log.Run(deletors[i]);
      }
      deletors := [];
    }
  }

  /** Adding an action at the front of a queue adds it at the back of the reversal. */
  lemma {:induction false} ReversedPrepend(s: seq<ActionId>)
    requires s != []
    ensures Reversed(s) == Reversed(s[1..]) + [s[0]]
  {
    if |s| > 1 {
      var init := s[..|s| - 1];
      ReversedPrepend(init);
      assert init[1..] == s[1..][..|s[1..]| - 1];
      assert s[1..][|s[1..]| - 1] == s[|s| - 1];
    }
  }

  /**
   * Registering A, B and C and flushing runs C, B, A; the queue is then empty,
   * so flushing it again runs nothing.
   */
  method RegisterThreeAndFlushTwice(a: ActionId, b: ActionId, c: ActionId) returns (first: seq<ActionId>, second: seq<ActionId>)
    ensures first == [c, b, a]
    ensures second == []
  {
    var q := new DeletionQueue();
    var log := new ExecutionLog();
    q.PushFunction(a);
    q.PushFunction(b);
    q.PushFunction(c);
    q.Flush(log);
    first := log.ran;
    ReversedSnoc([], a);
    ReversedSnoc([a], b);
    ReversedSnoc([a, b], c);
    assert [a, b] + [c] == [a, b, c];
    q.Flush(log);
    second := log.ran[|first|..];
  }
}
