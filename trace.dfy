/**
 * The bridge over a whole run. Intents and channel calls reach the activity one
 * at a time on the main thread, so a run is a sequence of events folded through
 * Step; these lemmas state what the two-state machine (Empty / Pending)
 * guarantees over any such sequence.
 */
module BridgeTrace {
  import opened Wrappers
  import opened Android
  import opened IntentBridge

  /**
   * The pending reference after a run starting from `init`. Whatever is pending
   * came from the start state or from an intent of the run: nothing is invented.
   */
  function Pending(init: Option<string>, evs: seq<Event>): (p: Option<string>)
    decreases |evs|
    ensures p.Some? ==>
      p == init || exists i :: 0 <= i < |evs| && Overwrites(evs[i]) && Delivered(evs[i].intent) == p
  {
    if evs == [] then init
    else
      var p := Pending(Step(init, evs[0]), evs[1..]);
      assert forall i :: 0 <= i < |evs| - 1 ==> evs[1..][i] == evs[i + 1];
      p
  }

  /** The reply to the channel call at position k of a run. */
  function ReplyAt(init: Option<string>, evs: seq<Event>, k: nat): Reply
    requires k < |evs| && evs[k].MethodCall?
  {
    Answer(Pending(init, evs[..k]), evs[k].name)
  }

  /** Running two pieces of a run one after the other is running them together. */
  lemma {:induction false} PendingAppend(init: Option<string>, a: seq<Event>, b: seq<Event>)
    ensures Pending(init, a + b) == Pending(Pending(init, a), b)
    decreases |a|
  {
    if a == [] {
      assert a + b == b;
    } else {
      assert (a + b)[0] == a[0];
      assert (a + b)[1..] == a[1..] + b;
      PendingAppend(Step(init, a[0]), a[1..], b);
    }
  }

  /** Events that neither deliver a reference nor query it leave the pending reference unchanged. */
  lemma {:induction false} PendingUnchanged(init: Option<string>, evs: seq<Event>)
    requires forall i :: 0 <= i < |evs| ==> !Overwrites(evs[i]) && !Clears(evs[i])
    ensures Pending(init, evs) == init
    decreases |evs|
  {
    if evs != [] {
      assert !Overwrites(evs[0]) && !Clears(evs[0]);
      PendingUnchanged(init, evs[1..]);
    }
  }

  /** Once empty, the bridge stays empty until a qualifying intent arrives, however often it is queried. */
  lemma {:induction false} StaysEmpty(evs: seq<Event>)
    requires forall i :: 0 <= i < |evs| ==> !Overwrites(evs[i])
    ensures Pending(None, evs) == None
    decreases |evs|
  {
    if evs != [] {
      assert !Overwrites(evs[0]);
      StaysEmpty(evs[1..]);
    }
  }

  /** The pending reference after the prefix ending with event k. */
  lemma PendingThrough(init: Option<string>, evs: seq<Event>, k: nat)
    requires k < |evs|
    ensures Pending(init, evs[..k + 1]) == Step(Pending(init, evs[..k]), evs[k])
  {
    assert evs[..k + 1] == evs[..k] + [evs[k]];
    PendingAppend(init, evs[..k], [evs[k]]);
  }

  /**
   * Last write wins: after a qualifying intent, with no later intent that
   * qualifies and no query, its reference is the one pending; earlier ones are lost.
   */
  lemma LastWriteWins(init: Option<string>, evs: seq<Event>, k: nat)
    requires k < |evs| && Overwrites(evs[k])
    requires forall j :: k < j < |evs| ==> !Overwrites(evs[j]) && !Clears(evs[j])
    ensures Pending(init, evs) == Delivered(evs[k].intent)
    ensures Pending(init, evs).Some?
  {
    assert evs == evs[..k + 1] + evs[k + 1..];
    PendingAppend(init, evs[..k + 1], evs[k + 1..]);
    PendingThrough(init, evs, k);
    PendingUnchanged(Pending(init, evs[..k + 1]), evs[k + 1..]);
  }

  /** A query empties the bridge, and it stays empty until the next qualifying intent. */
  lemma ClearedAfterQuery(init: Option<string>, evs: seq<Event>, k: nat)
    requires k < |evs| && Clears(evs[k])
    requires forall j :: k < j < |evs| ==> !Overwrites(evs[j])
    ensures Pending(init, evs) == None
  {
    assert evs == evs[..k + 1] + evs[k + 1..];
    PendingAppend(init, evs[..k + 1], evs[k + 1..]);
    PendingThrough(init, evs, k);
    StaysEmpty(evs[k + 1..]);
  }

  /**
   * Within one activity instance no reference is delivered twice: a
   * getSharedFile call that follows another with no qualifying intent in
   * between answers null.
   */
  lemma NeverRedelivered(init: Option<string>, evs: seq<Event>, i: nat, j: nat)
    requires i < j < |evs| && Clears(evs[i]) && Clears(evs[j])
    requires forall k :: i < k < j ==> !Overwrites(evs[k])
    ensures ReplyAt(init, evs, j) == Success(None)
  {
    ClearedAfterQuery(init, evs[..j], i);
  }

  /** Two qualifying intents and then a query: only the second reference is handed over. */
  lemma SecondIntentWins(init: Option<string>, first: Option<Intent>, second: Option<Intent>)
    requires Qualifies(first) && Qualifies(second)
    ensures ReplyAt(init, [NewIntent(first), NewIntent(second), MethodCall(GetSharedFileMethod)], 2)
      == Success(Delivered(second))
  {
    var evs := [NewIntent(first), NewIntent(second), MethodCall(GetSharedFileMethod)];
    assert evs[..2] == [NewIntent(first), NewIntent(second)];
    LastWriteWins(init, evs[..2], 1);
  }

  /** The number of getSharedFile calls of a run that hand over a (non-null) reference. */
  function Deliveries(init: Option<string>, evs: seq<Event>): nat
    decreases |evs|
  {
    if evs == [] then 0
    else (if Clears(evs[0]) && init.Some? then 1 else 0) + Deliveries(Step(init, evs[0]), evs[1..])
  }

  /** The number of qualifying intents in a run. */
  function QualifyingIntents(evs: seq<Event>): nat
    decreases |evs|
  {
    if evs == [] then 0
    else (if Overwrites(evs[0]) then 1 else 0) + QualifyingIntents(evs[1..])
  }

  /**
   * Within one activity instance each reference is delivered at most once: a
   * run hands over no more references than its qualifying intents brought in,
   * plus the one pending at its start.
   */
  lemma {:induction false} DeliveriesBounded(init: Option<string>, evs: seq<Event>)
    ensures Deliveries(init, evs) <= QualifyingIntents(evs) + (if init.Some? then 1 else 0)
    decreases |evs|
  {
    if evs != [] {
      DeliveriesBounded(Step(init, evs[0]), evs[1..]);
    }
  }
}
