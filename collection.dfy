/**
 * CollectionNotifier: reports each "New item added to your collection log: ..." line, with the
 * player's completed/total entry counts when both are known. The completed count is seeded once
 * from a varp and then counted locally, one per reported item.
 */
module Collection {
  import opened Wrappers
  import opened Text

  /** The varps holding the completed and the total number of collection log entries. */
  const COMPLETED_VARP: int := 2943
  const TOTAL_VARP: int := 2944

  /** The counter's "not yet known" value. */
  const STALE: int32 := -1

  /** The part of CollectionNotificationData the counter decides: the item and the two counts, or null for each. */
  datatype CollectionData = CollectionData(itemName: string, completedEntries: Option<int32>, totalEntries: Option<int32>)

  // ---------------------------------------------------------------------------------------------
  // COLLECTION_LOG_REGEX: "New item added to your collection log: (?<itemName>(.*))"

  const ADDED := "New item added to your collection log: "

  /** The pattern tried at `p`: the prefix, then `.*`, which takes the rest of the line. */
  function CollectionAt(msg: string, p: int): Option<string> {
    if HasAt(msg, p, ADDED) then Some(msg[p + |ADDED|..LineEnd(msg, p + |ADDED|)]) else None
  }

  function CollectionStarts(msg: string): int -> Option<string> {
    p => CollectionAt(msg, p)
  }

  /** `COLLECTION_LOG_REGEX.matcher(chatMessage).find()` and its `itemName` group. */
  function MatchCollection(msg: string): Option<string> {
    Leftmost(0, |msg|, CollectionStarts(msg))
  }

  /** A line matches exactly when it contains the prefix. */
  lemma MatchCollectionIffContains(msg: string)
    ensures MatchCollection(msg).Some? <==> Contains(msg, ADDED)
  {
    if MatchCollection(msg).Some? {
      var p := LeftmostAt(0, |msg|, CollectionStarts(msg));
      assert HasAt(msg, p, ADDED);
    }
    if Contains(msg, ADDED) {
      var p :| 0 <= p <= |msg| && HasAt(msg, p, ADDED);
      assert CollectionStarts(msg)(p).Some?;
    }
  }

  /** No earlier start succeeds exactly where the prefix does not occur. */
  lemma NoEarlierPrefix(msg: string, p: int)
    requires forall q :: 0 <= q < p ==> CollectionStarts(msg)(q).None?
    ensures forall q :: 0 <= q < p ==> !HasAt(msg, q, ADDED)
  {
    forall q | 0 <= q < p
      ensures !HasAt(msg, q, ADDED)
    {
      assert CollectionStarts(msg)(q).None?;
    }
  }

  /** The item is what follows the first occurrence of the prefix, up to the end of that line. */
  lemma MatchCollectionItem(msg: string)
    requires MatchCollection(msg).Some?
    ensures exists p ::
      && 0 <= p && HasAt(msg, p, ADDED) && (forall q :: 0 <= q < p ==> !HasAt(msg, q, ADDED))
      && MatchCollection(msg).value == msg[p + |ADDED|..LineEnd(msg, p + |ADDED|)]
  {
    var p := LeftmostAt(0, |msg|, CollectionStarts(msg));
    NoEarlierPrefix(msg, p);
    assert CollectionStarts(msg)(p) == MatchCollection(msg);
    var c := p + |ADDED|;
    assert 0 <= p && HasAt(msg, p, ADDED) && MatchCollection(msg).value == msg[c..LineEnd(msg, c)];
  }

  // ---------------------------------------------------------------------------------------------
  // The counter

  /** `AtomicInteger.incrementAndGet`: one more, wrapping from Integer.MAX_VALUE to Integer.MIN_VALUE. */
  function Increment(c: int32): (r: int32)
    ensures c < INT_MAX ==> r == c + 1
    ensures c == INT_MAX ==> r == INT_MIN
  {
    if c == INT_MAX then INT_MIN else c + 1
  }

  /** The counts the payload carries: both when both are positive, neither otherwise. */
  function Progress(completed: int32, total: int32): (r: (Option<int32>, Option<int32>))
    ensures r.0.Some? <==> total > 0 && completed > 0
    ensures r.1.Some? <==> total > 0 && completed > 0
    ensures r.0.Some? ==> r.0.value == completed && r.1.value == total
  {
    if total > 0 && completed > 0 then (Some(completed), Some(total)) else (None, None)
  }

  /** handleNotify's counting: the counter after the increment, and the payload it reports. */
  function HandleStep(completed: int32, itemName: string, total: int32): (int32, CollectionData) {
    var c := Increment(completed);
    var (done, all) := Progress(c, total);
    (c, CollectionData(itemName, done, all))
  }

  /** Several handleNotify calls in a row: the final counter and the payloads in order. */
  function HandleAll(completed: int32, items: seq<string>, total: int32): (int32, seq<CollectionData>)
    decreases |items|
  {
    if items == [] then (completed, [])
    else
      var first := HandleStep(completed, items[0], total);
      var rest := HandleAll(first.0, items[1..], total);
      (rest.0, [first.1] + rest.1)
  }

  /**
   * k items reported in a row from a known count c each carry the next count: c + 1, ..., c + k
   * (when the total is known), and the counter ends at c + k.
   */
  lemma {:induction false} ConsecutiveCounts(completed: int32, items: seq<string>, total: int32)
    requires 0 <= completed && completed + |items| <= INT_MAX
    ensures HandleAll(completed, items, total).0 == completed + |items|
    ensures |HandleAll(completed, items, total).1| == |items|
    ensures forall k :: 0 <= k < |items| ==>
      && HandleAll(completed, items, total).1[k].itemName == items[k]
      && HandleAll(completed, items, total).1[k].completedEntries == (if total > 0 then Some(completed + k + 1) else None)
    decreases |items|
  {
    if items != [] {
      var first := HandleStep(completed, items[0], total);
      assert first.0 == completed + 1;
      ConsecutiveCounts(first.0, items[1..], total);
      var all := HandleAll(completed, items, total);
      var rest := HandleAll(first.0, items[1..], total);
      assert all.1 == [first.1] + rest.1;
      forall k | 0 < k < |items|
        ensures all.1[k] == rest.1[k - 1] && items[k] == items[1..][k - 1]
      {
      }
    }
  }

  /** An item reported while the counter is still stale (-1) carries no counts. */
  lemma StaleCounterReportsNoProgress(itemName: string, total: int32)
    ensures HandleStep(STALE, itemName, total).1.completedEntries.None?
    ensures HandleStep(STALE, itemName, total).1.totalEntries.None?
  {
  }

  /** onTick: stale while logged out; seeded from the completed varp on a logged-in tick if stale. */
  function TickStep(completed: int32, loggedIn: bool, completedVarp: int32): int32 {
    if !loggedIn then STALE
    else if completed < 0 then completedVarp
    else completed
  }

  /** onVarPlayer: the completed varp seeds the counter only while it is not positive. */
  function VarPlayerStep(completed: int32, varpId: int, value: int32): int32 {
    if varpId == COMPLETED_VARP && completed <= 0 then value else completed
  }

  /** Once the counter is positive, neither the varp nor a logged-in tick ever overwrites it. */
  lemma PositiveCounterKept(completed: int32, varpId: int, value: int32)
    requires completed > 0
    ensures VarPlayerStep(completed, varpId, value) == completed
    ensures TickStep(completed, true, value) == completed
  {
  }

  /** A logged-in tick leaves a non-stale counter alone and replaces only a stale one. */
  lemma TickSeedsOnlyStale(completed: int32, completedVarp: int32)
    ensures completed >= 0 ==> TickStep(completed, true, completedVarp) == completed
    ensures completed < 0 ==> TickStep(completed, true, completedVarp) == completedVarp
    ensures TickStep(completed, false, completedVarp) == STALE
  {
  }

  // ---------------------------------------------------------------------------------------------

  /** CollectionNotifier's own state: the completed-entries counter. */
  class CollectionNotifier {
    var completed: int32

    constructor()
      ensures completed == STALE
    {
      completed := STALE;
    }

    /** reset */
    method Reset()
      modifies this
      ensures completed == STALE
    {
      completed := STALE;
    }

    /** onGameState: any state but LOGGED_IN marks the counter stale. */
    method OnGameState(loggedIn: bool)
      modifies this
      ensures completed == if loggedIn then old(completed) else STALE
    {
      if !loggedIn {
        Reset();
      }
    }

    /** onTick, with the game state and the completed varp's value as parameters. */
    method OnTick(loggedIn: bool, completedVarp: int32)
      modifies this
      ensures completed == TickStep(old(completed), loggedIn, completedVarp)
    {
      if !loggedIn {
        completed := STALE;
      } else if completed < 0 {
        completed := completedVarp;
      }
    }

    /** onVarPlayer */
    method OnVarPlayer(varpId: int, value: int32)
      modifies this
      ensures completed == VarPlayerStep(old(completed), varpId, value)
    {
      if varpId != COMPLETED_VARP {
        return;
      }
      var previous := completed;
      if previous <= 0 {
        completed := value;
      }
    }

    /**
     * onChatMessage: the item name handleNotify is later called with, if the notifier is enabled
     * and the line announces a collection log addition.
     */
    method OnChatMessage(chatMessage: string, enabled: bool) returns (item: Option<string>)
      ensures item.Some? <==> enabled && Contains(chatMessage, ADDED)
      ensures item.Some? ==> item == MatchCollection(chatMessage)
    {
      item := None;
      if !enabled {
        return;
      }
      var found := MatchCollection(chatMessage);
      MatchCollectionIffContains(chatMessage);
      if found.Some? {
        item := found;
      }
    }

    /** handleNotify's counting, with the total varp's value as a parameter. */
    method HandleNotify(itemName: string, total: int32) returns (data: CollectionData)
      modifies this
      ensures (completed, data) == HandleStep(old(completed), itemName, total)
    {
      completed := Increment(completed);
      var varpValid := total > 0 && completed > 0;
      data := CollectionData(itemName, if varpValid then Some(completed) else None, if varpValid then Some(total) else None);
    }
  }
}
