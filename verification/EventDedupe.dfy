// The realtime event filter: a bounded memory of ids that were already emitted.
module EventDedupe {

  const EVENT_DEDUPE_LIMIT: nat := 5000

  // ---------------------------------------------------------------- what the filter is for

  // The most recently emitted ids, as many as the filter remembers.
  function Recent(emitted: seq<string>): seq<string> {
    if |emitted| <= EVENT_DEDUPE_LIMIT then emitted else emitted[|emitted| - EVENT_DEDUPE_LIMIT..]
  }

  // The empty id is falsy to the eviction loop, so once remembered it is never forgotten.
  predicate Remembered(emitted: seq<string>, id: string) {
    if id == "" then id in emitted else id in Recent(emitted)
  }

  // What is emitted of a stream of arriving ids.
  function Emitted(arrived: seq<string>): seq<string> {
    if |arrived| == 0 then []
    else
      var earlier := Emitted(arrived[..|arrived| - 1]);
      var id := arrived[|arrived| - 1];
      if Remembered(earlier, id) then earlier else earlier + [id]
  }

  // An id comes a second time only after the limit's worth of others; the empty id never does.
  ghost predicate WellSpaced(emitted: seq<string>) {
    forall i, j :: 0 <= i < j < |emitted| && emitted[i] == emitted[j] ==> emitted[i] != "" && j - i > 5000
  }

  lemma RecentHas(emitted: seq<string>, i: nat)
    requires i < |emitted|
    ensures |emitted| - i <= EVENT_DEDUPE_LIMIT ==> emitted[i] in Recent(emitted)
  {
    if |emitted| - i <= EVENT_DEDUPE_LIMIT && |emitted| > EVENT_DEDUPE_LIMIT {
      assert Recent(emitted)[i - (|emitted| - EVENT_DEDUPE_LIMIT)] == emitted[i];
    }
  }

  lemma OneMoreIsSpaced(emitted: seq<string>, id: string)
    requires WellSpaced(emitted) && !Remembered(emitted, id)
    ensures WellSpaced(emitted + [id])
  {
    var all := emitted + [id];
    forall i, j | 0 <= i < j < |all| && all[i] == all[j] ensures all[i] != "" && j - i > EVENT_DEDUPE_LIMIT {
      if j == |emitted| {
        assert id in emitted;
        RecentHas(emitted, i);
      }
    }
  }

  lemma {:induction false} EmittedIsSpaced(arrived: seq<string>)
    ensures WellSpaced(Emitted(arrived))
  {
    if |arrived| > 0 {
      var earlier, id := Emitted(arrived[..|arrived| - 1]), arrived[|arrived| - 1];
      EmittedIsSpaced(arrived[..|arrived| - 1]);
      if !Remembered(earlier, id) { OneMoreIsSpaced(earlier, id); }
    }
  }

  // The remembered ids are all different.
  lemma RecentIsDistinct(emitted: seq<string>)
    requires WellSpaced(emitted)
    ensures forall i, j :: 0 <= i < j < |Recent(emitted)| ==> Recent(emitted)[i] != Recent(emitted)[j]
  {
    var cut := |emitted| - |Recent(emitted)|;
    forall i, j | 0 <= i < j < |Recent(emitted)| ensures Recent(emitted)[i] != Recent(emitted)[j] {
      assert Recent(emitted)[i] == emitted[cut + i] && Recent(emitted)[j] == emitted[cut + j];
    }
  }

  // Nothing that arrives is lost: its id was emitted, now or before.
  lemma {:induction false} EveryIdIsEmitted(arrived: seq<string>)
    ensures forall i :: 0 <= i < |arrived| ==> arrived[i] in Emitted(arrived)
  {
    if |arrived| > 0 {
      var earlier, id := Emitted(arrived[..|arrived| - 1]), arrived[|arrived| - 1];
      EveryIdIsEmitted(arrived[..|arrived| - 1]);
      if Remembered(earlier, id) && id != "" { RecentComesFrom(earlier, id); }
      forall i | 0 <= i < |arrived| ensures arrived[i] in Emitted(arrived) {
        if i < |arrived| - 1 { assert arrived[..|arrived| - 1][i] == arrived[i]; }
      }
    }
  }

  lemma RecentComesFrom(emitted: seq<string>, id: string)
    requires id in Recent(emitted)
    ensures id in emitted
  {
  }

  // Between two emissions of the same id the filter swallows every arrival of it.
  lemma RepeatIsSwallowed(arrived: seq<string>, id: string)
    ensures Emitted(arrived + [id] + [id]) == Emitted(arrived + [id])
  {
    var once := arrived + [id];
    assert (once + [id])[..|once|] == once;
    assert once[..|arrived|] == arrived;
    var e := Emitted(once);
    EveryIdIsEmitted(once);
    if !Remembered(Emitted(arrived), id) {
      assert e[|e| - 1] == id;
      RecentHas(e, |e| - 1);
    }
  }

  // The set and the queue hold the same ids exactly as long as an emitted empty id is still in the queue.
  lemma SetIsQueueIff(emitted: seq<string>)
    ensures (forall id :: Remembered(emitted, id) <==> id in Recent(emitted)) <==> ("" in emitted ==> "" in Recent(emitted))
  {
    if "" in Recent(emitted) { RecentComesFrom(emitted, ""); }
    assert Remembered(emitted, "") <==> "" in emitted;
  }

  // The rule in plain terms: an arriving id is emitted exactly when it is not among the last 5000 emitted
  // ones; the empty id exactly when it was never emitted.
  lemma {:induction false} IdIsEmittedIff(arrived: seq<string>, id: string)
    ensures var e := Emitted(arrived);
            var unseen := if id == "" then id !in e else forall j :: 0 <= j < |e| && |e| - 5000 <= j ==> e[j] != id;
            Emitted(arrived + [id]) == if unseen then e + [id] else e
  {
    var e := Emitted(arrived);
    assert (arrived + [id])[..|arrived|] == arrived;
    var cut := |e| - |Recent(e)|;
    forall k | 0 <= k < |Recent(e)| ensures Recent(e)[k] == e[cut + k] {}
    if j :| 0 <= j < |e| && |e| - 5000 <= j && e[j] == id { RecentHas(e, j); }
  }

  // Ids that are all different are all emitted.
  lemma {:induction false} FreshIdsAreEmitted(arrived: seq<string>)
    requires forall i, j :: 0 <= i < j < |arrived| ==> arrived[i] != arrived[j]
    ensures Emitted(arrived) == arrived
  {
    if |arrived| > 0 {
      var earlier, id := arrived[..|arrived| - 1], arrived[|arrived| - 1];
      FreshIdsAreEmitted(earlier);
      assert id !in earlier;
      if id != "" && id in Recent(earlier) { RecentComesFrom(earlier, id); }
      assert arrived == earlier + [id];
    }
  }

  // A stream that begins with the empty id: "", "x", "xx" and so on.
  function Stream(n: nat): (s: seq<string>)
    ensures |s| == n && forall i :: 0 <= i < n ==> |s[i]| == i
  {
    if n == 0 then [] else Stream(n - 1) + [Id(n - 1)]
  }

  function Id(n: nat): (id: string)
    ensures |id| == n
  {
    if n == 0 then "" else Id(n - 1) + "x"
  }

  // An empty id outlives the window: once the limit's worth of other ids has arrived after it, it is still
  // remembered and no longer queued, so the set holds one id more than the queue.
  lemma EmptyIdOutlivesTheWindow(n: nat)
    requires n > EVENT_DEDUPE_LIMIT
    ensures Emitted(Stream(n)) == Stream(n)
    ensures Remembered(Emitted(Stream(n)), "") && "" !in Recent(Emitted(Stream(n)))
  {
    var s := Stream(n);
    forall i, j | 0 <= i < j < n ensures s[i] != s[j] { assert |s[i]| < |s[j]|; }
    FreshIdsAreEmitted(s);
    assert s[0] == "";
    forall i | 0 <= i < |Recent(s)| ensures Recent(s)[i] != "" { assert Recent(s)[i] == s[n - EVENT_DEDUPE_LIMIT + i]; }
  }

  // ---------------------------------------------------------------- the filter itself

  class EventFilter {
    var seenEventIds: set<string>
    var seenEventOrder: seq<string>
    // Every id that arrived, in order.
    ghost var arrived: seq<string>

    ghost predicate Valid()
      reads this
    {
      var emitted := Emitted(arrived);
      && seenEventOrder == Recent(emitted)
      && forall id :: id in seenEventIds <==> Remembered(emitted, id)
    }

    constructor ()
      ensures Valid() && arrived == []
    {
      seenEventIds, seenEventOrder, arrived := {}, [], [];
    }

    // processRealtimeEvent
    method ProcessRealtimeEvent(id: string) returns (emit: bool)
      requires Valid()
      modifies this
      ensures Valid() && arrived == old(arrived) + [id]
      ensures Emitted(arrived) == Emitted(old(arrived)) + (if emit then [id] else [])
      ensures emit <==> !Remembered(Emitted(old(arrived)), id)
      ensures |seenEventOrder| <= 5000
    {
      ghost var emitted := Emitted(arrived);
      assert (arrived + [id])[..|arrived|] == arrived;
      EmittedIsSpaced(arrived);
      emit := id !in seenEventIds;
      if emit { RememberEvent(id, emitted); }
      arrived := arrived + [id];
    }

    // rememberEvent, with its eviction loop
    method RememberEvent(id: string, ghost emitted: seq<string>)
      requires WellSpaced(emitted) && !Remembered(emitted, id)
      requires seenEventOrder == Recent(emitted) && forall x :: x in seenEventIds <==> Remembered(emitted, x)
      modifies this`seenEventIds, this`seenEventOrder
      ensures seenEventOrder == Recent(emitted + [id])
      ensures forall x :: x in seenEventIds <==> Remembered(emitted + [id], x)
    {
      ghost var all := emitted + [id];
      OneMoreIsSpaced(emitted, id);
      seenEventIds := seenEventIds + {id};
      seenEventOrder := seenEventOrder + [id];
      ghost var kept := |seenEventOrder|;
      assert seenEventOrder == all[|all| - kept..];
      while |seenEventOrder| > EVENT_DEDUPE_LIMIT
        invariant |seenEventOrder| <= EVENT_DEDUPE_LIMIT + 1 && |seenEventOrder| <= |all|
        invariant seenEventOrder == all[|all| - |seenEventOrder|..]
        invariant |seenEventOrder| < |all| ==> |seenEventOrder| >= EVENT_DEDUPE_LIMIT
        invariant forall x :: x in seenEventIds <==> (x in seenEventOrder || (x == "" && x in all))
        decreases |seenEventOrder|
      {
        var oldestId := seenEventOrder[0];
        OldestIsElsewhereNot(all, |seenEventOrder|);
        seenEventOrder := seenEventOrder[1..];
        if oldestId != "" { seenEventIds := seenEventIds - {oldestId}; }
      }
    }
  }

  // The oldest remembered id does not occur again among the younger ones.
  lemma OldestIsElsewhereNot(all: seq<string>, n: nat)
    requires WellSpaced(all) && 0 < n <= |all| && n <= EVENT_DEDUPE_LIMIT + 1
    ensures all[|all| - n] !in all[|all| - n..][1..]
  {
    var tail := all[|all| - n..];
    forall k | 0 < k < n ensures tail[k] != tail[0] { assert tail[k] == all[|all| - n + k]; }
  }
}
