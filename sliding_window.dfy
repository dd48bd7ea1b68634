/**
 * The sliding-window idea shared by the relay (per source address, limit 5)
 * and the collector (per browser tab session, limit 10): a stored list of
 * millisecond timestamps is filtered to the trailing 60 000 ms, the request is
 * refused when more than `limit` of them remain, and otherwise the filtered
 * list followed by the current time replaces the stored list. A refusal does
 * not write the filtered list back.
 */
module SlidingWindow {

  /** Width of the window in milliseconds. */
  const WindowMs: int := 60000

  /** `sub` is `ts` with some elements left out, the rest kept in their order. */
  ghost predicate SubsequenceOf(sub: seq<int>, ts: seq<int>)
    decreases |ts|
  {
    if sub == [] then true
    else if ts == [] then false
    else (sub[0] == ts[0] && SubsequenceOf(sub[1..], ts[1..])) || SubsequenceOf(sub, ts[1..])
  }

  /** `ts.filter(t => now - t < 60000)`: the timestamps still inside the window, in order. */
  function Recent(ts: seq<int>, now: int): (r: seq<int>)
    ensures |r| <= |ts|
    ensures forall x :: x in r <==> x in ts && now - x < WindowMs
  {
    if ts == [] then []
    else (if now - ts[0] < WindowMs then [ts[0]] else []) + Recent(ts[1..], now)
  }

  /**
   * The filter keeps the timestamps inside the window in their order, each
   * as often as in `ts`, and nothing else; together the two clauses
   * determine the result.
   */
  lemma {:induction false} RecentIsFilter(ts: seq<int>, now: int)
    ensures SubsequenceOf(Recent(ts, now), ts)
    ensures forall x :: multiset(Recent(ts, now))[x] == if now - x < WindowMs then multiset(ts)[x] else 0
  {
    if ts != [] {
      RecentIsFilter(ts[1..], now);
      var head := if now - ts[0] < WindowMs then [ts[0]] else [];
      var rest := Recent(ts[1..], now);
      assert ts == [ts[0]] + ts[1..];
      assert Recent(ts, now) == head + rest;
      assert head == [] ==> head + rest == rest;
      assert head != [] ==> (head + rest)[0] == ts[0] && (head + rest)[1..] == rest;
    }
  }

  /** Filtering distributes over concatenation. */
  lemma {:induction false} RecentAppend(a: seq<int>, b: seq<int>, now: int)
    ensures Recent(a + b, now) == Recent(a, now) + Recent(b, now)
  {
    if a != [] {
      assert (a + b)[0] == a[0];
      assert (a + b)[1..] == a[1..] + b;
      RecentAppend(a[1..], b, now);
    } else {
      assert a + b == b;
    }
  }

  /** Filtering at an earlier time and then at a later one equals filtering at the later one. */
  lemma {:induction false} RecentRecent(ts: seq<int>, earlier: int, later: int)
    requires earlier <= later
    ensures Recent(Recent(ts, earlier), later) == Recent(ts, later)
  {
    if ts != [] {
      RecentRecent(ts[1..], earlier, later);
      var head := if earlier - ts[0] < WindowMs then [ts[0]] else [];
      RecentAppend(head, Recent(ts[1..], earlier), later);
    }
  }

  /** Outcome of one window check: whether the request passes, and the list stored afterwards. */
  datatype Admission = Admission(admitted: bool, stored: seq<int>)

  /** One window check against `stored` at time `now`, refusing when more than `limit` recent entries remain. */
  function Admit(stored: seq<int>, now: int, limit: nat): (a: Admission)
    ensures a.admitted <==> |Recent(stored, now)| <= limit
    ensures !a.admitted ==> a.stored == stored
    ensures a.admitted ==> a.stored == Recent(stored, now) + [now]
    ensures a.admitted ==> |a.stored| <= limit + 1
    ensures a.admitted ==> forall t :: t in a.stored ==> now - t < WindowMs
  {
    var recent := Recent(stored, now);
    if |recent| > limit then Admission(false, stored)
    else Admission(true, recent + [now])
  }

  /** A clock reading that never goes backwards. */
  ghost predicate NonDecreasing(times: seq<int>)
  {
    forall i, j :: 0 <= i < j < |times| ==> times[i] <= times[j]
  }

  /** What a run of window checks leaves behind: the stored list and every timestamp that was admitted. */
  datatype History = History(stored: seq<int>, accepted: seq<int>)

  /** Window checks at the times `times`, one after another, from an empty stored list. */
  function Replay(times: seq<int>, limit: nat): (h: History)
    ensures |h.accepted| <= |times|
    ensures forall t :: t in h.accepted ==> t in times
  {
    if times == [] then History([], [])
    else
      var prev := Replay(times[..|times| - 1], limit);
      var now := times[|times| - 1];
      var a := Admit(prev.stored, now, limit);
      History(a.stored, if a.admitted then prev.accepted + [now] else prev.accepted)
  }

  /** The list the window should hold after admitting `accepted`: those inside the window at the last admission. */
  function Expected(accepted: seq<int>): seq<int>
  {
    if accepted == [] then [] else Recent(accepted, accepted[|accepted| - 1])
  }

  /**
   * With a non-decreasing clock the stored list is exactly the admitted
   * timestamps filtered at the time of the last admission, it never holds
   * more than `limit + 1` entries, and the last admission is no later than
   * the last request.
   */
  lemma {:induction false} ReplayTracksAccepted(times: seq<int>, limit: nat)
    requires NonDecreasing(times)
    ensures Replay(times, limit).stored == Expected(Replay(times, limit).accepted)
    ensures |Replay(times, limit).stored| <= limit + 1
    ensures var acc := Replay(times, limit).accepted;
            acc != [] ==> times != [] && acc[|acc| - 1] <= times[|times| - 1]
  {
    if times != [] {
      var init := times[..|times| - 1];
      var now := times[|times| - 1];
      assert NonDecreasing(init);
      ReplayTracksAccepted(init, limit);
      var prev := Replay(init, limit);
      if prev.accepted != [] {
        var last := prev.accepted[|prev.accepted| - 1];
        assert init[|init| - 1] <= now;
        RecentRecent(prev.accepted, last, now);
      }
      assert Recent(prev.stored, now) == Recent(prev.accepted, now);
      var a := Admit(prev.stored, now, limit);
      if a.admitted {
        RecentAppend(prev.accepted, [now], now);
        assert Recent([now], now) == [now];
      }
    }
  }

  /**
   * The decision at the next request depends exactly on how many admitted
   * requests lie inside the window: it is admitted if and only if at most
   * `limit` of them do. The stored list, although pruned lazily, answers as
   * the full admission history would.
   */
  lemma DecisionMatchesHistory(times: seq<int>, now: int, limit: nat)
    requires NonDecreasing(times + [now])
    ensures Admit(Replay(times, limit).stored, now, limit).admitted
            <==> |Recent(Replay(times, limit).accepted, now)| <= limit
  {
    var all := times + [now];
    assert all[..|times|] == times;
    assert NonDecreasing(times);
    ReplayTracksAccepted(times, limit);
    var h := Replay(times, limit);
    if h.accepted != [] {
      assert all[|times| - 1] <= all[|times|];
      RecentRecent(h.accepted, h.accepted[|h.accepted| - 1], now);
    }
  }

  /**
   * At any moment no earlier than the last request, at most `limit + 1`
   * admitted requests lie inside the trailing window.
   */
  lemma AcceptedWithinWindowBound(times: seq<int>, limit: nat, t: int)
    requires NonDecreasing(times)
    requires times != [] && t >= times[|times| - 1]
    ensures |Recent(Replay(times, limit).accepted, t)| <= limit + 1
  {
    ReplayTracksAccepted(times, limit);
    var h := Replay(times, limit);
    if h.accepted != [] {
      RecentRecent(h.accepted, h.accepted[|h.accepted| - 1], t);
      assert Recent(h.stored, t) == Recent(h.accepted, t);
    }
  }
}
