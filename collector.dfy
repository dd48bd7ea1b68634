/**
 * The collector's gates before any network call (pages/index.js lines
 * 24-54): the bot heuristic, then a per-tab-session sliding window of page
 * loads kept in session storage under the key `visits`.
 */
module Collector {
  import opened Wrappers
  import opened SlidingWindow
  import opened BotGate

  /** More than this many recent visits in session storage blocks the request. */
  const MaxRecentVisits: nat := 10

  /** One browser tab session; `visits` is the parsed content of the `visits` storage key. */
  class Session {
    var visits: seq<int>

    /** A new session has nothing stored, which reads as the empty list. */
    constructor ()
      ensures visits == []
    {
      visits := [];
    }

    /**
     * `checkRateLimit`: keep the visits of the last 60 000 ms; refuse, without
     * rewriting storage, when more than ten remain; otherwise store them
     * followed by `now`.
     */
    method CheckRateLimit(now: int) returns (allowed: bool)
      modifies this
      ensures allowed <==> |Recent(old(visits), now)| <= MaxRecentVisits
      ensures !allowed ==> visits == old(visits)
      ensures allowed ==> visits == Recent(old(visits), now) + [now] && |visits| <= MaxRecentVisits + 1
      ensures allowed ==> forall v :: v in visits ==> now - v < WindowMs
      ensures Admission(allowed, visits) == Admit(old(visits), now, MaxRecentVisits)
    {
      var recentVisits := Recent(visits, now);
      if |recentVisits| > MaxRecentVisits {
        return false;
      }
      recentVisits := recentVisits + [now];
      visits := recentVisits;
      return true;
    }

    /**
     * The gate of `sendData`: `isLikelyBot() || !checkRateLimit()` blocks the
     * request. Because `||` short-circuits, a bot never reaches the window
     * check and leaves storage as it was. `proceeds` says whether the address
     * lookup and the POST to the relay follow.
     */
    method SendData(userAgent: string, webdriver: bool, plugins: Option<nat>, now: int) returns (proceeds: bool)
      modifies this
      ensures IsLikelyBot(userAgent, webdriver, plugins) ==> !proceeds && visits == old(visits)
      ensures !IsLikelyBot(userAgent, webdriver, plugins) ==>
                Admission(proceeds, visits) == Admit(old(visits), now, MaxRecentVisits)
    {
      if IsLikelyBot(userAgent, webdriver, plugins) {
        return false;
      }
      var allowed := CheckRateLimit(now);
      proceeds := allowed;
    }
  }

  /**
   * With a non-decreasing clock, a page load that reaches the window check
   * passes exactly when at most ten earlier loads of the session passed it
   * within the trailing 60 000 ms; the eleventh such load inside one window
   * is the last to pass.
   */
  lemma SessionDecisionMatchesHistory(times: seq<int>, now: int)
    requires NonDecreasing(times + [now])
    ensures Admit(Replay(times, MaxRecentVisits).stored, now, MaxRecentVisits).admitted
            <==> |Recent(Replay(times, MaxRecentVisits).accepted, now)| <= MaxRecentVisits
  {
    DecisionMatchesHistory(times, now, MaxRecentVisits);
  }

  /** With a non-decreasing clock, at most eleven loads of one session pass in any trailing window. */
  lemma SessionWindowBound(times: seq<int>, t: int)
    requires NonDecreasing(times)
    requires times != [] && t >= times[|times| - 1]
    ensures |Recent(Replay(times, MaxRecentVisits).accepted, t)| <= MaxRecentVisits + 1
  {
    AcceptedWithinWindowBound(times, MaxRecentVisits, t);
  }
}
