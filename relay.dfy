/**
 * The relay endpoint (api/track.js): a fixed chain of checks (method, static
 * header, per-address rate window, webhook configuration) in front of one
 * forwarded notification, with the rate window held in a module-level table
 * from source address to timestamps.
 */
module Relay {
  import opened Wrappers
  import opened SlidingWindow
  import opened Embed

  /** The only accepted value of the `x-custom-header` request header. */
  const ExpectedHeader: string := "luax-tracker"

  /** More than this many recent timestamps for one address means 429. */
  const MaxRecent: nat := 5

  /** The handler's responses: a status code and a JSON body. */
  datatype Outcome =
    | Success
    | MethodNotAllowed
    | Forbidden
    | TooManyRequests
    | WebhookNotConfigured
    | InternalServerError
  {
    function Status(): int
    {
      match this
      case Success => 200
      case MethodNotAllowed => 405
      case Forbidden => 403
      case TooManyRequests => 429
      case WebhookNotConfigured => 500
      case InternalServerError => 500
    }

    /** The `error` text of the JSON body; the success body `{success: true}` has none. */
    function ErrorText(): Option<string>
    {
      match this
      case Success => None
      case MethodNotAllowed => Some("Method not allowed")
      case Forbidden => Some("Forbidden")
      case TooManyRequests => Some("Too many requests")
      case WebhookNotConfigured => Some("Webhook not configured")
      case InternalServerError => Some("Internal server error")
    }
  }

  /**
   * What the handler reads of a request: `verb` is `req.method`. `ip` is the already chosen source
   * address (forwarded-for header or connection address); `body` is `None`
   * when `req.body` is null or undefined, so that reading a property throws.
   */
  datatype Request = Request(verb: string, customHeader: Option<string>, ip: string, body: Option<Payload>)

  /** The rate table as `requestCounts.get(ip)` would see it, with a missing entry read as empty. */
  function Lookup(table: map<string, seq<int>>, ip: string): seq<int>
  {
    if ip in table then table[ip] else []
  }

  /** Result of the rate window step: whether the request passes, and the table afterwards. */
  datatype Verdict = Verdict(admitted: bool, table: map<string, seq<int>>)

  /**
   * The rate window step of the handler (lines 15-26): create an empty entry
   * for an unseen address, filter that entry to the window, refuse when more
   * than five remain, otherwise store the filtered entry followed by `now`.
   */
  function Check(table: map<string, seq<int>>, ip: string, now: int): (v: Verdict)
    ensures v.admitted <==> |Recent(Lookup(table, ip), now)| <= MaxRecent
    ensures !v.admitted ==> v.table == table
    ensures v.admitted ==> v.table == table[ip := Recent(Lookup(table, ip), now) + [now]]
    ensures v.admitted ==> |v.table[ip]| <= MaxRecent + 1
    ensures v.admitted ==> forall t :: t in v.table[ip] ==> now - t < WindowMs
    ensures forall other :: other != ip ==> Lookup(v.table, other) == Lookup(table, other)
  {
    var base := if ip in table then table else table[ip := []];
    var a := Admit(base[ip], now, MaxRecent);
    if a.admitted then Verdict(true, base[ip := a.stored]) else Verdict(false, base)
  }

  /** A request that reaches the rate window: its address and the time it arrives. */
  datatype Hit = Hit(ip: string, now: int)

  /** The table after the rate window step for each hit in turn, from the empty table of a fresh process. */
  function ServerReplay(hits: seq<Hit>): map<string, seq<int>>
  {
    if hits == [] then map[]
    else
      var last := hits[|hits| - 1];
      Check(ServerReplay(hits[..|hits| - 1]), last.ip, last.now).table
  }

  /** The arrival times of the hits from one address. */
  function TimesFrom(hits: seq<Hit>, ip: string): seq<int>
  {
    if hits == [] then []
    else
      var last := hits[|hits| - 1];
      TimesFrom(hits[..|hits| - 1], ip) + (if last.ip == ip then [last.now] else [])
  }

  /**
   * Addresses do not interfere: the entry for `ip` after any sequence of hits
   * is what a single window would hold after seeing only that address's hits.
   */
  lemma {:induction false} ServerReplayProjects(hits: seq<Hit>, ip: string)
    ensures Lookup(ServerReplay(hits), ip) == Replay(TimesFrom(hits, ip), MaxRecent).stored
  {
    if hits != [] {
      var init := hits[..|hits| - 1];
      var last := hits[|hits| - 1];
      ServerReplayProjects(init, ip);
      if last.ip == ip {
        var earlier := TimesFrom(init, ip);
        assert (earlier + [last.now])[..|earlier|] == earlier;
      } else {
        assert TimesFrom(hits, ip) == TimesFrom(init, ip) + [] == TimesFrom(init, ip);
        assert Lookup(ServerReplay(hits), ip) == Lookup(ServerReplay(init), ip);
      }
    }
  }

  /** The arrival times of the requests from `ip` that the server's own rate window step admitted, in order. */
  function ServerAccepted(hits: seq<Hit>, ip: string): (r: seq<int>)
    ensures |r| <= |TimesFrom(hits, ip)|
  {
    if hits == [] then []
    else
      var init := hits[..|hits| - 1];
      var last := hits[|hits| - 1];
      ServerAccepted(init, ip)
        + (if last.ip == ip && Check(ServerReplay(init), ip, last.now).admitted then [last.now] else [])
  }

  /**
   * The times the server admitted for `ip` are exactly those a single window
   * admits when it sees only that address's requests.
   */
  lemma {:induction false} ServerAcceptedProjects(hits: seq<Hit>, ip: string)
    ensures ServerAccepted(hits, ip) == Replay(TimesFrom(hits, ip), MaxRecent).accepted
  {
    if hits != [] {
      var init := hits[..|hits| - 1];
      var last := hits[|hits| - 1];
      ServerAcceptedProjects(init, ip);
      ServerReplayProjects(init, ip);
      if last.ip == ip {
        var earlier := TimesFrom(init, ip);
        assert (earlier + [last.now])[..|earlier|] == earlier;
      } else {
        assert TimesFrom(hits, ip) == TimesFrom(init, ip) + [] == TimesFrom(init, ip);
      }
    }
  }

  /**
   * With a non-decreasing clock for `ip`, its next request passes the rate
   * window exactly when at most five of the requests the server admitted from
   * it lie in the trailing 60 000 ms; so after six admitted requests inside
   * one window the seventh is refused with 429.
   */
  lemma ServerDecisionMatchesHistory(hits: seq<Hit>, ip: string, now: int)
    requires NonDecreasing(TimesFrom(hits, ip) + [now])
    ensures Check(ServerReplay(hits), ip, now).admitted
            <==> |Recent(ServerAccepted(hits, ip), now)| <= MaxRecent
  {
    ServerReplayProjects(hits, ip);
    ServerAcceptedProjects(hits, ip);
    DecisionMatchesHistory(TimesFrom(hits, ip), now, MaxRecent);
  }

  /**
   * With a non-decreasing clock, at most six of the requests the server
   * admitted from one address lie in any trailing window.
   */
  lemma ServerWindowBound(hits: seq<Hit>, ip: string, t: int)
    requires NonDecreasing(TimesFrom(hits, ip))
    requires TimesFrom(hits, ip) != [] && t >= TimesFrom(hits, ip)[|TimesFrom(hits, ip)| - 1]
    ensures |Recent(ServerAccepted(hits, ip), t)| <= MaxRecent + 1
  {
    ServerAcceptedProjects(hits, ip);
    AcceptedWithinWindowBound(TimesFrom(hits, ip), MaxRecent, t);
  }

  /** `count` requests from `ip`, all arriving at the same millisecond `t`. */
  function Burst(ip: string, t: int, count: nat): seq<Hit>
  {
    seq(count, _ => Hit(ip, t))
  }

  /** Up to six simultaneous requests from one address are all recorded. */
  lemma {:induction false} BurstRecorded(ip: string, t: int, count: nat)
    requires count <= MaxRecent + 1
    ensures Lookup(ServerReplay(Burst(ip, t, count)), ip) == seq(count, _ => t)
  {
    if count > 0 {
      assert Burst(ip, t, count)[..count - 1] == Burst(ip, t, count - 1);
      BurstRecorded(ip, t, count - 1);
      RecentAll(seq(count - 1, _ => t), t);
      assert seq(count - 1, _ => t) + [t] == seq(count, _ => t);
    }
  }

  /**
   * Seven requests from one address in the same millisecond: each of the
   * first six passes the rate window, the seventh is refused.
   */
  lemma SeventhImmediateRequestRefused(ip: string, t: int)
    ensures forall count :: 0 <= count <= MaxRecent ==> Check(ServerReplay(Burst(ip, t, count)), ip, t).admitted
    ensures !Check(ServerReplay(Burst(ip, t, MaxRecent + 1)), ip, t).admitted
  {
    forall count | 0 <= count <= MaxRecent
      ensures Check(ServerReplay(Burst(ip, t, count)), ip, t).admitted
    {
      BurstRecorded(ip, t, count);
      RecentAll(seq(count, _ => t), t);
    }
    BurstRecorded(ip, t, MaxRecent + 1);
    RecentAll(seq(MaxRecent + 1, _ => t), t);
  }

  /** Timestamps equal to `now` all lie inside the window. */
  lemma {:induction false} RecentAll(ts: seq<int>, now: int)
    requires forall i :: 0 <= i < |ts| ==> ts[i] == now
    ensures Recent(ts, now) == ts
  {
    if ts != [] {
      RecentAll(ts[1..], now);
    }
  }

  /** True when a request gets past the method and header checks. */
  predicate PassesGate(req: Request)
  {
    req.verb == "POST" && req.customHeader == Some(ExpectedHeader)
  }

  /** One server process: the module-level `requestCounts` table and the handler that updates it. */
  class Relay {
    var requestCounts: map<string, seq<int>>

    /** A fresh process starts with an empty table. */
    constructor ()
      ensures requestCounts == map[]
    {
      requestCounts := map[];
    }

    /**
     * The handler. `now` is `Date.now()`, `webhookConfigured` whether the
     * webhook URL is set, `forwardFails` whether the outbound POST rejects,
     * and `localTime`, `isoNow` the formatted dates the notification uses.
     * `forwarded` is the notification posted to the webhook, if any.
     */
    method Handle(req: Request, now: int, webhookConfigured: bool, forwardFails: bool, localTime: string, isoNow: string)
      returns (outcome: Outcome, forwarded: Option<Embed>)
      modifies this
      ensures req.verb != "POST" ==>
                outcome == MethodNotAllowed && forwarded == None && requestCounts == old(requestCounts)
      ensures req.verb == "POST" && req.customHeader != Some(ExpectedHeader) ==>
                outcome == Forbidden && forwarded == None && requestCounts == old(requestCounts)
      ensures PassesGate(req) ==> requestCounts == Check(old(requestCounts), req.ip, now).table
      ensures PassesGate(req) && !Check(old(requestCounts), req.ip, now).admitted ==>
                outcome == TooManyRequests && forwarded == None
      ensures PassesGate(req) && Check(old(requestCounts), req.ip, now).admitted && !webhookConfigured ==>
                outcome == WebhookNotConfigured && forwarded == None
                && requestCounts[req.ip][|requestCounts[req.ip]| - 1] == now
      ensures PassesGate(req) && Check(old(requestCounts), req.ip, now).admitted && webhookConfigured ==>
                forwarded == (if req.body.Some? then Some(BuildEmbed(req.body.value, localTime, isoNow)) else None)
                && outcome == (if req.body.None? || forwardFails then InternalServerError else Success)
    {
      forwarded := None;
      if req.verb != "POST" {
        return MethodNotAllowed, None;
      }
      if req.customHeader != Some(ExpectedHeader) {
        return Forbidden, None;
      }
      if req.ip !in requestCounts {
        requestCounts := requestCounts[req.ip := []];
      }
      var timestamps := Recent(requestCounts[req.ip], now);
      if |timestamps| > MaxRecent {
        return TooManyRequests, None;
      }
      timestamps := timestamps + [now];
      requestCounts := requestCounts[req.ip := timestamps];
      if !webhookConfigured {
        return WebhookNotConfigured, None;
      }
      if req.body.None? {
        return InternalServerError, None;
      }
      forwarded := Some(BuildEmbed(req.body.value, localTime, isoNow));
      outcome := if forwardFails then InternalServerError else Success;
    }
  }
}
