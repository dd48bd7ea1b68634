/**
 * The collector's bot heuristic (`isLikelyBot`, pages/index.js lines 38-48):
 * a user agent that, lowercased, contains one of six fixed words, an
 * automation flag, or a missing or empty plugin list marks the visitor as a bot.
 */
module BotGate {
  import opened Wrappers

  /** The substrings that mark a crawler or scripted client. */
  const BotPatterns: seq<string> := ["bot", "crawl", "spider", "scrape", "curl", "wget"]

  /** Lowercasing of one character, on the ASCII letters. */
  function LowerChar(c: char): char
  {
    if 'A' <= c <= 'Z' then (c as int + 32) as char else c
  }

  /** `s.toLowerCase()`, on the ASCII letters. */
  function ToLower(s: string): (r: string)
    ensures |r| == |s|
    ensures forall i :: 0 <= i < |s| ==> r[i] == LowerChar(s[i])
  {
    if s == [] then [] else [LowerChar(s[0])] + ToLower(s[1..])
  }

  /** Lowercasing acts character by character, so it distributes over concatenation. */
  lemma ToLowerAppend(a: string, b: string)
    ensures ToLower(a + b) == ToLower(a) + ToLower(b)
  {
  }

  /** `p` occurs in `s` starting at position `i`. */
  predicate OccursAt(s: string, p: string, i: nat)
  {
    i + |p| <= |s| && s[i..i + |p|] == p
  }

  /** `p` occurs in `s` at some position no earlier than `start`. */
  function IncludesFrom(s: string, p: string, start: nat): (r: bool)
    ensures r <==> exists i: nat :: start <= i && OccursAt(s, p, i)
    decreases |s| - start
  {
    if start + |p| > |s| then false
    else OccursAt(s, p, start) || IncludesFrom(s, p, start + 1)
  }

  /** `s.includes(p)`: `p` occurs in `s` at some position. */
  function Includes(s: string, p: string): (r: bool)
    ensures r <==> exists i: nat :: OccursAt(s, p, i)
  {
    IncludesFrom(s, p, 0)
  }

  /** `patterns.some(pattern => s.includes(pattern))`. */
  function SomeIncluded(s: string, patterns: seq<string>): (r: bool)
    ensures r <==> exists k :: 0 <= k < |patterns| && Includes(s, patterns[k])
  {
    if patterns == [] then false
    else Includes(s, patterns[0]) || SomeIncluded(s, patterns[1..])
  }

  /** No bot word occurs at any position of `s`. */
  ghost predicate FreeOfBotWords(s: string)
  {
    forall k: nat, i: nat :: k < |BotPatterns| ==> !OccursAt(s, BotPatterns[k], i)
  }

  /**
   * The heuristic. `plugins` is the length of `navigator.plugins`, or `None`
   * when the browser exposes no plugin list. A visitor passes exactly when
   * no bot word occurs anywhere in the lowercased user agent, no automation
   * flag is set and at least one plugin is reported.
   */
  function IsLikelyBot(userAgent: string, webdriver: bool, plugins: Option<nat>): (r: bool)
    ensures !r <==> FreeOfBotWords(ToLower(userAgent)) && !webdriver && plugins.Some? && plugins.value > 0
  {
    if SomeIncluded(ToLower(userAgent), BotPatterns) then true
    else if webdriver then true
    else if plugins.None? || plugins.value == 0 then true
    else false
  }

  /** An occurrence stays an occurrence when text is added on either side. */
  lemma IncludesInContext(prefix: string, s: string, suffix: string, p: string)
    requires Includes(s, p)
    ensures Includes(prefix + s + suffix, p)
  {
    var i: nat :| OccursAt(s, p, i);
    var whole := prefix + s + suffix;
    var j := |prefix| + i;
    assert whole[j..j + |p|] == s[i..i + |p|];
    assert OccursAt(whole, p, j);
  }

  /** Extra text around a user agent never hides a bot word that is already in it. */
  lemma BotStaysBot(prefix: string, userAgent: string, suffix: string, webdriver: bool, plugins: Option<nat>)
    requires IsLikelyBot(userAgent, webdriver, plugins)
    ensures IsLikelyBot(prefix + userAgent + suffix, webdriver, plugins)
  {
    var lowered := ToLower(userAgent);
    if SomeIncluded(lowered, BotPatterns) {
      var k :| 0 <= k < |BotPatterns| && Includes(lowered, BotPatterns[k]);
      ToLowerAppend(prefix, userAgent);
      ToLowerAppend(prefix + userAgent, suffix);
      assert ToLower(prefix + userAgent + suffix) == ToLower(prefix) + lowered + ToLower(suffix);
      IncludesInContext(ToLower(prefix), lowered, ToLower(suffix), BotPatterns[k]);
    }
  }

  /** Lowercasing is idempotent, so the heuristic ignores the case of the user agent. */
  lemma CaseInsensitive(userAgent: string, webdriver: bool, plugins: Option<nat>)
    ensures IsLikelyBot(ToLower(userAgent), webdriver, plugins) == IsLikelyBot(userAgent, webdriver, plugins)
  {
    assert ToLower(ToLower(userAgent)) == ToLower(userAgent);
  }

  /** Sanity check: a crawler's user agent in mixed case is caught by the word "bot". */
  lemma CrawlerExample()
    ensures IsLikelyBot("Googlebot", false, Some(3))
  {
    var lowered := ToLower("Googlebot");
    assert lowered[6..9] == "bot";
    assert OccursAt(lowered, BotPatterns[0], 6);
  }

  /** Sanity check: any user agent is a bot when the automation flag is set or no plugin is reported. */
  lemma FlagExamples(userAgent: string)
    ensures IsLikelyBot(userAgent, true, Some(5))
    ensures IsLikelyBot(userAgent, false, Some(0))
    ensures IsLikelyBot(userAgent, false, None)
  {
  }
}
