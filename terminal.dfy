/**
 * The fake terminal's reveal (pages/index.js lines 99-108): while lines are
 * left, a timer with the next line's delay is scheduled, and when it fires
 * the line is appended and the index advances. Timer firings are explicit steps.
 */
module Terminal {
  import opened Wrappers

  /** One scripted line: its text, the delay before it appears, and its styling. */
  datatype TerminalLine = TerminalLine(text: string, delay: nat, color: Option<string>, size: Option<string>, glow: bool, kali: bool)

  const Green: Option<string> := Some("text-green-400")

  /** The script of `terminalLines`, in order. */
  const TerminalLines: seq<TerminalLine> := [
    TerminalLine("> Initializing connection...", 100, None, None, false, false),
    TerminalLine("> Establishing secure tunnel...", 200, None, None, false, false),
    TerminalLine("> Bypassing firewall...", 150, None, None, false, false),
    TerminalLine("> Connection established ✓", 100, Green, None, false, false),
    TerminalLine("", 200, None, None, false, false),
    TerminalLine("> Scanning network parameters...", 150, None, None, false, false),
    TerminalLine("> Collecting device fingerprint...", 180, None, None, false, false),
    TerminalLine("> Analyzing system architecture...", 160, None, None, false, false),
    TerminalLine("> Data extraction complete ✓", 100, Green, None, false, false),
    TerminalLine("", 300, None, None, false, false),
    TerminalLine("> System authenticated", 150, Some("text-cyan-400"), None, false, false),
    TerminalLine("", 200, None, None, false, false),
    TerminalLine("NABER BROSKİ BEN LUAX", 100, Some("text-red-500"), Some("text-base"), true, true)
  ]

  /** The component state `(lines, currentIndex)`. */
  datatype Reveal = Reveal(lines: seq<TerminalLine>, currentIndex: nat)

  /** The state on mount. */
  const Start: Reveal := Reveal([], 0)

  /** The reveal invariant: the shown lines are exactly the first `currentIndex` lines of the script. */
  predicate Revealed(s: Reveal)
  {
    s.currentIndex <= |TerminalLines| && s.lines == TerminalLines[..s.currentIndex]
  }

  /** The delay of the timer the effect schedules in state `s`, or `None` when the script is done. */
  function PendingDelay(s: Reveal): (d: Option<nat>)
    ensures d.Some? <==> s.currentIndex < |TerminalLines|
    ensures d.Some? ==> d.value == TerminalLines[s.currentIndex].delay
  {
    if s.currentIndex < |TerminalLines| then Some(TerminalLines[s.currentIndex].delay) else None
  }

  /** One timer firing: append the next line and advance; with no timer pending, nothing happens. */
  function Tick(s: Reveal): (r: Reveal)
    ensures Revealed(s) ==> Revealed(r)
    ensures s.currentIndex >= |TerminalLines| ==> r == s
    ensures s.currentIndex < |TerminalLines| ==> r.currentIndex == s.currentIndex + 1 && |r.lines| == |s.lines| + 1
  {
    if s.currentIndex < |TerminalLines| then
      Reveal(s.lines + [TerminalLines[s.currentIndex]], s.currentIndex + 1)
    else s
  }

  /** `n` timer firings from `s`. */
  function Ticks(s: Reveal, n: nat): Reveal
  {
    if n == 0 then s else Tick(Ticks(s, n - 1))
  }

  /** After `n` firings from mount, the first `min(n, 13)` lines are shown. */
  lemma {:induction false} TicksFromStart(n: nat)
    ensures var k := if n <= |TerminalLines| then n else |TerminalLines|;
            Ticks(Start, n) == Reveal(TerminalLines[..k], k)
  {
    if n > 0 {
      TicksFromStart(n - 1);
      if n <= |TerminalLines| {
        assert TerminalLines[..n - 1] + [TerminalLines[n - 1]] == TerminalLines[..n];
      }
    }
  }

  /** After thirteen firings the whole script is shown and no further timer is scheduled. */
  lemma RevealCompletes(n: nat)
    requires n >= |TerminalLines|
    ensures Ticks(Start, n).lines == TerminalLines
    ensures PendingDelay(Ticks(Start, n)) == None
  {
    TicksFromStart(n);
    assert TerminalLines[..|TerminalLines|] == TerminalLines;
  }

  /** The mounted component. */
  class TerminalView {
    var lines: seq<TerminalLine>
    var currentIndex: nat

    function State(): Reveal
      reads this
    {
      Reveal(lines, currentIndex)
    }

    ghost predicate Valid()
      reads this
    {
      Revealed(State())
    }

    constructor ()
      ensures Valid() && State() == Start
    {
      lines := [];
      currentIndex := 0;
    }

    /** The effect's scheduling decision: a timer exactly while lines are left, with that line's delay. */
    method NextDelay() returns (delay: Option<nat>)
      ensures delay.Some? <==> currentIndex < |TerminalLines|
      ensures delay.Some? ==> delay.value == TerminalLines[currentIndex].delay
      ensures delay == PendingDelay(State())
    {
      if currentIndex < |TerminalLines| {
        delay := Some(TerminalLines[currentIndex].delay);
      } else {
        delay := None;
      }
    }

    /** A timer firing (lines 101-104); when the index has reached the end no timer exists and nothing changes. */
    method Step()
      requires Valid()
      modifies this
      ensures Valid()
      ensures State() == Tick(old(State()))
      ensures old(currentIndex) < |TerminalLines| ==>
                lines == old(lines) + [TerminalLines[old(currentIndex)]] && currentIndex == old(currentIndex) + 1
      ensures old(currentIndex) == |TerminalLines| ==> lines == old(lines) && currentIndex == old(currentIndex)
    {
      if currentIndex < |TerminalLines| {
        lines := lines + [TerminalLines[currentIndex]];
        currentIndex := currentIndex + 1;
      }
    }
  }
}
