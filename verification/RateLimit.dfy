/** The in-memory sliding-window rate limiter: per-key lists of accepted instants, pruned at every check. */
module RateLimit {

  /** Clock readings of time.monotonic. */
  type Instant = real

  type Windows = map<string, seq<Instant>>

  /** What a key is limited to; the program uses one limit and window for every check of a key. */
  datatype Policy = Policy(maxRequests: int, windowSeconds: int)

  /** A check reads the clock twice: to prune, and, when it accepts, to record. */
  datatype Call = Check(key: string, cleanupAt: Instant, acceptAt: Instant) | Reset(key: string)

  /** _windows[key], which a defaultdict answers for every key. */
  function Window(w: Windows, key: string): seq<Instant> {
    if key in w then w[key] else []
  }

  /** [t for t in s if t > cutoff] */
  function Prune(s: seq<Instant>, cutoff: Instant): seq<Instant> {
    if s == [] then [] else
      Prune(s[..|s| - 1], cutoff) + if s[|s| - 1] > cutoff then [s[|s| - 1]] else []
  }

  function CheckCall(w: Windows, key: string, p: Policy, cleanupAt: Instant, acceptAt: Instant): (Windows, bool) {
    var live := Prune(Window(w, key), cleanupAt - p.windowSeconds as real);
    if |live| >= p.maxRequests then (w[key := live], false) else (w[key := live + [acceptAt]], true)
  }

  function Step(w: Windows, policy: string -> Policy, c: Call): (Windows, bool) {
    match c
    case Check(key, cleanupAt, acceptAt) => CheckCall(w, key, policy(key), cleanupAt, acceptAt)
    case Reset(key) => (w - {key}, true)
  }

  function Run(w: Windows, policy: string -> Policy, calls: seq<Call>): Windows {
    if calls == [] then w else Step(Run(w, policy, calls[..|calls| - 1]), policy, calls[|calls| - 1]).0
  }

  // The reference: a limiter that never forgets an accepted instant

  function FullStep(h: Windows, policy: string -> Policy, c: Call): (Windows, bool) {
    match c
    case Check(key, cleanupAt, acceptAt) =>
      var p := policy(key);
      if |Prune(Window(h, key), cleanupAt - p.windowSeconds as real)| >= p.maxRequests then (h, false)
      else (h[key := Window(h, key) + [acceptAt]], true)
    case Reset(key) => (h - {key}, true)
  }

  /** Everything accepted for each key since its last reset. */
  function FullRun(policy: string -> Policy, calls: seq<Call>): Windows {
    if calls == [] then map[] else FullStep(FullRun(policy, calls[..|calls| - 1]), policy, calls[|calls| - 1]).0
  }

  /** The clock never steps back, neither between calls nor between the two readings of a check. */
  ghost predicate Monotonic(calls: seq<Call>) {
    (forall i :: 0 <= i < |calls| && calls[i].Check? ==> calls[i].cleanupAt <= calls[i].acceptAt)
    && forall i, j :: 0 <= i < j < |calls| && calls[i].Check? && calls[j].Check? ==>
        calls[i].acceptAt <= calls[j].cleanupAt
  }

  // Pruning

  lemma {:induction false} PruneAgain(s: seq<Instant>, c: Instant, d: Instant)
    requires c <= d
    ensures Prune(Prune(s, c), d) == Prune(s, d)
  {
    if s != [] {
      var init, last := s[..|s| - 1], s[|s| - 1];
      PruneAgain(init, c, d);
      if last > c {
        PruneSnoc(Prune(init, c), last, d);
      } else {
        assert Prune(init, c) + [] == Prune(init, c);
      }
    }
  }

  lemma PruneSnoc(s: seq<Instant>, t: Instant, c: Instant)
    ensures Prune(s + [t], c) == Prune(s, c) + if t > c then [t] else []
  {
    assert (s + [t])[..|s|] == s;
  }

  lemma {:induction false} PruneFewer(s: seq<Instant>, c: Instant, d: Instant)
    requires c <= d
    ensures |Prune(s, d)| <= |Prune(s, c)|
  {
    if s != [] { PruneFewer(s[..|s| - 1], c, d); }
  }

  // The pruned list decides as the full history would

  /** From instant `from` on, the two lists of key cannot be told apart by any later check. */
  ghost predicate Agree(w: Windows, h: Windows, key: string, p: Policy, from: Instant) {
    forall c :: c >= from - p.windowSeconds as real ==> Prune(Window(w, key), c) == Prune(Window(h, key), c)
  }

  lemma StepElsewhere(w: Windows, policy: string -> Policy, c: Call, key: string)
    requires c.key != key
    ensures Window(Step(w, policy, c).0, key) == Window(w, key)
    ensures Window(FullStep(w, policy, c).0, key) == Window(w, key)
  {
  }

  /** A check decides alike on two lists that are alike after pruning, and leaves them alike for later cutoffs. */
  lemma CheckAgreesAt(w: Windows, h: Windows, policy: string -> Policy, c: Call, d: Instant)
    requires c.Check?
    requires var cutoff := c.cleanupAt - policy(c.key).windowSeconds as real;
             cutoff <= d && Prune(Window(w, c.key), cutoff) == Prune(Window(h, c.key), cutoff)
    requires Prune(Window(w, c.key), d) == Prune(Window(h, c.key), d)
    ensures Prune(Window(Step(w, policy, c).0, c.key), d) == Prune(Window(FullStep(h, policy, c).0, c.key), d)
  {
    var s, t := Window(w, c.key), Window(h, c.key);
    var cutoff := c.cleanupAt - policy(c.key).windowSeconds as real;
    PruneAgain(s, cutoff, d);
    PruneSnoc(Prune(s, cutoff), c.acceptAt, d);
    PruneSnoc(t, c.acceptAt, d);
  }

  lemma CheckAgrees(w: Windows, h: Windows, policy: string -> Policy, c: Call, from: Instant)
    requires c.Check? && Agree(w, h, c.key, policy(c.key), from) && from <= c.cleanupAt <= c.acceptAt
    ensures Agree(Step(w, policy, c).0, FullStep(h, policy, c).0, c.key, policy(c.key), c.acceptAt)
    ensures Step(w, policy, c).1 == FullStep(h, policy, c).1
  {
    var width := policy(c.key).windowSeconds as real;
    assert Prune(Window(w, c.key), c.cleanupAt - width) == Prune(Window(h, c.key), c.cleanupAt - width);
    forall d | d >= c.acceptAt - width
      ensures Prune(Window(Step(w, policy, c).0, c.key), d) == Prune(Window(FullStep(h, policy, c).0, c.key), d)
    {
      CheckAgreesAt(w, h, policy, c, d);
    }
  }

  lemma AgreeByWindows(w: Windows, h: Windows, w': Windows, h': Windows, key: string, p: Policy, from: Instant)
    requires Agree(w, h, key, p, from) && Window(w', key) == Window(w, key) && Window(h', key) == Window(h, key)
    ensures Agree(w', h', key, p, from)
  {
  }

  lemma StepAgrees(w: Windows, h: Windows, policy: string -> Policy, c: Call, key: string, from: Instant)
    requires Agree(w, h, key, policy(key), from)
    requires c.Check? ==> from <= c.cleanupAt <= c.acceptAt
    ensures Agree(Step(w, policy, c).0, FullStep(h, policy, c).0, key, policy(key),
                  if c.Check? then c.acceptAt else from)
    ensures c.key == key ==> Step(w, policy, c).1 == FullStep(h, policy, c).1
  {
    if c.key != key {
      StepElsewhere(w, policy, c, key);
      StepElsewhere(h, policy, c, key);
      AgreeByWindows(w, h, Step(w, policy, c).0, FullStep(h, policy, c).0, key, policy(key), from);
    } else if c.Check? {
      CheckAgrees(w, h, policy, c, from);
    }
  }

  /** No reading of the calls before position n comes after `from`. */
  ghost predicate Before(calls: seq<Call>, from: Instant) {
    forall i :: 0 <= i < |calls| && calls[i].Check? ==> calls[i].acceptAt <= from
  }

  lemma {:induction false} RunAgrees(policy: string -> Policy, calls: seq<Call>, key: string, from: Instant)
    requires Monotonic(calls) && Before(calls, from)
    ensures Agree(Run(map[], policy, calls), FullRun(policy, calls), key, policy(key), from)
  {
    if calls != [] {
      var init, last := calls[..|calls| - 1], calls[|calls| - 1];
      assert forall i :: 0 <= i < |init| ==> init[i] == calls[i];
      var mid := if last.Check? then last.cleanupAt else from;
      RunAgrees(policy, init, key, mid);
      StepAgrees(Run(map[], policy, init), FullRun(policy, init), policy, last, key, mid);
    }
  }

  /** At every point of every run, a check of any key is decided as the unpruned history would decide it. */
  lemma DecidesAsFullHistory(policy: string -> Policy, calls: seq<Call>, c: Call)
    requires c.Check? && Monotonic(calls) && Before(calls, c.cleanupAt) && c.cleanupAt <= c.acceptAt
    ensures Step(Run(map[], policy, calls), policy, c).1 == FullStep(FullRun(policy, calls), policy, c).1
  {
    RunAgrees(policy, calls, c.key, c.cleanupAt);
    StepAgrees(Run(map[], policy, calls), FullRun(policy, calls), policy, c, c.key, c.cleanupAt);
  }

  /** What the checks of a key that answered yes have recorded since its last reset. */
  function Accepted(policy: string -> Policy, calls: seq<Call>, key: string): seq<Instant> {
    if calls == [] then [] else
      var init, last := calls[..|calls| - 1], calls[|calls| - 1];
      if last.key != key then Accepted(policy, init, key)
      else if last.Reset? then []
      else if Step(Run(map[], policy, init), policy, last).1 then Accepted(policy, init, key) + [last.acceptAt]
      else Accepted(policy, init, key)
  }

  /** The unpruned history is exactly that. */
  lemma {:induction false} AcceptedIsFullRun(policy: string -> Policy, calls: seq<Call>, key: string)
    requires Monotonic(calls)
    ensures Window(FullRun(policy, calls), key) == Accepted(policy, calls, key)
  {
    if calls != [] {
      var init, last := calls[..|calls| - 1], calls[|calls| - 1];
      assert forall i :: 0 <= i < |init| ==> init[i] == calls[i];
      AcceptedIsFullRun(policy, init, key);
      if last.key != key {
        StepElsewhere(FullRun(policy, init), policy, last, key);
      } else if last.Check? {
        DecidesAsFullHistory(policy, init, last);
      }
    }
  }

  // Safety: no window of any position holds more than the limit

  /** How many instants lie in (lo, hi]. */
  function CountAfter(s: seq<Instant>, lo: Instant, hi: Instant): nat {
    if s == [] then 0 else
      CountAfter(s[..|s| - 1], lo, hi) + if lo < s[|s| - 1] <= hi then 1 else 0
  }

  /** How many instants lie in [lo, hi). */
  function CountFrom(s: seq<Instant>, lo: Instant, hi: Instant): nat {
    if s == [] then 0 else
      CountFrom(s[..|s| - 1], lo, hi) + if lo <= s[|s| - 1] < hi then 1 else 0
  }

  lemma {:induction false} CountsAreLive(s: seq<Instant>, lo: Instant, hi: Instant, cutoff: Instant)
    ensures cutoff <= lo ==> CountAfter(s, lo, hi) <= |Prune(s, cutoff)|
    ensures cutoff < lo ==> CountFrom(s, lo, hi) <= |Prune(s, cutoff)|
  {
    if s != [] { CountsAreLive(s[..|s| - 1], lo, hi, cutoff); }
  }

  function Limit(p: Policy): nat { if p.maxRequests < 0 then 0 else p.maxRequests }

  /** The half-open intervals of one window's length that start at x, of either kind, hold at most the limit. */
  ghost predicate WithinLimitAt(s: seq<Instant>, p: Policy, x: Instant) {
    var width := p.windowSeconds as real;
    CountAfter(s, x, x + width) <= Limit(p) && CountFrom(s, x, x + width) <= Limit(p)
  }

  ghost predicate WithinLimit(s: seq<Instant>, p: Policy) {
    forall x: Instant :: WithinLimitAt(s, p, x)
  }

  lemma AcceptKeepsLimit(s: seq<Instant>, p: Policy, cleanupAt: Instant, acceptAt: Instant)
    requires WithinLimit(s, p) && cleanupAt <= acceptAt
    requires |Prune(s, cleanupAt - p.windowSeconds as real)| < p.maxRequests
    ensures WithinLimit(s + [acceptAt], p)
  {
    var width := p.windowSeconds as real;
    assert (s + [acceptAt])[..|s|] == s;
    forall x: Instant ensures WithinLimitAt(s + [acceptAt], p, x) {
      CountsAreLive(s, x, x + width, cleanupAt - width);
      assert WithinLimitAt(s, p, x);
    }
  }

  /** Over every run, what was accepted for a key since its last reset never exceeds the limit in any window. */
  lemma RunWithinLimit(policy: string -> Policy, calls: seq<Call>, key: string)
    requires Monotonic(calls)
    ensures WithinLimit(Accepted(policy, calls, key), policy(key))
  {
    FullRunWithinLimit(policy, calls, key);
    AcceptedIsFullRun(policy, calls, key);
  }

  lemma {:induction false} FullRunWithinLimit(policy: string -> Policy, calls: seq<Call>, key: string)
    requires Monotonic(calls)
    ensures WithinLimit(Window(FullRun(policy, calls), key), policy(key))
  {
    if calls != [] {
      var init, last := calls[..|calls| - 1], calls[|calls| - 1];
      assert forall i :: 0 <= i < |init| ==> init[i] == calls[i];
      FullRunWithinLimit(policy, init, key);
      if last.key != key {
        StepElsewhere(FullRun(policy, init), policy, last, key);
      } else if last.Check? && FullStep(FullRun(policy, init), policy, last).1 {
        AcceptKeepsLimit(Window(FullRun(policy, init), key), policy(key), last.cleanupAt, last.acceptAt);
      } else if last.Reset? {
        assert forall x :: WithinLimitAt([], policy(key), x);
      }
    }
  }

  lemma {:induction false} LiveAreInWindow(s: seq<Instant>, lo: Instant, hi: Instant)
    requires forall i :: 0 <= i < |s| ==> s[i] <= hi
    ensures CountAfter(s, lo, hi) == |Prune(s, lo)|
  {
    if s != [] { LiveAreInWindow(s[..|s| - 1], lo, hi); }
  }

  lemma {:induction false} AcceptedBefore(policy: string -> Policy, calls: seq<Call>, key: string, from: Instant)
    requires Before(calls, from)
    ensures forall i :: 0 <= i < |Window(FullRun(policy, calls), key)| ==>
        Window(FullRun(policy, calls), key)[i] <= from
  {
    if calls != [] {
      var init := calls[..|calls| - 1];
      assert forall i :: 0 <= i < |init| ==> init[i] == calls[i];
      AcceptedBefore(policy, init, key, from);
      assert calls[|calls| - 1].Check? ==> calls[|calls| - 1].acceptAt <= from;
      if calls[|calls| - 1].key != key { StepElsewhere(FullRun(policy, init), policy, calls[|calls| - 1], key); }
    }
  }

  lemma FullRefusedIff(policy: string -> Policy, h: Windows, c: Call)
    requires c.Check? && forall i :: 0 <= i < |Window(h, c.key)| ==> Window(h, c.key)[i] <= c.cleanupAt
    ensures !FullStep(h, policy, c).1 <==>
              CountAfter(Window(h, c.key), c.cleanupAt - policy(c.key).windowSeconds as real, c.cleanupAt)
              >= policy(c.key).maxRequests
  {
    LiveAreInWindow(Window(h, c.key), c.cleanupAt - policy(c.key).windowSeconds as real, c.cleanupAt);
  }

  /** Precision: a check is refused exactly when the limit's worth of accepted instants lies in its own window. */
  lemma RefusedIffWindowFull(policy: string -> Policy, calls: seq<Call>, c: Call)
    requires c.Check? && Monotonic(calls) && Before(calls, c.cleanupAt) && c.cleanupAt <= c.acceptAt
    ensures var p := policy(c.key);
            !Step(Run(map[], policy, calls), policy, c).1 <==>
              CountAfter(Accepted(policy, calls, c.key), c.cleanupAt - p.windowSeconds as real, c.cleanupAt)
              >= p.maxRequests
  {
    AcceptedIsFullRun(policy, calls, c.key);
    DecidesAsFullHistory(policy, calls, c);
    AcceptedBefore(policy, calls, c.key, c.cleanupAt);
    FullRefusedIff(policy, FullRun(policy, calls), c);
  }

  // Keys do not influence each other

  function OnlyKey(calls: seq<Call>, key: string): seq<Call> {
    if calls == [] then [] else
      OnlyKey(calls[..|calls| - 1], key) + if calls[|calls| - 1].key == key then [calls[|calls| - 1]] else []
  }

  lemma StepLocal(v: Windows, w: Windows, policy: string -> Policy, c: Call)
    requires Window(v, c.key) == Window(w, c.key)
    ensures Window(Step(v, policy, c).0, c.key) == Window(Step(w, policy, c).0, c.key)
    ensures Step(v, policy, c).1 == Step(w, policy, c).1
  {
  }

  /** The list of a key is what the calls for that key alone would have left. */
  lemma {:induction false} KeysAreIndependent(policy: string -> Policy, calls: seq<Call>, key: string)
    ensures Window(Run(map[], policy, calls), key) == Window(Run(map[], policy, OnlyKey(calls, key)), key)
  {
    if calls != [] {
      var init, last := calls[..|calls| - 1], calls[|calls| - 1];
      KeysAreIndependent(policy, init, key);
      if last.key == key {
        var only := OnlyKey(init, key) + [last];
        assert only[..|only| - 1] == OnlyKey(init, key);
        StepLocal(Run(map[], policy, init), Run(map[], policy, OnlyKey(init, key)), policy, last);
      } else {
        StepElsewhere(Run(map[], policy, init), policy, last, key);
        assert OnlyKey(calls, key) == OnlyKey(init, key);
      }
    }
  }

  /** The module's dictionary; the lock around both operations makes each call one step. */
  class RateLimiter {
    var windows: Windows

    constructor ()
      ensures windows == map[]
    {
      windows := map[];
    }

    method CleanupWindow(key: string, windowSeconds: int, now: Instant)
      modifies this
      ensures var live := Prune(Window(old(windows), key), now - windowSeconds as real);
              windows == if live == [] then old(windows) - {key} else old(windows)[key := live]
    {
      var cutoff := now - windowSeconds as real;
      var all := Window(windows, key);
      var kept: seq<Instant> := [];
      for i := 0 to |all|
        invariant kept == Prune(all[..i], cutoff)
      {
        assert all[..i + 1][..i] == all[..i];
        if all[i] > cutoff { kept := kept + [all[i]]; }
      }
      assert all[..|all|] == all;
      windows := windows[key := kept];
      if windows[key] == [] {
        windows := windows - {key};
        assert windows == old(windows) - {key};
      }
    }

    /** False stands for the exception with status 429. */
    method CheckRateLimit(key: string, maxRequests: int, windowSeconds: int, cleanupAt: Instant, acceptAt: Instant)
      returns (accepted: bool)
      modifies this
      ensures (windows, accepted)
          == CheckCall(old(windows), key, Policy(maxRequests, windowSeconds), cleanupAt, acceptAt)
    {
      CleanupWindow(key, windowSeconds, cleanupAt);
      if key !in windows { windows := windows[key := []]; }
      assert windows == old(windows)[key := windows[key]];
      if |windows[key]| >= maxRequests { return false; }
      windows := windows[key := windows[key] + [acceptAt]];
      assert windows == old(windows)[key := windows[key]];
      return true;
    }

    method ResetRateLimit(key: string)
      modifies this
      ensures windows == old(windows) - {key}
    {
      windows := windows - {key};
    }
  }
}
