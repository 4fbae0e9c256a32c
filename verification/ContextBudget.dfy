/** Token estimates calibrated by reported usage, and the working envelope of a model call (internal/tooling/context_budget.go). */
module ContextBudget {
  import opened Wrappers

  datatype Role = System | User | Assistant | ToolResult

  /** Token counts as a provider reports them. */
  datatype Usage = Usage(prompt: int, completion: int, total: int)

  /** `size`: bytes of the message as the model sees it, encoded as JSON without usage. A missing message is encoded as "null". */
  datatype Message =
    | Missing
    | Message(role: Role, text: string, size: nat, usage: Option<Usage>, calls: seq<string>, callId: string)

  datatype Tools = Tools(digest: string, bytes: nat)

  function Bytes(m: Message): nat {
    if m.Missing? then 4 else m.size
  }

  // ----- calibration

  /** An answer that tells how many tokens its visible bytes took. */
  predicate Observed(m: Message) {
    m.Message? && m.role == Assistant && m.usage.Some? && m.usage.value.completion > 0 && m.size > 0
  }

  /** Bytes per token, as a fraction. */
  datatype Ratio = Ratio(bytes: nat, tokens: nat)

  /** `a` promises no more bytes per token than `b`. */
  predicate AtMost(a: Ratio, b: Ratio) {
    a.bytes * b.tokens <= b.bytes * a.tokens
  }

  function Seen(m: Message): Ratio
    requires Observed(m)
  {
    Ratio(m.size, m.usage.value.completion)
  }

  lemma AtMostIsTransitive(a: Ratio, b: Ratio, c: Ratio)
    requires AtMost(a, b) && AtMost(b, c) && b.tokens > 0
    ensures AtMost(a, c)
  {
    calc <= {
      (a.bytes * c.tokens) * b.tokens;
      (a.bytes * b.tokens) * c.tokens;
      { MulKeeps(a.bytes * b.tokens, b.bytes * a.tokens, c.tokens); }
      (b.bytes * a.tokens) * c.tokens;
      (b.bytes * c.tokens) * a.tokens;
      { MulKeeps(b.bytes * c.tokens, c.bytes * b.tokens, a.tokens); }
      (c.bytes * b.tokens) * a.tokens;
      (c.bytes * a.tokens) * b.tokens;
    }
    DivKeeps(a.bytes * c.tokens, c.bytes * a.tokens, b.tokens);
  }

  lemma MulKeeps(x: nat, y: nat, k: nat)
    requires x <= y
    ensures x * k <= y * k
  {
  }

  lemma DivKeeps(x: nat, y: nat, k: nat)
    requires x * k <= y * k && k > 0
    ensures x <= y
  {
    if y < x {
      MulKeeps(y + 1, x, k);
    }
  }

  /** The smallest of 1/1 and every observed ratio, and one of them. */
  ghost predicate Calibrated(r: Ratio, messages: seq<Message>) {
    && r.bytes > 0 && r.tokens > 0 && AtMost(r, Ratio(1, 1))
    && (forall k :: 0 <= k < |messages| && Observed(messages[k]) ==> AtMost(r, Seen(messages[k])))
    && (r == Ratio(1, 1) || exists k :: 0 <= k < |messages| && Observed(messages[k]) && r == Seen(messages[k]))
  }

  function Calibrate(messages: seq<Message>, n: nat): Ratio
    requires n <= |messages|
  {
    if n == 0 then Ratio(1, 1)
    else
      var r := Calibrate(messages, n - 1);
      var m := messages[n - 1];
      if Observed(m) && m.size * r.tokens < r.bytes * m.usage.value.completion then Seen(m) else r
  }

  lemma {:induction false} CalibrateKeeps(messages: seq<Message>, n: nat)
    requires n <= |messages|
    ensures Calibrated(Calibrate(messages, n), messages[..n])
  {
    if n > 0 {
      CalibrateKeeps(messages, n - 1);
      var before, r, m := Calibrate(messages, n - 1), Calibrate(messages, n), messages[n - 1];
      if r != before {
        AtMostIsTransitive(r, before, Ratio(1, 1));
      }
      forall k | 0 <= k < n && Observed(messages[k])
        ensures AtMost(r, Seen(messages[k]))
      {
        if k < n - 1 {
          assert messages[..n - 1][k] == messages[k];
          if r != before {
            AtMostIsTransitive(r, before, Seen(messages[k]));
          }
        }
      }
      if r == before && r != Ratio(1, 1) {
        var k :| 0 <= k < n - 1 && Observed(messages[..n - 1][k]) && r == Seen(messages[..n - 1][k]);
        assert messages[..n][k] == messages[k];
      } else if r != before {
        assert messages[..n][n - 1] == m;
      }
    }
  }

  /** Loop over all messages. */
  method ObservedBytesPerToken(messages: seq<Message>) returns (r: Ratio)
    ensures Calibrated(r, messages) && r == Calibrate(messages, |messages|)
  {
    r := Ratio(1, 1);
    for k := 0 to |messages|
      invariant r == Calibrate(messages, k)
    {
      var m := messages[k];
      if m.Missing? || m.role != Assistant || m.usage.None? || m.usage.value.completion <= 0 || m.size == 0 {
        continue;
      }
      if m.size * r.tokens < r.bytes * m.usage.value.completion {
        r := Ratio(m.size, m.usage.value.completion);
      }
    }
    CalibrateKeeps(messages, |messages|);
    assert messages[..|messages|] == messages;
  }

  // ----- estimates

  function Estimate(bytes: nat, r: Ratio): nat {
    if bytes == 0 then 0
    else if r.bytes == 0 || r.tokens == 0 then bytes
    else (bytes * r.tokens + r.bytes - 1) / r.bytes
  }

  /** Rounding up: the estimate is the least count at which `r` allows the bytes. */
  lemma EstimateRoundsUp(bytes: nat, r: Ratio, tokens: nat)
    requires r.bytes > 0 && r.tokens > 0
    ensures Estimate(bytes, r) <= tokens <==> bytes * r.tokens <= tokens * r.bytes
  {
    var x, n := bytes * r.tokens, r.bytes;
    if bytes > 0 {
      CeilingDivides(x, n, tokens);
    }
  }

  lemma CeilingDivides(x: nat, n: nat, tokens: nat)
    requires n > 0
    ensures (x + n - 1) / n <= tokens <==> x <= tokens * n
  {
    var q := (x + n - 1) / n;
    assert q * n <= x + n - 1 < q * n + n;
    if q <= tokens {
      MulKeeps(q, tokens, n);
    } else {
      MulKeeps(tokens + 1, q, n);
    }
  }

  /** What one message adds to an estimate: the least count at which the ratio allows its bytes, or the four of a missing one. */
  lemma EstimateOfOne(m: Message, r: Ratio, tokens: nat)
    requires r.bytes > 0 && r.tokens > 0
    ensures m.Message? ==> (EstimateAll([m], r) <= tokens <==> m.size * r.tokens <= tokens * r.bytes)
    ensures m.Missing? ==> (EstimateAll([m], r) <= tokens <==> 4 * r.tokens <= tokens * r.bytes)
  {
    assert [m][..0] == [];
    EstimateRoundsUp(Bytes(m), r, tokens);
  }

  /** The output that the answers of a list have reported, as far as it was observed. */
  function Completions(messages: seq<Message>): nat {
    if messages == [] then 0
    else
      var last := messages[|messages| - 1];
      Completions(messages[..|messages| - 1]) + if Observed(last) then last.usage.value.completion else 0
  }

  /** An estimate of a list is never below the tokens that its own answers reported. */
  lemma {:induction false} ListNeverUndercounts(messages: seq<Message>, all: seq<Message>)
    requires forall k :: 0 <= k < |messages| ==> messages[k] in all
    ensures EstimateAll(messages, Calibrate(all, |all|)) >= Completions(messages)
  {
    if messages != [] {
      var last := messages[|messages| - 1];
      ListNeverUndercounts(messages[..|messages| - 1], all);
      if Observed(last) {
        var k :| 0 <= k < |all| && all[k] == last;
        NeverUndercounts(all, k);
      }
    }
  }

  /** The estimate of an observed answer is never below the tokens that the provider reported, nor are bytes undercounted. */
  lemma NeverUndercounts(messages: seq<Message>, k: nat)
    requires k < |messages| && Observed(messages[k])
    ensures Estimate(messages[k].size, Calibrate(messages, |messages|)) >= messages[k].usage.value.completion
  {
    var r, m := Calibrate(messages, |messages|), messages[k];
    CalibrateKeeps(messages, |messages|);
    assert messages[..|messages|] == messages;
    var tokens: nat := m.usage.value.completion;
    assert AtMost(r, Seen(m));
    EstimateRoundsUp(m.size, r, tokens - 1);
    assert (tokens - 1) * r.bytes == tokens * r.bytes - r.bytes;
  }

  /** A token stands for at least one byte, so an estimate is at least the byte count. */
  lemma EstimateCoversBytes(bytes: nat, r: Ratio)
    requires r.bytes > 0 && r.tokens > 0 && AtMost(r, Ratio(1, 1))
    ensures Estimate(bytes, r) >= bytes
  {
    if 0 < bytes {
      EstimateRoundsUp(bytes, r, bytes - 1);
      MulKeeps(r.bytes, r.tokens, bytes);
      assert (bytes - 1) * r.bytes == bytes * r.bytes - r.bytes;
    }
  }

  /** Estimates of all messages together. */
  function EstimateAll(messages: seq<Message>, r: Ratio): nat {
    if messages == [] then 0 else EstimateAll(messages[..|messages| - 1], r) + Estimate(Bytes(messages[|messages| - 1]), r)
  }

  /** Messages and tools from scratch, calibrated by another list. */
  function EstimateFresh(messages: seq<Message>, tools: Tools, calibration: seq<Message>): nat {
    var r := Calibrate(calibration, |calibration|);
    EstimateAll(messages, r) + Estimate(tools.bytes, r)
  }

  lemma {:induction false} EstimateAllSplits(a: seq<Message>, b: seq<Message>, r: Ratio)
    ensures EstimateAll(a + b, r) == EstimateAll(a, r) + EstimateAll(b, r)
  {
    if b == [] {
      assert a + b == a;
    } else {
      assert (a + b)[..|a + b| - 1] == a + b[..|b| - 1];
      EstimateAllSplits(a, b[..|b| - 1], r);
    }
  }

  // ----- reserves

  /** The largest of 0 and every reported output. */
  ghost predicate IsLargestOutput(reserve: nat, messages: seq<Message>) {
    && (forall k :: 0 <= k < |messages| && Reports(messages[k]) ==> messages[k].usage.value.completion <= reserve)
    && (reserve == 0 || exists k :: 0 <= k < |messages| && Reports(messages[k]) && messages[k].usage.value.completion == reserve)
  }

  predicate Reports(m: Message) {
    m.Message? && m.role == Assistant && m.usage.Some?
  }

  /** What is kept free for output: the largest output reported, but no more than the model's maximum. */
  ghost predicate IsOutputReserve(reserve: int, messages: seq<Message>, maximum: int) {
    exists largest: nat {:trigger IsLargestOutput(largest, messages)} ::
      IsLargestOutput(largest, messages) && reserve == if 0 < maximum < largest then maximum else largest
  }

  /** The largest reported output, but no more than the model's maximum. */
  method ObservedOutputReserve(messages: seq<Message>, maximum: int) returns (reserve: nat)
    ensures IsOutputReserve(reserve, messages, maximum)
  {
    reserve := 0;
    for k := 0 to |messages|
      invariant IsLargestOutput(reserve, messages[..k])
    {
      var m := messages[k];
      assert messages[..k + 1] == messages[..k] + [m];
      if Reports(m) && m.usage.value.completion > reserve {
        reserve := m.usage.value.completion;
        assert messages[..k + 1][k] == m;
      } else if reserve != 0 {
        ghost var i :| 0 <= i < k && Reports(messages[..k][i]) && messages[..k][i].usage.value.completion == reserve;
        assert messages[..k + 1][i] == messages[..k][i];
      }
    }
    assert messages[..|messages|] == messages;
    assert IsLargestOutput(reserve, messages);
    if maximum > 0 && reserve > maximum {
      reserve := maximum;
    }
  }

  predicate HasRole(m: Message, role: Role) {
    m.Message? && m.role == role
  }

  /** The latest visible increment: one message, or an answer with its tool results. */
  ghost predicate IsIncrement(messages: seq<Message>, start: nat, end: nat) {
    && start <= end <= |messages|
    && (forall k :: end <= k < |messages| ==> messages[k].Missing? || HasRole(messages[k], System))
    && (end == 0 ==> start == 0)
    && (end > 0 ==> messages[end - 1].Message? && messages[end - 1].role != System && start < end)
    && (end > 0 && !HasRole(messages[end - 1], ToolResult) ==> start == end - 1)
    && (forall k :: start < k < end ==> HasRole(messages[k], ToolResult))
    && (end > 0 && HasRole(messages[end - 1], ToolResult) ==>
          HasRole(messages[start], Assistant)
          || (HasRole(messages[start], ToolResult)
              && (start == 0 || (!HasRole(messages[start - 1], ToolResult) && !HasRole(messages[start - 1], Assistant)))))
  }

  /** Skip trailing gaps and system messages, then take the last message with the results it belongs to. */
  method FindIncrement(messages: seq<Message>) returns (start: nat, end: nat)
    ensures IsIncrement(messages, start, end)
  {
    end := |messages|;
    while end > 0 && (messages[end - 1].Missing? || messages[end - 1].role == System)
      invariant 0 <= end <= |messages| && forall k :: end <= k < |messages| ==> messages[k].Missing? || HasRole(messages[k], System)
    {
      end := end - 1;
    }
    if end == 0 {
      return 0, 0;
    }
    start := end - 1;
    if HasRole(messages[start], ToolResult) {
      while start > 0 && HasRole(messages[start - 1], ToolResult)
        invariant 0 <= start < end && HasRole(messages[start], ToolResult)
        invariant forall k :: start <= k < end ==> HasRole(messages[k], ToolResult)
      {
        start := start - 1;
      }
      if start > 0 && HasRole(messages[start - 1], Assistant) {
        start := start - 1;
      }
    }
  }

  /** Estimates of a stretch of messages, one by one. */
  method EstimateStretch(messages: seq<Message>, start: nat, end: nat, r: Ratio) returns (total: nat)
    requires start <= end <= |messages|
    ensures total == EstimateAll(messages[start..end], r)
  {
    total := 0;
    for k := start to end
      invariant total == EstimateAll(messages[start..k], r)
    {
      assert messages[start..k + 1][..k - start] == messages[start..k];
      total := total + Estimate(Bytes(messages[k]), r);
    }
  }

  method ObservedGrowthReserve(messages: seq<Message>) returns (reserve: nat, ghost start: nat, ghost end: nat)
    ensures IsIncrement(messages, start, end)
    ensures reserve == EstimateAll(messages[start..end], Calibrate(messages, |messages|))
  {
    var r := ObservedBytesPerToken(messages);
    var first, last := FindIncrement(messages);
    start, end := first, last;
    reserve := EstimateStretch(messages, first, last, r);
  }

  // ----- the budget

  datatype Limits = Limits(contextWindow: int, maxInput: int, maxOutput: int)

  datatype Plan = Plan(known: bool, estimated: int, capacity: int, outputReserve: int, growthReserve: int, high: int, low: int)

  predicate HasUsage(m: Message) {
    m.Message? && m.role == Assistant && m.usage.Some? && (m.usage.value.prompt > 0 || m.usage.value.total > 0)
  }

  /** Tokens up to and including an answer, as its usage says. */
  function Reported(u: Usage): (tokens: int)
    ensures u.prompt > 0 ==> tokens - u.prompt == u.completion
    ensures u.prompt <= 0 ==> tokens == u.total
  {
    if u.prompt > 0 then u.prompt + u.completion else u.total
  }

  /** The latest usage, plus estimates of what came after it; the tools count again when they changed. */
  ghost predicate IsCount(total: int, messages: seq<Message>, tools: Tools, previousDigest: string) {
    var r := Calibrate(messages, |messages|);
    var header := Estimate(tools.bytes, r);
    if forall k :: 0 <= k < |messages| ==> !HasUsage(messages[k]) then total == EstimateAll(messages, r) + header
    else
      exists k ::
        && 0 <= k < |messages| && HasUsage(messages[k]) && (forall j :: k < j < |messages| ==> !HasUsage(messages[j]))
        && total == Reported(messages[k].usage.value) + EstimateAll(messages[k + 1..], r)
                    + (if tools.digest != previousDigest then header else 0)
  }

  function Positive(x: int): nat {
    if x < 0 then 0 else x
  }

  /** The tightest of the known ceilings, less the reserve where it counts for output too; not positive if there is none. */
  predicate IsCapacity(capacity: int, limits: Limits, observed: int, reserve: nat) {
    && (limits.maxInput > 0 ==> capacity <= limits.maxInput)
    && (limits.contextWindow > 0 ==> 0 <= capacity <= Positive(limits.contextWindow - reserve))
    && (observed > 0 ==> 0 <= capacity <= Positive(observed - reserve))
    && (|| (capacity == limits.maxInput && (capacity > 0 || (limits.contextWindow <= 0 && observed <= 0)))
        || (limits.contextWindow > 0 && capacity == Positive(limits.contextWindow - reserve))
        || (observed > 0 && capacity == Positive(observed - reserve)))
  }

  /** The working envelope of a model call: all that is known to fit, and the marks below it; nothing when nothing is known. */
  ghost predicate IsEnvelope(limits: Limits, observed: int, messages: seq<Message>, capacity: int, high: int, low: int) {
    exists reserve: nat, room: int {:trigger IsCapacity(room, limits, observed, reserve)} ::
      && IsOutputReserve(reserve, messages, limits.maxOutput) && IsCapacity(room, limits, observed, reserve)
      && if room > 0 then capacity == room && HasMarks(messages, capacity, high, low) else capacity == high == low == 0
  }

  /** The high mark leaves room for one more increment, the low mark for two. */
  ghost predicate HasMarks(messages: seq<Message>, capacity: int, high: int, low: int) {
    exists growth: nat {:trigger IsGrowth(growth, messages)} ::
      IsGrowth(growth, messages) && high == Positive(capacity - growth) && low == Positive(high - growth)
  }

  /** The estimate of the latest visible increment. */
  ghost predicate IsGrowth(growth: nat, messages: seq<Message>) {
    exists start: nat, end: nat {:trigger IsIncrement(messages, start, end)} ::
      IsIncrement(messages, start, end) && growth == EstimateAll(messages[start..end], Calibrate(messages, |messages|))
  }

  /** The bound after a rejected request teaches another one; 0 stands for none, and a bound below 1 teaches nothing. */
  function Tightened(observed: int, bound: int): (next: int)
    ensures next == observed || next == bound
    ensures bound > 0 ==> 0 < next <= bound || next < 0
    ensures observed > 0 ==> 0 < next <= observed
    ensures bound <= 0 ==> next == observed
  {
    if bound > 0 && (observed == 0 || bound < observed) then bound else observed
  }

  // ----- each of these is one value

  lemma LargestOutputIsUnique(a: nat, b: nat, messages: seq<Message>)
    requires IsLargestOutput(a, messages) && IsLargestOutput(b, messages)
    ensures a == b
  {
  }

  lemma CapacityIsUnique(a: int, b: int, limits: Limits, observed: int, reserve: nat)
    requires IsCapacity(a, limits, observed, reserve) && IsCapacity(b, limits, observed, reserve)
    ensures a == b
  {
  }

  lemma IncrementIsUnique(messages: seq<Message>, a: nat, b: nat, c: nat, d: nat)
    requires IsIncrement(messages, a, b) && IsIncrement(messages, c, d)
    ensures a == c && b == d
  {
    assert b == d;
  }

  lemma OutputReserveIsUnique(a: int, b: int, messages: seq<Message>, maximum: int)
    requires IsOutputReserve(a, messages, maximum) && IsOutputReserve(b, messages, maximum)
    ensures a == b
  {
    var x: nat :| IsLargestOutput(x, messages) && a == if 0 < maximum < x then maximum else x;
    var y: nat :| IsLargestOutput(y, messages) && b == if 0 < maximum < y then maximum else y;
    LargestOutputIsUnique(x, y, messages);
  }

  lemma GrowthIsUnique(a: nat, b: nat, messages: seq<Message>)
    requires IsGrowth(a, messages) && IsGrowth(b, messages)
    ensures a == b
  {
    var i: nat, j: nat :| IsIncrement(messages, i, j) && a == EstimateAll(messages[i..j], Calibrate(messages, |messages|));
    var k: nat, l: nat :| IsIncrement(messages, k, l) && b == EstimateAll(messages[k..l], Calibrate(messages, |messages|));
    IncrementIsUnique(messages, i, j, k, l);
  }

  lemma MarksAreUnique(messages: seq<Message>, capacity: int, high: int, low: int, h: int, l: int)
    requires HasMarks(messages, capacity, high, low) && HasMarks(messages, capacity, h, l)
    ensures high == h && low == l
  {
    var a: nat :| IsGrowth(a, messages) && high == Positive(capacity - a) && low == Positive(high - a);
    var b: nat :| IsGrowth(b, messages) && h == Positive(capacity - b) && l == Positive(h - b);
    GrowthIsUnique(a, b, messages);
  }

  lemma EnvelopeFrom(limits: Limits, observed: int, messages: seq<Message>, reserve: nat, room: int, start: nat, end: nat, growth: nat)
    requires IsOutputReserve(reserve, messages, limits.maxOutput) && IsCapacity(room, limits, observed, reserve) && room > 0
    requires IsIncrement(messages, start, end) && growth == EstimateAll(messages[start..end], Calibrate(messages, |messages|))
    ensures IsEnvelope(limits, observed, messages, room, Positive(room - growth), Positive(Positive(room - growth) - growth))
  {
    assert IsGrowth(growth, messages);
    assert HasMarks(messages, room, Positive(room - growth), Positive(Positive(room - growth) - growth));
  }

  lemma NoEnvelope(limits: Limits, observed: int, messages: seq<Message>, reserve: nat, room: int)
    requires IsOutputReserve(reserve, messages, limits.maxOutput) && IsCapacity(room, limits, observed, reserve) && room <= 0
    ensures IsEnvelope(limits, observed, messages, 0, 0, 0)
  {
  }

  /** The list, the limits and the learned bound leave no choice. */
  lemma EnvelopeIsUnique(limits: Limits, observed: int, messages: seq<Message>, capacity: int, high: int, low: int, c: int, h: int, l: int)
    requires IsEnvelope(limits, observed, messages, capacity, high, low) && IsEnvelope(limits, observed, messages, c, h, l)
    ensures capacity == c && high == h && low == l
  {
    var reserve: nat, room: int :| IsCapacity(room, limits, observed, reserve) && IsOutputReserve(reserve, messages, limits.maxOutput)
      && if room > 0 then capacity == room && HasMarks(messages, capacity, high, low) else capacity == high == low == 0;
    var kept: nat, free: int :| IsCapacity(free, limits, observed, kept) && IsOutputReserve(kept, messages, limits.maxOutput)
      && if free > 0 then c == free && HasMarks(messages, c, h, l) else c == h == l == 0;
    OutputReserveIsUnique(reserve, kept, messages, limits.maxOutput);
    CapacityIsUnique(room, free, limits, observed, reserve);
    if room > 0 {
      MarksAreUnique(messages, capacity, high, low, h, l);
    }
  }

  class Budget {
    const limits: Limits
    var observedUpperBound: int
    var lastToolDigest: string
    var latestPlan: Plan
    /** Every positive bound learned from a rejected request. */
    ghost var learned: set<int>

    ghost predicate Valid()
      reads this
    {
      && observedUpperBound >= 0
      && (observedUpperBound == 0 ==> learned == {})
      && (observedUpperBound > 0 ==> observedUpperBound in learned)
      && forall b :: b in learned ==> 0 < observedUpperBound <= b
    }

    constructor (limits: Limits)
      ensures Valid() && this.limits == limits && learned == {} && !latestPlan.known
    {
      this.limits := limits;
      observedUpperBound, lastToolDigest, learned := 0, "", {};
      latestPlan := Plan(false, 0, 0, 0, 0, 0, 0);
    }

    method Count(messages: seq<Message>, tools: Tools) returns (total: int)
      modifies this`lastToolDigest
      ensures IsCount(total, messages, tools, old(lastToolDigest)) && lastToolDigest == tools.digest
    {
      var r := ObservedBytesPerToken(messages);
      var start := |messages|;
      total := 0;
      while start > 0 && !HasUsage(messages[start - 1])
        invariant 0 <= start <= |messages| && forall k :: start <= k < |messages| ==> !HasUsage(messages[k])
      {
        start := start - 1;
      }
      if start > 0 {
        total := Reported(messages[start - 1].usage.value);
      }
      var rest := EstimateStretch(messages, start, |messages|, r);
      total := total + rest;
      assert messages[start..|messages|] == messages[start..];
      var previous := lastToolDigest;
      lastToolDigest := tools.digest;
      if start == 0 || tools.digest != previous {
        total := total + Estimate(tools.bytes, r);
      }
      if start == 0 {
        assert messages[0..] == messages;
      } else {
        ghost var latest := start - 1;
        assert HasUsage(messages[latest]) && messages[latest + 1..] == messages[start..];
      }
    }

    /** Room for a prompt; not positive when nothing is known. */
    method HardPromptCapacity(outputReserve: nat) returns (capacity: int)
      requires Valid()
      ensures IsCapacity(capacity, limits, observedUpperBound, outputReserve)
      ensures capacity > 0 ==> forall b :: b in learned ==> capacity <= b
    {
      var contextTokens := limits.contextWindow;
      if observedUpperBound > 0 && (contextTokens <= 0 || observedUpperBound < contextTokens) {
        contextTokens := observedUpperBound;
      }
      capacity := limits.maxInput;
      if contextTokens > 0 {
        var combined := if contextTokens - outputReserve < 0 then 0 else contextTokens - outputReserve;
        if capacity <= 0 || combined < capacity {
          capacity := combined;
        }
      }
    }

    /** The envelope of a plan, without what is counted. */
    method MakeEnvelope(messages: seq<Message>, estimated: int) returns (plan: Plan, ghost room: int, ghost start: nat, ghost end: nat)
      requires Valid()
      ensures plan.estimated == estimated && IsEnvelope(limits, observedUpperBound, messages, plan.capacity, plan.high, plan.low)
      ensures IsOutputReserve(plan.outputReserve, messages, limits.maxOutput) && plan.outputReserve >= 0
      ensures IsCapacity(room, limits, observedUpperBound, plan.outputReserve) && (plan.known <==> room > 0)
      ensures (plan.known || plan.capacity == plan.high == plan.low == 0)
      ensures plan.known ==> plan.capacity == room && forall b :: b in learned ==> plan.capacity <= b
      ensures plan.known ==>
                && IsIncrement(messages, start, end) && plan.growthReserve == EstimateAll(messages[start..end], Calibrate(messages, |messages|))
                && plan.high == Positive(plan.capacity - plan.growthReserve) && plan.low == Positive(plan.high - plan.growthReserve)
    {
      start, end := 0, 0;
      var outputReserve := ObservedOutputReserve(messages, limits.maxOutput);
      var capacity := HardPromptCapacity(outputReserve);
      room := capacity;
      if capacity <= 0 {
        plan := Plan(false, estimated, 0, outputReserve, 0, 0, 0);
        NoEnvelope(limits, observedUpperBound, messages, outputReserve, room);
        return;
      }
      var growth, from, upTo := ObservedGrowthReserve(messages);
      start, end := from, upTo;
      var high := if capacity - growth < 0 then 0 else capacity - growth;
      var low := if high - growth < 0 then 0 else high - growth;
      plan := Plan(true, estimated, capacity, outputReserve, growth, high, low);
      EnvelopeFrom(limits, observedUpperBound, messages, outputReserve, room, start, end, growth);
    }

    /** A known envelope is ordered, and below every bound learned so far. */
    method MakePlan(messages: seq<Message>, tools: Tools) returns (plan: Plan, ghost room: int, ghost start: nat, ghost end: nat)
      requires Valid()
      modifies this`lastToolDigest, this`latestPlan
      ensures Valid() && latestPlan == plan && IsCount(plan.estimated, messages, tools, old(lastToolDigest)) && lastToolDigest == tools.digest
      ensures plan.known ==> 0 <= plan.low <= plan.high <= plan.capacity && plan.capacity > 0
      ensures plan.known ==> forall b :: b in learned ==> plan.capacity <= b
      ensures IsOutputReserve(plan.outputReserve, messages, limits.maxOutput) && plan.outputReserve >= 0
      ensures IsCapacity(room, limits, observedUpperBound, plan.outputReserve) && (plan.known <==> room > 0)
      ensures (plan.known || plan.capacity == plan.high == plan.low == 0)
      ensures plan.known ==>
                && plan.capacity == room && IsIncrement(messages, start, end) && plan.growthReserve == EstimateAll(messages[start..end], Calibrate(messages, |messages|))
                && plan.high == Positive(plan.capacity - plan.growthReserve) && plan.low == Positive(plan.high - plan.growthReserve)
      ensures IsEnvelope(limits, observedUpperBound, messages, plan.capacity, plan.high, plan.low)
    {
      var estimated := Count(messages, tools);
      var made, free, from, upTo := MakeEnvelope(messages, estimated);
      plan, room, start, end := made, free, from, upTo;
      latestPlan := plan;
    }

    /** A rejected request teaches a bound: the provider's own, or one below the rejected estimate. */
    method ObserveOverflow(messages: seq<Message>, tools: Tools, providerLimit: int) returns (ghost counted: int)
      requires Valid()
      modifies this`lastToolDigest, this`observedUpperBound, this`learned
      ensures Valid() && old(learned) <= learned
      ensures providerLimit > 0 ==> learned == old(learned) + {providerLimit} && lastToolDigest == old(lastToolDigest)
      ensures providerLimit <= 0 ==>
                IsCount(counted, messages, tools, old(lastToolDigest)) && learned == old(learned) + if counted > 1 then {counted - 1} else {}
      ensures old(observedUpperBound) > 0 ==> 0 < observedUpperBound <= old(observedUpperBound)
      ensures observedUpperBound == Tightened(old(observedUpperBound), if providerLimit > 0 then providerLimit else counted - 1)
    {
      var bound := providerLimit;
      counted := 0;
      if bound <= 0 {
        var total := Count(messages, tools);
        counted := total;
        bound := total - 1;
      }
      if bound <= 0 {
        return;
      }
      if observedUpperBound == 0 || bound < observedUpperBound {
        observedUpperBound := bound;
      }
      learned := learned + {bound};
    }

    /** Bytes that a tool result may still take. */
    method AvailableResultBytes() returns (bytes: nat, known: bool)
      ensures known == latestPlan.known
      ensures known ==> bytes == (if latestPlan.high > latestPlan.estimated then latestPlan.high - latestPlan.estimated else 0)
    {
      if !latestPlan.known {
        return 0, false;
      }
      bytes := if latestPlan.high > latestPlan.estimated then latestPlan.high - latestPlan.estimated else 0;
      known := true;
    }
  }
}
