/** Recovery from a context overflow: shorter requests that keep the protocol (internal/tooling/context_compaction.go). */
module Compaction {
  import opened ContextBudget
  import opened Text
  import opened Wrappers

  // ----- the tool protocol

  /** Every tool result with a call id follows an answer that made the call. */
  ghost predicate ResultsAnswerCalls(messages: seq<Message>) {
    forall k :: 0 <= k < |messages| && HasRole(messages[k], ToolResult) && messages[k].callId != "" ==> CalledBefore(messages, k, messages[k].callId)
  }

  ghost predicate CalledBefore(messages: seq<Message>, k: nat, id: string)
    requires k <= |messages|
  {
    exists j :: 0 <= j < k && HasRole(messages[j], Assistant) && id in messages[j].calls
  }

  /** A place where no call may be open: the end, or a message of the user or the system. */
  predicate IsStop(messages: seq<Message>, b: nat)
    requires b <= |messages|
  {
    b == |messages| || HasRole(messages[b], User) || HasRole(messages[b], System)
  }

  ghost predicate AnsweredBetween(messages: seq<Message>, j: nat, b: nat, id: string)
    requires j < b <= |messages|
  {
    exists k :: j < k < b && HasRole(messages[k], ToolResult) && messages[k].callId == id
  }

  /** Calls with an id made by the first `n` messages and not answered by them. */
  ghost predicate OpenAt(messages: seq<Message>, n: nat, id: string)
    requires n <= |messages|
  {
    id != "" && exists j :: 0 <= j < n && HasRole(messages[j], Assistant) && id in messages[j].calls && !AnsweredBetween(messages, j, n, id)
  }

  ghost predicate CleanAt(messages: seq<Message>, b: nat)
    requires b <= |messages|
  {
    IsStop(messages, b) ==> forall id :: !OpenAt(messages, b, id)
  }

  /** Every call with an id has its result before the next stop. */
  ghost predicate CallsAreAnswered(messages: seq<Message>) {
    forall b {:trigger CleanAt(messages, b)} :: 0 <= b <= |messages| ==> CleanAt(messages, b)
  }

  function CallIds(calls: seq<string>): set<string> {
    set id | id in calls && id != ""
  }

  lemma OpenNext(messages: seq<Message>, n: nat, id: string)
    requires n < |messages|
    ensures OpenAt(messages, n + 1, id) <==>
            if HasRole(messages[n], Assistant) then OpenAt(messages, n, id) || (id != "" && id in messages[n].calls)
            else OpenAt(messages, n, id) && !(HasRole(messages[n], ToolResult) && messages[n].callId == id)
  {
    var m := messages[n];
    forall j | 0 <= j < n
      ensures AnsweredBetween(messages, j, n + 1, id) <==>
              AnsweredBetween(messages, j, n, id) || (HasRole(m, ToolResult) && m.callId == id)
    {
    }
    if HasRole(m, Assistant) && id in m.calls && id != "" {
      assert !AnsweredBetween(messages, n, n + 1, id);
    }
  }

  method ProtocolValidPrefix(messages: seq<Message>) returns (ok: bool)
    ensures ok <==> CallsAreAnswered(messages)
  {
    var pending: set<string> := {};
    for n := 0 to |messages|
      invariant forall id :: id in pending <==> OpenAt(messages, n, id)
      invariant forall b {:trigger CleanAt(messages, b)} :: 0 <= b < n ==> CleanAt(messages, b)
    {
      var m := messages[n];
      forall id
        ensures OpenAt(messages, n + 1, id) <==>
                if HasRole(m, Assistant) then OpenAt(messages, n, id) || (id != "" && id in m.calls)
                else OpenAt(messages, n, id) && !(HasRole(m, ToolResult) && m.callId == id)
      {
        OpenNext(messages, n, id);
      }
      if m.Message? {
        match m.role {
          case Assistant =>
            pending := pending + CallIds(m.calls);
          case ToolResult =>
            pending := pending - {m.callId};
          case _ =>
            if pending != {} {
              ghost var id :| id in pending;
              assert !CleanAt(messages, n);
              return false;
            }
        }
      }
    }
    ok := pending == {};
    if !ok {
      ghost var id :| id in pending;
      assert !CleanAt(messages, |messages|);
    }
  }

  method ProtocolValidSuffix(messages: seq<Message>) returns (ok: bool)
    ensures ok <==> ResultsAnswerCalls(messages)
  {
    var known: set<string> := {};
    for n := 0 to |messages|
      invariant forall id :: id in known <==> id != "" && CalledBefore(messages, n, id)
      invariant forall k :: 0 <= k < n && HasRole(messages[k], ToolResult) && messages[k].callId != "" ==> CalledBefore(messages, k, messages[k].callId)
    {
      var m := messages[n];
      if HasRole(m, Assistant) {
        known := known + CallIds(m.calls);
      } else if HasRole(m, ToolResult) && m.callId != "" && m.callId !in known {
        return false;
      }
    }
    ok := true;
  }

  // ----- copies that carry no usage

  function Strip(m: Message): (copy: Message)
    ensures m.Missing? <==> copy.Missing?
    ensures m.Message? ==>
              && copy.usage == None && copy.role == m.role && copy.text == m.text && copy.size == m.size
              && copy.calls == m.calls && copy.callId == m.callId
  {
    if m.Missing? then m else m.(usage := None)
  }

  function StripAll(messages: seq<Message>): (r: seq<Message>)
    ensures |r| == |messages| && forall k :: 0 <= k < |r| ==> r[k] == Strip(messages[k])
  {
    if messages == [] then [] else StripAll(messages[..|messages| - 1]) + [Strip(messages[|messages| - 1])]
  }

  ghost predicate Stripped(messages: seq<Message>) {
    forall k :: 0 <= k < |messages| ==> Strip(messages[k]) == messages[k]
  }

  function TotalBytes(messages: seq<Message>): nat {
    if messages == [] then 0 else TotalBytes(messages[..|messages| - 1]) + Bytes(messages[|messages| - 1])
  }

  /** Without usage a token is a byte. */
  lemma {:induction false} StrippedCalibrates(messages: seq<Message>, n: nat)
    requires Stripped(messages) && n <= |messages|
    ensures Calibrate(messages, n) == Ratio(1, 1)
  {
    if n > 0 {
      StrippedCalibrates(messages, n - 1);
      assert Strip(messages[n - 1]) == messages[n - 1];
    }
  }

  lemma {:induction false} ByteEstimates(messages: seq<Message>)
    ensures EstimateAll(messages, Ratio(1, 1)) == TotalBytes(messages)
  {
    if messages != [] {
      ByteEstimates(messages[..|messages| - 1]);
    }
  }

  lemma StrippedEstimate(messages: seq<Message>, tools: Tools, calibration: seq<Message>)
    requires Stripped(calibration)
    ensures EstimateFresh(messages, tools, calibration) == TotalBytes(messages) + tools.bytes
  {
    StrippedCalibrates(calibration, |calibration|);
    ByteEstimates(messages);
  }

  // ----- cutting the list

  /** How many system messages the list starts with. */
  ghost predicate IsSystemEnd(messages: seq<Message>, n: nat) {
    && n <= |messages| && (forall k :: 0 <= k < n ==> HasRole(messages[k], System))
    && (n == |messages| || !HasRole(messages[n], System))
  }

  method SystemEnd(messages: seq<Message>) returns (n: nat)
    ensures IsSystemEnd(messages, n)
  {
    n := 0;
    while n < |messages| && HasRole(messages[n], System)
      invariant n <= |messages| && forall k :: 0 <= k < n ==> HasRole(messages[k], System)
    {
      n := n + 1;
    }
  }

  /** The list may be cut here: nothing open before, nothing orphaned after. */
  ghost predicate CleanCut(messages: seq<Message>, cut: nat)
    requires cut <= |messages|
  {
    CallsAreAnswered(messages[..cut]) && ResultsAnswerCalls(messages[cut..])
  }

  ghost predicate HeadFits(original: seq<Message>, tools: Tools, instruction: Message, cut: nat, highWater: int)
    requires cut <= |original|
  {
    CleanCut(original, cut) && EstimateFresh(StripAll(original[..cut]) + [instruction], tools, original) <= highWater
  }

  /** The system messages that the list starts with. */
  ghost function SystemPrefix(messages: seq<Message>): seq<Message> {
    if messages == [] || !HasRole(messages[0], System) then [] else [messages[0]] + SystemPrefix(messages[1..])
  }

  lemma {:induction false} SystemPrefixIs(messages: seq<Message>, n: nat)
    requires IsSystemEnd(messages, n)
    ensures SystemPrefix(messages) == messages[..n]
  {
    if n > 0 {
      SystemPrefixIs(messages[1..], n - 1);
      assert messages[..n] == [messages[0]] + messages[1..][..n - 1];
    }
  }

  ghost predicate Selectable(original: seq<Message>, tools: Tools, instruction: Message, highWater: int, b: nat) {
    |SystemPrefix(original)| < b < |original| && HeadFits(original, tools, instruction, b, highWater)
  }

  /** The longest head that may be cut off and fits the summarizer; [] if there is none. */
  ghost predicate IsSelected(original: seq<Message>, tools: Tools, instruction: Message, highWater: int, head: seq<Message>) {
    && (head == [] || (Selectable(original, tools, instruction, highWater, |head|) && head == StripAll(original[..|head|])))
    && (highWater > 0 ==>
          forall b: nat {:trigger Selectable(original, tools, instruction, highWater, b)} :: Selectable(original, tools, instruction, highWater, b) ==> b <= |head|)
    && (highWater <= 0 ==> head == [])
  }

  method SelectEmergencySummaryHead(original: seq<Message>, tools: Tools, instruction: Message, highWater: int)
    returns (head: seq<Message>)
    ensures IsSelected(original, tools, instruction, highWater, head)
  {
    var start := SystemEnd(original);
    SystemPrefixIs(original, start);
    if highWater <= 0 {
      return [];
    }
    var best := 0;
    var boundary := start + 1;
    while boundary < |original|
      invariant start < boundary && (best == 0 || Selectable(original, tools, instruction, highWater, best))
      invariant forall b: nat {:trigger Selectable(original, tools, instruction, highWater, b)} ::
                  Selectable(original, tools, instruction, highWater, b) && b < boundary ==> b <= best
    {
      var prefixOk := ProtocolValidPrefix(original[..boundary]);
      var suffixOk := ProtocolValidSuffix(original[boundary..]);
      if prefixOk && suffixOk {
        var candidate := StripAll(original[..boundary]) + [instruction];
        if EstimateFresh(candidate, tools, original) <= highWater {
          best := boundary;
        }
      }
      boundary := boundary + 1;
    }
    head := if best <= start then [] else StripAll(original[..best]);
  }

  /** System messages, the brief, and a verbatim tail. */
  function Rebuilt(original: seq<Message>, systemEnd: nat, brief: Message, start: nat): seq<Message>
    requires systemEnd <= |original| && start <= |original|
  {
    StripAll(original[..systemEnd]) + [brief] + StripAll(original[start..])
  }

  ghost predicate TailFits(original: seq<Message>, tools: Tools, systemEnd: nat, brief: Message, start: nat, lowWater: int)
    requires systemEnd <= |original|
  {
    && systemEnd <= start < |original| && original[start].Message? && original[start].role != ToolResult
    && ResultsAnswerCalls(original[start..]) && EstimateFresh(Rebuilt(original, systemEnd, brief, start), tools, original) <= lowWater
  }

  /** The tail starts here: the longest one that fits below the low-water mark, or none. */
  ghost predicate CutsAt(original: seq<Message>, tools: Tools, systemEnd: nat, brief: Message, start: nat, lowWater: int) {
    && IsSystemEnd(original, systemEnd) && start <= |original|
    && (start < |original| ==> TailFits(original, tools, systemEnd, brief, start, lowWater))
    && (lowWater > 0 ==> forall k :: 0 <= k < start ==> !TailFits(original, tools, systemEnd, brief, k, lowWater))
    && (lowWater <= 0 ==> start == |original|)
  }

  /** Rebuilt with the longest verbatim tail that fits below the low-water mark, or none. */
  ghost predicate IsFinal(original: seq<Message>, brief: Message, tools: Tools, lowWater: int, final: seq<Message>) {
    exists n: nat, start: nat {:trigger CutsAt(original, tools, n, brief, start, lowWater)} ::
      CutsAt(original, tools, n, brief, start, lowWater) && final == Rebuilt(original, n, brief, start)
  }

  lemma SystemEndIsUnique(messages: seq<Message>, a: nat, b: nat)
    requires IsSystemEnd(messages, a) && IsSystemEnd(messages, b)
    ensures a == b
  {
    SystemPrefixIs(messages, a);
    SystemPrefixIs(messages, b);
    assert |messages[..a]| == a && |messages[..b]| == b;
  }

  lemma CutIsUnique(original: seq<Message>, tools: Tools, m: nat, n: nat, brief: Message, a: nat, b: nat, lowWater: int)
    requires CutsAt(original, tools, m, brief, a, lowWater) && CutsAt(original, tools, n, brief, b, lowWater)
    ensures m == n && a == b
  {
    SystemEndIsUnique(original, m, n);
  }

  /** There is one such list. */
  lemma FinalIsUnique(original: seq<Message>, brief: Message, tools: Tools, lowWater: int, a: seq<Message>, b: seq<Message>)
    requires IsFinal(original, brief, tools, lowWater, a) && IsFinal(original, brief, tools, lowWater, b)
    ensures a == b
  {
    var m: nat, i: nat :| CutsAt(original, tools, m, brief, i, lowWater) && a == Rebuilt(original, m, brief, i);
    var n: nat, j: nat :| CutsAt(original, tools, n, brief, j, lowWater) && b == Rebuilt(original, n, brief, j);
    CutIsUnique(original, tools, m, n, brief, i, j, lowWater);
  }

  lemma SelectedIsUnique(original: seq<Message>, tools: Tools, instruction: Message, highWater: int, a: seq<Message>, b: seq<Message>)
    requires IsSelected(original, tools, instruction, highWater, a) && IsSelected(original, tools, instruction, highWater, b)
    ensures a == b
  {
    if highWater > 0 {
      assert a != [] ==> Selectable(original, tools, instruction, highWater, |a|);
      assert b != [] ==> Selectable(original, tools, instruction, highWater, |b|);
    }
  }

  /** The system messages, the brief, and the tail, by a search from the end of the list. */
  method FinalizeWithVerbatimTail(original: seq<Message>, brief: Message, tools: Tools, lowWater: int) returns (final: seq<Message>)
    ensures IsFinal(original, brief, tools, lowWater, final)
  {
    var n := SystemEnd(original);
    var base := StripAll(original[..n]) + [brief];
    assert base == Rebuilt(original, n, brief, |original|) by {
      assert original[|original|..] == [] && base + [] == base;
    }
    if lowWater <= 0 || n >= |original| {
      assert CutsAt(original, tools, n, brief, |original|, lowWater);
      return base;
    }
    var best: nat := |original|;
    var k := |original|;
    while k > n
      invariant n <= k <= |original| && (best == |original| || TailFits(original, tools, n, brief, best, lowWater))
      invariant forall j :: k <= j < best ==> !TailFits(original, tools, n, brief, j, lowWater)
    {
      k := k - 1;
      var candidateOk := original[k].Message? && original[k].role != ToolResult;
      if candidateOk {
        candidateOk := ProtocolValidSuffix(original[k..]);
      }
      if candidateOk {
        var candidate := base + StripAll(original[k..]);
        if EstimateFresh(candidate, tools, original) <= lowWater {
          best := k;
        }
      }
    }
    assert CutsAt(original, tools, n, brief, best, lowWater);
    final := if best == |original| then base else base + StripAll(original[best..]);
  }

  /** What every request sent after an overflow keeps of the first one: the system messages, and a sound tool protocol. */
  ghost predicate Keeps(original: seq<Message>, next: seq<Message>) {
    Stripped(next) && ResultsAnswerCalls(next) && SystemPrefix(next) == StripAll(SystemPrefix(original))
  }

  lemma StripTwice(messages: seq<Message>)
    ensures StripAll(StripAll(messages)) == StripAll(messages)
  {
    assert forall k :: 0 <= k < |messages| ==> Strip(Strip(messages[k])) == Strip(messages[k]);
  }

  /** Each keeps the start of the one before. */
  lemma KeepsChains(a: seq<Message>, b: seq<Message>, c: seq<Message>)
    requires Keeps(a, b) && Keeps(b, c)
    ensures Keeps(a, c)
  {
    StripTwice(SystemPrefix(a));
  }

  /** Tool results of the tail find their calls in the tail. */
  lemma TailStaysAnswered(front: seq<Message>, tail: seq<Message>)
    requires ResultsAnswerCalls(tail) && forall k :: 0 <= k < |front| ==> !HasRole(front[k], ToolResult)
    ensures ResultsAnswerCalls(front + StripAll(tail))
  {
    var whole := front + StripAll(tail);
    forall k | 0 <= k < |whole| && HasRole(whole[k], ToolResult) && whole[k].callId != ""
      ensures CalledBefore(whole, k, whole[k].callId)
    {
      var i := k - |front|;
      assert whole[k] == Strip(tail[i]);
      var j :| 0 <= j < i && HasRole(tail[j], Assistant) && tail[i].callId in tail[j].calls;
      assert whole[|front| + j] == Strip(tail[j]);
    }
  }

  lemma RebuiltKeeps(original: seq<Message>, n: nat, brief: Message, start: nat)
    requires IsSystemEnd(original, n) && start <= |original| && HasRole(brief, User) && Strip(brief) == brief
    requires ResultsAnswerCalls(original[start..])
    ensures Keeps(original, Rebuilt(original, n, brief, start))
  {
    var front, tail := StripAll(original[..n]) + [brief], original[start..];
    var final := Rebuilt(original, n, brief, start);
    forall k | 0 <= k < |front|
      ensures !HasRole(front[k], ToolResult)
    {
      assert k < n ==> front[k] == Strip(original[k]);
    }
    TailStaysAnswered(front, tail);
    assert final == front + StripAll(tail);
    forall k | 0 <= k < n
      ensures HasRole(final[k], System)
    {
      assert final[k] == Strip(original[k]);
    }
    SystemPrefixIs(original, n);
    SystemPrefixIs(final, n);
    assert final[..n] == StripAll(original[..n]);
  }

  lemma FinalKeeps(original: seq<Message>, brief: Message, tools: Tools, lowWater: int, final: seq<Message>)
    requires IsFinal(original, brief, tools, lowWater, final) && HasRole(brief, User) && Strip(brief) == brief
    ensures Keeps(original, final)
  {
    var n: nat, start: nat :| CutsAt(original, tools, n, brief, start, lowWater) && final == Rebuilt(original, n, brief, start);
    assert ResultsAnswerCalls(original[start..]);
    RebuiltKeeps(original, n, brief, start);
  }

  // ----- providers

  datatype Reply =
    | Answer(text: string)
    | Overflow(limit: int)
    | Unavailable(retryAfter: int, inTime: bool, waited: bool) // `waited`: not interrupted while waiting
    | Fatal

  /** A provider that may answer anything at any call; it remembers what it was sent. */
  class Provider {
    const reply: (nat, seq<Message>) -> Reply
    var calls: nat
    ghost var sent: seq<seq<Message>>

    constructor (reply: (nat, seq<Message>) -> Reply)
      ensures this.reply == reply && calls == 0 && sent == []
    {
      this.reply, calls, sent := reply, 0, [];
    }

    method Generate(input: seq<Message>) returns (r: Reply)
      modifies this
      ensures r == reply(old(calls), input) && calls == old(calls) + 1 && sent == old(sent) + [input]
    {
      r := reply(calls, input);
      calls := calls + 1;
      sent := sent + [input];
    }
  }

  /** Retry only when told to, and only while the wait gets shorter. */
  class DirectedRetry {
    var lastDelay: nat

    constructor ()
      ensures lastDelay == 0
    {
      lastDelay := 0;
    }

    method Next(r: Reply) returns (delay: nat, ok: bool)
      modifies this
      ensures ok <==> r.Unavailable? && r.retryAfter > 0 && r.inTime && (old(lastDelay) > 0 ==> r.retryAfter < old(lastDelay))
      ensures ok ==> delay == r.retryAfter == lastDelay
      ensures !ok ==> lastDelay == old(lastDelay)
    {
      if !r.Unavailable? || r.retryAfter <= 0 {
        return 0, false;
      }
      if !r.inTime {
        return 0, false;
      }
      if lastDelay > 0 && r.retryAfter >= lastDelay {
        return 0, false;
      }
      lastDelay := r.retryAfter;
      return lastDelay, true;
    }
  }

  predicate Directed(r: Reply) {
    r.Unavailable? && r.retryAfter > 0 && r.inTime
  }

  /** After answer `i` of a request first sent as call `first`, the same request is sent again. */
  predicate SentAgain(reply: (nat, seq<Message>) -> Reply, input: seq<Message>, first: nat, i: nat)
    requires first <= i
  {
    var r := reply(i, input);
    && Directed(r) && r.waited
    && (i > first ==> Directed(reply(i - 1, input)) && r.retryAfter < reply(i - 1, input).retryAfter)
  }

  function Repeated(request: seq<Message>, n: nat): seq<seq<Message>> {
    seq(n, i requires 0 <= i < n => request)
  }

  /** A request first sent as call `first` was repeated as long as it should be, and last sent as call `last`. */
  ghost predicate AskedFrom(reply: (nat, seq<Message>) -> Reply, input: seq<Message>, first: nat, last: nat) {
    && first <= last && (forall i :: first <= i < last ==> SentAgain(reply, input, first, i)) && !SentAgain(reply, input, first, last)
  }

  /** Ends for every provider: each wait is shorter than the one before. */
  method GenerateSummary(chat: Provider, input: seq<Message>) returns (r: Reply)
    modifies chat
    ensures chat.calls > old(chat.calls) && chat.sent == old(chat.sent) + Repeated(input, chat.calls - old(chat.calls))
    ensures r == chat.reply(chat.calls - 1, input)
    ensures AskedFrom(chat.reply, input, old(chat.calls), chat.calls - 1)
  {
    var retry := new DirectedRetry();
    r := chat.Generate(input);
    var delay, again := retry.Next(r);
    while again && r.waited
      invariant fresh(retry) && chat.calls > old(chat.calls) && r == chat.reply(chat.calls - 1, input)
      invariant again ==> Directed(r) && delay == retry.lastDelay == r.retryAfter
      invariant again && r.waited <==> SentAgain(chat.reply, input, old(chat.calls), chat.calls - 1)
      invariant chat.sent == old(chat.sent) + Repeated(input, chat.calls - old(chat.calls))
      invariant forall i :: old(chat.calls) <= i < chat.calls - 1 ==> SentAgain(chat.reply, input, old(chat.calls), i)
      decreases if again then delay else 0, again
    {
      r := chat.Generate(input);
      delay, again := retry.Next(r);
    }
  }

  // ----- recovery

  /** The texts that the program itself puts into requests. */
  datatype Wording = Wording(instruction: string, fallback: string, brief: (string, string) -> string)

  /** A request to the summarizer: a head of the list that may be cut off there, and the instruction. */
  ghost predicate IsSummaryRequest(original: seq<Message>, instruction: Message, request: seq<Message>) {
    exists cut {:trigger CleanCut(original, cut)} :: 0 <= cut <= |original| && CleanCut(original, cut) && request == StripAll(original[..cut]) + [instruction]
  }

  /** Only summary requests of this list were added, each a repetition of the one before or shorter. */
  ghost predicate AsksOnly(before: seq<seq<Message>>, after: seq<seq<Message>>, original: seq<Message>, instruction: Message) {
    && |before| <= |after| && after[..|before|] == before
    && (forall i {:trigger IsSummaryRequest(original, instruction, after[i])} :: |before| <= i < |after| ==> IsSummaryRequest(original, instruction, after[i]))
    && forall i {:trigger Descends(after, i)} :: |before| < i < |after| ==> Descends(after, i)
  }

  predicate Descends(requests: seq<seq<Message>>, i: nat)
    requires 0 < i < |requests|
  {
    requests[i] == requests[i - 1] || |requests[i]| < |requests[i - 1]|
  }

  /** The last request that was added has this length. */
  ghost predicate AsksDownTo(before: seq<seq<Message>>, after: seq<seq<Message>>, original: seq<Message>, instruction: Message, length: nat) {
    AsksOnly(before, after, original, instruction) && (|after| > |before| ==> |after[|after| - 1]| == length)
  }

  /** One summary more, shorter than the ones before. */
  lemma AsksMore(before: seq<seq<Message>>, middle: seq<seq<Message>>, after: seq<seq<Message>>, original: seq<Message>, instruction: Message,
                 length: nat, request: seq<Message>)
    requires AsksDownTo(before, middle, original, instruction, length) && IsSummaryRequest(original, instruction, request)
    requires |middle| < |after| && after[..|middle|] == middle && forall i :: |middle| <= i < |after| ==> after[i] == request
    requires |middle| > |before| ==> |request| < length
    ensures AsksDownTo(before, after, original, instruction, |request|)
  {
    assert forall i :: 0 <= i < |middle| ==> after[i] == middle[i];
    assert after[..|before|] == middle[..|before|];
    forall i | |before| <= i < |after|
      ensures IsSummaryRequest(original, instruction, after[i])
    {
      if i < |middle| {
        assert IsSummaryRequest(original, instruction, middle[i]);
      }
    }
    forall i | |before| < i < |after|
      ensures Descends(after, i)
    {
      if i < |middle| {
        assert Descends(middle, i);
      }
    }
  }

  lemma AsksRepeated(before: seq<seq<Message>>, middle: seq<seq<Message>>, original: seq<Message>, instruction: Message, length: nat,
                     request: seq<Message>, n: nat)
    requires n > 0 && AsksDownTo(before, middle, original, instruction, length) && IsSummaryRequest(original, instruction, request)
    requires |middle| > |before| ==> |request| < length
    ensures AsksDownTo(before, middle + Repeated(request, n), original, instruction, |request|)
  {
    AsksMore(before, middle, middle + Repeated(request, n), original, instruction, length, request);
  }

  lemma SelectedIsRequest(original: seq<Message>, tools: Tools, instruction: Message, highWater: int, head: seq<Message>)
    requires IsSelected(original, tools, instruction, highWater, head) && head != []
    ensures IsSummaryRequest(original, instruction, head + [instruction])
    ensures |head| < |original| && head == StripAll(original[..|head|])
  {
    assert CleanCut(original, |head|);
  }

  lemma StripSplits(a: seq<Message>, b: seq<Message>)
    ensures StripAll(a + b) == StripAll(a) + StripAll(b)
  {
  }

  /** Of two heads of one list, the one with the smaller estimate is the shorter one. */
  lemma SmallerIsShorter(original: seq<Message>, tools: Tools, a: nat, b: nat)
    requires a <= |original| && b <= |original|
    requires EstimateFresh(StripAll(original[..a]), tools, original) < EstimateFresh(StripAll(original[..b]), tools, original)
    ensures a < b
  {
    if b <= a {
      var front, more := StripAll(original[..b]), StripAll(original[b..a]);
      StripSplits(original[..b], original[b..a]);
      assert original[..b] + original[b..a] == original[..a];
      EstimateAllSplits(front, more, Calibrate(original, |original|));
    }
  }

  /** One round of summary requests: the head that was asked about, the last call about it, and the bound known at that time. */
  datatype Round = Round(head: seq<Message>, call: nat, observed: int)

  /** What a recovery starts from and leaves: the learned bound, the tools counted last, the recoveries and the summary calls so far. */
  datatype Condition = Condition(observed: int, digest: string, recoveries: nat, calls: nat)

  /** One recovery: the bound once the overflow has been learned, the rounds, what they came to, and the list it ended with. */
  datatype Recovery = Recovery(before: Condition, observed: int, asked: seq<Round>, brief: Option<string>, failed: bool,
                               low: int, rebuilt: seq<Message>, after: Condition)

  /** Which heads may be asked about when a bound is known. */
  type Heads = (int, seq<Message>) -> bool

  /** Requests carry no usage, so a rejected one counts its bytes. */
  function BoundOf(limit: int, request: seq<Message>, tools: Tools): int {
    if limit > 0 then limit else TotalBytes(request) + tools.bytes - 1
  }

  lemma StrippedCount(messages: seq<Message>, tools: Tools, digest: string, total: int)
    requires Stripped(messages) && IsCount(total, messages, tools, digest)
    ensures total == TotalBytes(messages) + tools.bytes
  {
    StrippedCalibrates(messages, |messages|);
    ByteEstimates(messages);
    forall k | 0 <= k < |messages|
      ensures !HasUsage(messages[k])
    {
      assert Strip(messages[k]) == messages[k];
    }
  }

  class Compactor {
    const budget: Budget
    const chat: Provider
    const wording: Wording
    const userSize: string -> nat
    const archive: (nat, seq<Message>) -> Option<string> // where the transcript was stored, unless that failed
    const record: nat -> bool // whether the compaction could be recorded
    var recoveries: nat

    constructor (budget: Budget, chat: Provider, wording: Wording, userSize: string -> nat,
                 archive: (nat, seq<Message>) -> Option<string>, record: nat -> bool)
      ensures this.budget == budget && this.chat == chat && this.wording == wording && this.userSize == userSize && recoveries == 0
      ensures this.archive == archive && this.record == record
    {
      this.budget, this.chat, this.wording, this.userSize := budget, chat, wording, userSize;
      this.archive, this.record, recoveries := archive, record, 0;
    }

    function UserMessage(text: string): (m: Message)
      ensures HasRole(m, User) && Strip(m) == m && m.text == text && m.size == userSize(text)
    {
      Message(User, text, userSize(text), None, [], "")
    }

    function Instruction(): (m: Message)
      ensures HasRole(m, User) && Strip(m) == m && m.text == wording.instruction
    {
      UserMessage(wording.instruction)
    }

    /** Tokens that a summary request may take in an envelope. */
    function RoomOf(original: seq<Message>, capacity: int, high: int): int {
      var ceiling := Positive(capacity - EstimateFresh([Instruction()], Tools("", 0), original));
      if high < ceiling then high else ceiling
    }

    /** What fits below the high mark and, together with the instruction, into the capacity. */
    lemma RoomIs(original: seq<Message>, capacity: int, high: int, tokens: int)
      requires tokens > 0
      ensures tokens <= RoomOf(original, capacity, high) <==>
              tokens <= high && tokens + EstimateFresh([Instruction()], Tools("", 0), original) <= capacity
    {
    }

    /** The longest head that the envelope allows the summarizer, when this bound is known. */
    ghost predicate HeadAt(original: seq<Message>, tools: Tools, observed: int, head: seq<Message>) {
      exists capacity, high, low {:trigger IsEnvelope(budget.limits, observed, original, capacity, high, low)} ::
        && IsEnvelope(budget.limits, observed, original, capacity, high, low)
        && IsSelected(original, tools, Instruction(), RoomOf(original, capacity, high), head)
    }

    /** There is one. */
    lemma HeadIsUnique(original: seq<Message>, tools: Tools, observed: int, a: seq<Message>, b: seq<Message>)
      requires HeadAt(original, tools, observed, a) && HeadAt(original, tools, observed, b)
      ensures a == b
    {
      var c, h, l :| IsEnvelope(budget.limits, observed, original, c, h, l) && IsSelected(original, tools, Instruction(), RoomOf(original, c, h), a);
      var d, i, m :| IsEnvelope(budget.limits, observed, original, d, i, m) && IsSelected(original, tools, Instruction(), RoomOf(original, d, i), b);
      EnvelopeIsUnique(budget.limits, observed, original, c, h, l, d, i, m);
      SelectedIsUnique(original, tools, Instruction(), RoomOf(original, c, h), a, b);
    }

    /** For each bound the heads of this list that the envelope allows. */
    ghost function Allowed(original: seq<Message>, tools: Tools): Heads {
      (observed: int, head: seq<Message>) => HeadAt(original, tools, observed, head)
    }

    ghost predicate Permits(original: seq<Message>, tools: Tools, allowed: Heads) {
      forall observed, head {:trigger HeadAt(original, tools, observed, head)} :: HeadAt(original, tools, observed, head) <==> allowed(observed, head)
    }

    lemma AllowedPermits(original: seq<Message>, tools: Tools)
      ensures Permits(original, tools, Allowed(original, tools))
    {
    }

    /** No head is left to ask about that is smaller than the one before. */
    ghost predicate NothingSmaller(original: seq<Message>, tools: Tools, allowed: Heads, observed: int, previous: nat) {
      exists head {:trigger allowed(observed, head)} :: allowed(observed, head) && (head == [] || EstimateFresh(head, tools, original) >= previous)
    }

    /** The longest head that the current envelope allows the summarizer. */
    method NextHead(original: seq<Message>, tools: Tools) returns (head: seq<Message>)
      requires budget.Valid()
      modifies budget
      ensures budget.Valid() && budget.learned == old(budget.learned)
      ensures budget.observedUpperBound == old(budget.observedUpperBound) && budget.lastToolDigest == tools.digest
      ensures HeadAt(original, tools, budget.observedUpperBound, head)
    {
      var plan, _, _, _ := budget.MakePlan(original, tools);
      head := SelectEmergencySummaryHead(original, tools, Instruction(), RoomOf(original, plan.capacity, plan.high));
    }

    lemma HeadIsRequest(original: seq<Message>, tools: Tools, observed: int, head: seq<Message>)
      requires HeadAt(original, tools, observed, head) && head != []
      ensures IsSummaryRequest(original, Instruction(), head + [Instruction()])
      ensures |head| < |original| && head == StripAll(original[..|head|])
    {
      var capacity, high, low :| IsEnvelope(budget.limits, observed, original, capacity, high, low)
                                 && IsSelected(original, tools, Instruction(), RoomOf(original, capacity, high), head);
      SelectedIsRequest(original, tools, Instruction(), RoomOf(original, capacity, high), head);
    }

    // ----- rounds of summary requests

    function Request(head: seq<Message>): seq<Message> {
      head + [Instruction()]
    }

    /** What the summarizer said at the end of a round. */
    function Answered(round: Round): Reply {
      chat.reply(round.call, Request(round.head))
    }

    /** The bound known after a round. */
    function Learns(tools: Tools, round: Round): int {
      match Answered(round)
      case Overflow(limit) => Tightened(round.observed, BoundOf(limit, Request(round.head), tools))
      case _ => round.observed
    }

    function ObservedAfter(tools: Tools, observed: int, asked: seq<Round>): int {
      if asked == [] then observed else Learns(tools, asked[|asked| - 1])
    }

    function CallsAfter(calls: nat, asked: seq<Round>): nat {
      if asked == [] then calls else asked[|asked| - 1].call + 1
    }

    /** The estimate that the next head must stay below. */
    function Ceiling(original: seq<Message>, tools: Tools, asked: seq<Round>): nat {
      if asked == [] then EstimateFresh(original, tools, original) else EstimateFresh(asked[|asked| - 1].head, tools, original)
    }

    /** Round `i` asks about the longest head that the bound known then allows, which is smaller than the one before. */
    ghost predicate RoundAt(original: seq<Message>, tools: Tools, allowed: Heads, observed: int, calls: nat, asked: seq<Round>, i: nat)
      requires i < |asked|
    {
      var before, round := asked[..i], asked[i];
      && (i > 0 ==> Answered(asked[i - 1]).Overflow?) && round.observed == ObservedAfter(tools, observed, before)
      && round.head != [] && allowed(round.observed, round.head)
      && EstimateFresh(round.head, tools, original) < Ceiling(original, tools, before)
      && AskedFrom(chat.reply, Request(round.head), CallsAfter(calls, before), round.call)
    }

    ghost predicate Rounds(original: seq<Message>, tools: Tools, allowed: Heads, observed: int, calls: nat, asked: seq<Round>) {
      forall i {:trigger RoundAt(original, tools, allowed, observed, calls, asked, i)} :: 0 <= i < |asked| ==> RoundAt(original, tools, allowed, observed, calls, asked, i)
    }

    lemma OneRoundMore(original: seq<Message>, tools: Tools, allowed: Heads, observed: int, calls: nat, asked: seq<Round>, round: Round)
      requires Rounds(original, tools, allowed, observed, calls, asked)
      requires RoundAt(original, tools, allowed, observed, calls, asked + [round], |asked|)
      ensures Rounds(original, tools, allowed, observed, calls, asked + [round])
    {
      var more := asked + [round];
      forall i | 0 <= i < |more|
        ensures RoundAt(original, tools, allowed, observed, calls, more, i)
      {
        if i < |asked| {
          assert RoundAt(original, tools, allowed, observed, calls, asked, i);
          assert more[..i] == asked[..i];
        }
      }
    }

    /** The rounds are over: with an answer, with a failure, or because nothing smaller is left to ask about. */
    ghost predicate Over(original: seq<Message>, tools: Tools, allowed: Heads, observed: int, asked: seq<Round>, brief: Option<string>, failed: bool) {
      if asked == [] || Answered(asked[|asked| - 1]).Overflow? then
        brief == None && !failed && NothingSmaller(original, tools, allowed, ObservedAfter(tools, observed, asked), Ceiling(original, tools, asked))
      else if Answered(asked[|asked| - 1]).Answer? then
        var text := TrimSpace(Answered(asked[|asked| - 1]).text);
        !failed && brief == if text == "" then None else Some(text)
      else brief == None && failed
    }

    /** Everything that was sent in these rounds. */
    function SentIn(calls: nat, asked: seq<Round>): seq<seq<Message>> {
      if asked == [] then []
      else
        var front, last := asked[..|asked| - 1], asked[|asked| - 1];
        SentIn(calls, front)
        + if CallsAfter(calls, front) <= last.call then Repeated(Request(last.head), last.call + 1 - CallsAfter(calls, front)) else []
    }

    lemma RoundsFront(original: seq<Message>, tools: Tools, allowed: Heads, observed: int, calls: nat, asked: seq<Round>)
      requires Rounds(original, tools, allowed, observed, calls, asked) && asked != []
      ensures Rounds(original, tools, allowed, observed, calls, asked[..|asked| - 1])
    {
      var front := asked[..|asked| - 1];
      forall i | 0 <= i < |front|
        ensures RoundAt(original, tools, allowed, observed, calls, front, i)
      {
        assert RoundAt(original, tools, allowed, observed, calls, asked, i);
        assert front[..i] == asked[..i];
      }
    }

    /** Each round asks about a shorter head than the one before. */
    lemma RoundsShrink(original: seq<Message>, tools: Tools, allowed: Heads, observed: int, calls: nat, asked: seq<Round>)
      requires Permits(original, tools, allowed) && Rounds(original, tools, allowed, observed, calls, asked) && |asked| > 1
      ensures |asked[|asked| - 1].head| < |asked[|asked| - 2].head|
    {
      var n := |asked| - 1;
      assert RoundAt(original, tools, allowed, observed, calls, asked, n) && RoundAt(original, tools, allowed, observed, calls, asked, n - 1);
      AllowedIsRequest(original, tools, allowed, asked[n].observed, asked[n].head);
      AllowedIsRequest(original, tools, allowed, asked[n - 1].observed, asked[n - 1].head);
      SmallerIsShorter(original, tools, |asked[n].head|, |asked[n - 1].head|);
    }

    /** Only summary requests of this list are sent, each a repetition of the one before or shorter. */
    lemma {:induction false} RoundsAskOnly(original: seq<Message>, tools: Tools, allowed: Heads, observed: int, calls: nat, asked: seq<Round>, before: seq<seq<Message>>)
      requires Permits(original, tools, allowed) && Rounds(original, tools, allowed, observed, calls, asked)
      ensures AsksDownTo(before, before + SentIn(calls, asked), original, Instruction(), if asked == [] then 0 else |asked[|asked| - 1].head| + 1)
      ensures asked != [] ==> SentIn(calls, asked) != []
      decreases |asked|
    {
      if asked != [] {
        var n := |asked| - 1;
        var front := asked[..n];
        RoundsFront(original, tools, allowed, observed, calls, asked);
        RoundsAskOnly(original, tools, allowed, observed, calls, front, before);
        LastRoundAsks(original, tools, allowed, observed, calls, asked, before);
      }
    }

    lemma LastRoundAsks(original: seq<Message>, tools: Tools, allowed: Heads, observed: int, calls: nat, asked: seq<Round>, before: seq<seq<Message>>)
      requires Permits(original, tools, allowed) && Rounds(original, tools, allowed, observed, calls, asked) && asked != []
      requires var n := |asked| - 1;
               AsksDownTo(before, before + SentIn(calls, asked[..n]), original, Instruction(), if n == 0 then 0 else |asked[n - 1].head| + 1)
               && (n > 0 ==> SentIn(calls, asked[..n]) != [])
      ensures AsksDownTo(before, before + SentIn(calls, asked), original, Instruction(), |asked[|asked| - 1].head| + 1)
      ensures SentIn(calls, asked) != []
    {
      var n := |asked| - 1;
      var front, last := asked[..n], asked[n];
      assert RoundAt(original, tools, allowed, observed, calls, asked, n);
      AllowedIsRequest(original, tools, allowed, last.observed, last.head);
      if n > 0 {
        RoundsShrink(original, tools, allowed, observed, calls, asked);
      }
      var sent, times := SentIn(calls, front), last.call + 1 - CallsAfter(calls, front);
      AsksRepeated(before, before + sent, original, Instruction(), if n == 0 then 0 else |asked[n - 1].head| + 1, Request(last.head), times);
      SentGrows(calls, asked, before, times);
    }

    lemma SentGrows(calls: nat, asked: seq<Round>, before: seq<seq<Message>>, times: nat)
      requires asked != [] && times > 0 && times == asked[|asked| - 1].call + 1 - CallsAfter(calls, asked[..|asked| - 1])
      ensures before + SentIn(calls, asked) == before + SentIn(calls, asked[..|asked| - 1]) + Repeated(Request(asked[|asked| - 1].head), times)
      ensures SentIn(calls, asked) != []
    {
    }

    lemma AllowedIsRequest(original: seq<Message>, tools: Tools, allowed: Heads, observed: int, head: seq<Message>)
      requires Permits(original, tools, allowed) && allowed(observed, head) && head != []
      ensures IsSummaryRequest(original, Instruction(), head + [Instruction()])
      ensures |head| < |original| && head == StripAll(original[..|head|]) && Stripped(head + [Instruction()])
    {
      assert HeadAt(original, tools, observed, head);
      HeadIsRequest(original, tools, observed, head);
      forall k | 0 <= k < |head|
        ensures Strip(head[k]) == head[k]
      {
        assert head[k] == Strip(original[k]);
      }
    }

    /** The next head to ask about, smaller than the one before; [] if there is none. */
    method SmallerHead(original: seq<Message>, tools: Tools, previous: nat, ghost allowed: Heads) returns (head: seq<Message>)
      requires budget.Valid() && Permits(original, tools, allowed)
      modifies budget
      ensures budget.Valid() && budget.learned == old(budget.learned)
      ensures budget.observedUpperBound == old(budget.observedUpperBound) && budget.lastToolDigest == tools.digest
      ensures head != [] ==> allowed(budget.observedUpperBound, head) && EstimateFresh(head, tools, original) < previous
      ensures head == [] ==> NothingSmaller(original, tools, allowed, budget.observedUpperBound, previous)
    {
      head := NextHead(original, tools);
      if head != [] && EstimateFresh(head, tools, original) >= previous {
        return [];
      }
    }

    /** One round more, if there is a smaller head to ask about. */
    method AskAgain(original: seq<Message>, tools: Tools, previous: nat, ghost allowed: Heads) returns (head: seq<Message>, r: Reply)
      requires budget.Valid() && Permits(original, tools, allowed)
      modifies budget, chat
      ensures budget.Valid() && budget.learned == old(budget.learned)
      ensures budget.observedUpperBound == old(budget.observedUpperBound) && budget.lastToolDigest == tools.digest
      ensures head == [] ==> NothingSmaller(original, tools, allowed, budget.observedUpperBound, previous)
      ensures head == [] ==> chat.sent == old(chat.sent) && chat.calls == old(chat.calls)
      ensures head != [] ==> allowed(budget.observedUpperBound, head) && EstimateFresh(head, tools, original) < previous
      ensures head != [] ==> chat.calls > old(chat.calls) && r == chat.reply(chat.calls - 1, Request(head))
      ensures head != [] ==> AskedFrom(chat.reply, Request(head), old(chat.calls), chat.calls - 1)
      ensures head != [] ==> chat.sent == old(chat.sent) + Repeated(Request(head), chat.calls - old(chat.calls))
    {
      r := Fatal;
      head := SmallerHead(original, tools, previous, allowed);
      if head != [] {
        r := GenerateSummary(chat, Request(head));
      }
    }

    /** These rounds have been asked since, and all of them were too long. */
    ghost predicate Going(original: seq<Message>, tools: Tools, allowed: Heads, observed: int, calls: nat, sent: seq<seq<Message>>, asked: seq<Round>)
      reads budget, chat
    {
      && Asked(original, tools, allowed, observed, calls, sent, asked) && (asked != [] ==> Answered(asked[|asked| - 1]).Overflow?)
      && budget.observedUpperBound == ObservedAfter(tools, observed, asked)
    }

    ghost predicate Asked(original: seq<Message>, tools: Tools, allowed: Heads, observed: int, calls: nat, sent: seq<seq<Message>>, asked: seq<Round>)
      reads chat
    {
      && Rounds(original, tools, allowed, observed, calls, asked)
      && chat.calls == CallsAfter(calls, asked) && chat.sent == sent + SentIn(calls, asked)
    }

    /** A round that has just been asked, after others that were too long. */
    lemma AskedOnce(original: seq<Message>, tools: Tools, allowed: Heads, observed: int, calls: nat, sent: seq<seq<Message>>, asked: seq<Round>, round: Round,
                    middle: seq<seq<Message>>)
      requires Rounds(original, tools, allowed, observed, calls, asked) && (asked != [] ==> Answered(asked[|asked| - 1]).Overflow?)
      requires middle == sent + SentIn(calls, asked) && round.observed == ObservedAfter(tools, observed, asked)
      requires round.head != [] && allowed(round.observed, round.head)
      requires EstimateFresh(round.head, tools, original) < Ceiling(original, tools, asked)
      requires AskedFrom(chat.reply, Request(round.head), CallsAfter(calls, asked), round.call) && chat.calls == round.call + 1
      requires chat.sent == middle + Repeated(Request(round.head), chat.calls - CallsAfter(calls, asked))
      ensures Asked(original, tools, allowed, observed, calls, sent, asked + [round])
    {
      var more := asked + [round];
      assert more[..|asked|] == asked;
      OneRoundMore(original, tools, allowed, observed, calls, asked, round);
    }

    /** A request that was too long teaches a bound. */
    lemma LearnsIs(tools: Tools, round: Round, limit: int, counted: int, digest: string)
      requires Stripped(Request(round.head)) && Answered(round) == Overflow(limit)
      requires limit <= 0 ==> IsCount(counted, Request(round.head), tools, digest)
      ensures Learns(tools, round) == Tightened(round.observed, if limit > 0 then limit else counted - 1)
    {
      if limit <= 0 {
        StrippedCount(Request(round.head), tools, digest, counted);
      }
    }

    /**
     Ask for a summary of ever shorter heads, until one is accepted or nothing shorter is left.
     The brief is what the summarizer wrote last; any answer but a text or an overflow is a failure.
     */
    method Summarize(original: seq<Message>, tools: Tools, ghost allowed: Heads) returns (brief: Option<string>, failed: bool, ghost asked: seq<Round>)
      requires budget.Valid() && Permits(original, tools, allowed)
      modifies budget, chat
      ensures budget.Valid() && old(budget.learned) <= budget.learned && budget.lastToolDigest == tools.digest
      ensures Asked(original, tools, allowed, old(budget.observedUpperBound), old(chat.calls), old(chat.sent), asked)
      ensures Over(original, tools, allowed, old(budget.observedUpperBound), asked, brief, failed)
      ensures budget.observedUpperBound == ObservedAfter(tools, old(budget.observedUpperBound), asked)
    {
      brief, failed, asked := None, false, [];
      var previous := EstimateFresh(original, tools, original);
      while true
        invariant budget.Valid() && old(budget.learned) <= budget.learned && brief.None? && !failed
        invariant Going(original, tools, allowed, old(budget.observedUpperBound), old(chat.calls), old(chat.sent), asked)
        invariant previous == Ceiling(original, tools, asked)
        decreases previous
      {
        ghost var middle := chat.sent;
        var head, r := AskAgain(original, tools, previous, allowed);
        if head == [] {
          return;
        }
        ghost var round := Round(head, chat.calls - 1, budget.observedUpperBound);
        AskedOnce(original, tools, allowed, old(budget.observedUpperBound), old(chat.calls), old(chat.sent), asked, round, middle);
        asked := asked + [round];
        previous := EstimateFresh(head, tools, original);
        match r {
          case Answer(text) =>
            if TrimSpace(text) != "" {
              brief := Some(TrimSpace(text));
            }
            return;
          case Overflow(limit) =>
            ghost var counted := budget.ObserveOverflow(head + [Instruction()], tools, limit);
            AllowedIsRequest(original, tools, allowed, round.observed, head);
            LearnsIs(tools, round, limit, counted, tools.digest);
          case _ =>
            failed := true;
            return;
        }
      }
    }

    /** Put the brief between the system messages and the tail that fits. */
    method Finalize(original: seq<Message>, text: string, tools: Tools) returns (final: seq<Message>)
      requires budget.Valid()
      modifies budget
      ensures budget.Valid() && budget.learned == old(budget.learned) && Keeps(original, final)
      ensures budget.observedUpperBound == old(budget.observedUpperBound) && budget.lastToolDigest == tools.digest
      ensures IsLow(original, budget.observedUpperBound, budget.latestPlan.low)
      ensures IsFinal(original, UserMessage(text), tools, budget.latestPlan.low, final)
    {
      var plan, _, _, _ := budget.MakePlan(original, tools);
      var brief := UserMessage(text);
      final := FinalizeWithVerbatimTail(original, brief, tools, plan.low);
      FinalKeeps(original, brief, tools, plan.low, final);
    }

    // ----- one recovery

    ghost function Now(): Condition
      reads this, budget, chat
    {
      Condition(budget.observedUpperBound, budget.lastToolDigest, recoveries, chat.calls)
    }

    /** The bound known once the overflow itself has been learned from, if it is. */
    ghost predicate LearnsFirst(original: seq<Message>, tools: Tools, limit: int, learn: bool, rec: Recovery) {
      if !learn then rec.observed == rec.before.observed
      else if limit > 0 then rec.observed == Tightened(rec.before.observed, limit)
      else exists counted {:trigger IsCount(counted, original, tools, rec.before.digest)} ::
        IsCount(counted, original, tools, rec.before.digest) && rec.observed == Tightened(rec.before.observed, counted - 1)
    }

    /** The low-water mark that this bound leaves for the list. */
    ghost predicate IsLow(original: seq<Message>, observed: int, low: int) {
      exists capacity, high {:trigger IsEnvelope(budget.limits, observed, original, capacity, high, low)} ::
        IsEnvelope(budget.limits, observed, original, capacity, high, low)
    }

    /** Where the transcript of this recovery was stored. */
    function Archived(original: seq<Message>, rec: Recovery): Option<string> {
      archive(rec.before.recoveries, original)
    }

    /** The transcript is stored at `reference`: summaries were asked for, and the list was rebuilt around what they came to. */
    ghost predicate RebuildsAs(original: seq<Message>, tools: Tools, allowed: Heads, reference: string, rec: Recovery) {
      && Rounds(original, tools, allowed, rec.observed, rec.before.calls, rec.asked)
      && Over(original, tools, allowed, rec.observed, rec.asked, rec.brief, rec.failed)
      && rec.after.observed == ObservedAfter(tools, rec.observed, rec.asked) && rec.after.calls == CallsAfter(rec.before.calls, rec.asked)
      && rec.after.digest == tools.digest
      && (!rec.failed ==>
            && IsLow(original, rec.after.observed, rec.low)
            && IsFinal(original, UserMessage(wording.brief(if rec.brief.Some? then rec.brief.value else wording.fallback, reference)),
                       tools, rec.low, rec.rebuilt))
    }

    /** What a recovery of this list did. */
    ghost predicate Describes(original: seq<Message>, tools: Tools, limit: int, learn: bool, rec: Recovery) {
      && rec.after.recoveries == rec.before.recoveries + 1 && LearnsFirst(original, tools, limit, learn, rec)
      && match Archived(original, rec)
         case None => rec.asked == [] && rec.after.observed == rec.observed && rec.after.calls == rec.before.calls
         case Some(reference) => RebuildsAs(original, tools, Allowed(original, tools), reference, rec)
    }

    /** Nothing failed: neither the archive, nor the summarizer, nor the record. */
    predicate Works(original: seq<Message>, rec: Recovery) {
      Archived(original, rec).Some? && !rec.failed && record(rec.before.recoveries)
    }

    /** A shorter list: system messages, a brief, and what fits of the tail. */
    method RecoverOverflow(original: seq<Message>, tools: Tools, limit: int, learn: bool) returns (r: Result<seq<Message>>, ghost rec: Recovery)
      requires budget.Valid()
      modifies this, budget, chat
      ensures budget.Valid() && old(budget.learned) <= budget.learned && (learn && limit > 0 ==> limit in budget.learned)
      ensures rec.before == old(Now()) && rec.after == Now() && Describes(original, tools, limit, learn, rec)
      ensures chat.sent == old(chat.sent) + SentIn(rec.before.calls, rec.asked) && AsksOnly(old(chat.sent), chat.sent, original, Instruction())
      ensures r.Success? <==> Works(original, rec)
      ensures r.Success? ==> r.value == rec.rebuilt && Keeps(original, r.value)
    {
      rec := Recovery(Now(), 0, [], None, false, 0, [], Now());
      if learn {
        ghost var counted := budget.ObserveOverflow(original, tools, limit);
      }
      ghost var sent := chat.sent;
      rec := rec.(observed := budget.observedUpperBound);
      var round := recoveries;
      recoveries := recoveries + 1;
      var reference := archive(round, original);
      if reference.None? {
        rec := rec.(after := Now());
        return Failure("the transcript could not be archived"), rec;
      }
      ghost var allowed := Allowed(original, tools);
      AllowedPermits(original, tools);
      var list, done := Rebuild(original, tools, reference.value, round, allowed, rec);
      RoundsAskOnly(original, tools, allowed, done.observed, done.before.calls, done.asked, sent);
      r, rec := list, done;
    }

    /** The part of a recovery after the transcript has been archived. */
    method Rebuild(original: seq<Message>, tools: Tools, reference: string, round: nat, ghost allowed: Heads, ghost start: Recovery)
      returns (r: Result<seq<Message>>, ghost rec: Recovery)
      requires budget.Valid() && Permits(original, tools, allowed)
      requires start.observed == budget.observedUpperBound && start.before.calls == chat.calls
      modifies budget, chat
      ensures budget.Valid() && old(budget.learned) <= budget.learned
      ensures rec.before == start.before && rec.observed == start.observed && rec.after == Now()
      ensures RebuildsAs(original, tools, allowed, reference, rec)
      ensures chat.sent == old(chat.sent) + SentIn(rec.before.calls, rec.asked)
      ensures r.Success? <==> !rec.failed && record(round)
      ensures r.Success? ==> r.value == rec.rebuilt && Keeps(original, r.value)
    {
      var summary, broken, asked := Summarize(original, tools, allowed);
      rec := start.(asked := asked, brief := summary, failed := broken, after := Now());
      if broken {
        return Failure("context overflow summary failed"), rec;
      }
      var list, final, low := Conclude(original, FinalText(summary, reference), round, tools);
      r, rec := list, rec.(low := low, rebuilt := final, after := Now());
    }

    /** The shorter list, if it could be recorded; the latest plan is then about it. */
    method Conclude(original: seq<Message>, text: string, round: nat, tools: Tools)
      returns (r: Result<seq<Message>>, ghost final: seq<Message>, ghost low: int)
      requires budget.Valid() && budget.lastToolDigest == tools.digest
      modifies budget
      ensures budget.Valid() && budget.learned == old(budget.learned)
      ensures budget.observedUpperBound == old(budget.observedUpperBound) && budget.lastToolDigest == tools.digest
      ensures IsLow(original, budget.observedUpperBound, low) && IsFinal(original, UserMessage(text), tools, low, final) && Keeps(original, final)
      ensures r == if record(round) then Success(final) else Failure("the compaction could not be recorded")
    {
      var list := Finalize(original, text, tools);
      final, low := list, budget.latestPlan.low;
      if !record(round) {
        return Failure("the compaction could not be recorded"), final, low;
      }
      var _, _, _, _ := budget.MakePlan(list, tools);
      r := Success(list);
    }

    /** The text of the brief: the summary, or the fixed one, with the reference to the transcript. */
    function FinalText(summary: Option<string>, reference: string): string {
      wording.brief(if summary.Some? then summary.value else wording.fallback, reference)
    }
  }

  // ----- the request that overflowed

  /** The list sent after `previous`: what it keeps, and that it is smaller. */
  ghost predicate Follows(previous: seq<Message>, next: seq<Message>) {
    Keeps(previous, next) && (Stripped(previous) ==> TotalBytes(next) < TotalBytes(previous))
  }

  ghost predicate Shrinking(requests: seq<seq<Message>>) {
    forall i {:trigger FollowsAt(requests, i)} :: 0 <= i < |requests| - 1 ==> FollowsAt(requests, i)
  }

  ghost predicate FollowsAt(requests: seq<seq<Message>>, i: nat)
    requires i + 1 < |requests|
  {
    Follows(requests[i], requests[i + 1])
  }

  lemma ShrinkingMore(requests: seq<seq<Message>>, next: seq<Message>)
    requires Shrinking(requests) && (requests != [] ==> Follows(requests[|requests| - 1], next))
    ensures Shrinking(requests + [next])
  {
    var all := requests + [next];
    forall i | 0 <= i < |all| - 1
      ensures FollowsAt(all, i)
    {
      if i < |requests| - 1 {
        assert FollowsAt(requests, i);
      }
    }
  }

  /** Every later request keeps what the first one must keep. */
  lemma {:induction false} LaterRequestsKeep(requests: seq<seq<Message>>, i: nat)
    requires Shrinking(requests) && 0 < i < |requests|
    ensures Keeps(requests[0], requests[i])
  {
    assert FollowsAt(requests, i - 1);
    if i > 1 {
      LaterRequestsKeep(requests, i - 1);
      KeepsChains(requests[0], requests[i - 1], requests[i]);
    }
  }

  /** The first `n` requests, sent as calls `first`, `first + 1`, ... , were too long. */
  predicate AllOverflow(reply: (nat, seq<Message>) -> Reply, first: nat, requests: seq<seq<Message>>, n: nat)
    requires n <= |requests|
  {
    n == 0 || (reply(first + n - 1, requests[n - 1]).Overflow? && AllOverflow(reply, first, requests, n - 1))
  }

  lemma {:induction false} AllOverflowAgrees(reply: (nat, seq<Message>) -> Reply, first: nat, a: seq<seq<Message>>, b: seq<seq<Message>>, n: nat)
    requires n <= |a| <= |b| && b[..|a|] == a
    ensures AllOverflow(reply, first, a, n) == AllOverflow(reply, first, b, n)
  {
    if n > 0 {
      assert b[..|a|][n - 1] == b[n - 1];
      AllOverflowAgrees(reply, first, a, b, n - 1);
    }
  }

  /** These requests were sent and were too long; `current` is to be sent next. */
  ghost predicate Tried(reply: (nat, seq<Message>) -> Reply, first: nat, input: seq<Message>, requests: seq<seq<Message>>, current: seq<Message>) {
    && AllOverflow(reply, first, requests, |requests|) && Shrinking(requests)
    && if requests == [] then current == input else requests[0] == input && Follows(requests[|requests| - 1], current)
  }

  /** The first request is the input, each one follows the one before, and only the last answer may be other than an overflow. */
  ghost predicate Ended(reply: (nat, seq<Message>) -> Reply, first: nat, input: seq<Message>, requests: seq<seq<Message>>, r: Result<Reply>) {
    && requests != [] && requests[0] == input && Shrinking(requests)
    && AllOverflow(reply, first, requests, |requests| - 1)
    && var last := reply(first + |requests| - 1, requests[|requests| - 1]);
    && if r.Success? then r.value == last && !last.Overflow? else last.Overflow?
  }

  lemma TriedOnce(reply: (nat, seq<Message>) -> Reply, first: nat, input: seq<Message>, requests: seq<seq<Message>>, current: seq<Message>)
    requires Tried(reply, first, input, requests, current)
    ensures var all := requests + [current];
            AllOverflow(reply, first, all, |requests|) && Shrinking(all) && all[0] == input
  {
    ShrinkingMore(requests, current);
    AllOverflowAgrees(reply, first, requests, requests + [current], |requests|);
  }

  lemma TriedMore(reply: (nat, seq<Message>) -> Reply, first: nat, input: seq<Message>, requests: seq<seq<Message>>, current: seq<Message>,
                  next: seq<Message>)
    requires Tried(reply, first, input, requests, current) && reply(first + |requests|, current).Overflow? && Follows(current, next)
    ensures Tried(reply, first, input, requests + [current], next)
  {
    TriedOnce(reply, first, input, requests, current);
  }

  type Told = (seq<Message>, int, Recovery) -> bool

  class RecoveringModel {
    const base: Provider
    const compactor: Compactor

    constructor (base: Provider, compactor: Compactor)
      ensures this.base == base && this.compactor == compactor
    {
      this.base, this.compactor := base, compactor;
    }

    /** The recovery worked, and its list is estimated smaller than the one that was too long. */
    predicate Helps(current: seq<Message>, tools: Tools, rec: Recovery) {
      compactor.Works(current, rec) && EstimateFresh(rec.rebuilt, tools, current) < EstimateFresh(current, tools, current)
    }

    /** A list that follows the one that was too long; refused unless it is estimated smaller. */
    method Shorter(current: seq<Message>, tools: Tools, limit: int, ghost told: Told) returns (r: Result<seq<Message>>, ghost rec: Recovery)
      requires compactor.budget.Valid() && Tells(tools, told)
      modifies compactor, compactor.budget, compactor.chat
      ensures compactor.budget.Valid()
      ensures rec.before == old(compactor.Now()) && rec.after == compactor.Now() && told(current, limit, rec)
      ensures r.Success? <==> Helps(current, tools, rec)
      ensures r.Success? ==> r.value == rec.rebuilt && Follows(current, r.value)
      ensures r.Success? ==> Stripped(r.value) && (Stripped(current) ==> TotalBytes(r.value) < TotalBytes(current))
    {
      var next, done := compactor.RecoverOverflow(current, tools, limit, true);
      rec := done;
      if next.Success? && EstimateFresh(next.value, tools, current) >= EstimateFresh(current, tools, current) {
        return Failure("context overflow recovery made no model-visible progress"), rec;
      }
      r := next;
      if next.Success? && Stripped(current) {
        StrippedEstimate(next.value, tools, current);
        StrippedEstimate(current, tools, current);
      }
    }

    /** What is told of a request that was too long, with the limit of the answer and its recovery. */
    ghost function AllTold(tools: Tools): Told {
      (request: seq<Message>, limit: int, rec: Recovery) => compactor.Describes(request, tools, limit, true, rec)
    }

    ghost predicate Tells(tools: Tools, told: Told) {
      forall request, limit, rec {:trigger compactor.Describes(request, tools, limit, true, rec)} ::
        compactor.Describes(request, tools, limit, true, rec) <==> told(request, limit, rec)
    }

    lemma AllTellsAll(tools: Tools)
      ensures Tells(tools, AllTold(tools))
    {
    }

    /** Recovery `i` is about request `i`, and starts where the one before ended. */
    ghost predicate RecoveredAt(told: Told, first: nat, tools: Tools, before: Condition, requests: seq<seq<Message>>, recs: seq<Recovery>, i: nat)
      requires i < |recs| <= |requests|
    {
      var reply := base.reply(first + i, requests[i]);
      && recs[i].before == (if i == 0 then before else recs[i - 1].after)
      && reply.Overflow? && told(requests[i], reply.limit, recs[i])
    }

    /** Request `i + 1` is the list that recovery `i` came to. */
    ghost predicate ResumedAt(tools: Tools, requests: seq<seq<Message>>, recs: seq<Recovery>, i: nat)
      requires i < |recs| && i + 1 < |requests|
    {
      Helps(requests[i], tools, recs[i]) && requests[i + 1] == recs[i].rebuilt
    }

    /** Every overflow was followed by a recovery, and every one of these that helped but the last by the list it came to. */
    ghost predicate Recovered(told: Told, first: nat, tools: Tools, before: Condition, requests: seq<seq<Message>>, recs: seq<Recovery>) {
      && |recs| <= |requests| <= |recs| + 1
      && (forall i {:trigger RecoveredAt(told, first, tools, before, requests, recs, i)} :: 0 <= i < |recs| ==>
            RecoveredAt(told, first, tools, before, requests, recs, i))
      && (forall i {:trigger ResumedAt(tools, requests, recs, i)} :: 0 <= i < |requests| - 1 ==> ResumedAt(tools, requests, recs, i))
    }

    /** The state after these recoveries. */
    ghost function Latest(before: Condition, recs: seq<Recovery>): Condition {
      if recs == [] then before else recs[|recs| - 1].after
    }

    lemma RecoveredOnce(told: Told, first: nat, tools: Tools, before: Condition, requests: seq<seq<Message>>, recs: seq<Recovery>, current: seq<Message>)
      requires |recs| == |requests| && Recovered(told, first, tools, before, requests, recs)
      requires recs != [] ==> Helps(requests[|recs| - 1], tools, recs[|recs| - 1]) && current == recs[|recs| - 1].rebuilt
      ensures Recovered(told, first, tools, before, requests + [current], recs)
    {
      var all := requests + [current];
      forall i | 0 <= i < |recs|
        ensures RecoveredAt(told, first, tools, before, all, recs, i)
      {
        assert RecoveredAt(told, first, tools, before, requests, recs, i);
      }
      forall i | 0 <= i < |all| - 1
        ensures ResumedAt(tools, all, recs, i)
      {
        if i < |requests| - 1 {
          assert ResumedAt(tools, requests, recs, i);
        }
      }
    }

    lemma RecoveredMore(told: Told, first: nat, tools: Tools, before: Condition, requests: seq<seq<Message>>, recs: seq<Recovery>, rec: Recovery)
      requires |requests| == |recs| + 1 && Recovered(told, first, tools, before, requests, recs) && rec.before == Latest(before, recs)
      requires base.reply(first + |recs|, requests[|recs|]).Overflow?
      requires told(requests[|recs|], base.reply(first + |recs|, requests[|recs|]).limit, rec)
      ensures Recovered(told, first, tools, before, requests, recs + [rec])
    {
      var more := recs + [rec];
      forall i | 0 <= i < |more|
        ensures RecoveredAt(told, first, tools, before, requests, more, i)
      {
        if i < |recs| {
          assert RecoveredAt(told, first, tools, before, requests, recs, i);
        }
      }
      forall i | 0 <= i < |requests| - 1
        ensures ResumedAt(tools, requests, more, i)
      {
        assert ResumedAt(tools, requests, recs, i);
      }
    }

    /** These requests were too long, each recovery helped, and `current` is what the last one came to. */
    ghost predicate Underway(told: Told, first: nat, input: seq<Message>, tools: Tools, before: Condition, requests: seq<seq<Message>>, recs: seq<Recovery>,
                             current: seq<Message>)
      reads compactor, compactor.budget, compactor.chat
    {
      Chained(told, first, input, tools, before, requests, recs, current) && compactor.Now() == Latest(before, recs)
    }

    ghost predicate Chained(told: Told, first: nat, input: seq<Message>, tools: Tools, before: Condition, requests: seq<seq<Message>>, recs: seq<Recovery>,
                            current: seq<Message>) {
      && Tried(base.reply, first, input, requests, current)
      && |recs| == |requests| && Recovered(told, first, tools, before, requests, recs)
      && (recs != [] ==> Helps(requests[|recs| - 1], tools, recs[|recs| - 1]) && current == recs[|recs| - 1].rebuilt)
    }

    /** The provider said something else than an overflow, or the recovery of the last request did not help. */
    ghost predicate Settled(told: Told, first: nat, input: seq<Message>, tools: Tools, before: Condition, requests: seq<seq<Message>>, recs: seq<Recovery>,
                            r: Result<Reply>) {
      && Ended(base.reply, first, input, requests, r) && Recovered(told, first, tools, before, requests, recs)
      && if r.Success? then |recs| == |requests| - 1
         else |recs| == |requests| && !Helps(requests[|recs| - 1], tools, recs[|recs| - 1])
    }

    lemma Answers(told: Told, first: nat, input: seq<Message>, tools: Tools, before: Condition, requests: seq<seq<Message>>, recs: seq<Recovery>,
                  current: seq<Message>)
      requires Chained(told, first, input, tools, before, requests, recs, current) && !base.reply(first + |requests|, current).Overflow?
      ensures Settled(told, first, input, tools, before, requests + [current], recs, Success(base.reply(first + |requests|, current)))
    {
      TriedOnce(base.reply, first, input, requests, current);
      RecoveredOnce(told, first, tools, before, requests, recs, current);
    }

    lemma FailsOnce(told: Told, first: nat, input: seq<Message>, tools: Tools, before: Condition, requests: seq<seq<Message>>, recs: seq<Recovery>,
                   current: seq<Message>, rec: Recovery)
      requires Chained(told, first, input, tools, before, requests, recs, current) && base.reply(first + |requests|, current).Overflow?
      requires rec.before == Latest(before, recs) && told(current, base.reply(first + |requests|, current).limit, rec)
      ensures Recovered(told, first, tools, before, requests + [current], recs + [rec])
    {
      RecoveredOnce(told, first, tools, before, requests, recs, current);
      RecoveredMore(told, first, tools, before, requests + [current], recs, rec);
    }

    lemma ChainsOn(told: Told, first: nat, input: seq<Message>, tools: Tools, before: Condition, requests: seq<seq<Message>>, recs: seq<Recovery>,
                   current: seq<Message>, rec: Recovery)
      requires Chained(told, first, input, tools, before, requests, recs, current) && base.reply(first + |requests|, current).Overflow?
      requires rec.before == Latest(before, recs) && told(current, base.reply(first + |requests|, current).limit, rec)
      requires Helps(current, tools, rec) && Follows(current, rec.rebuilt)
      ensures Chained(told, first, input, tools, before, requests + [current], recs + [rec], rec.rebuilt)
    {
      FailsOnce(told, first, input, tools, before, requests, recs, current, rec);
      TriedMore(base.reply, first, input, requests, current, rec.rebuilt);
    }

    lemma GivesUp(told: Told, first: nat, input: seq<Message>, tools: Tools, before: Condition, requests: seq<seq<Message>>, recs: seq<Recovery>,
                   current: seq<Message>, rec: Recovery, reason: string)
      requires Chained(told, first, input, tools, before, requests, recs, current) && base.reply(first + |requests|, current).Overflow?
      requires rec.before == Latest(before, recs) && told(current, base.reply(first + |requests|, current).limit, rec)
      requires !Helps(current, tools, rec)
      ensures Settled(told, first, input, tools, before, requests + [current], recs + [rec], Failure(reason))
    {
      FailsOnce(told, first, input, tools, before, requests, recs, current, rec);
      TriedOnce(base.reply, first, input, requests, current);
    }

    /** Send one list. The outcome, if this was the last one; otherwise what to send next. */
    method Try(current: seq<Message>, tools: Tools, ghost told: Told, ghost first: nat, ghost input: seq<Message>, ghost before: Condition,
               ghost requests: seq<seq<Message>>, ghost recs: seq<Recovery>)
      returns (outcome: Option<Result<Reply>>, next: seq<Message>, ghost more: seq<Recovery>)
      requires base != compactor.chat && compactor.budget.Valid() && Tells(tools, told)
      requires base.calls == first + |requests| && Underway(told, first, input, tools, before, requests, recs, current)
      modifies base, compactor, compactor.budget, compactor.chat
      ensures compactor.budget.Valid() && base.sent == old(base.sent) + [current] && base.calls == old(base.calls) + 1
      ensures outcome.Some? ==> Settled(told, first, input, tools, before, requests + [current], more, outcome.value)
      ensures outcome.None? ==> Underway(told, first, input, tools, before, requests + [current], more, next)
      ensures outcome.None? ==> Stripped(next) && (Stripped(current) ==> TotalBytes(next) < TotalBytes(current))
    {
      next, more := current, recs;
      var reply := base.Generate(current);
      if !reply.Overflow? {
        Answers(told, first, input, tools, before, requests, recs, current);
        return Some(Success(reply)), next, more;
      }
      var shorter, rec := Shorter(current, tools, reply.limit, told);
      more := recs + [rec];
      if shorter.Failure? {
        GivesUp(told, first, input, tools, before, requests, recs, current, rec, shorter.reason);
        return Some(Failure(shorter.reason)), next, more;
      }
      ChainsOn(told, first, input, tools, before, requests, recs, current, rec);
      outcome, next := None, shorter.value;
    }

    /**
     Send, and after an overflow send less, until the provider says something else or nothing can be left out.
     It ends whatever the provider answers: after the first recovery a token counts as a byte, and the bytes fall.
     */
    method Generate(input: seq<Message>, tools: Tools) returns (r: Result<Reply>, ghost requests: seq<seq<Message>>, ghost recs: seq<Recovery>)
      requires base != compactor.chat && compactor.budget.Valid()
      modifies base, compactor, compactor.budget, compactor.chat
      ensures compactor.budget.Valid()
      ensures base.sent == old(base.sent) + requests && base.calls == old(base.calls) + |requests|
      ensures Settled(AllTold(tools), old(base.calls), input, tools, old(compactor.Now()), requests, recs, r)
    {
      var current := input;
      ghost var told := AllTold(tools);
      AllTellsAll(tools);
      requests, recs := [], [];
      while true
        invariant base != compactor.chat && compactor.budget.Valid() && Tells(tools, told)
        invariant base.sent == old(base.sent) + requests && base.calls == old(base.calls) + |requests|
        invariant Underway(told, old(base.calls), input, tools, old(compactor.Now()), requests, recs, current)
        decreases !Stripped(current), TotalBytes(current)
      {
        var outcome, next, more := Try(current, tools, told, old(base.calls), input, old(compactor.Now()), requests, recs);
        requests, recs := requests + [current], more;
        if outcome.Some? {
          return outcome.value, requests, recs;
        }
        current := next;
      }
    }
  }
}
