/**
 Live delivery of one session's events to one subscriber (internal/store/event.go, internal/store/store.go).

 The writer commits an event, puts it in the subscriber's queue and raises a one-place signal, as three steps.
 The delivery loop pops the queue, or reads the log again when the store file changes. All steps interleave.
 */
module Delivery {

  datatype Item = Item(sequence: nat, payload: string)

  /** The log of the session: item k has sequence k + 1. */
  type Log = seq<string>

  /** Items after the first `from`, up to and including number `upTo`; none if there is no such stretch. */
  function Stretch(log: Log, from: nat, upTo: nat): seq<Item>
    decreases upTo
  {
    if from < upTo <= |log| then Stretch(log, from, upTo - 1) + [Item(upTo, log[upTo - 1])] else []
  }

  lemma {:induction false} StretchItem(log: Log, from: nat, upTo: nat, k: nat)
    requires from + k < upTo <= |log|
    ensures |Stretch(log, from, upTo)| == upTo - from && Stretch(log, from, upTo)[k] == Item(from + k + 1, log[from + k])
    decreases upTo
  {
    var front := Stretch(log, from, upTo - 1);
    assert Stretch(log, from, upTo) == front + [Item(upTo, log[upTo - 1])];
    if from + 1 < upTo {
      StretchItem(log, from, upTo - 1, if from + k < upTo - 1 then k else 0);
    }
  }

  /** A stretch holds exactly the events after `from`, each once, in order. */
  lemma StretchItems(log: Log, from: nat, upTo: nat)
    requires from <= upTo <= |log|
    ensures |Stretch(log, from, upTo)| == upTo - from
    ensures forall k :: 0 <= k < upTo - from ==> Stretch(log, from, upTo)[k] == Item(from + k + 1, log[from + k])
  {
    forall k | 0 <= k < upTo - from
      ensures |Stretch(log, from, upTo)| == upTo - from && Stretch(log, from, upTo)[k] == Item(from + k + 1, log[from + k])
    {
      StretchItem(log, from, upTo, k);
    }
    if from < upTo {
      StretchItem(log, from, upTo, 0);
    }
  }

  lemma {:induction false} StretchOfLonger(log: Log, more: Log, from: nat, upTo: nat)
    requires log <= more && (upTo <= |log| || upTo <= from)
    ensures Stretch(more, from, upTo) == Stretch(log, from, upTo)
    decreases upTo
  {
    if from < upTo {
      StretchOfLonger(log, more, from, upTo - 1);
    }
  }

  lemma {:induction false} StretchTail(log: Log, from: nat, upTo: nat)
    requires from < upTo <= |log|
    ensures Stretch(log, from, upTo) != [] && Stretch(log, from, upTo)[0] == Item(from + 1, log[from])
    ensures Stretch(log, from, upTo)[1..] == Stretch(log, from + 1, upTo)
    decreases upTo
  {
    if from + 1 < upTo {
      StretchTail(log, from, upTo - 1);
    }
  }

  // ----- state

  datatype Writer = Ready | Committed | Enqueued

  datatype Receiver =
    | Popping
    | Holding(item: Item)
    | Waiting
    | Reading(batch: seq<Item>)
    | Stopped

  /** `entered` counts the events that were put in the queue or read from the log by the subscription. */
  datatype Sys = Sys(log: Log, writer: Writer, queue: seq<Item>, entered: nat, signal: bool, closed: bool,
                     receiver: Receiver, last: nat, delivered: seq<Item>)

  /** A subscription reads the history while no append is under way. */
  function Subscribe(log: Log, after: nat): Sys {
    Sys(log, Ready, Stretch(log, after, |log|), |log|, false, false, Popping, after, [])
  }

  datatype Step =
    | Commit(payload: string)
    | Enqueue
    | Signal
    | Pop
    | Emit
    | Wake
    | FileChange
    | EmitRead
    | Close
    | Stop

  predicate Enabled(s: Sys, step: Step) {
    match step
    case Commit(_) => s.writer.Ready?
    case Enqueue => s.writer.Committed?
    case Signal => s.writer.Enqueued?
    case Pop => s.receiver.Popping?
    case Emit => s.receiver.Holding?
    case Wake => s.receiver.Waiting? && s.signal
    case FileChange => s.receiver.Waiting?
    case EmitRead => s.receiver.Reading?
    case Close => true
    case Stop => true
  }

  /** Send one item unless the subscriber is past it. */
  function Sent(s: Sys, item: Item): Sys {
    if item.sequence <= s.last then s else s.(last := item.sequence, delivered := s.delivered + [item])
  }

  function Next(s: Sys, step: Step): Sys {
    match step
    case Commit(payload) => s.(log := s.log + [payload], writer := Committed)
    case Enqueue =>
      if s.log == [] || s.closed then s.(writer := Ready)
      else s.(queue := s.queue + [Item(|s.log|, s.log[|s.log| - 1])], entered := |s.log|, writer := Enqueued)
    case Signal => s.(signal := true, writer := Ready)
    case Pop => if s.queue == [] then s.(receiver := Waiting) else s.(receiver := Holding(s.queue[0]), queue := s.queue[1..])
    case Emit => if s.receiver.Holding? then Sent(s, s.receiver.item).(receiver := Popping) else s
    case Wake => s.(signal := false, receiver := Popping)
    case FileChange => s.(receiver := Reading(Stretch(s.log, s.last, |s.log|)))
    case EmitRead =>
      if !s.receiver.Reading? then s
      else if s.receiver.batch == [] then s.(receiver := Popping)
      else Sent(s, s.receiver.batch[0]).(receiver := Reading(s.receiver.batch[1..]))
    case Close => s.(closed := true)
    case Stop => s.(receiver := Stopped)
  }

  // ----- what every step keeps

  /** Sequence of the event just before the first one still queued or held. */
  function Behind(s: Sys): int {
    s.entered - |s.queue| - (if s.receiver.Holding? then 1 else 0)
  }

  /** Queued events, and the one held, are a contiguous stretch that starts no later than what is needed next. */
  predicate QueueOk(s: Sys) {
    && |s.queue| <= s.entered <= |s.log|
    && s.queue == Stretch(s.log, s.entered - |s.queue|, s.entered)
    && 0 <= Behind(s) && (s.receiver.Stopped? || Behind(s) <= s.last)
    && (s.receiver.Holding? ==> s.receiver.item == Item(Behind(s) + 1, s.log[Behind(s)]))
    && (!s.closed ==> s.entered == if s.writer.Committed? then |s.log| - 1 else |s.log|)
    && (s.writer.Committed? ==> s.log != [])
  }

  predicate Inv(s: Sys, after: nat) {
    && after <= s.last && (s.last <= |s.log| || s.last == after)
    && s.delivered == Stretch(s.log, after, s.last)
    && QueueOk(s)
    && (s.receiver.Reading? && s.receiver.batch != [] ==>
          s.last + |s.receiver.batch| <= |s.log| && s.receiver.batch == Stretch(s.log, s.last, s.last + |s.receiver.batch|))
    && (!s.closed && s.queue != [] && s.receiver.Waiting? ==> s.signal || s.writer.Enqueued?)
  }

  lemma SubscribeStarts(log: Log, after: nat)
    ensures Inv(Subscribe(log, after), after)
  {
    if after < |log| {
      StretchItems(log, after, |log|);
    }
  }

  lemma CommitKeeps(s: Sys, after: nat, payload: string)
    requires Inv(s, after) && s.writer.Ready?
    ensures Inv(Next(s, Commit(payload)), after)
  {
    var more := s.log + [payload];
    StretchOfLonger(s.log, more, after, s.last);
    StretchOfLonger(s.log, more, s.entered - |s.queue|, s.entered);
    if s.receiver.Reading? {
      if s.receiver.batch != [] {
        StretchOfLonger(s.log, more, s.last, s.last + |s.receiver.batch|);
      }
    }
  }

  lemma EnqueueKeeps(s: Sys, after: nat)
    requires Inv(s, after) && s.writer.Committed?
    ensures Inv(Next(s, Enqueue), after)
  {
  }

  lemma PopKeeps(s: Sys, after: nat)
    requires Inv(s, after) && s.receiver.Popping?
    ensures Inv(Next(s, Pop), after)
  {
    if s.queue != [] {
      StretchTail(s.log, s.entered - |s.queue|, s.entered);
    }
  }

  lemma EmitKeeps(s: Sys, after: nat)
    requires Inv(s, after) && s.receiver.Holding?
    ensures Inv(Next(s, Emit), after)
  {
  }

  lemma EmitReadKeeps(s: Sys, after: nat)
    requires Inv(s, after) && s.receiver.Reading?
    ensures Inv(Next(s, EmitRead), after)
  {
    if s.receiver.batch != [] {
      StretchTail(s.log, s.last, s.last + |s.receiver.batch|);
    }
  }

  lemma FileChangeKeeps(s: Sys, after: nat)
    requires Inv(s, after) && s.receiver.Waiting?
    ensures Inv(Next(s, FileChange), after)
  {
    if s.last <= |s.log| {
      StretchItems(s.log, s.last, |s.log|);
    }
  }

  /** Steps that move no item. */
  lemma FlagsKeep(s: Sys, after: nat, step: Step)
    requires Inv(s, after) && Enabled(s, step) && (step.Signal? || step.Wake? || step.Close? || step.Stop?)
    ensures Inv(Next(s, step), after)
  {
  }

  lemma EveryStepKeeps(s: Sys, after: nat, step: Step)
    requires Inv(s, after) && Enabled(s, step)
    ensures Inv(Next(s, step), after)
  {
    if step.Commit? {
      CommitKeeps(s, after, step.payload);
    } else if step.Enqueue? {
      EnqueueKeeps(s, after);
    } else if step.Pop? {
      PopKeeps(s, after);
    } else if step.Emit? {
      EmitKeeps(s, after);
    } else if step.FileChange? {
      FileChangeKeeps(s, after);
    } else if step.EmitRead? {
      EmitReadKeeps(s, after);
    } else {
      FlagsKeep(s, after, step);
    }
  }

  // ----- runs

  function Final(s: Sys, steps: seq<Step>): Sys
    decreases |steps|
  {
    if steps == [] then s else Final(Next(s, steps[0]), steps[1..])
  }

  predicate Executes(s: Sys, steps: seq<Step>)
    decreases |steps|
  {
    steps == [] || (Enabled(s, steps[0]) && Executes(Next(s, steps[0]), steps[1..]))
  }

  lemma {:induction false} RunsKeep(s: Sys, after: nat, steps: seq<Step>)
    requires Inv(s, after) && Executes(s, steps)
    ensures Inv(Final(s, steps), after)
    decreases |steps|
  {
    if steps != [] {
      EveryStepKeeps(s, after, steps[0]);
      RunsKeep(Next(s, steps[0]), after, steps[1..]);
    }
  }

  /** At every moment of every interleaving the subscriber has exactly the events after its start point up to its last one. */
  lemma DeliveryIsExact(log: Log, after: nat, steps: seq<Step>)
    requires Executes(Subscribe(log, after), steps)
    ensures var s := Final(Subscribe(log, after), steps);
            && s.delivered == Stretch(s.log, after, s.last)
            && (s.delivered != [] ==> after < s.last <= |s.log| && |s.delivered| == s.last - after)
            && forall k :: 0 <= k < |s.delivered| ==> s.delivered[k] == Item(after + k + 1, s.log[after + k])
  {
    SubscribeStarts(log, after);
    RunsKeep(Subscribe(log, after), after, steps);
    var s := Final(Subscribe(log, after), steps);
    if s.delivered != [] {
      StretchItems(s.log, after, s.last);
    }
  }

  // ----- nothing is forgotten

  /** Only new commits, spurious file changes, or ending the subscription can happen. */
  predicate Quiet(s: Sys) {
    s.writer.Ready? && s.receiver.Waiting? && !s.signal
  }

  predicate Internal(step: Step) {
    step.Enqueue? || step.Signal? || step.Pop? || step.Emit? || step.Wake? || step.EmitRead?
  }

  /** Work left before a subscription is quiet. */
  function Measure(s: Sys): nat {
    2 * |s.queue|
    + (match s.receiver case Popping => 1 case Holding(_) => 2 case Waiting => 0 case Reading(batch) => 2 + |batch| case Stopped => 0)
    + (if s.signal then 2 else 0)
    + (match s.writer case Ready => 0 case Committed => 6 case Enqueued => 3)
  }

  lemma InternalStepsEnd(s: Sys, step: Step)
    requires Enabled(s, step) && Internal(step)
    ensures Measure(Next(s, step)) < Measure(s)
  {
  }

  /** A subscription that is open is quiet only when it has everything; until then it has a step to make. */
  lemma QuietMeansDelivered(log: Log, after: nat, steps: seq<Step>)
    requires Executes(Subscribe(log, after), steps)
    ensures var s := Final(Subscribe(log, after), steps);
            && (!s.closed && Quiet(s) ==> s.delivered == Stretch(s.log, after, |s.log|))
            && (!s.receiver.Stopped? && !Quiet(s) ==> exists step :: Internal(step) && Enabled(s, step))
  {
    SubscribeStarts(log, after);
    RunsKeep(Subscribe(log, after), after, steps);
    var s := Final(Subscribe(log, after), steps);
    if !s.receiver.Stopped? && !Quiet(s) {
      var step :=
        if s.writer.Committed? then Enqueue else if s.writer.Enqueued? then Signal
        else match s.receiver
             case Popping => Pop
             case Holding(_) => Emit
             case Reading(_) => EmitRead
             case _ => Wake;
      assert Internal(step) && Enabled(s, step);
    }
  }
}
