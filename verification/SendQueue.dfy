/** The send queue of a client socket with its deferred close, as functions.  Asynchronous writes and the
    reader are steps; what they lead to is recorded in logs. */
module SendQueue {
  import opened Basics

  type Message = seq<char>

  /** `writing` is the write that is under way; `sent` and `written` log the messages handed in and the writes
      that ended; `closes` logs, for every close, how many messages had been handed in and written.
      `handler` is the installed disconnect handler, `fired` logs the ones that were called. */
  datatype State = State(
    queue: seq<Message>,
    closing: bool,
    writing: Option<Message>,
    sent: seq<Message>,
    written: seq<Message>,
    closes: seq<(nat, nat)>,
    handler: Option<int>,
    fired: seq<int>,
    installed: seq<int>)

  /** The handler runs once: an empty one takes its place. */
  function Fire(s: State): State {
    s.(handler := None, fired := s.fired + (if s.handler.Some? then [s.handler.value] else []))
  }

  function DoClose(s: State): State {
    Fire(s.(closes := s.closes + [(|s.sent|, |s.written|)]))
  }

  function SendLoop(s: State): State {
    if s.queue != [] then s.(writing := Some(s.queue[0]))
    else if s.closing then DoClose(s)
    else s
  }

  function Send(s: State, m: Message): State {
    var s1 := s.(queue := s.queue + [m], sent := s.sent + [m]);
    if |s1.queue| == 1 then SendLoop(s1) else s1
  }

  /** The completion handler of a write; an error is only logged. */
  function WriteDone(s: State): State
    requires s.writing.Some? && s.queue != []
  {
    SendLoop(s.(queue := s.queue[1..], writing := None, written := s.written + [s.writing.value]))
  }

  function Disconnect(s: State): State {
    var s1 := s.(closing := true);
    if s1.queue == [] then DoClose(s1) else s1
  }

  function Install(s: State, id: int): State {
    s.(handler := Some(id), installed := s.installed + [id])
  }

  // ---------------------------------------------------------------- runs

  /** `ReaderEnds` is the end of the read loop, by an error of the peer or malformed data. */
  datatype Step = Sending(m: Message) | Written | Disconnecting | ReaderEnds | Installing(id: int)

  predicate Enabled(s: State, step: Step) {
    match step
    case Written => s.writing.Some? && s.queue != []
    case Installing(id) => id !in s.installed
    case _ => true
  }

  function Next(s: State, step: Step): State
    requires Enabled(s, step)
  {
    match step
    case Sending(m) => Send(s, m)
    case Written => WriteDone(s)
    case Disconnecting => Disconnect(s)
    case ReaderEnds => Fire(s)
    case Installing(id) => Install(s, id)
  }

  const NEW := State([], false, None, [], [], [], None, [], [])

  function Run(s: State, steps: seq<Step>): Option<State>
    decreases |steps|
  {
    if steps == [] then Some(s)
    else if Enabled(s, steps[0]) then Run(Next(s, steps[0]), steps[1..])
    else None
  }

  // ---------------------------------------------------------------- the invariant

  predicate Inv(s: State) {
    && s.writing == (if s.queue == [] then None else Some(s.queue[0]))
    && s.sent == s.written + s.queue
    && (forall i :: 0 <= i < |s.closes| ==> s.closes[i].0 == s.closes[i].1)
    && (s.closing && s.queue == [] ==> s.closes != [])
    && (s.closes != [] ==> s.closing)
    && Distinct(s.fired) && (forall x :: x in s.fired ==> x in s.installed)
    && (s.handler.Some? ==> s.handler.value in s.installed && s.handler.value !in s.fired)
  }

  lemma FireDistinct(s: State)
    requires Distinct(s.fired) && (s.handler.Some? ==> s.handler.value !in s.fired)
    ensures Distinct(Fire(s).fired)
  {
  }

  lemma WrittenKeeps(s: State)
    requires Inv(s) && s.writing.Some? && s.queue != []
    ensures Inv(WriteDone(s))
  {
    FireDistinct(s);
    hide Distinct;
    assert s.queue == [s.queue[0]] + s.queue[1..];
    assert s.sent == (s.written + [s.queue[0]]) + s.queue[1..];
  }

  lemma StepKeeps(s: State, step: Step)
    requires Inv(s) && Enabled(s, step)
    ensures Inv(Next(s, step))
  {
    FireDistinct(s);
    hide Distinct;
    match step
    case Sending(m) => assert s.sent + [m] == s.written + (s.queue + [m]);
    case Written => WrittenKeeps(s);
    case Disconnecting =>
    case ReaderEnds =>
    case Installing(id) =>
  }

  lemma {:induction false} RunKeeps(s: State, steps: seq<Step>)
    requires Inv(s) && Run(s, steps).Some?
    ensures Inv(Run(s, steps).value)
    decreases |steps|
  {
    hide Inv, Next, Enabled;
    if steps != [] {
      StepKeeps(s, steps[0]);
      RunKeeps(Next(s, steps[0]), steps[1..]);
    }
  }

  // ---------------------------------------------------------------- main results

  /** In every run a write is under way exactly when the queue is not empty, and it is of the front; what
      has been written and what is queued are, in this order, what was sent. */
  lemma OneWriteInOrder(steps: seq<Step>)
    requires Run(NEW, steps).Some?
    ensures var s := Run(NEW, steps).value;
      && (s.writing.Some? <==> s.queue != [])
      && (s.queue != [] ==> s.writing == Some(s.queue[0]))
      && s.written + s.queue == s.sent
  {
    hide Run;
    RunKeeps(NEW, steps);
  }

  /** The server closes only when everything sent so far has been written, and a requested close waits for
      nothing but that. */
  lemma CloseAfterWrites(steps: seq<Step>)
    requires Run(NEW, steps).Some?
    ensures var s := Run(NEW, steps).value;
      && (forall i :: 0 <= i < |s.closes| ==> s.closes[i].0 == s.closes[i].1)
      && (s.closes != [] ==> s.closing)
      && (s.closing && s.queue == [] ==> s.closes != [])
  {
    hide Run;
    RunKeeps(NEW, steps);
  }

  /** No installed handler is called twice, whoever ends the connection and however often. */
  lemma HandlersFireOnce(steps: seq<Step>)
    requires Run(NEW, steps).Some?
    ensures var s := Run(NEW, steps).value;
      && Distinct(s.fired) && (forall x :: x in s.fired ==> x in s.installed)
      && (s.handler.Some? ==> s.handler.value !in s.fired)
  {
    hide Run;
    RunKeeps(NEW, steps);
  }

  /** Messages leave the queue: after as many completions as there are messages, all of them are written. */
  lemma {:induction false} QueueDrains(s: State)
    requires Inv(s)
    ensures var steps := seq(|s.queue|, i => Written);
      Run(s, steps).Some? && Run(s, steps).value.queue == [] && Run(s, steps).value.written == s.sent
      && (s.closing ==> Run(s, steps).value.closes != [])
    decreases |s.queue|
  {
    hide Inv, Next;
    var steps := seq(|s.queue|, i => Written);
    QueueShape(s);
    if s.queue != [] {
      assert steps[0] == Written && steps[1..] == seq(|s.queue| - 1, i => Written);
      StepKeeps(s, Written);
      OneWritten(s);
      QueueDrains(Next(s, Written));
    }
  }

  lemma QueueShape(s: State)
    requires Inv(s)
    ensures s.queue == [] ==> s.written == s.sent && (s.closing ==> s.closes != [])
    ensures s.queue != [] ==> s.writing.Some?
  {
    assert s.queue == [] ==> s.written + s.queue == s.written;
  }

  lemma OneWritten(s: State)
    requires Inv(s) && s.queue != []
    ensures var s' := Next(s, Written); s'.sent == s.sent && s'.closing == s.closing && s'.queue == s.queue[1..]
  {
  }

  // ---------------------------------------------------------------- the disconnect handler

  /** Steps that end the connection: the end of the reader, a disconnect with nothing to send, and the last
      completion once a disconnect was asked for. */
  predicate Ends(s: State, step: Step) {
    match step
    case ReaderEnds => true
    case Disconnecting => s.queue == []
    case Written => s.closing && |s.queue| == 1
    case _ => false
  }

  /** Exactly those steps call the installed handler, which is then not installed any more, and all but the end
      of the reader close the socket.  Completions write what was sent, in order. */
  predicate Exact(s: State, step: Step, t: State) {
    && t.fired == s.fired + (if Ends(s, step) && s.handler.Some? then [s.handler.value] else [])
    && t.handler == (if Ends(s, step) then None else if step.Installing? then Some(step.id) else s.handler)
    && |t.closes| == |s.closes| + (if Ends(s, step) && !step.ReaderEnds? then 1 else 0)
    && t.sent == s.sent + (if step.Sending? then [step.m] else [])
    && |t.written| == |s.written| + (if step.Written? then 1 else 0)
    && |t.written| <= |t.sent| && t.written == t.sent[..|t.written|]
    && (t.closing <==> s.closing || step.Disconnecting?)
  }

  lemma EndsExactly(steps: seq<Step>, step: Step)
    requires Run(NEW, steps).Some? && Enabled(Run(NEW, steps).value, step)
    ensures Exact(Run(NEW, steps).value, step, Next(Run(NEW, steps).value, step))
  {
    hide Run;
    RunKeeps(NEW, steps);
    NextExact(Run(NEW, steps).value, step);
  }

  lemma NextExact(s: State, step: Step)
    requires Inv(s) && Enabled(s, step)
    ensures Exact(s, step, Next(s, step))
  {
    StepKeeps(s, step);
    hide Distinct;
  }

  /** Does one of the steps end the connection? */
  predicate EndsDuring(s: State, steps: seq<Step>)
    decreases |steps|
  {
    steps != [] && Enabled(s, steps[0]) && (Ends(s, steps[0]) || EndsDuring(Next(s, steps[0]), steps[1..]))
  }

  /** A handler that no other one replaces has been called, after any further steps, exactly when one of them
      ended the connection. */
  lemma InstalledIsCalled(steps: seq<Step>, id: int, more: seq<Step>)
    requires Run(NEW, steps).Some? && Enabled(Run(NEW, steps).value, Installing(id))
    requires forall i :: 0 <= i < |more| ==> !more[i].Installing?
    requires Run(Next(Run(NEW, steps).value, Installing(id)), more).Some?
    ensures var s := Next(Run(NEW, steps).value, Installing(id));
      id in Run(s, more).value.fired <==> EndsDuring(s, more)
  {
    hide Run;
    var s := Run(NEW, steps).value;
    RunKeeps(NEW, steps);
    StepKeeps(s, Installing(id));
    CalledIff(Next(s, Installing(id)), id, more);
  }

  lemma {:induction false} CalledIff(s: State, id: int, steps: seq<Step>)
    requires Inv(s) && Run(s, steps).Some? && forall i :: 0 <= i < |steps| ==> !steps[i].Installing?
    requires s.handler == Some(id)
    ensures id in Run(s, steps).value.fired <==> EndsDuring(s, steps)
    decreases |steps|
  {
    hide Next, Enabled, Ends;
    if steps != [] {
      var t := Next(s, steps[0]);
      StepKeeps(s, steps[0]);
      NextExact(s, steps[0]);
      hide Inv;
      if Ends(s, steps[0]) {
        FiredStays(t, id, steps[1..]);
      } else {
        CalledIff(t, id, steps[1..]);
      }
    }
  }

  lemma {:induction false} FiredStays(s: State, id: int, steps: seq<Step>)
    requires Inv(s) && Run(s, steps).Some? && id in s.fired
    ensures id in Run(s, steps).value.fired
    decreases |steps|
  {
    hide Next, Enabled, Ends, Inv;
    if steps != [] {
      StepKeeps(s, steps[0]);
      NextExact(s, steps[0]);
      FiredStays(Next(s, steps[0]), id, steps[1..]);
    }
  }
}
