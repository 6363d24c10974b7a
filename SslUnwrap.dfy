/**
 The unwrap side of the non-blocking TLS adapter (SSLUnwrapRingBuffer).

 Encrypted bytes from the network are stored in an input ring; a pass hands
 the input and the application's plain ring to the TLS engine's unwrap call,
 reads the engine's two statuses, and schedules at most one follow-up action
 that runs once the pass is over.

 The engine is an oracle: each pass takes the next Step of a script, which
 says what engine.unwrap returned (or that it threw an SSLException) and
 what the input ring's canDefragment() answered. A follow-up action that
 starts another pass uses the rest of the script. The ring buffers are
 summarised by their used and capacity counts, and what can be observed
 (engine calls, notifications, calls into the paired wrap side, spawned
 task runners, deferred actions run) is recorded in a ghost event log.
 */
module SslUnwrap {
  import opened Wrappers

  /** SSLEngineResult.Status */
  datatype Status = Ok | BufferUnderflow | BufferOverflow | Closed

  /** SSLEngineResult.HandshakeStatus */
  datatype HandshakeStatus = NotHandshaking | Finished | NeedTask | NeedWrap | NeedUnwrap

  /** What one engine.unwrap call reported: its statuses and the bytes it moved. */
  datatype EngineResult = EngineResult(status: Status, handshake: HandshakeStatus, consumed: nat, produced: nat)

  /** engine.unwrap either returns a result or throws an SSLException. */
  datatype EngineCall = Returned(result: EngineResult) | Threw

  /** The oracle for one pass. */
  datatype Step = Step(call: EngineCall, canDefragment: bool)

  /** The follow-up actions a pass may leave in the deferred deque. */
  datatype Action =
    | ReUnwrap         // deferGeneralUnwrap
    | DefragmentInput  // deferDefragmentInput
    | DefragmentApp    // deferDefragmentApp
    | PairWrap         // deferGeneralWrap

  /**
   What the engine callback decides: the boolean it returns, the action it
   defers, whether it calls the pair's wrap at once, whether it starts the
   delegated-task runner.
   */
  datatype Decision = Decision(proceed: bool, deferred: Option<Action>, wrapNow: bool, spawnTask: bool)

  datatype Event =
    | EngineUnwrap(operating: bool)       // engine.unwrap called; the operating flag at that moment
    | CallbackReturned(proceed: bool)     // the value the engine callback handed back
    | PairWrapCalled                      // pair.generalWrap() ran
    | TaskSpawned                         // a thread for the delegated tasks was started
    | WritableFired                       // triggerWritable()
    | ReadableFired                       // triggerReadable(), proxied from the plain buffer
    | DeferredRun(action: Action, operating: bool)  // a polled action started; the flag at that moment
    | InputDefragmented
    | AppDefragmented

  /** A ring buffer summarised by how many bytes it holds and how many it can hold. */
  datatype Ring = Ring(used: nat, cap: nat) {
    predicate Valid() {
      used <= cap
    }

    function Free(): int {
      cap - used
    }
  }

  /** Everything the adapter's behaviour depends on, and the event log. */
  datatype State = State(input: Ring, plain: Ring, closed: bool, operating: bool, deferred: seq<Action>, log: seq<Event>) {
    predicate Valid() {
      input.Valid() && plain.Valid()
    }

    /** Between passes: not operating and nothing deferred. */
    predicate Idle() {
      !operating && deferred == []
    }
  }

  // ----- the decision table -----

  /** unwrap(result): the record path, taken when the handshake status is NOT_HANDSHAKING. */
  function OnRecord(status: Status, canDefragment: bool): (d: Decision)
    ensures !d.wrapNow && !d.spawnTask
    ensures d.proceed <==> status == Ok || status == BufferUnderflow
    ensures d.deferred == Some(ReUnwrap) <==> status == Ok
    ensures d.deferred == Some(DefragmentInput) <==> status == BufferUnderflow && canDefragment
    ensures d.deferred == Some(DefragmentApp) <==> status == BufferOverflow
    ensures d.deferred == None <==> status == Closed || (status == BufferUnderflow && !canDefragment)
  {
    match status
    case Closed => Decision(false, None, false, false)
    case Ok => Decision(true, Some(ReUnwrap), false, false)
    case BufferUnderflow => Decision(true, if canDefragment then Some(DefragmentInput) else None, false, false)
    case BufferOverflow => Decision(false, Some(DefragmentApp), false, false)
  }

  /** unwrapHandshake(result): the handshake path. */
  function OnHandshake(r: EngineResult, canDefragment: bool): (d: Decision)
    ensures r.status == BufferUnderflow ==>
      !d.proceed && !d.wrapNow && !d.spawnTask && d.deferred == (if canDefragment then Some(DefragmentInput) else None)
    ensures r.status != BufferUnderflow ==> (d.proceed <==> r.handshake != NotHandshaking)
    ensures d.wrapNow <==> r.status != BufferUnderflow && r.handshake == NeedWrap
    ensures d.spawnTask <==> r.status != BufferUnderflow && r.handshake == NeedTask
    ensures d.deferred == Some(PairWrap) <==> r.status != BufferUnderflow && r.handshake == Finished
    ensures d.deferred == Some(ReUnwrap) <==> r.status != BufferUnderflow && r.handshake == NeedUnwrap
    ensures d.deferred != Some(DefragmentApp)
  {
    if r.status == BufferUnderflow then
      Decision(false, if canDefragment then Some(DefragmentInput) else None, false, false)
    else
      match r.handshake
      case NotHandshaking => Decision(false, None, false, false)
      case Finished => Decision(true, Some(PairWrap), false, false)
      case NeedTask => Decision(true, None, false, true)
      case NeedWrap => Decision(true, None, true, false)
      case NeedUnwrap => Decision(true, Some(ReUnwrap), false, false)
  }

  /** The engine callback: an SSLException aborts with false, otherwise dispatch on the handshake status. */
  function Decide(call: EngineCall, canDefragment: bool): (d: Decision)
    ensures call.Threw? ==> d == Decision(false, None, false, false)
    ensures call.Returned? && call.result.handshake == NotHandshaking ==> d == OnRecord(call.result.status, canDefragment)
    ensures call.Returned? && call.result.handshake != NotHandshaking ==> d == OnHandshake(call.result, canDefragment)
    ensures (if d.deferred.Some? then 1 else 0) + (if d.wrapNow then 1 else 0) + (if d.spawnTask then 1 else 0) <= 1
    ensures d.wrapNow || d.spawnTask || d.deferred == Some(PairWrap) ==> d.proceed
  {
    match call
    case Threw => Decision(false, None, false, false)
    case Returned(r) =>
      if r.handshake == NotHandshaking then OnRecord(r.status, canDefragment) else OnHandshake(r, canDefragment)
  }

  /** The side the runner resumes once the delegated tasks are done. */
  datatype Resumption = ResumeWrap | ResumeUnwrap

  /** After the tasks ran: NEED_WRAP and FINISHED go to the pair's wrap, anything else back to unwrap. */
  function AfterTasks(hs: HandshakeStatus): (r: Resumption)
    ensures r == ResumeWrap <==> hs == NeedWrap || hs == Finished
    ensures r == ResumeUnwrap <==> hs == NotHandshaking || hs == NeedTask || hs == NeedUnwrap
  {
    match hs
    case NeedWrap => ResumeWrap
    case Finished => ResumeWrap
    case _ => ResumeUnwrap
  }

  // ----- one pass -----

  /** push (addFirst) for every action except deferGeneralWrap, which uses add (addLast). */
  function Enqueue(q: seq<Action>, a: Action): seq<Action> {
    if a == PairWrap then q + [a] else [a] + q
  }

  function Pushed(q: seq<Action>, d: Decision): seq<Action> {
    if d.deferred.Some? then Enqueue(q, d.deferred.value) else q
  }

  /** The events the callback produces itself. */
  function Effects(d: Decision): seq<Event> {
    (if d.wrapNow then [PairWrapCalled] else []) + (if d.spawnTask then [TaskSpawned] else [])
  }

  function Consumed(call: EngineCall): nat {
    if call.Returned? then call.result.consumed else 0
  }

  function Produced(call: EngineCall): nat {
    if call.Returned? then call.result.produced else 0
  }

  /** An engine never takes more than the input holds nor writes more than the output can take. */
  predicate Fits(s: State, call: EngineCall) {
    Consumed(call) <= s.input.used && Produced(call) <= s.plain.Free()
  }

  /** The engine call and its callback, inside the operating section. */
  function Engine(s: State, step: Step): (t: State)
    requires s.Valid() && Fits(s, step.call)
  {
    var d := Decide(step.call, step.canDefragment);
    s.(input := Ring(s.input.used - Consumed(step.call), s.input.cap),
       plain := Ring(s.plain.used + Produced(step.call), s.plain.cap),
       deferred := Pushed(s.deferred, d),
       log := s.log + CallEvents(s.operating, d))
  }

  /** The engine is only called while operating, and a deferred action only starts once it is cleared. */
  predicate Disciplined(events: seq<Event>) {
    forall e :: e in events ==> (e.EngineUnwrap? ==> e.operating) && (e.DeferredRun? ==> !e.operating)
  }

  /** The events of one engine call: the call itself, the callback's own effects, its answer. */
  function CallEvents(operating: bool, d: Decision): seq<Event> {
    [EngineUnwrap(operating)] + Effects(d) + [CallbackReturned(d.proceed)]
  }

  /** The events one pass appends: the engine call while operating, then the writable signal if it fired. */
  function PassEvents(d: Decision, fired: bool): (events: seq<Event>)
    ensures Disciplined(events)
    ensures multiset(events)[EngineUnwrap(true)] == 1 && multiset(events)[EngineUnwrap(false)] == 0
    ensures multiset(events)[WritableFired] == if fired then 1 else 0
  {
    var call: seq<Event> := [EngineUnwrap(true)];
    var answer: seq<Event> := [CallbackReturned(d.proceed)];
    var tail: seq<Event> := if fired then [WritableFired] else [];
    EffectsHarmless(d);
    DisciplinedConcat(call, Effects(d));
    DisciplinedConcat(call + Effects(d), answer);
    DisciplinedConcat(call + Effects(d) + answer, tail);
    assert CallEvents(true, d) == call + Effects(d) + answer;
    CallEvents(true, d) + tail
  }

  /** The callback's own effects are neither engine calls, deferred runs nor the writable signal. */
  lemma EffectsHarmless(d: Decision)
    ensures Disciplined(Effects(d))
    ensures multiset(Effects(d))[EngineUnwrap(true)] == 0 && multiset(Effects(d))[EngineUnwrap(false)] == 0
    ensures multiset(Effects(d))[WritableFired] == 0
  {
    var e := Effects(d);
    assert e == [] || e == [PairWrapCalled] || e == [TaskSpawned] || e == [PairWrapCalled, TaskSpawned];
  }

  /**
   generalUnwrap up to the point where the deferred deque is inspected:
   operating is set, the engine is called once, "writable" fires when the
   input went from full to not full, operating is cleared.
   */
  function Pass(s: State, step: Step): (t: State)
    requires s.Valid() && s.Idle() && s.input.used > 0 && Fits(s, step.call)
    ensures t.Valid() && !t.operating
    ensures t.deferred == if Decide(step.call, step.canDefragment).deferred.Some? then [Decide(step.call, step.canDefragment).deferred.value] else []
    ensures t.closed == s.closed && t.input.cap == s.input.cap && t.plain.cap == s.plain.cap
    ensures t.input.used == s.input.used - Consumed(step.call) && t.plain.used == s.plain.used + Produced(step.call)
    ensures t.log == s.log + CallEvents(true, Decide(step.call, step.canDefragment))
                     + (if s.input.Free() == 0 && t.input.Free() > 0 then [WritableFired] else [])
  {
    var inBufferWasFull := s.input.Free() == 0;
    var called := Engine(s.(operating := true), step);
    var inBufferNowNotFull := called.input.Free() > 0;
    var signalled := if inBufferWasFull && inBufferNowNotFull then called.(log := called.log + [WritableFired]) else called;
    signalled.(operating := false)
  }

  /** What a pass appends to the log: one engine call made while operating, and "writable" exactly on a full to not-full change. */
  lemma PassLog(s: State, step: Step)
    requires s.Valid() && s.Idle() && s.input.used > 0 && Fits(s, step.call)
    ensures var t := Pass(s, step);
      && s.log <= t.log && Disciplined(t.log[|s.log|..])
      && multiset(t.log[|s.log|..])[EngineUnwrap(true)] == 1
      && multiset(t.log[|s.log|..])[WritableFired] == if s.input.Free() == 0 && t.input.Free() > 0 then 1 else 0
  {
    var t := Pass(s, step);
    var d := Decide(step.call, step.canDefragment);
    var tail: seq<Event> := if s.input.Free() == 0 && t.input.Free() > 0 then [WritableFired] else [];
    assert t.log == s.log + CallEvents(true, d) + tail;
    assert t.log == s.log + (CallEvents(true, d) + tail);
    AppendedExtra(s, t, PassEvents(d, s.input.Free() == 0 && t.input.Free() > 0));
  }

  /** A pass calls the engine only while operating. */
  lemma PassDisciplined(s: State, step: Step)
    requires s.Valid() && s.Idle() && s.input.used > 0 && Fits(s, step.call)
    ensures var t := Pass(s, step); s.log <= t.log && Disciplined(Appended(s, t))
  {
    PassLog(s, step);
  }

  /** "Writable" fires in a pass exactly when the input went from full to not full. */
  lemma PassWritable(s: State, step: Step)
    requires s.Valid() && s.Idle() && s.input.used > 0 && Fits(s, step.call)
    ensures var t := Pass(s, step);
      s.log <= t.log && WritableCount(Appended(s, t)) == if s.input.Free() == 0 && t.input.Free() > 0 then 1 else 0
  {
    PassLog(s, step);
  }

  /**
   generalUnwrap in full: no-op on an empty input; otherwise one pass, then
   the single deferred action (if any) is polled and run after operating was
   cleared, a re-unwrap or defragment action starting the next pass.
   None: the script ran out, or a step is not something an engine could return.
   */
  function Run(s: State, script: seq<Step>): (r: Option<State>)
    requires s.Valid() && s.Idle()
    ensures s.input.used == 0 ==> r == Some(s)
    ensures r.Some? ==> r.value.Valid() && r.value.Idle() && s.log <= r.value.log
    ensures r.Some? ==> r.value.closed == s.closed && r.value.input.cap == s.input.cap && r.value.plain.cap == s.plain.cap
    ensures r.Some? ==> r.value.input.used <= s.input.used && r.value.plain.used >= s.plain.used
    // a non-empty input starts a pass on the next step, whose events come first
    ensures s.input.used > 0 && (script == [] || !Fits(s, script[0].call)) ==> r.None?
    ensures s.input.used > 0 && r.Some? ==> |script| > 0 && Fits(s, script[0].call) && Pass(s, script[0]).log <= r.value.log
    decreases |script|, 2
  {
    if s.input.used == 0 then Some(s)
    else if script == [] || !Fits(s, script[0].call) then None
    else AfterPass(Pass(s, script[0]), script[1..])
  }

  /** The rest of generalUnwrap once operating was cleared: the deque is polled and what it held is run. */
  function AfterPass(t: State, rest: seq<Step>): (r: Option<State>)
    requires t.Valid() && !t.operating && |t.deferred| <= 1
    ensures t.deferred == [] ==> r == Some(t)
    ensures r.Some? ==> r.value.Valid() && r.value.Idle() && t.log <= r.value.log
    ensures r.Some? ==> r.value.closed == t.closed && r.value.input.cap == t.input.cap && r.value.plain.cap == t.plain.cap
    ensures r.Some? ==> r.value.input.used <= t.input.used && r.value.plain.used >= t.plain.used
    // the polled action runs, with operating clear
    ensures t.deferred != [] && r.Some? ==> t.log + PolledEvents(false, t.deferred[0]) <= r.value.log
    ensures t.deferred == [PairWrap] ==> r.Some?
    decreases |rest| + 1, 1
  {
    if t.deferred == [] then Some(t)
    else RunDeferred(t.(deferred := []), t.deferred[0], rest)
  }

  /** What a polled action does before any nested pass: the pair's wrap, or the defragment it asked for. */
  function ActionEvents(a: Action): seq<Event> {
    match a
    case PairWrap => [PairWrapCalled]
    case ReUnwrap => []
    case DefragmentInput => [InputDefragmented]
    case DefragmentApp => [AppDefragmented]
  }

  /** The events of running a polled action, the flag being as given when it starts. */
  function PolledEvents(operating: bool, a: Action): seq<Event> {
    [DeferredRun(a, operating)] + ActionEvents(a)
  }

  /** The bookkeeping of a polled action keeps the discipline and never signals "writable". */
  lemma PolledEventsHarmless(a: Action)
    ensures Disciplined(PolledEvents(false, a)) && multiset(PolledEvents(false, a))[WritableFired] == 0
  {
    var e := PolledEvents(false, a);
    assert e == [DeferredRun(a, false)] || e == [DeferredRun(a, false), ActionEvents(a)[0]];
  }

  /** The state once a polled action did its own bookkeeping. */
  function Polled(s: State, a: Action): State {
    s.(log := s.log + PolledEvents(s.operating, a))
  }

  /** Runs a polled action: the pair's wrap, or (after a defragment) the next pass. */
  function RunDeferred(s: State, a: Action, rest: seq<Step>): (r: Option<State>)
    requires s.Valid() && s.Idle()
    ensures r.Some? ==> r.value.Valid() && r.value.Idle() && s.log <= r.value.log
    ensures r.Some? ==> r.value.closed == s.closed && r.value.input.cap == s.input.cap && r.value.plain.cap == s.plain.cap
    ensures r.Some? ==> r.value.input.used <= s.input.used && r.value.plain.used >= s.plain.used
    ensures r.Some? ==> s.log + PolledEvents(false, a) <= r.value.log
    // the pair's wrap is called and nothing else happens
    ensures a == PairWrap ==> r == Some(s.(log := s.log + [DeferredRun(PairWrap, false), PairWrapCalled]))
    // any other action is followed by a new pass when there are bytes to unwrap
    ensures a != PairWrap && s.input.used > 0 && r.Some? ==>
      && |r.value.log| > |s.log| + |PolledEvents(false, a)|
      && r.value.log[|s.log| + |PolledEvents(false, a)|] == EngineUnwrap(true)
    decreases |rest| + 1, 0
  {
    if a == PairWrap then
      assert PolledEvents(s.operating, a) == [DeferredRun(PairWrap, false), PairWrapCalled];
      Some(Polled(s, a))
    else
      var u := Polled(s, a);
      var r := Run(u, rest);
      assert r.Some? && s.input.used > 0 ==> Pass(u, rest[0]).log[|u.log|] == EngineUnwrap(true);
      r
  }

  // ----- properties of whole passes -----

  /** The events a run appended to the log. */
  function Appended(s: State, t: State): seq<Event>
    requires s.log <= t.log
  {
    t.log[|s.log|..]
  }

  lemma AppendedChain(s: State, t: State, u: State)
    requires s.log <= t.log <= u.log
    ensures Appended(s, u) == Appended(s, t) + Appended(t, u)
  {
  }

  lemma AppendedExtra(s: State, t: State, extra: seq<Event>)
    requires t.log == s.log + extra
    ensures s.log <= t.log && Appended(s, t) == extra
  {
  }

  lemma DisciplinedConcat(a: seq<Event>, b: seq<Event>)
    requires Disciplined(a) && Disciplined(b)
    ensures Disciplined(a + b)
  {
    forall e | e in a + b ensures (e.EngineUnwrap? ==> e.operating) && (e.DeferredRun? ==> !e.operating) {
      assert e in a || e in b;
    }
  }

  /**
   No pass is re-entered: across every nested pass, the engine is only
   called while the operating flag is set and every deferred action starts
   after it was cleared.
   */
  lemma {:induction false} RunDisciplined(s: State, script: seq<Step>)
    requires s.Valid() && s.Idle() && Run(s, script).Some?
    ensures Disciplined(Appended(s, Run(s, script).value))
    decreases |script|, 2
  {
    var f := Run(s, script).value;
    if s.input.used == 0 {
      AppendedExtra(s, f, []);
    } else {
      var t := Pass(s, script[0]);
      PassDisciplined(s, script[0]);
      assert f == AfterPass(t, script[1..]).value;
      AfterPassDisciplined(s, t, script[1..]);
    }
  }

  lemma {:induction false} AfterPassDisciplined(s: State, t: State, rest: seq<Step>)
    requires t.Valid() && !t.operating && |t.deferred| <= 1 && AfterPass(t, rest).Some?
    requires s.log <= t.log && Disciplined(Appended(s, t))
    ensures Disciplined(Appended(s, AfterPass(t, rest).value))
    decreases |rest| + 1, 1
  {
    if t.deferred != [] {
      var u := t.(deferred := []);
      RunDeferredDisciplined(u, t.deferred[0], rest);
      DisciplinedStitched(s, u, AfterPass(t, rest).value);
    }
  }

  /** Two disciplined stretches of the log, one after the other, make a disciplined stretch. */
  lemma DisciplinedStitched(s: State, u: State, f: State)
    requires s.log <= u.log <= f.log && Disciplined(Appended(s, u)) && Disciplined(Appended(u, f))
    ensures Disciplined(Appended(s, f))
  {
    AppendedChain(s, u, f);
    DisciplinedConcat(Appended(s, u), Appended(u, f));
  }

  lemma {:induction false} RunDeferredDisciplined(s: State, a: Action, rest: seq<Step>)
    requires s.Valid() && s.Idle() && RunDeferred(s, a, rest).Some?
    ensures Disciplined(Appended(s, RunDeferred(s, a, rest).value))
    decreases |rest| + 1, 0
  {
    var u := Polled(s, a);
    PolledEventsHarmless(a);
    AppendedExtra(s, u, PolledEvents(false, a));
    if a != PairWrap {
      NestedDisciplined(s, u, rest);
    }
  }

  /** A nested pass started from v, after a few bookkeeping events that keep the discipline. */
  lemma {:induction false} NestedDisciplined(s: State, v: State, rest: seq<Step>)
    requires v.Valid() && v.Idle() && Run(v, rest).Some?
    requires s.log <= v.log && Disciplined(Appended(s, v))
    ensures Disciplined(Appended(s, Run(v, rest).value))
    decreases |rest|, 3
  {
    RunDisciplined(v, rest);
    DisciplinedStitched(s, v, Run(v, rest).value);
  }

  /** How often "writable" fired in a stretch of the log. */
  function WritableCount(events: seq<Event>): nat {
    multiset(events)[WritableFired]
  }

  /**
   Across a whole generalUnwrap, nested passes included, "writable" fires
   exactly once when the input went from full to having free space, and
   never otherwise (in particular never when the input was not full).
   */
  lemma {:induction false} RunWritableOnce(s: State, script: seq<Step>)
    requires s.Valid() && s.Idle() && Run(s, script).Some?
    ensures var t := Run(s, script).value;
      WritableCount(Appended(s, t)) == if s.input.Free() == 0 && t.input.Free() > 0 then 1 else 0
    decreases |script|, 2
  {
    var f := Run(s, script).value;
    if s.input.used == 0 {
      AppendedExtra(s, f, []);
    } else {
      var t := Pass(s, script[0]);
      PassWritable(s, script[0]);
      assert f == AfterPass(t, script[1..]).value;
      AfterPassWritable(s, t, script[1..]);
    }
  }

  lemma {:induction false} AfterPassWritable(s: State, t: State, rest: seq<Step>)
    requires t.Valid() && !t.operating && |t.deferred| <= 1 && AfterPass(t, rest).Some?
    requires s.log <= t.log && t.input.cap == s.input.cap && t.input.used <= s.input.used <= s.input.cap
    requires WritableCount(Appended(s, t)) == if s.input.Free() == 0 && t.input.Free() > 0 then 1 else 0
    ensures var f := AfterPass(t, rest).value;
      WritableCount(Appended(s, f)) == if s.input.Free() == 0 && f.input.Free() > 0 then 1 else 0
    decreases |rest| + 1, 1
  {
    if t.deferred != [] {
      var u := t.(deferred := []);
      RunDeferredWritableOnce(u, t.deferred[0], rest);
      WritableStitched(s, u, AfterPass(t, rest).value);
    }
  }

  /**
   "Writable" fired by a pass and "writable" fired by the nested run after
   it never add up to two: free space only grows along a run.
   */
  lemma WritableStitched(s: State, u: State, f: State)
    requires s.log <= u.log <= f.log
    requires s.input.cap == u.input.cap == f.input.cap
    requires f.input.used <= u.input.used <= s.input.used <= s.input.cap
    requires WritableCount(Appended(s, u)) == if s.input.Free() == 0 && u.input.Free() > 0 then 1 else 0
    requires WritableCount(Appended(u, f)) == if u.input.Free() == 0 && f.input.Free() > 0 then 1 else 0
    ensures WritableCount(Appended(s, f)) == if s.input.Free() == 0 && f.input.Free() > 0 then 1 else 0
  {
    AppendedChain(s, u, f);
    WritableCountConcat(Appended(s, u), Appended(u, f));
  }

  lemma WritableCountConcat(a: seq<Event>, b: seq<Event>)
    ensures WritableCount(a + b) == WritableCount(a) + WritableCount(b)
  {
  }

  lemma {:induction false} RunDeferredWritableOnce(s: State, a: Action, rest: seq<Step>)
    requires s.Valid() && s.Idle() && RunDeferred(s, a, rest).Some?
    ensures var t := RunDeferred(s, a, rest).value;
      WritableCount(Appended(s, t)) == if s.input.Free() == 0 && t.input.Free() > 0 then 1 else 0
    decreases |rest| + 1, 0
  {
    var u := Polled(s, a);
    PolledEventsHarmless(a);
    AppendedExtra(s, u, PolledEvents(false, a));
    if a != PairWrap {
      NestedWritable(s, u, rest);
    }
  }

  /** A nested pass started from v, after a few bookkeeping events that are not "writable". */
  lemma {:induction false} NestedWritable(s: State, v: State, rest: seq<Step>)
    requires s.Valid() && s.Idle() && v.Valid() && v.Idle() && Run(v, rest).Some?
    requires v.input == s.input && s.log <= v.log && WritableCount(Appended(s, v)) == 0
    ensures var t := Run(v, rest).value;
      WritableCount(Appended(s, t)) == if s.input.Free() == 0 && t.input.Free() > 0 then 1 else 0
    decreases |rest|, 3
  {
    RunWritableOnce(v, rest);
    AppendedChain(s, v, Run(v, rest).value);
  }

  // ----- an overflow that frees nothing -----

  /** engine.unwrap answering BUFFER_OVERFLOW outside a handshake, having moved no bytes. */
  predicate StuckOverflow(step: Step) {
    step.call == Returned(EngineResult(BufferOverflow, NotHandshaking, 0, 0))
  }

  /**
   An engine that keeps answering BUFFER_OVERFLOW without moving bytes (the
   plain ring's room stays below what it needs): each pass defers an app
   defragment, whose action starts the next pass at once, on the same
   input. No script is long enough: generalUnwrap re-enters itself without
   bound.
   */
  lemma {:induction false} OverflowNeverSettles(s: State, script: seq<Step>)
    requires s.Valid() && s.Idle() && s.input.used > 0
    requires forall k :: 0 <= k < |script| ==> StuckOverflow(script[k])
    ensures Run(s, script) == None
    decreases |script|
  {
    if script != [] {
      var step, rest := script[0], script[1..];
      assert StuckOverflow(step) && Fits(s, step.call);
      assert Decide(step.call, step.canDefragment).deferred == Some(DefragmentApp);
      var t := Pass(s, step);
      assert Run(s, script) == AfterPass(t, rest);
      var v := t.(deferred := []);
      assert AfterPass(t, rest) == RunDeferred(v, DefragmentApp, rest);
      var u := Polled(v, DefragmentApp);
      assert RunDeferred(v, DefragmentApp, rest) == Run(u, rest);
      assert forall k :: 0 <= k < |rest| ==> rest[k] == script[k + 1];
      OverflowNeverSettles(u, rest);
    }
  }

  // ----- the entry points as functions of the state -----

  /**
   storeBytesFrom: `read` is what the input ring's own read from the channel
   returned (-1 at end of stream). Nothing is read once closed; a read of 0
   or -1 is handed back as is; new bytes start generalUnwrap.
   */
  function Store(s: State, read: int, script: seq<Step>): (r: Option<(int, State)>)
    requires s.Valid() && s.Idle() && (read == -1 || 0 <= read <= s.input.Free())
    ensures s.closed ==> r == Some((0, s))
    ensures !s.closed && read <= 0 ==> r == Some((read, s))
    ensures r.Some? ==> r.value.0 == (if s.closed then 0 else read)
    ensures r.Some? ==> r.value.1.Valid() && r.value.1.Idle() && r.value.1.closed == s.closed && s.log <= r.value.1.log
    ensures r.Some? ==> r.value.1.input.used <= s.input.used + (if r.value.0 > 0 then r.value.0 else 0)
    ensures r.Some? ==> r.value.1.plain.used >= s.plain.used && r.value.1.plain.cap == s.plain.cap
    ensures r.None? ==> !s.closed && read > 0
    // new bytes start generalUnwrap over the filled input
    ensures !s.closed && read > 0 ==>
      var filled := s.(input := Ring(s.input.used + read, s.input.cap));
      (r.Some? <==> Run(filled, script).Some?) && (r.Some? ==> r.value == (read, Run(filled, script).value))
  {
    if s.closed then Some((0, s))
    else if read <= 0 then Some((read, s))
    else
      var filled := s.(input := Ring(s.input.used + read, s.input.cap));
      var t := Run(filled, script);
      if t.Some? then Some((read, t.value)) else None
  }

  datatype RejectReason = PlainNotEmpty | NotByteBuffer

  /** switchBuffer either throws RejectSwitchException or swaps the plain ring. */
  datatype SwitchOutcome = Switched | Rejected(reason: RejectReason)

  /**
   switchBuffer: refused while the current plain ring holds bytes, or when
   the new buffer is not a byte-buffer ring; otherwise the new ring becomes
   the plain ring and generalUnwrap runs over it.
   */
  function Switch(s: State, target: Ring, targetIsByteBuffer: bool, script: seq<Step>): (r: Option<(SwitchOutcome, State)>)
    requires s.Valid() && s.Idle() && target.Valid()
    ensures s.plain.used != 0 ==> r == Some((Rejected(PlainNotEmpty), s))
    ensures s.plain.used == 0 && !targetIsByteBuffer ==> r == Some((Rejected(NotByteBuffer), s))
    ensures r.Some? && r.value.0.Rejected? ==> r.value.1 == s
    ensures r.Some? && r.value.0 == Switched ==>
      && s.plain.used == 0 && targetIsByteBuffer
      && r.value.1.Valid() && r.value.1.Idle() && r.value.1.closed == s.closed && s.log <= r.value.1.log
      && r.value.1.plain.cap == target.cap && r.value.1.plain.used >= target.used
      && r.value.1.input.cap == s.input.cap && r.value.1.input.used <= s.input.used
    ensures r.None? ==> s.plain.used == 0 && targetIsByteBuffer
    // an accepted switch runs generalUnwrap over the new plain ring
    ensures s.plain.used == 0 && targetIsByteBuffer ==>
      var swapped := s.(plain := target);
      (r.Some? <==> Run(swapped, script).Some?) && (r.Some? ==> r.value == (Switched, Run(swapped, script).value))
  {
    if s.plain.used != 0 then Some((Rejected(PlainNotEmpty), s))
    else if !targetIsByteBuffer then Some((Rejected(NotByteBuffer), s))
    else
      var t := Run(s.(plain := target), script);
      if t.Some? then Some((Switched, t.value)) else None
  }

  /**
   Every storeBytesFrom that brings new bytes keeps the discipline (no
   engine call outside operating, no deferred action inside it) and fires
   "writable" at most once, and only when the input had been full.
   */
  lemma StoreEvents(s: State, read: int, script: seq<Step>)
    requires s.Valid() && s.Idle() && (read == -1 || 0 <= read <= s.input.Free())
    requires Store(s, read, script).Some?
    ensures var t := Store(s, read, script).value.1;
      && Disciplined(Appended(s, t))
      && WritableCount(Appended(s, t)) <= 1
      && (WritableCount(Appended(s, t)) == 1 ==> s.input.used + (if read > 0 then read else 0) == s.input.cap)
  {
    var t := Store(s, read, script).value.1;
    if s.closed || read <= 0 {
      assert t == s;
      assert Appended(s, t) == [];
    } else {
      var filled := s.(input := Ring(s.input.used + read, s.input.cap));
      assert t == Run(filled, script).value;
      RunDisciplined(filled, script);
      RunWritableOnce(filled, script);
      assert Appended(s, t) == Appended(filled, t);
    }
  }


  // ----- the buffers as objects -----

  /**
   The application-side plain buffer (a ByteBufferRingBuffer or some other
   ring): its contents summary, whether the adapter's handler is attached,
   and whether it is a byte-buffer ring at all.
   */
  class AppBuffer {
    var ring: Ring
    var handlerAttached: bool
    const byteBuffer: bool

    constructor (cap: nat, isByteBuffer: bool)
      ensures ring == Ring(0, cap) && !handlerAttached && byteBuffer == isByteBuffer
    {
      ring := Ring(0, cap);
      handlerAttached := false;
      byteBuffer := isByteBuffer;
    }
  }

  class SslUnwrapRingBuffer {
    var plain: AppBuffer
    var input: Ring
    var closed: bool
    var operating: bool
    var deferred: seq<Action>
    ghost var log: seq<Event>

    /** The adapter between entry points: sound rings, a byte-buffer plain ring with the handler attached. */
    ghost predicate Valid()
      reads this, plain
    {
      input.Valid() && plain.ring.Valid() && plain.byteBuffer && plain.handlerAttached
      && !operating && deferred == []
    }

    ghost function Snapshot(): State
      reads this, plain
    {
      State(input, plain.ring, closed, operating, deferred, log)
    }

    /** The constructor: attach the handler to the plain buffer and allocate an empty input ring. */
    constructor (plainBuffer: AppBuffer, inputCap: nat)
      requires plainBuffer.byteBuffer && plainBuffer.ring.Valid()
      modifies plainBuffer
      ensures Valid() && plain == plainBuffer && plainBuffer.ring == old(plainBuffer.ring)
      ensures input == Ring(0, inputCap) && !closed && log == []
    {
      plain := plainBuffer;
      input := Ring(0, inputCap);
      closed := false;
      operating := false;
      deferred := [];
      log := [];
      plainBuffer.handlerAttached := true;
    }

    method Defer(a: Action)
      modifies this
      ensures deferred == Enqueue(old(deferred), a)
      ensures plain == old(plain) && input == old(input) && closed == old(closed) && operating == old(operating) && log == old(log)
    {
      if a == PairWrap {
        deferred := deferred + [a];    // add
      } else {
        deferred := [a] + deferred;    // push
      }
    }

    /** unwrap(result): the answer for a NOT_HANDSHAKING result. */
    method Unwrap(status: Status, canDefragment: bool) returns (proceed: bool)
      modifies this
      ensures proceed == OnRecord(status, canDefragment).proceed
      ensures deferred == Pushed(old(deferred), OnRecord(status, canDefragment))
      ensures plain == old(plain) && input == old(input) && closed == old(closed) && operating == old(operating) && log == old(log)
    {
      match status
      case Closed =>
        proceed := false;
      case Ok =>
        Defer(ReUnwrap);
        proceed := true;
      case BufferUnderflow =>
        if canDefragment {
          Defer(DefragmentInput);
        }
        proceed := true;
      case BufferOverflow =>
        Defer(DefragmentApp);
        proceed := false;
    }

    /** unwrapHandshake(result): the answer while a handshake is in progress. */
    method UnwrapHandshake(r: EngineResult, canDefragment: bool) returns (proceed: bool)
      modifies this
      ensures proceed == OnHandshake(r, canDefragment).proceed
      ensures deferred == Pushed(old(deferred), OnHandshake(r, canDefragment))
      ensures log == old(log) + Effects(OnHandshake(r, canDefragment))
      ensures plain == old(plain) && input == old(input) && closed == old(closed) && operating == old(operating)
    {
      if r.status == BufferUnderflow {
        if canDefragment {
          Defer(DefragmentInput);
        }
        return false;
      }
      match r.handshake
      case NotHandshaking =>
        proceed := false;
      case Finished =>
        Defer(PairWrap);
        proceed := true;
      case NeedTask =>
        log := log + [TaskSpawned];
        proceed := true;
      case NeedWrap =>
        log := log + [PairWrapCalled];
        proceed := true;
      case NeedUnwrap =>
        Defer(ReUnwrap);
        proceed := true;
    }

    /** The callback handed to the engine: an SSLException gives false, otherwise dispatch. */
    method Callback(step: Step) returns (proceed: bool)
      modifies this
      ensures proceed == Decide(step.call, step.canDefragment).proceed
      ensures deferred == Pushed(old(deferred), Decide(step.call, step.canDefragment))
      ensures log == old(log) + Effects(Decide(step.call, step.canDefragment))
      ensures plain == old(plain) && input == old(input) && closed == old(closed) && operating == old(operating)
    {
      match step.call
      case Threw =>
        proceed := false;
      case Returned(result) =>
        if result.handshake == NotHandshaking {
          proceed := Unwrap(result.status, step.canDefragment);
        } else {
          proceed := UnwrapHandshake(result, step.canDefragment);
        }
    }

    /** engine.unwrap over the two rings, with the callback deciding what follows. */
    method CallEngine(step: Step)
      requires input.Valid() && plain.ring.Valid() && Fits(Snapshot(), step.call)
      modifies this, plain
      ensures plain == old(plain) && plain.handlerAttached == old(plain.handlerAttached)
      ensures Snapshot() == Engine(old(Snapshot()), step)
    {
      log := log + [EngineUnwrap(operating)];
      input := Ring(input.used - Consumed(step.call), input.cap);
      plain.ring := Ring(plain.ring.used + Produced(step.call), plain.ring.cap);
      var proceed := Callback(step);
      log := log + [CallbackReturned(proceed)];
    }

    /** generalUnwrap from setting the operating flag to clearing it again. */
    method OnePass(step: Step)
      requires Valid() && input.used > 0 && Fits(Snapshot(), step.call)
      modifies this, plain
      ensures plain == old(plain) && plain.byteBuffer && plain.handlerAttached
      ensures Snapshot() == Pass(old(Snapshot()), step)
    {
      var inBufferWasFull := input.Free() == 0;
      operating := true;
      CallEngine(step);
      var inBufferNowNotFull := input.Free() > 0;
      if inBufferWasFull && inBufferNowNotFull {
        log := log + [WritableFired];
      }
      operating := false;
    }

    /** generalUnwrap, proved to do what Run describes. */
    method GeneralUnwrap(script: seq<Step>)
      requires Valid() && Run(Snapshot(), script).Some?
      modifies this, plain
      ensures Valid() && plain == old(plain) && Snapshot() == Run(old(Snapshot()), script).value
      decreases |script|, 1
    {
      if input.used == 0 {
        return;
      }
      OnePass(script[0]);
      if deferred == [] {
        return;
      }
      assert |deferred| == 1;
      var a := deferred[0];
      deferred := deferred[1..];
      RunAction(a, script[1..]);
    }

    /** Runs a polled deferred action. */
    method RunAction(a: Action, rest: seq<Step>)
      requires Valid() && RunDeferred(Snapshot(), a, rest).Some?
      modifies this, plain
      ensures Valid() && plain == old(plain) && Snapshot() == RunDeferred(old(Snapshot()), a, rest).value
      decreases |rest| + 1, 0
    {
      ghost var polled := Polled(Snapshot(), a);
      log := log + [DeferredRun(a, operating)];
      match a
      case PairWrap =>
        log := log + [PairWrapCalled];
        assert Snapshot() == polled;
      case ReUnwrap =>
        assert Snapshot() == polled;
        GeneralUnwrap(rest);
      case DefragmentInput =>
        log := log + [InputDefragmented];
        assert Snapshot() == polled;
        GeneralUnwrap(rest);
      case DefragmentApp =>
        log := log + [AppDefragmented];
        assert Snapshot() == polled;
        GeneralUnwrap(rest);
    }

    /** storeBytesFrom, with `read` the count the input ring's read from the channel returned. */
    method StoreBytesFrom(read: int, script: seq<Step>) returns (r: int)
      requires Valid() && (read == -1 || 0 <= read <= input.Free())
      requires Store(Snapshot(), read, script).Some?
      modifies this, plain
      ensures Valid() && plain == old(plain)
      ensures (r, Snapshot()) == Store(old(Snapshot()), read, script).value
    {
      if closed {
        return 0;
      }
      if read == 0 {
        return 0;
      }
      if read == -1 {
        return -1;
      }
      input := Ring(input.used + read, input.cap);
      GeneralUnwrap(script);
      return read;
    }

    /** switchBuffer: on success the handler moves from the old plain buffer to the new one. */
    method SwitchBuffer(buf: AppBuffer, script: seq<Step>) returns (outcome: SwitchOutcome)
      requires Valid() && buf.ring.Valid() && Switch(Snapshot(), buf.ring, buf.byteBuffer, script).Some?
      modifies this, plain, buf
      ensures Valid()
      ensures (outcome, Snapshot()) == Switch(old(Snapshot()), old(buf.ring), buf.byteBuffer, script).value
      ensures outcome.Rejected? ==> plain == old(plain) && buf.ring == old(buf.ring) && buf.handlerAttached == old(buf.handlerAttached)
      ensures outcome == Switched ==> plain == buf && (old(plain) != buf ==> !old(plain).handlerAttached && old(plain).ring == old(plain.ring))
    {
      if plain.ring.used != 0 {
        return Rejected(PlainNotEmpty);
      }
      if !buf.byteBuffer {
        return Rejected(NotByteBuffer);
      }
      plain.handlerAttached := false;
      plain := buf;
      plain.handlerAttached := true;
      GeneralUnwrap(script);
      return Switched;
    }

    /** The delegated-task runner's last step, once the resumer runs it on the loop. */
    method ResumeAfterTasks(hs: HandshakeStatus, script: seq<Step>)
      requires Valid() && (AfterTasks(hs) == ResumeUnwrap ==> Run(Snapshot(), script).Some?)
      modifies this, plain
      ensures Valid() && plain == old(plain)
      ensures AfterTasks(hs) == ResumeWrap ==> Snapshot() == old(Snapshot()).(log := old(log) + [PairWrapCalled])
      ensures AfterTasks(hs) == ResumeUnwrap ==> Snapshot() == Run(old(Snapshot()), script).value
    {
      if AfterTasks(hs) == ResumeWrap {
        log := log + [PairWrapCalled];
      } else {
        GeneralUnwrap(script);
      }
    }

    /** WritableHandler.writableET: the plain buffer has room again. */
    method OnPlainWritable(script: seq<Step>)
      requires Valid() && Run(Snapshot(), script).Some?
      modifies this, plain
      ensures Valid() && plain == old(plain) && Snapshot() == Run(old(Snapshot()), script).value
    {
      GeneralUnwrap(script);
    }

    /** WritableHandler.readableET: passed on to this buffer's own handlers. */
    method OnPlainReadable()
      modifies this
      ensures plain == old(plain) && Snapshot() == old(Snapshot()).(log := old(log) + [ReadableFired])
    {
      log := log + [ReadableFired];
    }

    /**
     writeTo: delegated to the plain buffer, which hands out at most
     maxBytesToWrite of the bytes it holds, and no more than the channel
     takes (`accepted`).
     */
    method WriteTo(maxBytesToWrite: int, accepted: nat) returns (written: nat)
      requires Valid()
      modifies plain
      ensures Valid()
      ensures written <= old(plain.ring.used) && written <= accepted && written <= (if maxBytesToWrite < 0 then 0 else maxBytesToWrite)
      ensures written == old(plain.ring.used) || written == accepted || written == (if maxBytesToWrite < 0 then 0 else maxBytesToWrite)
      ensures plain.ring == Ring(old(plain.ring.used) - written, old(plain.ring.cap))
    {
      written := plain.ring.used;
      if accepted < written {
        written := accepted;
      }
      if maxBytesToWrite < written {
        written := if maxBytesToWrite < 0 then 0 else maxBytesToWrite;
      }
      plain.ring := Ring(plain.ring.used - written, plain.ring.cap);
    }

    /** free(): room in the input ring, which is where storeBytesFrom puts bytes. */
    function Free(): (r: int)
      reads this
      ensures input.Valid() ==> r >= 0
      ensures r == 0 <==> input.used == input.cap
    {
      input.Free()
    }

    /** used(): bytes waiting for the application in the plain ring. */
    function Used(): (r: nat)
      reads this, plain
      ensures r <= plain.ring.cap || !plain.ring.Valid()
    {
      plain.ring.used
    }

    /** capacity(): the plain ring's capacity. */
    function Capacity(): (r: nat)
      reads this, plain
      ensures plain.ring.Valid() ==> r >= Used()
    {
      plain.ring.cap
    }

    method Close()
      modifies this
      ensures closed && plain == old(plain) && input == old(input) && deferred == old(deferred) && operating == old(operating) && log == old(log)
    {
      closed := true;
    }

    method Clear()
      modifies plain
      ensures plain.ring == Ring(0, old(plain.ring.cap)) && plain.handlerAttached == old(plain.handlerAttached)
    {
      plain.ring := Ring(0, plain.ring.cap);
    }
  }
}
