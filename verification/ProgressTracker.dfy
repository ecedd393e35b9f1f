/** The progress of one interaction (internal/secretary/progress.go): `Observe`, the callback of the timer
    and `Close` run concurrently, and share a lock and a channel that is closed when the delayed event has
    been emitted. What each does under the lock is a method of `InteractionProgressTracker`; what any
    number of them do together is a run of steps, in any order that the lock and the channel allow. */
module ProgressTracker {
  import opened Text

  datatype Kind =
    | IntentRecognized | StageChanged | LookupStarted | ActionRecognized | ActionStarted
    | WorkDelayed | Completed | Blocked | OtherKind(name: string)

  datatype Event = Event(kind: Kind, meaning: string, source: string, action: string, stage: string, reason: string)
  {
    predicate Terminal() {
      kind == Completed || kind == Blocked
    }
  }

  /** The channel that is made when the delayed event is sent. */
  datatype Done = NoChannel | Open | Closed

  /** What the lock protects; `armed` says that the timer may still fire. */
  datatype Tracker = Tracker(stage: string, sent: bool, closed: bool, done: Done, armed: bool)

  function BoundedLabel(value: string): (r: string)
    ensures |r| <= 80 && r <= TrimSpace(value) && (r != TrimSpace(value) ==> |r| == 80)
  {
    var trimmed := TrimSpace(value);
    if |trimmed| > 80 then trimmed[..80] else trimmed
  }

  function StageAfter(stage: string, event: Event): string {
    match event.kind
    case IntentRecognized => "preparando la respuesta"
    case StageChanged => if TrimSpace(event.stage) != "" then TrimSpace(event.stage) else stage
    case LookupStarted => "consultando " + BoundedLabel(event.source)
    case ActionRecognized => "comprobando la acción solicitada"
    case ActionStarted => "ejecutando " + BoundedLabel(event.action)
    case WorkDelayed => TrimSpace(event.stage)
    case _ => stage
  }

  // ----- what is done under the lock -----

  function Opened(emits: bool): Tracker {
    Tracker("interpretando la consulta", false, false, NoChannel, emits)
  }

  function Shut(t: Tracker): Tracker {
    t.(closed := true, armed := false)
  }

  function Observed(t: Tracker, event: Event): Tracker {
    if t.closed then t
    else
      var t' := t.(stage := StageAfter(t.stage, event));
      if event.Terminal() then Shut(t') else t'
  }

  predicate Forwards(t: Tracker, event: Event, emits: bool) {
    !t.closed && event.kind != StageChanged && event.kind != WorkDelayed && emits
  }

  predicate Due(t: Tracker, emits: bool) {
    !t.closed && !t.sent && emits && t.stage != ""
  }

  function Delayed(t: Tracker): Event {
    Event(WorkDelayed, "", "", "", t.stage, "")
  }

  class Channel {
    var closed: bool

    constructor ()
      ensures !closed
    {
      closed := false;
    }
  }

  class InteractionProgressTracker {
    const emits: bool
    var stage: string
    var sent: bool
    var closed: bool
    var emitDone: Channel?
    var armed: bool

    ghost function View(): Tracker
      reads this, emitDone
    {
      Tracker(stage, sent, closed,
              if emitDone == null then NoChannel else if emitDone.closed then Closed else Open, armed)
    }

    constructor (emits: bool)
      ensures this.emits == emits && View() == Opened(emits)
    {
      this.emits := emits;
      stage, sent, closed, emitDone, armed := "interpretando la consulta", false, false, null, emits;
    }

    /** `Observe` between taking and releasing the lock. */
    method Observe(event: Event) returns (forward: bool, waitForEmit: Channel?)
      modifies this
      ensures emitDone == old(emitDone) && View() == Observed(old(View()), event)
      ensures forward == Forwards(old(View()), event, emits)
      ensures waitForEmit == if !old(closed) && event.Terminal() then emitDone else null
    {
      forward, waitForEmit := false, null;
      if closed {
        return;
      }
      match event.kind {
        case IntentRecognized => stage := "preparando la respuesta";
        case StageChanged =>
          if TrimSpace(event.stage) != "" {
            stage := TrimSpace(event.stage);
          }
        case LookupStarted => stage := "consultando " + BoundedLabel(event.source);
        case ActionRecognized => stage := "comprobando la acción solicitada";
        case ActionStarted => stage := "ejecutando " + BoundedLabel(event.action);
        case WorkDelayed => stage := TrimSpace(event.stage);
        case _ =>
      }
      if event.kind == Completed || event.kind == Blocked {
        closed := true;
        armed := false;
        waitForEmit := emitDone;
      }
      forward := event.kind != StageChanged && event.kind != WorkDelayed && emits;
    }

    /** The callback of the timer between taking and releasing the lock. */
    method SendDelayed() returns (due: bool, event: Event)
      modifies this
      ensures due == Due(old(View()), emits)
      ensures !due ==> View() == old(View())
      ensures due ==> View() == old(View()).(sent := true, done := Open) && event == Delayed(View())
    {
      event := Event(WorkDelayed, "", "", "", stage, "");
      due := !(closed || sent || !emits || stage == "");
      if due {
        sent := true;
        emitDone := new Channel();
      }
    }

    /** The deferred close, after the delayed event has been emitted. */
    method CloseDone()
      requires emitDone != null
      modifies emitDone
      ensures View() == old(View()).(done := Closed)
    {
      emitDone.closed := true;
    }

    /** `Close` between taking and releasing the lock. */
    method Close() returns (done: Channel?)
      modifies this
      ensures emitDone == old(emitDone) && View() == Shut(old(View())) && done == emitDone
    {
      closed := true;
      armed := false;
      done := emitDone;
    }
  }

  // ----- runs -----

  datatype Call = ObserveCall(event: Event) | CloseCall

  datatype Point = AtLock | AtEmit | InEmit | AtWait | Returned

  /** A call in progress. `found` says that it found the tracker open, `waits` that it will wait for the channel. */
  datatype Thread = Thread(call: Call, found: bool, waits: bool, at: Point)
  {
    /** This call, or an earlier one, has closed the tracker, and this one waits for the delayed event. */
    predicate Closing() {
      at != AtLock && if call.CloseCall? then true else found && call.event.Terminal()
    }

    /** This call brings the terminal event. */
    predicate Ends() {
      at != AtLock && call.ObserveCall? && found && call.event.Terminal()
    }
  }

  datatype Callback = Unfired | Fired | Sending(event: Event) | Emitting(event: Event) | Emitted | Ended

  datatype State = State(emits: bool, tracker: Tracker, callback: Callback, threads: seq<Thread>)

  datatype Step =
    | Begin(call: Call)
    | Lock(i: nat) | Emit(i: nat) | EmitEnds(i: nat) | Return(i: nat)
    | Fire | CallbackLock | CallbackEmit | CallbackEmitEnds | CallbackClose

  function Initial(emits: bool): State {
    State(emits, Opened(emits), Unfired, [])
  }

  predicate At(s: State, i: nat, at: Point) {
    i < |s.threads| && s.threads[i].at == at
  }

  predicate Enabled(s: State, step: Step) {
    match step
    case Begin(_) => true
    case Lock(i) => At(s, i, AtLock)
    case Emit(i) => At(s, i, AtEmit)
    case EmitEnds(i) => At(s, i, InEmit)
    case Return(i) => At(s, i, AtWait) && (s.threads[i].waits ==> s.tracker.done == Closed)
    case Fire => s.tracker.armed
    case CallbackLock => s.callback == Fired
    case CallbackEmit => s.callback.Sending?
    case CallbackEmitEnds => s.callback.Emitting?
    case CallbackClose => s.callback == Emitted
  }

  function Locked(s: State, t: Thread): Thread {
    match t.call
    case ObserveCall(event) =>
      t.(found := !s.tracker.closed,
         waits := !s.tracker.closed && event.Terminal() && s.tracker.done != NoChannel,
         at := if Forwards(s.tracker, event, s.emits) then AtEmit else AtWait)
    case CloseCall =>
      t.(found := !s.tracker.closed, waits := s.tracker.done != NoChannel, at := AtWait)
  }

  function Next(s: State, step: Step): State
    requires Enabled(s, step)
  {
    match step
    case Begin(call) => s.(threads := s.threads + [Thread(call, false, false, AtLock)])
    case Lock(i) =>
      var t := s.threads[i];
      s.(tracker := if t.call.CloseCall? then Shut(s.tracker) else Observed(s.tracker, t.call.event),
         threads := s.threads[i := Locked(s, t)])
    case Emit(i) => s.(threads := s.threads[i := s.threads[i].(at := InEmit)])
    case EmitEnds(i) => s.(threads := s.threads[i := s.threads[i].(at := AtWait)])
    case Return(i) => s.(threads := s.threads[i := s.threads[i].(at := Returned)])
    case Fire => s.(tracker := s.tracker.(armed := false), callback := Fired)
    case CallbackLock =>
      if Due(s.tracker, s.emits) then
        s.(tracker := s.tracker.(sent := true, done := Open), callback := Sending(Delayed(s.tracker)))
      else s.(callback := Ended)
    case CallbackEmit => s.(callback := Emitting(s.callback.event))
    case CallbackEmitEnds => s.(callback := Emitted)
    case CallbackClose => s.(tracker := s.tracker.(done := Closed), callback := Ended)
  }

  datatype Run = Start(emits: bool) | Then(before: Run, step: Step)
  {
    ghost predicate Legal()
      decreases this, 0
    {
      Then? ==> before.Legal() && Enabled(before.After(), step)
    }

    function After(): State
      requires Legal()
      decreases this, 1
    {
      if Start? then Initial(emits) else Next(before.After(), step)
    }

    ghost predicate Extends(earlier: Run) {
      this == earlier || (Then? && before.Extends(earlier))
    }

    /** The events whose emission has begun, in order. */
    function Emissions(): seq<Event>
      requires Legal()
    {
      if Start? then []
      else before.Emissions() + EmittedBy(before.After(), step)
    }
  }

  function EmittedBy(s: State, step: Step): seq<Event>
    requires Enabled(s, step)
  {
    match step
    case Emit(i) => if s.threads[i].call.ObserveCall? then [s.threads[i].call.event] else []
    case CallbackEmit => [s.callback.event]
    case _ => []
  }

  /** The delayed event is being emitted, or about to be. */
  predicate DelayedRuns(s: State) {
    s.callback.Sending? || s.callback.Emitting?
  }

  function CountDelayed(events: seq<Event>): nat {
    if events == [] then 0
    else CountDelayed(events[..|events| - 1]) + if events[|events| - 1].kind == WorkDelayed then 1 else 0
  }

  function CountTerminal(events: seq<Event>): nat {
    if events == [] then 0
    else CountTerminal(events[..|events| - 1]) + if events[|events| - 1].Terminal() then 1 else 0
  }

  lemma CountsOneMore(events: seq<Event>, e: Event)
    ensures CountDelayed(events + [e]) == CountDelayed(events) + if e.kind == WorkDelayed then 1 else 0
    ensures CountTerminal(events + [e]) == CountTerminal(events) + if e.Terminal() then 1 else 0
  {
    assert (events + [e])[..|events|] == events;
  }

  // ----- what every step keeps -----

  /** The channel follows the callback, which runs once at most. */
  predicate CallbackSane(s: State) {
    && (s.tracker.sent <==> s.tracker.done != NoChannel)
    && (s.tracker.done == Open <==> s.callback.Sending? || s.callback.Emitting? || s.callback == Emitted)
    && (s.tracker.done == Closed ==> s.callback == Ended)
    && (s.tracker.armed ==> s.callback == Unfired && s.emits)
    && (s.tracker.closed ==> !s.tracker.armed)
    && (s.callback.Sending? || s.callback.Emitting? ==> s.callback.event.kind == WorkDelayed)
  }

  predicate ThreadSane(s: State, t: Thread) {
    && (t.at in {AtEmit, InEmit} ==>
          && t.call.ObserveCall? && t.found && s.emits
          && t.call.event.kind != StageChanged && t.call.event.kind != WorkDelayed)
    && (t.Closing() ==> s.tracker.closed && (!t.waits ==> s.tracker.done == NoChannel))
    && (t.Closing() && t.at == Returned ==> s.tracker.done != Open)
    && (t.waits ==> s.tracker.done != NoChannel)
  }

  ghost predicate Sane(s: State) {
    && CallbackSane(s)
    && (forall i :: 0 <= i < |s.threads| ==> ThreadSane(s, s.threads[i]))
    && EndOnce(s.threads)
  }

  /** At most one call brings the terminal event. */
  ghost predicate EndOnce(threads: seq<Thread>) {
    forall i, j :: 0 <= i < j < |threads| ==> !(threads[i].Ends() && threads[j].Ends())
  }

  lemma StepKeepsCallback(s: State, step: Step)
    requires CallbackSane(s) && Enabled(s, step)
    ensures CallbackSane(Next(s, step))
  {
    hide StageAfter, Locked;
  }

  /** Each thread stays sane, whoever takes the step. */
  lemma StepKeepsThread(s: State, step: Step, i: nat)
    requires CallbackSane(s) && Enabled(s, step)
    requires i < |s.threads| && ThreadSane(s, s.threads[i])
    ensures ThreadSane(Next(s, step), Next(s, step).threads[i])
  {
    hide StageAfter;
  }

  lemma StepKeepsEnd(s: State, step: Step)
    requires Sane(s) && Enabled(s, step)
    ensures EndOnce(Next(s, step).threads)
  {
    if step.Lock? {
      LockKeepsEnd(s, step.i);
    } else {
      hide StageAfter, Locked, CallbackSane, ThreadSane, Observed, Shut;
      var threads := Next(s, step).threads;
      assert forall i :: 0 <= i < |s.threads| ==> threads[i].Ends() == s.threads[i].Ends();
      assert forall i :: |s.threads| <= i < |threads| ==> !threads[i].Ends();
    }
  }

  lemma LockKeepsEnd(s: State, i: nat)
    requires Sane(s) && Enabled(s, Lock(i))
    ensures EndOnce(s.threads[i := Locked(s, s.threads[i])])
  {
    hide CallbackSane, Forwards;
    if Locked(s, s.threads[i]).Ends() {
      forall j | 0 <= j < |s.threads| ensures !s.threads[j].Ends() {
        assert ThreadSane(s, s.threads[j]);
      }
    }
    hide ThreadSane, Locked;
  }

  lemma StepKeepsSane(s: State, step: Step)
    requires Sane(s) && Enabled(s, step)
    ensures Sane(Next(s, step))
  {
    var next := Next(s, step);
    assert |next.threads| == |s.threads| || step.Begin?;
    assert step.Begin? ==> next == s.(threads := s.threads + [Thread(step.call, false, false, AtLock)]);
    StepKeepsCallback(s, step);
    StepKeepsEnd(s, step);
    hide CallbackSane, EndOnce, Enabled, Next;
    forall i | 0 <= i < |next.threads| ensures ThreadSane(next, next.threads[i]) {
      if i < |s.threads| {
        hide ThreadSane;
        StepKeepsThread(s, step, i);
      }
    }
  }

  lemma {:induction false} RunsAreSane(run: Run)
    requires run.Legal()
    ensures Sane(run.After())
  {
    if run.Then? {
      RunsAreSane(run.before);
      hide Sane, Enabled, Next;
      StepKeepsSane(run.before.After(), run.step);
    }
  }

  // ----- what is emitted -----

  lemma {:induction false} DelayedCounted(run: Run)
    requires run.Legal()
    ensures var s := run.After();
      CountDelayed(run.Emissions()) == if s.tracker.sent && !s.callback.Sending? then 1 else 0
  {
    if run.Then? {
      DelayedCounted(run.before);
      RunsAreSane(run.before);
      var s, step := run.before.After(), run.step;
      DelayedStep(s, step);
      EmissionsOneMore(run);
    }
  }

  lemma EmissionsOneMore(run: Run)
    requires run.Then? && run.Legal()
    ensures var before, new_ := run.before.Emissions(), EmittedBy(run.before.After(), run.step);
      && CountDelayed(run.Emissions()) == CountDelayed(before) + CountDelayed(new_)
      && CountTerminal(run.Emissions()) == CountTerminal(before) + CountTerminal(new_)
  {
    var before, new_ := run.before.Emissions(), EmittedBy(run.before.After(), run.step);
    if new_ == [] {
      assert before + new_ == before;
    } else {
      CountsOneMore(before, new_[0]);
      CountsOneMore([], new_[0]);
      assert new_ == [new_[0]] == [] + [new_[0]];
    }
  }

  /** Of the threads only an `Observe` forwards, and never the delayed kind; the callback emits nothing else. */
  lemma CountedBy(s: State, step: Step)
    requires Sane(s) && Enabled(s, step)
    ensures CountDelayed(EmittedBy(s, step)) == if step == CallbackEmit then 1 else 0
    ensures CountTerminal(EmittedBy(s, step)) == if step.Emit? && s.threads[step.i].Ends() then 1 else 0
  {
    if step.Emit? {
      assert ThreadSane(s, s.threads[step.i]);
      CountsOneMore([], s.threads[step.i].call.event);
      assert EmittedBy(s, step) == [] + [s.threads[step.i].call.event];
    } else if step == CallbackEmit {
      CountsOneMore([], s.callback.event);
      assert EmittedBy(s, step) == [] + [s.callback.event];
    }
  }

  lemma DelayedStep(s: State, step: Step)
    requires Sane(s) && Enabled(s, step)
    ensures var s' := Next(s, step);
      CountDelayed(EmittedBy(s, step)) ==
        (if s'.tracker.sent && !s'.callback.Sending? then 1 else 0) -
        (if s.tracker.sent && !s.callback.Sending? then 1 else 0)
  {
    hide StageAfter, CountDelayed, CountTerminal;
    CountedBy(s, step);
  }

  /** However the steps interleave, the delayed event is emitted once at most. */
  lemma DelayedOnce(run: Run)
    requires run.Legal()
    ensures CountDelayed(run.Emissions()) <= 1
  {
    DelayedCounted(run);
  }

  /** The terminal event that closed the tracker is the only one that counts. */
  ghost predicate EndsOnce(s: State, emitted: nat) {
    && emitted <= 1
    && (emitted == 1 ==> s.tracker.closed)
    && forall i :: 0 <= i < |s.threads| && s.threads[i].Ends() && s.emits ==>
         emitted == if s.threads[i].at == AtEmit then 0 else 1
  }

  lemma TerminalStep(s: State, step: Step, emitted: nat)
    requires Sane(s) && Enabled(s, step) && EndsOnce(s, emitted)
    ensures EndsOnce(Next(s, step), emitted + CountTerminal(EmittedBy(s, step)))
  {
    hide StageAfter, CountDelayed, CountTerminal;
    CountedBy(s, step);
  }

  lemma {:induction false} TerminalCounted(run: Run)
    requires run.Legal()
    ensures EndsOnce(run.After(), CountTerminal(run.Emissions()))
  {
    if run.Then? {
      TerminalCounted(run.before);
      RunsAreSane(run.before);
      hide Sane, EndsOnce, Enabled, Next, EmittedBy;
      TerminalStep(run.before.After(), run.step, CountTerminal(run.before.Emissions()));
      EmissionsOneMore(run);
    }
  }

  /** At most one terminal event is forwarded, and exactly one when the `Observe` that closed the tracker has
      returned. */
  lemma TerminalOnce(run: Run, i: nat)
    requires run.Legal()
    ensures CountTerminal(run.Emissions()) <= 1
    ensures At(run.After(), i, Returned) && run.After().threads[i].Ends() && run.After().emits ==>
              CountTerminal(run.Emissions()) == 1
  {
    TerminalCounted(run);
  }

  // ----- what is forwarded -----

  /** How often the call of thread `i` has emitted its event. */
  ghost function TimesEmitted(run: Run, i: nat): nat {
    if run.Start? then 0 else TimesEmitted(run.before, i) + if run.step == Emit(i) then 1 else 0
  }

  /** A call that finds the tracker open forwards every event but changes of stage and delays. */
  predicate ToForward(s: State, t: Thread) {
    t.call.ObserveCall? && t.found && s.emits && !(t.call.event.kind in {StageChanged, WorkDelayed})
  }

  ghost predicate EmitsSane(s: State, i: nat, times: nat) {
    if i >= |s.threads| || s.threads[i].at == AtLock || s.threads[i].at == AtEmit then times == 0
    else times == if ToForward(s, s.threads[i]) then 1 else 0
  }

  lemma EmitStep(s: State, step: Step, i: nat, times: nat)
    requires Sane(s) && Enabled(s, step) && EmitsSane(s, i, times)
    ensures EmitsSane(Next(s, step), i, times + if step == Emit(i) then 1 else 0)
  {
    hide StageAfter, CallbackSane, EndOnce, Shut, Observed;
    if i < |s.threads| {
      assert ThreadSane(s, s.threads[i]);
    }
  }

  lemma {:induction false} EmitsCounted(run: Run, i: nat)
    requires run.Legal()
    ensures EmitsSane(run.After(), i, TimesEmitted(run, i))
  {
    if run.Then? {
      EmitsCounted(run.before, i);
      RunsAreSane(run.before);
      EmitStep(run.before.After(), run.step, i, TimesEmitted(run.before, i));
      hide Sane, Enabled, Next, EmitsSane;
    }
  }

  /** When a call of `Observe` has returned, its event has been forwarded once if it found the tracker open, there
      is an observer, and the event is no change of stage and no delay; and otherwise not at all. */
  lemma ForwardedOnceIff(run: Run, i: nat)
    requires run.Legal() && At(run.After(), i, Returned) && run.After().threads[i].call.ObserveCall?
    ensures var t := run.After().threads[i];
      TimesEmitted(run, i) ==
        if t.found && run.After().emits && t.call.event.kind != StageChanged && t.call.event.kind != WorkDelayed
        then 1 else 0
  {
    EmitsCounted(run, i);
  }

  // ----- what the delayed event says -----

  /** The stage that was named last while the tracker was open. */
  ghost function LastStage(run: Run): string
    requires run.Legal()
  {
    if run.Start? then "interpretando la consulta"
    else
      var s := run.before.After();
      if run.step.Lock? && s.threads[run.step.i].call.ObserveCall? && !s.tracker.closed
      then StageAfter(LastStage(run.before), s.threads[run.step.i].call.event)
      else LastStage(run.before)
  }

  /** The stage that an event names. */
  lemma StagesByEvent(stage: string, event: Event)
    ensures var after := StageAfter(stage, event);
      match event.kind
      case IntentRecognized => after == "preparando la respuesta"
      case StageChanged => after == if Blank(event.stage) then stage else TrimSpace(event.stage)
      case LookupStarted => after[..12] == "consultando " && after[12..] <= TrimSpace(event.source)
      case ActionRecognized => after == "comprobando la acción solicitada"
      case ActionStarted => after[..11] == "ejecutando " && after[11..] <= TrimSpace(event.action)
      case WorkDelayed => after == TrimSpace(event.stage)
      case _ => after == stage
  {
    hide TrimSpace;
  }

  lemma {:induction false} StageIsLast(run: Run)
    requires run.Legal()
    ensures run.After().tracker.stage == LastStage(run)
  {
    hide StageAfter;
    if run.Then? {
      StageIsLast(run.before);
    }
  }

  /** When the delayed event becomes due, it names the stage that was named last. */
  lemma DelayedNamesStage(run: Run)
    requires run.Legal() && run.Then? && run.step == CallbackLock && run.After().callback.Sending?
    ensures run.After().callback.event == Event(WorkDelayed, "", "", "", LastStage(run.before), "")
    ensures LastStage(run.before) != ""
  {
    StageIsLast(run.before);
    hide StageAfter, LastStage;
  }

  // ----- quiet after the end -----

  /** Nothing delayed is running, and nothing will. */
  predicate Quiet(s: State) {
    s.tracker.closed && !DelayedRuns(s)
  }

  lemma {:induction false} QuietStays(run: Run, earlier: Run)
    requires run.Legal() && run.Extends(earlier) && earlier.Legal() && Quiet(earlier.After())
    ensures Quiet(run.After()) && CountDelayed(run.Emissions()) == CountDelayed(earlier.Emissions())
  {
    if run != earlier {
      QuietStays(run.before, earlier);
      RunsAreSane(run.before);
      RunsAreSane(run);
      DelayedCounted(run.before);
      DelayedCounted(run);
      hide Sane;
      QuietStep(run.before.After(), run.step);
    }
  }

  lemma QuietStep(s: State, step: Step)
    requires Quiet(s) && Enabled(s, step)
    ensures Quiet(Next(s, step)) && Next(s, step).tracker.sent == s.tracker.sent
  {
    hide StageAfter;
  }

  /** Once `Close`, or the `Observe` that closed the tracker, has returned, no delayed emission is running or
      ever starts. */
  lemma QuietAfterClosing(run: Run, earlier: Run, i: nat)
    requires run.Legal() && run.Extends(earlier) && earlier.Legal()
    requires At(earlier.After(), i, Returned)
    requires var t := earlier.After().threads[i];
      t.call.CloseCall? || (t.found && t.call.event.kind in {Completed, Blocked})
    ensures !DelayedRuns(run.After()) && CountDelayed(run.Emissions()) == CountDelayed(earlier.Emissions())
  {
    RunsAreSane(earlier);
    ClosedIsQuiet(earlier.After(), i);
    QuietStays(run, earlier);
  }

  lemma ClosedIsQuiet(s: State, i: nat)
    requires Sane(s) && At(s, i, Returned) && s.threads[i].Closing()
    ensures Quiet(s)
  {
  }

  /** What a call found when it took the lock does not change. */
  lemma {:induction false} ThreadKeepsCall(run: Run, earlier: Run, i: nat)
    requires run.Legal() && run.Extends(earlier) && earlier.Legal()
    requires i < |earlier.After().threads| && earlier.After().threads[i].at != AtLock
    ensures i < |run.After().threads|
    ensures run.After().threads[i].call == earlier.After().threads[i].call
    ensures run.After().threads[i].found == earlier.After().threads[i].found
    ensures run.After().threads[i].at != AtLock
  {
    if run != earlier {
      ThreadKeepsCall(run.before, earlier, i);
      StepKeepsCall(run.before.After(), run.step, i);
      hide Next, Enabled;
    }
  }

  lemma StepKeepsCall(s: State, step: Step, i: nat)
    requires Enabled(s, step) && i < |s.threads| && s.threads[i].at != AtLock
    ensures i < |Next(s, step).threads| && Next(s, step).threads[i].at != AtLock
    ensures Next(s, step).threads[i].call == s.threads[i].call && Next(s, step).threads[i].found == s.threads[i].found
  {
    hide Locked, Observed, Shut, Due;
  }

  /** A terminal `Observe` is not followed by a delayed emission unless it finds the tracker closed while
      the delayed event is being emitted: it then returns without waiting. */
  lemma ObserveIsQuietIff(run: Run, i: nat)
    requires run.Legal() && At(run.After(), i, AtLock)
    requires var call := run.After().threads[i].call; call.ObserveCall? && call.event.Terminal()
    ensures (forall later: Run ::
               later.Legal() && later.Extends(Then(run, Lock(i))) && At(later.After(), i, Returned)
               ==> !DelayedRuns(later.After()))
            <==> !(run.After().tracker.closed && DelayedRuns(run.After()))
  {
    var s, locked := run.After(), Then(run, Lock(i));
    if s.tracker.closed && DelayedRuns(s) {
      ReturnsAtOnce(run, i);
    } else {
      forall later: Run | later.Legal() && later.Extends(locked) && At(later.After(), i, Returned)
        ensures !DelayedRuns(later.After())
      {
        ObserveIsQuiet(run, i, later);
      }
    }
  }

  lemma ReturnsAtOnce(run: Run, i: nat)
    requires run.Legal() && At(run.After(), i, AtLock) && run.After().threads[i].call.ObserveCall?
    requires run.After().tracker.closed && DelayedRuns(run.After())
    ensures var later := Then(Then(run, Lock(i)), Return(i));
      later.Legal() && later.Extends(Then(run, Lock(i))) && At(later.After(), i, Returned) && DelayedRuns(later.After())
  {
    hide StageAfter;
  }

  lemma BothCallsBegun(call: Call) returns (run: Run)
    ensures run.Legal()
    ensures run.After().threads == [Thread(call, false, false, AtLock), Thread(call, false, false, AtLock)]
    ensures run.After().callback == Unfired && run.After().tracker == Opened(true) && run.After().emits
  {
    hide Opened;
    var thread := Thread(call, false, false, AtLock);
    BeginStep(Start(true), call);
    var once := Then(Start(true), Begin(call));
    BeginStep(once, call);
    assert [] + [thread] == [thread] && [thread] + [thread] == [thread, thread];
    run := Then(once, Begin(call));
  }

  lemma BeginStep(run: Run, call: Call)
    requires run.Legal()
    ensures var later := Then(run, Begin(call));
      && later.Legal()
      && later.After() == run.After().(threads := run.After().threads + [Thread(call, false, false, AtLock)])
  {
  }

  lemma DelayedIsDue(begun: Run) returns (run: Run)
    requires begun.Legal() && begun.After().callback == Unfired
    requires begun.After().tracker == Opened(true) && begun.After().emits
    ensures run.Legal() && run.After().callback.Sending? && run.After().threads == begun.After().threads
    ensures !run.After().tracker.closed
  {
    var fired := Then(begun, Fire);
    assert fired.Legal() && fired.After().callback == Fired;
    run := Then(fired, CallbackLock);
  }

  /** A run in which that happens: two calls bring a terminal event while the delayed one is due, and the
      second of them has returned before the delayed event has been emitted. */
  lemma ObserveCanReturnDuringEmission() returns (run: Run)
    ensures run.Legal() && DelayedRuns(run.After())
    ensures At(run.After(), 1, Returned)
    ensures var call := run.After().threads[1].call; call.ObserveCall? && call.event.Terminal()
  {
    hide StageAfter, Opened, Observed, Delayed;
    var call := ObserveCall(Event(Completed, "", "", "", "", ""));
    var begun := BothCallsBegun(call);
    var due := DelayedIsDue(begun);
    FirstCloses(due, call);
    var closed := Then(due, Lock(0));
    ReturnsAtOnce(closed, 1);
    run := Then(Then(closed, Lock(1)), Return(1));
    ThreadKeepsCall(run, Then(closed, Lock(1)), 1);
  }

  lemma FirstCloses(due: Run, call: Call)
    requires due.Legal() && due.After().callback.Sending? && !due.After().tracker.closed
    requires due.After().threads == [Thread(call, false, false, AtLock), Thread(call, false, false, AtLock)]
    requires call.ObserveCall? && call.event.Terminal()
    ensures var closed := Then(due, Lock(0));
      && closed.Legal() && closed.After().tracker.closed && DelayedRuns(closed.After())
      && At(closed.After(), 1, AtLock) && closed.After().threads[1].call == call
  {
    hide StageAfter;
  }

  lemma ObserveIsQuiet(run: Run, i: nat, later: Run)
    requires run.Legal() && At(run.After(), i, AtLock)
    requires var call := run.After().threads[i].call; call.ObserveCall? && call.event.Terminal()
    requires !(run.After().tracker.closed && DelayedRuns(run.After()))
    requires later.Legal() && later.Extends(Then(run, Lock(i))) && At(later.After(), i, Returned)
    ensures !DelayedRuns(later.After())
  {
    var s, locked := run.After(), Then(run, Lock(i));
    hide StageAfter;
    if s.tracker.closed {
      assert Quiet(locked.After());
      QuietStays(later, locked);
    } else {
      assert locked.After().threads[i].Closing();
      ThreadKeepsCall(later, locked, i);
      RunsAreSane(later);
      ClosedIsQuiet(later.After(), i);
    }
  }

  // ----- every call returns -----

  function PointRank(at: Point): nat {
    match at case AtLock => 4 case AtEmit => 3 case InEmit => 2 case AtWait => 1 case Returned => 0
  }

  function CallbackRank(callback: Callback): nat {
    match callback
    case Unfired => 5 case Fired => 4 case Sending(_) => 3 case Emitting(_) => 2 case Emitted => 1 case Ended => 0
  }

  /** The steps that a call and the callback have before them, at most. */
  function Left(s: State, i: nat): nat
    requires i < |s.threads|
  {
    PointRank(s.threads[i].at) + CallbackRank(s.callback)
  }

  /** No call is ever stuck, on the lock or on the channel: until it has returned, it or the callback
      can take a step that brings it nearer to its return, and no step takes it further away. */
  lemma NoCallIsStuck(run: Run, i: nat) returns (step: Step)
    requires run.Legal() && i < |run.After().threads| && run.After().threads[i].at != Returned
    ensures Enabled(run.After(), step) && !step.Begin?
    ensures Left(Next(run.After(), step), i) < Left(run.After(), i)
    ensures forall other :: Enabled(run.After(), other) ==>
              && i < |Next(run.After(), other).threads|
              && Left(Next(run.After(), other), i) <= Left(run.After(), i)
  {
    RunsAreSane(run);
    var s := run.After();
    step := NextFor(s, i);
    forall other | Enabled(s, other)
      ensures i < |Next(s, other).threads| && Left(Next(s, other), i) <= Left(s, i)
    {
      NoFurther(s, other, i);
    }
  }

  lemma NextFor(s: State, i: nat) returns (step: Step)
    requires Sane(s) && i < |s.threads| && s.threads[i].at != Returned
    ensures Enabled(s, step) && !step.Begin? && Left(Next(s, step), i) < Left(s, i)
  {
    hide StageAfter;
    match s.threads[i].at {
      case AtLock => step := Lock(i);
      case AtEmit => step := Emit(i);
      case InEmit => step := EmitEnds(i);
      case AtWait =>
        assert ThreadSane(s, s.threads[i]);
        step := if !s.threads[i].waits || s.tracker.done == Closed then Return(i)
                else if s.callback.Sending? then CallbackEmit
                else if s.callback.Emitting? then CallbackEmitEnds else CallbackClose;
    }
  }

  lemma NoFurther(s: State, step: Step, i: nat)
    requires Sane(s) && Enabled(s, step) && i < |s.threads|
    ensures i < |Next(s, step).threads| && Left(Next(s, step), i) <= Left(s, i)
  {
    hide StageAfter;
  }
}
