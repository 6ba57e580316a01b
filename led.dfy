/**
 * The LED worker: the thread that owns the write handle of the keyboard's
 * vendor interface, executes LED commands in order and blinks the MR LED
 * while a macro is being recorded.
 *
 * The keyboard echoes every MR LED report as an MR key event. To let the main
 * loop tell such echoes from real presses, the worker raises a shared flag
 * immediately before every MR LED write; the main loop reads and clears it.
 *
 * Time is a number of milliseconds. What the worker does is recorded as a
 * trace of effects: flag stores and report writes, in order. Write failures
 * are only logged by the worker, so every write attempted is in the trace.
 */
module Led {
  import opened Common
  import opened Events

  /** The commands the main loop sends to the worker. */
  datatype LedCommand =
    | SetMrLed(on: bool)
    | SetProfileLed(profile: u8)
    | SetAllGKeysLed(r: u8, g: u8, b: u8)
    | SetGKeysRecording(selectedGkey: u8)
    | StartMrFlashing
    | StopMrFlashing
    | QuickFlashMr(count: u8)
    | TurnOffGKeys
    | Shutdown

  /** The MR LED blinks with this half-period while recording. */
  const MR_FLASH_INTERVAL: nat := 500

  /** The half-period of the quick flash that acknowledges a saved macro. */
  const MR_QUICK_FLASH_INTERVAL: nat := 125

  /** The receive timeout while not blinking: one hour. */
  const IDLE_TIMEOUT: nat := 3_600_000

  /** What the worker gets from its channel: a command, a timeout, or the news that the sender is gone. */
  datatype Received = Command(cmd: LedCommand) | TimedOut | Disconnected

  /** One observable step of the worker. */
  datatype Effect = StoreFlag | Write(report: seq<u8>)

  /** The worker's own state: whether the MR LED blinks, its current phase and when it last toggled. */
  datatype Worker = Worker(flashing: bool, flashOn: bool, lastFlash: nat)

  /** The result of handling one received item. */
  datatype StepResult = StepResult(worker: Worker, effects: seq<Effect>, running: bool)

  // ---------------------------------------------------------------------------
  // The specification of one step
  // ---------------------------------------------------------------------------

  /** Milliseconds since `since`; a clock reading before it counts as no time. */
  function Elapsed(now: nat, since: nat): nat {
    if now >= since then now - since else 0
  }

  /** How long the worker waits for the next command. */
  function Timeout(w: Worker, now: nat): (r: nat)
    ensures w.flashing ==> r == Max(0, MR_FLASH_INTERVAL - Elapsed(now, w.lastFlash))
    ensures !w.flashing ==> r == IDLE_TIMEOUT
  {
    if w.flashing then
      if Elapsed(now, w.lastFlash) >= MR_FLASH_INTERVAL then 0 else MR_FLASH_INTERVAL - Elapsed(now, w.lastFlash)
    else IDLE_TIMEOUT
  }

  /** Raise the flag, then write the MR LED report. */
  function MrWrite(on: bool): seq<Effect> {
    [StoreFlag, Write(MrLedCommand(on))]
  }

  /** The colour of G-key `g` while `selected` is being recorded: red for it, off for the others. */
  function RecordingColourReport(g: u8, selected: u8): seq<u8> {
    if g == selected then GkeyLedCommand(g, 255, 0, 0) else GkeyLedCommand(g, 0, 0, 0)
  }

  /** The per-key reports for G1 to G5, in order, then the commit report. */
  function GKeysRecordingEffects(selected: u8): (r: seq<Effect>)
    ensures |r| == 6
  {
    seq(5, i requires 0 <= i < 5 => Write(RecordingColourReport(i + 1, selected))) + [Write(LedCommitCommand())]
  }

  /** `count` rounds of MR on and MR off. */
  function QuickFlashEffects(count: nat): seq<Effect> {
    if count == 0 then [] else QuickFlashEffects(count - 1) + MrWrite(true) + MrWrite(false)
  }

  /** Set every G-key to one colour and commit. */
  function AllGKeysEffects(r: u8, g: u8, b: u8): seq<Effect> {
    [Write(AllGkeysLedCommand(r, g, b)), Write(LedCommitCommand())]
  }

  /** What the worker does with one received item at time `now`. */
  function Step(w: Worker, input: Received, now: nat): StepResult {
    match input
    case Command(cmd) =>
      (match cmd
       case SetMrLed(on) => StepResult(w, MrWrite(on), true)
       case SetProfileLed(profile) => StepResult(w, [Write(Events.LedCommand(profile))], true)
       case SetAllGKeysLed(r, g, b) => StepResult(w, AllGKeysEffects(r, g, b), true)
       case SetGKeysRecording(selected) => StepResult(w, GKeysRecordingEffects(selected), true)
       case StartMrFlashing => StepResult(Worker(true, true, now), MrWrite(true), true)
       case StopMrFlashing => StepResult(w.(flashing := false), MrWrite(false), true)
       case QuickFlashMr(count) => StepResult(w.(flashing := false), QuickFlashEffects(count), true)
       case TurnOffGKeys => StepResult(w, AllGKeysEffects(0, 0, 0), true)
       case Shutdown => StepResult(w.(flashing := false), MrWrite(false) + AllGKeysEffects(0, 0, 0), false))
    case TimedOut =>
      if w.flashing && Elapsed(now, w.lastFlash) >= MR_FLASH_INTERVAL then
        StepResult(w.(flashOn := !w.flashOn, lastFlash := now), MrWrite(!w.flashOn), true)
      else StepResult(w, [], true)
    case Disconnected => StepResult(w, [], false)
  }

  /** One step on a received item paired with the clock reading when it arrived. */
  function StepAt(w: Worker, input: (Received, nat)): StepResult {
    Step(w, input.0, input.1)
  }

  /**
   * A worker driven by `step` over a stream of items: it stops at the first
   * step that ends it. Kept apart from `Step` so that facts about the stream
   * do not depend on what a single step does.
   */
  function Drive<I>(w: Worker, inputs: seq<I>, step: (Worker, I) -> StepResult): StepResult
    decreases |inputs|
  {
    if inputs == [] then StepResult(w, [], true)
    else
      var first := step(w, inputs[0]);
      if !first.running then first
      else
        var rest := Drive(first.worker, inputs[1..], step);
        StepResult(rest.worker, first.effects + rest.effects, rest.running)
  }

  /** The worker over a stream of received items, each with the clock reading when it arrived. */
  function Run(w: Worker, inputs: seq<(Received, nat)>): StepResult {
    Drive(w, inputs, StepAt)
  }

  /** Driving over `a` and then, if still running, over `b` is driving over `a + b`. */
  lemma {:induction false} DriveAppend<I>(w: Worker, a: seq<I>, b: seq<I>, step: (Worker, I) -> StepResult)
    ensures var first := Drive(w, a, step);
      Drive(w, a + b, step) ==
        if !first.running then first
        else
          var rest := Drive(first.worker, b, step);
          StepResult(rest.worker, first.effects + rest.effects, rest.running)
    decreases |a|
  {
    if a == [] {
      assert a + b == b;
    } else {
      assert (a + b)[0] == a[0] && (a + b)[1..] == a[1..] + b;
      var first := step(w, a[0]);
      if first.running {
        DriveAppend(first.worker, a[1..], b, step);
      }
    }
  }

  // ---------------------------------------------------------------------------
  // Properties of the specification
  // ---------------------------------------------------------------------------

  /** A report the keyboard reads back as an MR key press or release. */
  predicate EchoesAsMrKey(report: seq<u8>) {
    ParseReport(report) == Some(MRKey) || ParseReport(report) == Some(MRKeyRelease)
  }

  /** Every write that the keyboard echoes as an MR key event comes right after a flag store. */
  predicate FlagGuarded(effects: seq<Effect>) {
    forall i :: 0 <= i < |effects| && effects[i].Write? && EchoesAsMrKey(effects[i].report) ==>
      i > 0 && effects[i - 1] == StoreFlag
  }

  lemma FlagGuardedAppend(a: seq<Effect>, b: seq<Effect>)
    requires FlagGuarded(a) && FlagGuarded(b)
    ensures FlagGuarded(a + b)
  {
    forall i | 0 <= i < |a + b| && (a + b)[i].Write? && EchoesAsMrKey((a + b)[i].report)
      ensures i > 0 && (a + b)[i - 1] == StoreFlag
    {
      if i >= |a| {
        assert (a + b)[i] == b[i - |a|];
        assert (a + b)[i - 1] == b[i - |a| - 1];
      }
    }
  }

  lemma MrWriteGuarded(on: bool)
    ensures FlagGuarded(MrWrite(on))
  {
  }

  lemma QuickFlashGuarded(count: nat)
    ensures FlagGuarded(QuickFlashEffects(count))
  {
    if count > 0 {
      QuickFlashGuarded(count - 1);
      FlagGuardedAppend(QuickFlashEffects(count - 1), MrWrite(true));
      FlagGuardedAppend(QuickFlashEffects(count - 1) + MrWrite(true), MrWrite(false));
    }
  }

  /** Writes the keyboard does not read back as any event need no flag. */
  lemma SilentWritesGuarded(effects: seq<Effect>)
    requires forall i :: 0 <= i < |effects| && effects[i].Write? ==> ParseReport(effects[i].report) == None
    ensures FlagGuarded(effects)
  {
  }

  /** Colour reports are not read back as key events, so they need no flag. */
  lemma ColourEffectsGuarded(selected: u8, r: u8, g: u8, b: u8)
    ensures FlagGuarded(GKeysRecordingEffects(selected))
    ensures FlagGuarded(AllGKeysEffects(r, g, b))
  {
    var e := GKeysRecordingEffects(selected);
    forall i | 0 <= i < |e| && e[i].Write?
      ensures ParseReport(e[i].report) == None
    {
      if i < 5 {
        ColourReportsAreSilent(i + 1, if i + 1 == selected as int then 255 else 0, 0, 0);
      } else {
        ColourReportsAreSilent(0, 0, 0, 0);
      }
    }
    SilentWritesGuarded(e);
    ColourReportsAreSilent(0, r, g, b);
    SilentWritesGuarded(AllGKeysEffects(r, g, b));
  }

  /** A profile LED report reads back as an M-key event at most, never as MR. */
  lemma ProfileLedGuarded(profile: u8)
    ensures FlagGuarded([Write(Events.LedCommand(profile))])
  {
    var report := Events.LedCommand(profile);
    assert !EchoesAsMrKey(report) by {
      ParseReportNone(report);
    }
  }

  /** The echo guard for the effects of one command. */
  lemma CommandFlagGuarded(w: Worker, cmd: LedCommand, now: nat)
    ensures FlagGuarded(Step(w, Command(cmd), now).effects)
  {
    match cmd {
      case SetMrLed(on) => MrWriteGuarded(on);
      case SetProfileLed(p) => ProfileLedGuarded(p);
      case SetAllGKeysLed(r, g, b) => ColourEffectsGuarded(0, r, g, b);
      case SetGKeysRecording(selected) => ColourEffectsGuarded(selected, 0, 0, 0);
      case StartMrFlashing => MrWriteGuarded(true);
      case StopMrFlashing => MrWriteGuarded(false);
      case QuickFlashMr(count) => QuickFlashGuarded(count);
      case TurnOffGKeys => ColourEffectsGuarded(0, 0, 0, 0);
      case Shutdown =>
        MrWriteGuarded(false);
        ColourEffectsGuarded(0, 0, 0, 0);
        FlagGuardedAppend(MrWrite(false), AllGKeysEffects(0, 0, 0));
    }
  }

  /**
   * The echo guard: in every step, the flag is raised immediately before each
   * write that the keyboard will echo as an MR key event.
   */
  lemma StepFlagGuarded(w: Worker, input: Received, now: nat)
    ensures FlagGuarded(Step(w, input, now).effects)
  {
    match input
    case Command(cmd) => CommandFlagGuarded(w, cmd, now);
    case TimedOut => MrWriteGuarded(!w.flashOn);
    case Disconnected =>
  }

  /** If every step keeps the echo guard, so does the whole stream. */
  lemma {:induction false} DriveFlagGuarded<I>(w: Worker, inputs: seq<I>, step: (Worker, I) -> StepResult)
    requires forall v, x :: FlagGuarded(step(v, x).effects)
    ensures FlagGuarded(Drive(w, inputs, step).effects)
    decreases |inputs|
  {
    if inputs != [] {
      var first := step(w, inputs[0]);
      if first.running {
        DriveFlagGuarded(first.worker, inputs[1..], step);
        FlagGuardedAppend(first.effects, Drive(first.worker, inputs[1..], step).effects);
      }
    }
  }

  /** The echo guard holds for the whole life of the worker. */
  lemma RunFlagGuarded(w: Worker, inputs: seq<(Received, nat)>)
    ensures FlagGuarded(Run(w, inputs).effects)
  {
    forall v, x: (Received, nat)
      ensures FlagGuarded(StepAt(v, x).effects)
    {
      StepFlagGuarded(v, x.0, x.1);
    }
    DriveFlagGuarded(w, inputs, StepAt);
  }

  /** The reports written, in order. */
  function Reports(effects: seq<Effect>): (r: seq<seq<u8>>)
    ensures |r| <= |effects|
  {
    if effects == [] then []
    else Reports(effects[..|effects| - 1]) + (if effects[|effects| - 1].Write? then [effects[|effects| - 1].report] else [])
  }

  lemma {:induction false} ReportsAppend(a: seq<Effect>, b: seq<Effect>)
    ensures Reports(a + b) == Reports(a) + Reports(b)
    decreases |b|
  {
    if b == [] {
      assert a + b == a;
    } else {
      assert (a + b)[..|a + b| - 1] == a + b[..|b| - 1];
      ReportsAppend(a, b[..|b| - 1]);
    }
  }

  /**
   * The quick flash writes exactly 2 * count MR reports, alternating on and
   * off, starting with on and so ending with off.
   */
  lemma {:induction false} QuickFlashAlternates(count: nat)
    ensures Reports(QuickFlashEffects(count)) == seq(2 * count, i requires 0 <= i < 2 * count => MrLedCommand(i % 2 == 0))
  {
    if count > 0 {
      QuickFlashAlternates(count - 1);
      var before := QuickFlashEffects(count - 1);
      ReportsAppend(before, MrWrite(true));
      ReportsAppend(before + MrWrite(true), MrWrite(false));
      assert Reports(MrWrite(true)) == [MrLedCommand(true)] by {
        assert MrWrite(true)[..1] == [StoreFlag];
        assert [StoreFlag][..0] == [];
      }
      assert Reports(MrWrite(false)) == [MrLedCommand(false)] by {
        assert MrWrite(false)[..1] == [StoreFlag];
        assert [StoreFlag][..0] == [];
      }
    }
  }

  /** Quick flashing and shutting down stop the blinking; shutdown and disconnect end the worker. */
  lemma StopsBlinking(w: Worker, count: u8, now: nat)
    ensures !Step(w, Command(QuickFlashMr(count)), now).worker.flashing
    ensures !Step(w, Command(StopMrFlashing), now).worker.flashing
    ensures !Step(w, Command(Shutdown), now).worker.flashing && !Step(w, Command(Shutdown), now).running
    ensures Step(w, Disconnected, now) == StepResult(w, [], false)
  {
  }

  /** Shutdown turns the MR LED off, then every G-key off, then commits, and nothing else. */
  lemma ShutdownWrites(w: Worker, now: nat)
    ensures Reports(Step(w, Command(Shutdown), now).effects) == [MrLedCommand(false), AllGkeysLedCommand(0, 0, 0), LedCommitCommand()]
  {
    ReportsAppend(MrWrite(false), AllGKeysEffects(0, 0, 0));
    assert Reports(MrWrite(false)) == [MrLedCommand(false)] by {
      assert MrWrite(false)[..1] == [StoreFlag];
      assert [StoreFlag][..0] == [];
    }
    var all := AllGKeysEffects(0, 0, 0);
    assert Reports(all) == [AllGkeysLedCommand(0, 0, 0), LedCommitCommand()] by {
      assert all[..1] == [Write(AllGkeysLedCommand(0, 0, 0))];
      assert all[..1][..0] == [];
    }
  }

  /**
   * A timeout toggles the MR LED only while blinking and only once a full
   * interval has passed; otherwise it does nothing at all.
   */
  lemma TimeoutToggles(w: Worker, now: nat)
    ensures var s := Step(w, TimedOut, now);
      s.running &&
      if w.flashing && Elapsed(now, w.lastFlash) >= MR_FLASH_INTERVAL then
        s.worker == Worker(true, !w.flashOn, now) && s.effects == MrWrite(!w.flashOn)
      else s.worker == w && s.effects == []
  {
  }

  /** Waiting exactly the computed timeout while blinking always reaches the next toggle. */
  lemma TimeoutReachesToggle(w: Worker, now: nat)
    requires w.flashing && now >= w.lastFlash
    ensures Step(w, TimedOut, now + Timeout(w, now)).effects == MrWrite(!w.flashOn)
  {
  }

  /** Only MR LED writes raise the flag: a profile LED change never touches it. */
  lemma ProfileLedLeavesFlag(w: Worker, profile: u8, now: nat)
    ensures StoreFlag !in Step(w, Command(SetProfileLed(profile)), now).effects
    ensures Reports(Step(w, Command(SetProfileLed(profile)), now).effects) == [Events.LedCommand(profile)]
  {
    assert [Write(Events.LedCommand(profile))][..0] == [];
  }

  /** The recording colours: G-key g lights red exactly when it is the selected key. */
  lemma RecordingColours(selected: u8, g: nat)
    requires 1 <= g <= 5
    ensures GKeysRecordingEffects(selected)[g - 1] == Write(GkeyLedCommand(g, if g == selected then 255 else 0, 0, 0))
    ensures GKeysRecordingEffects(selected)[5] == Write(LedCommitCommand())
  {
  }

  // ---------------------------------------------------------------------------
  // The shared flag and the controller
  // ---------------------------------------------------------------------------

  /** An atomic boolean shared by the worker and the main loop. */
  class AtomicFlag {
    var value: bool

    constructor()
      ensures !value
    {
      value := false;
    }

    method Store(v: bool)
      modifies this
      ensures value == v
    {
      value := v;
    }

    /** Replace the value, returning the previous one. */
    method Swap(v: bool) returns (previous: bool)
      modifies this
      ensures previous == old(value) && value == v
    {
      previous := value;
      value := v;
    }
  }

  /** The main loop's handle on the worker: the command channel and the shared flag. */
  class LedController {
    var sent: seq<LedCommand>
    const pending: AtomicFlag

    constructor(pending: AtomicFlag)
      ensures sent == [] && this.pending == pending
    {
      sent := [];
      this.pending := pending;
    }

    /**
     * Whether the MR event just seen is the echo of an LED write: the flag's
     * value, which is cleared, so a second call right after answers false.
     */
    method IsMrEventFromLed() returns (fromLed: bool)
      modifies pending
      ensures fromLed == old(pending.value) && !pending.value
    {
      fromLed := pending.Swap(false);
    }

    /** Queue a command for the worker; a worker that has gone away is not an error here. */
    method Send(cmd: LedCommand)
      modifies this
      ensures sent == old(sent) + [cmd]
    {
      sent := sent + [cmd];
    }
  }

  // ---------------------------------------------------------------------------
  // The worker loop
  // ---------------------------------------------------------------------------

  /** The G-key colours for recording: G1 to G5 in order, then commit. */
  method WriteGKeysRecording(selected: u8) returns (effects: seq<Effect>)
    ensures effects == GKeysRecordingEffects(selected)
  {
    effects := [];
    for g := 1 to 6
      invariant |effects| == g - 1
      invariant forall i :: 0 <= i < g - 1 ==> effects[i] == Write(RecordingColourReport(i + 1, selected))
    {
      var report := if g == selected then GkeyLedCommand(g, 255, 0, 0) else GkeyLedCommand(g, 0, 0, 0);
      effects := effects + [Write(report)];
    }
    effects := effects + [Write(LedCommitCommand())];
  }

  /** `count` rounds of: raise the flag, MR on, pause, raise the flag, MR off, pause. */
  method QuickFlash(count: u8, flag: AtomicFlag) returns (effects: seq<Effect>)
    modifies flag
    ensures effects == QuickFlashEffects(count)
    ensures flag.value == (old(flag.value) || count > 0)
  {
    effects := [];
    for n := 0 to count
      invariant effects == QuickFlashEffects(n)
      invariant flag.value == (old(flag.value) || n > 0)
    {
      flag.Store(true);
      effects := effects + [StoreFlag, Write(MrLedCommand(true))];
      flag.Store(true);
      effects := effects + [StoreFlag, Write(MrLedCommand(false))];
    }
  }

  /** Handle one received item: the new worker state, what was done, and whether to go on. */
  method HandleReceived(w: Worker, input: Received, now: nat, flag: AtomicFlag) returns (r: StepResult)
    modifies flag
    ensures r == Step(w, input, now)
    ensures flag.value == (old(flag.value) || StoreFlag in r.effects)
  {
    var flashing, flashOn, lastFlash := w.flashing, w.flashOn, w.lastFlash;
    var effects: seq<Effect> := [];
    var running := true;
    match input {
      case Command(cmd) =>
        match cmd {
          case SetMrLed(on) =>
            flag.Store(true);
            effects := MrWrite(on);
          case SetProfileLed(profile) =>
            effects := [Write(Events.LedCommand(profile))];
          case SetAllGKeysLed(red, green, blue) =>
            effects := AllGKeysEffects(red, green, blue);
          case SetGKeysRecording(selected) =>
            effects := WriteGKeysRecording(selected);
            assert StoreFlag !in effects by {
              forall i | 0 <= i < |effects| ensures effects[i] != StoreFlag {
              }
            }
          case StartMrFlashing =>
            flashing, flashOn, lastFlash := true, true, now;
            flag.Store(true);
            effects := MrWrite(true);
          case StopMrFlashing =>
            flashing := false;
            flag.Store(true);
            effects := MrWrite(false);
          case QuickFlashMr(count) =>
            flashing := false;
            effects := QuickFlash(count, flag);
            QuickFlashHasStore(count);
          case TurnOffGKeys =>
            effects := AllGKeysEffects(0, 0, 0);
          case Shutdown =>
            flashing := false;
            flag.Store(true);
            effects := MrWrite(false) + AllGKeysEffects(0, 0, 0);
            running := false;
        }
      case TimedOut =>
        if flashing && Elapsed(now, lastFlash) >= MR_FLASH_INTERVAL {
          flashOn := !flashOn;
          lastFlash := now;
          flag.Store(true);
          effects := MrWrite(flashOn);
        }
      case Disconnected =>
        running := false;
    }
    r := StepResult(Worker(flashing, flashOn, lastFlash), effects, running);
  }

  /** A quick flash raises the flag exactly when it flashes at least once. */
  lemma QuickFlashHasStore(count: nat)
    ensures StoreFlag in QuickFlashEffects(count) <==> count > 0
  {
    if count > 0 {
      assert QuickFlashEffects(count)[|QuickFlashEffects(count - 1)|] == StoreFlag;
    }
  }

  /**
   * The worker: handles the received items in order until a shutdown or a
   * disconnect, starting with the LED not blinking and the blink clock at
   * `start`. Its effects are those of the specification, and the echo guard
   * holds for all of them.
   */
  method LedWorker(start: nat, inputs: seq<(Received, nat)>, flag: AtomicFlag) returns (effects: seq<Effect>)
    modifies flag
    ensures effects == Run(Worker(false, false, start), inputs).effects
    ensures FlagGuarded(effects)
    ensures flag.value == (old(flag.value) || StoreFlag in effects)
  {
    var w := Worker(false, false, start);
    effects := [];
    var i := 0;
    while i < |inputs|
      invariant 0 <= i <= |inputs|
      invariant Run(Worker(false, false, start), inputs[..i]) == StepResult(w, effects, true)
      invariant flag.value == (old(flag.value) || StoreFlag in effects)
    {
      var r := HandleReceived(w, inputs[i].0, inputs[i].1, flag);
      RunOneMore(Worker(false, false, start), inputs, i);
      effects := effects + r.effects;
      if !r.running {
        RunStopped(Worker(false, false, start), inputs, i);
        RunFlagGuarded(Worker(false, false, start), inputs);
        return;
      }
      w := r.worker;
      i := i + 1;
    }
    assert inputs[..i] == inputs;
    RunFlagGuarded(Worker(false, false, start), inputs);
  }

  /** The run over one more item, when still running before it. */
  lemma RunOneMore(w0: Worker, inputs: seq<(Received, nat)>, i: nat)
    requires i < |inputs| && Run(w0, inputs[..i]).running
    ensures var before := Run(w0, inputs[..i]);
      var step := Step(before.worker, inputs[i].0, inputs[i].1);
      Run(w0, inputs[..i + 1]) == StepResult(step.worker, before.effects + step.effects, step.running)
  {
    assert inputs[..i + 1] == inputs[..i] + [inputs[i]];
    DriveAppend(w0, inputs[..i], [inputs[i]], StepAt);
    assert [inputs[i]][1..] == inputs[i + 1..i + 1];
  }

  /** Once the worker has stopped, later items change nothing. */
  lemma RunStopped(w0: Worker, inputs: seq<(Received, nat)>, i: nat)
    requires i < |inputs| && !Run(w0, inputs[..i + 1]).running
    ensures Run(w0, inputs) == Run(w0, inputs[..i + 1])
  {
    assert inputs == inputs[..i + 1] + inputs[i + 1..];
    DriveAppend(w0, inputs[..i + 1], inputs[i + 1..], StepAt);
  }
}
