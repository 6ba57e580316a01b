/**
 * The daemon's foreground loop: reconnecting to the keyboard with a growing
 * delay, choosing how to read, routing each decoded event either to the macro
 * recorder or to ordinary macro dispatch, and carrying out the recorder's
 * actions on the LEDs, the macro store and the desktop notifier.
 *
 * Sleeping, the Ctrl-C handler, the device itself, the shell and the
 * notification daemon are outside the model: what they yield in one round of
 * the event loop is passed in as an `Outside` value.
 */
module Daemon {
  import opened Common
  import opened Strings
  import opened Events
  import opened Config
  import opened Recording
  import Sink
  import Keyboard
  import Led
  import Macros
  import Device

  /** How many times the MR LED flashes when a macro has been recorded. */
  const MR_QUICK_FLASH_COUNT: u8 := 4

  const PROFILE_PREFIX: string := "MEMORY_"
  const MACRO_PREFIX: string := "MACRO_"

  /** The profile the daemon starts in; it is kept across reconnections. */
  const FIRST_PROFILE: string := "MEMORY_1"

  /** The profile LED shown for a profile name that does not end in a number. */
  const FALLBACK_PROFILE_NUM: u8 := 1

  /** Reconnection delays, in milliseconds. */
  const INITIAL_RECONNECT_DELAY: nat := 1000
  const MAX_RECONNECT_DELAY: nat := 30_000

  // ---------------------------------------------------------------------------
  // Reconnection backoff
  // ---------------------------------------------------------------------------

  /** The delay after one more failure: doubled, but never above the maximum. */
  function NextDelay(d: nat): nat {
    Min(2 * d, MAX_RECONNECT_DELAY)
  }

  /** How one pass of the reconnection loop ended. */
  datatype Attempt =
    | OpenFailed      // no device: sleep, then back off
    | LedFailed       // the device opened, which resets the delay, but its LED worker did not start: sleep, then back off
    | SessionEnded    // a session ran until a read error: try again at once

  /** The sleeps of the reconnection loop over a run of passes entered with delay `d`. */
  function Sleeps(d: nat, attempts: seq<Attempt>): seq<nat>
    decreases |attempts|
  {
    if attempts == [] then []
    else
      match attempts[0]
      case OpenFailed => [d] + Sleeps(NextDelay(d), attempts[1..])
      case LedFailed => [INITIAL_RECONNECT_DELAY] + Sleeps(NextDelay(INITIAL_RECONNECT_DELAY), attempts[1..])
      case SessionEnded => Sleeps(INITIAL_RECONNECT_DELAY, attempts[1..])
  }

  /** The reconnection loop's delay bookkeeping over a run of passes; returns how long each failure slept. */
  method Reconnect(attempts: seq<Attempt>) returns (sleeps: seq<nat>)
    ensures sleeps == Sleeps(INITIAL_RECONNECT_DELAY, attempts)
  {
    var delay := INITIAL_RECONNECT_DELAY;
    sleeps := [];
    for i := 0 to |attempts|
      invariant sleeps + Sleeps(delay, attempts[i..]) == Sleeps(INITIAL_RECONNECT_DELAY, attempts)
    {
      assert attempts[i..][1..] == attempts[i + 1..];
      match attempts[i] {
        case OpenFailed =>
          sleeps := sleeps + [delay];
          delay := NextDelay(delay);
        case LedFailed =>
          delay := INITIAL_RECONNECT_DELAY;
          sleeps := sleeps + [delay];
          delay := NextDelay(delay);
        case SessionEnded =>
          delay := INITIAL_RECONNECT_DELAY;
      }
    }
    assert attempts[|attempts|..] == [];
  }

  /** The delay after `k` failed passes in a row since the last successful open. */
  function Backoff(k: nat): nat {
    Min(INITIAL_RECONNECT_DELAY * Pow2(k), MAX_RECONNECT_DELAY)
  }

  /** Every sleep lies between one second and thirty seconds. */
  lemma {:induction false} SleepsBounded(d: nat, attempts: seq<Attempt>)
    requires INITIAL_RECONNECT_DELAY <= d <= MAX_RECONNECT_DELAY
    ensures forall i :: 0 <= i < |Sleeps(d, attempts)| ==>
      INITIAL_RECONNECT_DELAY <= Sleeps(d, attempts)[i] <= MAX_RECONNECT_DELAY
    decreases |attempts|
  {
    if attempts != [] {
      match attempts[0]
      case OpenFailed => SleepsBounded(NextDelay(d), attempts[1..]);
      case LedFailed => SleepsBounded(NextDelay(INITIAL_RECONNECT_DELAY), attempts[1..]);
      case SessionEnded => SleepsBounded(INITIAL_RECONNECT_DELAY, attempts[1..]);
    }
  }

  /** Backing off once more from the delay of `k` failures gives the delay of `k + 1`. */
  lemma BackoffStep(k: nat)
    ensures NextDelay(Backoff(k)) == Backoff(k + 1)
  {
    assert Pow2(k + 1) == 2 * Pow2(k);
    assert INITIAL_RECONNECT_DELAY * Pow2(k + 1) == 2 * (INITIAL_RECONNECT_DELAY * Pow2(k));
  }

  /**
   * Failed opens in a row, entered after `j` failures, sleep 1 s, 2 s, 4 s, ...
   * doubling each time until the 30 s cap.
   */
  lemma {:induction false} FailuresDouble(j: nat, k: nat)
    ensures Sleeps(Backoff(j), seq(k, _ => OpenFailed)) == seq(k, i requires 0 <= i < k => Backoff(j + i))
    decreases k
  {
    if k > 0 {
      assert seq(k, _ => OpenFailed)[1..] == seq(k - 1, _ => OpenFailed);
      BackoffStep(j);
      FailuresDouble(j + 1, k - 1);
    }
  }

  /** The delay starts at one second and reaches the cap at the sixth failure, where it stays. */
  lemma BackoffReachesCap(k: nat)
    ensures Backoff(0) == INITIAL_RECONNECT_DELAY
    ensures Backoff(4) == 16_000
    ensures k >= 5 ==> Backoff(k) == MAX_RECONNECT_DELAY
  {
    if k >= 5 {
      Pow2Grows(5, k);
    }
  }

  lemma {:induction false} Pow2Grows(i: nat, k: nat)
    requires i <= k
    ensures Pow2(i) <= Pow2(k)
    decreases k - i
  {
    if i < k {
      Pow2Grows(i + 1, k);
    }
  }

  /** A successful open forgets every earlier failure. */
  lemma OpenResetsDelay(d1: nat, d2: nat, attempts: seq<Attempt>)
    requires attempts != [] && !attempts[0].OpenFailed?
    ensures Sleeps(d1, attempts) == Sleeps(d2, attempts)
  {
  }

  // ---------------------------------------------------------------------------
  // Profile and macro names
  // ---------------------------------------------------------------------------

  /** The profile selected by memory key `n`. */
  function ProfileName(n: u8): string {
    PROFILE_PREFIX + Decimal(n)
  }

  /** The macro run by G-key `n`. */
  function MacroName(n: u8): string {
    MACRO_PREFIX + Decimal(n)
  }

  /** The profile LED for a profile name: the number after the prefix, or 1. */
  function ProfileNum(profile: string): (r: u8)
    ensures !StartsWith(profile, PROFILE_PREFIX) ==> r == FALLBACK_PROFILE_NUM
    ensures StartsWith(profile, PROFILE_PREFIX) ==>
      r == (match ParseU8(profile[|PROFILE_PREFIX|..]) case Some(n) => n case None => FALLBACK_PROFILE_NUM)
  {
    match StripPrefix(profile, PROFILE_PREFIX)
    case None => FALLBACK_PROFILE_NUM
    case Some(digits) =>
      match ParseU8(digits)
      case None => FALLBACK_PROFILE_NUM
      case Some(n) => n
  }

  /** The LED number read back from the name of profile `n` is `n`. */
  lemma ProfileNumRoundTrip(n: u8)
    ensures ProfileNum(ProfileName(n)) == n
  {
    var name := ProfileName(n);
    assert StartsWith(name, PROFILE_PREFIX) by {
      assert name[..|PROFILE_PREFIX|] == PROFILE_PREFIX;
    }
    assert StripPrefix(name, PROFILE_PREFIX).value == Decimal(n) by {
      assert name[|PROFILE_PREFIX|..] == Decimal(n);
    }
    ParseU8Decimal(n);
  }

  /** Names that are not `MEMORY_` and a byte fall back to LED 1. */
  lemma ProfileNumFallbacks()
    ensures ProfileNum("MEMORY_x") == FALLBACK_PROFILE_NUM
    ensures ProfileNum("MEMORY_256") == FALLBACK_PROFILE_NUM
    ensures ProfileNum("MEMORY_") == FALLBACK_PROFILE_NUM
    ensures ProfileNum("M1") == FALLBACK_PROFILE_NUM
  {
    assert "MEMORY_x"[..|PROFILE_PREFIX|] == PROFILE_PREFIX;
    assert "MEMORY_256"[..|PROFILE_PREFIX|] == PROFILE_PREFIX;
    assert "MEMORY_"[..|PROFILE_PREFIX|] == PROFILE_PREFIX;
    assert "MEMORY_x"[|PROFILE_PREFIX|..] == "x";
    assert "MEMORY_256"[|PROFILE_PREFIX|..] == "256";
    assert DigitsValue("256") == 256 by {
      assert "256"[..2] == "25" && "25"[..1] == "2" && "2"[..0] == "";
    }
    assert "MEMORY_"[|PROFILE_PREFIX|..] == "";
  }

  /** Different memory keys select different profiles. */
  lemma ProfileNameInjective(a: u8, b: u8)
    ensures ProfileName(a) == ProfileName(b) <==> a == b
  {
    ProfileNumRoundTrip(a);
    ProfileNumRoundTrip(b);
  }

  /** The first profile is memory key 1's. */
  lemma FirstProfileIsM1()
    ensures FIRST_PROFILE == ProfileName(1)
    ensures ProfileNum(FIRST_PROFILE) == 1
  {
    assert Decimal(1) == "1";
    ProfileNumRoundTrip(1);
  }

  // ---------------------------------------------------------------------------
  // What recorder actions do to the LEDs and the desktop
  // ---------------------------------------------------------------------------

  /** A desktop notification from "gkeys-rs": a summary and, for some, a body. */
  datatype Notification = Notification(summary: string, body: Option<string>)

  /** The notification shown on a profile switch. */
  function ProfileNotification(n: u8): Notification {
    Notification("Profile M" + Decimal(n), None)
  }

  /** The LED commands the main loop sends for a recorder action, in order. */
  function RecordingLedCommands(action: RecordingAction): seq<Led.LedCommand> {
    match action
    case NoAction => []
    case EnterAwaiting => [Led.SetMrLed(true), Led.SetAllGKeysLed(255, 255, 255)]
    case StartedRecording(gkey) => [Led.SetGKeysRecording(gkey), Led.StartMrFlashing]
    case SaveMacro(_, _, _) => [Led.QuickFlashMr(MR_QUICK_FLASH_COUNT), Led.TurnOffGKeys]
    case CancelledEmpty => [Led.StopMrFlashing, Led.TurnOffGKeys]
    case CancelledNoGKey => [Led.SetMrLed(false), Led.TurnOffGKeys]
    case Error(_) => [Led.StopMrFlashing, Led.TurnOffGKeys]
  }

  /** The notifications for a recorder action; a save failure is reported instead of success. */
  function RecordingNotifications(action: RecordingAction, saveError: Option<string>): seq<Notification> {
    match action
    case StartedRecording(gkey) => [Notification("Recording G" + Decimal(gkey), Some("Press keys, then MR to stop"))]
    case SaveMacro(_, gkey, sequence) =>
      if saveError.Some? then [Notification("Recording failed", Some("Could not save: " + saveError.value))]
      else [Notification("Recorded G" + Decimal(gkey), Some(sequence))]
    case CancelledEmpty => [Notification("Recording cancelled", Some("No keys were captured"))]
    case Error(message) => [Notification("Recording error", Some(message))]
    case _ => []
  }

  /** The macro a recording is saved as. */
  function RecordedMacro(sequence: string): Macro {
    Macro(Sequence, sequence)
  }

  /** Commands all delivered at time `now`. */
  function AtTime(cmds: seq<Led.LedCommand>, now: nat): (r: seq<(Led.Received, nat)>)
    ensures |r| == |cmds|
  {
    seq(|cmds|, i requires 0 <= i < |cmds| => (Led.Command(cmds[i]), now))
  }

  /** The worker on two commands in a row. */
  lemma RunTwo(w: Led.Worker, c1: Led.LedCommand, c2: Led.LedCommand, now: nat)
    requires !c1.Shutdown? && !c2.Shutdown?
    ensures var s1 := Led.Step(w, Led.Command(c1), now);
      var s2 := Led.Step(s1.worker, Led.Command(c2), now);
      Led.Run(w, AtTime([c1, c2], now)) == Led.StepResult(s2.worker, s1.effects + s2.effects, true)
  {
    var inputs: seq<(Led.Received, nat)> := AtTime([c1, c2], now);
    var s1 := Led.Step(w, Led.Command(c1), now);
    var s2 := Led.Step(s1.worker, Led.Command(c2), now);
    assert inputs[0] == (Led.Command(c1), now) && Led.StepAt(w, inputs[0]) == s1 && s1.running;
    var tail := inputs[1..];
    assert tail[0] == (Led.Command(c2), now) && Led.StepAt(s1.worker, tail[0]) == s2 && s2.running;
    assert tail[1..] == [];
    assert Led.Drive(s2.worker, tail[1..], Led.StepAt) == Led.StepResult(s2.worker, [], true);
    assert s2.effects + [] == s2.effects;
    assert Led.Drive(s1.worker, tail, Led.StepAt) == Led.StepResult(s2.worker, s2.effects, true);
  }

  /** The reports of an MR LED write, then one colour on every G-key and the commit. */
  lemma MrThenAll(on: bool, r: u8, g: u8, b: u8)
    ensures Led.Reports(Led.MrWrite(on) + Led.AllGKeysEffects(r, g, b)) ==
      [MrLedCommand(on), AllGkeysLedCommand(r, g, b), LedCommitCommand()]
  {
    Led.ReportsAppend(Led.MrWrite(on), Led.AllGKeysEffects(r, g, b));
    assert Led.Reports(Led.MrWrite(on)) == [MrLedCommand(on)] by {
      assert Led.MrWrite(on)[..1] == [Led.StoreFlag];
      assert [Led.StoreFlag][..0] == [];
    }
    var all := Led.AllGKeysEffects(r, g, b);
    assert Led.Reports(all) == [AllGkeysLedCommand(r, g, b), LedCommitCommand()] by {
      assert all[..1] == [Led.Write(AllGkeysLedCommand(r, g, b))];
      assert all[..1][..0] == [];
    }
  }

  /** The last three reports: MR off, every G-key off, commit. */
  predicate EndsDark(reports: seq<seq<u8>>) {
    |reports| >= 3 && reports[|reports| - 3..] == [MrLedCommand(false), AllGkeysLedCommand(0, 0, 0), LedCommitCommand()]
  }

  /** The worker on the commands for `action`, all delivered at `now`. */
  function ActionRun(w: Led.Worker, action: RecordingAction, now: nat): Led.StepResult {
    Led.Run(w, AtTime(RecordingLedCommands(action), now))
  }

  /**
   * Arming the recorder lights the MR LED and every G-key white without
   * touching the blinking; starting a recording makes the MR LED blink, lit
   * first.
   */
  lemma StartingLeds(w: Led.Worker, action: RecordingAction, now: nat)
    requires action.EnterAwaiting? || action.StartedRecording?
    ensures ActionRun(w, action, now).running
    ensures action.EnterAwaiting? ==>
      && ActionRun(w, action, now).worker == w
      && Led.Reports(ActionRun(w, action, now).effects) == [MrLedCommand(true), AllGkeysLedCommand(255, 255, 255), LedCommitCommand()]
    ensures action.StartedRecording? ==> ActionRun(w, action, now).worker.flashing && ActionRun(w, action, now).worker.flashOn
  {
    if action.EnterAwaiting? {
      RunTwo(w, Led.SetMrLed(true), Led.SetAllGKeysLed(255, 255, 255), now);
      MrThenAll(true, 255, 255, 255);
    } else {
      RunTwo(w, Led.SetGKeysRecording(action.gkey), Led.StartMrFlashing, now);
    }
  }

  /** Saving a recording flashes the MR LED quickly, stops its blinking and leaves it and every G-key dark. */
  lemma SavingLeds(w: Led.Worker, profile: string, gkey: u8, sequence: string, now: nat)
    ensures var r := ActionRun(w, SaveMacro(profile, gkey, sequence), now);
      r.running && !r.worker.flashing && EndsDark(Led.Reports(r.effects))
  {
    RunTwo(w, Led.QuickFlashMr(MR_QUICK_FLASH_COUNT), Led.TurnOffGKeys, now);
    QuickFlashThenDark();
  }

  /**
   * Cancelling, or failing to start, turns the MR LED and every G-key off and
   * writes nothing else; the blinking stops, except on a plain cancel while
   * waiting for a G-key, which leaves it as it was (off while waiting).
   */
  lemma CancellingLeds(w: Led.Worker, action: RecordingAction, now: nat)
    requires action.CancelledEmpty? || action.CancelledNoGKey? || action.Error?
    ensures ActionRun(w, action, now).running
    ensures Led.Reports(ActionRun(w, action, now).effects) == [MrLedCommand(false), AllGkeysLedCommand(0, 0, 0), LedCommitCommand()]
    ensures !action.CancelledNoGKey? ==> !ActionRun(w, action, now).worker.flashing
    ensures action.CancelledNoGKey? ==> ActionRun(w, action, now).worker == w
  {
    if action.CancelledNoGKey? {
      RunTwo(w, Led.SetMrLed(false), Led.TurnOffGKeys, now);
    } else {
      RunTwo(w, Led.StopMrFlashing, Led.TurnOffGKeys, now);
    }
    MrThenAll(false, 0, 0, 0);
  }

  /** Four quick flashes end with the MR LED off; then every G-key goes off and is committed. */
  lemma QuickFlashThenDark()
    ensures EndsDark(Led.Reports(Led.QuickFlashEffects(MR_QUICK_FLASH_COUNT as nat) + Led.AllGKeysEffects(0, 0, 0)))
  {
    var flash := Led.QuickFlashEffects(MR_QUICK_FLASH_COUNT as nat);
    var dark := Led.AllGKeysEffects(0, 0, 0);
    Led.QuickFlashAlternates(MR_QUICK_FLASH_COUNT as nat);
    Led.ReportsAppend(flash, dark);
    assert Led.Reports(dark) == [AllGkeysLedCommand(0, 0, 0), LedCommitCommand()] by {
      assert dark[..1] == [Led.Write(AllGkeysLedCommand(0, 0, 0))];
      assert dark[..1][..0] == [];
    }
    var reports := Led.Reports(flash) + Led.Reports(dark);
    assert |Led.Reports(flash)| == 8;
    assert reports[|reports| - 3] == Led.Reports(flash)[7] == MrLedCommand(false);
    assert reports[|reports| - 3..] == [MrLedCommand(false), AllGkeysLedCommand(0, 0, 0), LedCommitCommand()];
  }

  /**
   * The desktop notifications the daemon sends with `notify-send`. Every
   * notification is recorded as sent: the daemon ignores whether the process
   * could be spawned.
   */
  class Notifier {
    var shown: seq<Notification>

    constructor()
      ensures shown == []
    {
      shown := [];
    }

    method Notify(n: Notification)
      modifies this
      ensures shown == old(shown) + [n]
    {
      shown := shown + [n];
    }
  }

  // ---------------------------------------------------------------------------
  // The event loop
  // ---------------------------------------------------------------------------

  /** The last profile LED command among `sent`, if any. */
  function LastProfileLed(sent: seq<Led.LedCommand>): Option<u8> {
    if sent == [] then None
    else if sent[|sent| - 1].SetProfileLed? then Some(sent[|sent| - 1].profile)
    else LastProfileLed(sent[..|sent| - 1])
  }

  /** Commands without a profile LED command leave the last one shown as it was. */
  lemma {:induction false} LastProfileLedAppend(sent: seq<Led.LedCommand>, more: seq<Led.LedCommand>)
    requires forall i :: 0 <= i < |more| ==> !more[i].SetProfileLed?
    ensures LastProfileLed(sent + more) == LastProfileLed(sent)
    decreases |more|
  {
    if more != [] {
      assert (sent + more)[..|sent + more| - 1] == sent + more[..|more| - 1];
      LastProfileLedAppend(sent, more[..|more| - 1]);
    } else {
      assert sent + more == sent;
    }
  }

  /** What the outside world yields in one round of the event loop. */
  datatype Outside = Outside(
    running: bool,                     // the shutdown flag was not raised before the round
    poll: Device.Poll,                 // the wait for data, when reading with a timeout
    read: Result<seq<u8>, string>,     // the read from the device
    runningAfterError: bool,           // the shutdown flag was still not raised after a read error
    capture: CaptureStart,             // starting the key capture, if a G-key is chosen
    spawned: bool,                     // the shell could be started, if a command macro runs
    saveError: Option<string>)         // why saving the configuration failed, if it did

  /** How a round of the event loop ends. */
  datatype Next = Continue | Shutdown | Reconnect(error: string)

  /** The read of a round: bounded by a timeout while recording, blocking otherwise. */
  function ReadFor(state: RecordingState, world: Outside): Result<Option<Event>, string> {
    if state.Recording? then Device.ReadEventTimeout(world.poll, world.read) else Device.ReadEvent(world.read)
  }

  /**
   * The recorder action an event leads to, given whether the LED worker's
   * echo flag was set, the recorder's state, the chords still queued and how
   * starting the capture turns out. None when the recorder does not take the
   * event.
   */
  function IncomingAction(event: Event, fromLed: bool, state: RecordingState, queued: seq<string>, start: CaptureStart)
    : (r: Option<RecordingAction>)
    ensures r.Some? <==> (event.MRKey? && !fromLed) || (event.GKey? && state.AwaitingGKey?)
    ensures r.Some? && r.value.SaveMacro? ==>
      state.Recording? && r.value.profile == state.profile && r.value.gkey == state.gkey
      && state.captured + queued != [] && r.value.sequence == Join(state.captured + queued, ", ")
    ensures r == Some(CancelledEmpty) <==> event.MRKey? && !fromLed && state.Recording? && state.captured + queued == []
    ensures r.Some? && r.value.StartedRecording? <==> event.GKey? && state.AwaitingGKey? && start.Started?
    ensures r.Some? ==> r.value != NoAction
  {
    match event
    case MRKey =>
      if fromLed then None
      else Some(match state
        case Idle => EnterAwaiting
        case AwaitingGKey(_) => CancelledNoGKey
        case Recording(profile, gkey, captured, _, _) => Finish(profile, gkey, captured + queued))
    case GKey(n) =>
      if state.AwaitingGKey? then Some(if start.Started? then StartedRecording(n) else Error(StartError(start)))
      else None
    case _ => None
  }

  /** The daemon's state across connections, and what it drives. */
  class Daemon {
    var currentProfile: string
    const config: Config
    const executor: Macros.MacroExecutor
    const recorder: Recorder
    const notifier: Notifier

    constructor(config: Config, executor: Macros.MacroExecutor, notifier: Notifier)
      ensures currentProfile == FIRST_PROFILE && fresh(recorder) && recorder.state == Idle
      ensures this.config == config && this.executor == executor && this.notifier == notifier
      ensures RecorderFollowsProfile()
    {
      currentProfile := FIRST_PROFILE;
      this.config := config;
      this.executor := executor;
      recorder := new Recorder();
      this.notifier := notifier;
    }

    /** A recording under way, or awaited, belongs to the current profile. */
    ghost predicate RecorderFollowsProfile()
      reads this, recorder
    {
      !recorder.state.Idle? ==> recorder.state.profile == currentProfile
    }

    /** The last profile LED command sent on this connection is the current profile's. */
    ghost predicate ShowsProfile(led: Led.LedController)
      reads this, led
    {
      LastProfileLed(led.sent) == Some(ProfileNum(currentProfile))
    }

    /** The macro a G-key press runs in `profile`, if one is stored. */
    function MacroFor(event: Event, profile: string): Option<Macro>
      reads config
    {
      if event.GKey? then config.GetMacro(profile, MacroName(event.n)) else None
    }

    /** A G-key press in `profile` whose macro drives the keyboard. */
    predicate TypesMacro(event: Event, profile: string)
      reads config
    {
      MacroFor(event, profile).Some? && MacroFor(event, profile).value.hotkeyType != Run
    }

    /** Start the LED worker of a new connection and show the current profile on it. */
    method Connect(pending: Led.AtomicFlag) returns (led: Led.LedController)
      ensures fresh(led) && led.pending == pending
      ensures led.sent == [Led.SetProfileLed(ProfileNum(currentProfile))]
      ensures ShowsProfile(led)
    {
      led := new Led.LedController(pending);
      led.Send(Led.SetProfileLed(ProfileNum(currentProfile)));
    }

    /**
     * Ordinary handling of an event. A G-key runs its macro from the current
     * profile, if it has one; a failing macro is only logged. A memory key
     * switches to its profile, lights its LED and notifies when notifications
     * are on, but only when that is not the current profile already, so the
     * keyboard's echo of the LED write cannot switch again.
     */
    method HandleEvent(event: Event, led: Led.LedController, spawned: bool)
      modifies this, executor.keyboard, led, notifier
      ensures currentProfile == if event.MKey? then ProfileName(event.n) else old(currentProfile)
      ensures led.sent == old(led.sent) +
        if event.MKey? && old(currentProfile) != ProfileName(event.n) then [Led.SetProfileLed(event.n)] else []
      ensures notifier.shown == old(notifier.shown) +
        if event.MKey? && old(currentProfile) != ProfileName(event.n) && config.notify then [ProfileNotification(event.n)] else []
      ensures TypesMacro(event, old(currentProfile)) ==>
        var events := Macros.MacroEvents(MacroFor(event, old(currentProfile)).value);
        Sink.Wrote(events, old(executor.keyboard.trace), old(executor.keyboard.outcomes),
          executor.keyboard.trace, executor.keyboard.outcomes, Sink.Run(events, old(executor.keyboard.outcomes)).ok)
      ensures !TypesMacro(event, old(currentProfile)) ==> unchanged(executor.keyboard)
      ensures old(ShowsProfile(led)) ==> ShowsProfile(led)
    {
      match event {
        case GKey(n) =>
          var found := config.GetMacro(currentProfile, MacroName(n));
          if found.Some? {
            var _ := executor.Execute(found.value, spawned);
          }
        case MKey(n) =>
          var newProfile := ProfileName(n);
          if currentProfile != newProfile {
            ProfileNumRoundTrip(n);
            currentProfile := newProfile;
            led.Send(Led.SetProfileLed(n));
            if config.notify {
              notifier.Notify(ProfileNotification(n));
            }
          }
        case _ =>
      }
    }

    /**
     * Give the recorder the events it takes: an MR press, unless it is the
     * echo of an LED write, and a G-key press while a G-key is awaited.
     * Returns the recorder's action, or nothing when the event is not the
     * recorder's.
     */
    method HandleEventForRecording(event: Event, led: Led.LedController, start: CaptureStart)
      returns (action: Option<RecordingAction>)
      modifies recorder, recorder.CaptureObjects(), led.pending
      ensures event.MRKey? ==> !led.pending.value
      ensures !event.MRKey? ==> led.pending.value == old(led.pending.value)
      ensures event.MRKey? && old(led.pending.value) ==> action == None && recorder.state == old(recorder.state)
      ensures event.MRKey? && !old(led.pending.value) ==>
        && action.Some?
        && recorder.state == (if old(recorder.state).Idle? then AwaitingGKey(currentProfile) else Idle)
        && (old(recorder.state).Idle? ==> action.value == EnterAwaiting)
        && (old(recorder.state).AwaitingGKey? ==> action.value == CancelledNoGKey)
        && (old(recorder.state).Recording? ==>
              action.value == Finish(old(recorder.state).profile, old(recorder.state).gkey,
                                     old(recorder.state).captured + old(recorder.state.receiver.queue)))
      ensures event.GKey? && old(recorder.state).AwaitingGKey? ==>
        && action.Some?
        && (start.Started? ==>
              && action.value == StartedRecording(event.n)
              && recorder.state.Recording? && recorder.state.profile == old(recorder.state).profile
              && recorder.state.gkey == event.n && recorder.state.captured == []
              && fresh(recorder.CaptureObjects()) && recorder.Queued() == [])
        && (!start.Started? ==> action.value == Error(StartError(start)) && recorder.state == Idle)
      ensures !event.MRKey? && !(event.GKey? && old(recorder.state).AwaitingGKey?) ==>
        action == None && recorder.state == old(recorder.state)
      ensures action == IncomingAction(event, old(led.pending.value), old(recorder.state), old(recorder.Queued()), start)
    {
      match event {
        case MRKey =>
          var fromLed := led.IsMrEventFromLed();
          if fromLed {
            return None;
          }
          var a := recorder.OnMrPress(currentProfile);
          if a == NoAction {
            action := None;
          } else {
            action := Some(a);
          }
        case GKey(n) =>
          if recorder.IsAwaiting() {
            var a := recorder.OnGkeyPress(n, start);
            action := Some(a);
          } else {
            action := None;
          }
        case _ =>
          action := None;
      }
    }

    /**
     * Carry out a recorder action: its LED commands, then, for a finished
     * recording, storing it as a key-sequence macro under its profile and
     * G-key, then the notification. A failed save is reported but the stored
     * macro stays in memory.
     */
    method HandleRecordingAction(action: RecordingAction, led: Led.LedController, saveError: Option<string>)
      modifies config, led, notifier
      ensures led.sent == old(led.sent) + RecordingLedCommands(action)
      ensures notifier.shown == old(notifier.shown) + RecordingNotifications(action, saveError)
      ensures config.notify == old(config.notify)
      ensures action.SaveMacro? ==>
        && config.GetMacro(action.profile, MacroName(action.gkey)) == Some(RecordedMacro(action.sequence))
        && forall p, n :: (p != action.profile || n != MacroName(action.gkey)) ==> config.GetMacro(p, n) == old(config.GetMacro(p, n))
      ensures !action.SaveMacro? ==> config.profiles == old(config.profiles)
      ensures old(ShowsProfile(led)) ==> ShowsProfile(led)
    {
      RecordingKeepsProfileLed(led.sent, action);
      match action {
        case NoAction =>
        case EnterAwaiting =>
          led.Send(Led.SetMrLed(true));
          led.Send(Led.SetAllGKeysLed(255, 255, 255));
        case StartedRecording(gkey) =>
          led.Send(Led.SetGKeysRecording(gkey));
          led.Send(Led.StartMrFlashing);
          notifier.Notify(Notification("Recording G" + Decimal(gkey), Some("Press keys, then MR to stop")));
        case SaveMacro(profile, gkey, sequence) =>
          SaveRecording(profile, gkey, sequence, led, saveError);
        case CancelledEmpty =>
          led.Send(Led.StopMrFlashing);
          led.Send(Led.TurnOffGKeys);
          notifier.Notify(Notification("Recording cancelled", Some("No keys were captured")));
        case CancelledNoGKey =>
          led.Send(Led.SetMrLed(false));
          led.Send(Led.TurnOffGKeys);
        case Error(message) =>
          led.Send(Led.StopMrFlashing);
          led.Send(Led.TurnOffGKeys);
          notifier.Notify(Notification("Recording error", Some(message)));
      }
    }

    /** The `SaveMacro` case of HandleRecordingAction. */
    method SaveRecording(profile: string, gkey: u8, sequence: string, led: Led.LedController, saveError: Option<string>)
      modifies config, led, notifier
      ensures led.sent == old(led.sent) + [Led.QuickFlashMr(MR_QUICK_FLASH_COUNT), Led.TurnOffGKeys]
      ensures notifier.shown == old(notifier.shown) + RecordingNotifications(SaveMacro(profile, gkey, sequence), saveError)
      ensures config.notify == old(config.notify)
      ensures config.GetMacro(profile, MacroName(gkey)) == Some(RecordedMacro(sequence))
      ensures forall p, n :: (p != profile || n != MacroName(gkey)) ==> config.GetMacro(p, n) == old(config.GetMacro(p, n))
    {
      led.Send(Led.QuickFlashMr(MR_QUICK_FLASH_COUNT));
      led.Send(Led.TurnOffGKeys);
      config.SetMacro(profile, MacroName(gkey), RecordedMacro(sequence));
      if saveError.Some? {
        notifier.Notify(Notification("Recording failed", Some("Could not save: " + saveError.value)));
        return;
      }
      notifier.Notify(Notification("Recorded G" + Decimal(gkey), Some(sequence)));
    }

    /**
     * Route one decoded event: to the recorder when it takes it, and to
     * ordinary handling only when the recorder took nothing and is neither
     * recording nor waiting for a G-key. So while recording, or waiting, no
     * macro runs and the profile does not change; and a recording is always
     * stored under the profile that is current. Returns the recorder's
     * action, if it took the event.
     */
    method HandleIncoming(event: Event, led: Led.LedController, world: Outside) returns (action: Option<RecordingAction>)
      requires RecorderFollowsProfile() && ShowsProfile(led)
      modifies this, recorder, recorder.CaptureObjects(), led, led.pending, config, executor.keyboard, notifier
      ensures RecorderFollowsProfile() && ShowsProfile(led)
      ensures fresh(recorder.CaptureObjects() - old(recorder.CaptureObjects()))
      ensures !old(recorder.state).Idle? ==> currentProfile == old(currentProfile) && unchanged(executor.keyboard)
      ensures event.MRKey? && old(led.pending.value) ==> recorder.state == old(recorder.state) && currentProfile == old(currentProfile)
      ensures event.MRKey? && !old(led.pending.value) ==>
        recorder.state == if old(recorder.state).Idle? then AwaitingGKey(old(currentProfile)) else Idle
      ensures old(recorder.state).Idle? && !event.MRKey? ==>
        recorder.state == Idle && currentProfile == if event.MKey? then ProfileName(event.n) else old(currentProfile)
      ensures old(recorder.state).Idle? && TypesMacro(event, old(currentProfile)) ==>
        var events := Macros.MacroEvents(MacroFor(event, old(currentProfile)).value);
        Sink.Wrote(events, old(executor.keyboard.trace), old(executor.keyboard.outcomes),
          executor.keyboard.trace, executor.keyboard.outcomes, Sink.Run(events, old(executor.keyboard.outcomes)).ok)
      ensures forall p, n :: p != old(currentProfile) ==> config.GetMacro(p, n) == old(config.GetMacro(p, n))
      // which action the recorder takes, and what it does to the recorder
      ensures action == IncomingAction(event, old(led.pending.value), old(recorder.state), old(recorder.Queued()), world.capture)
      ensures action.None? ==> recorder.state == old(recorder.state)
      ensures action.Some? && action.value.StartedRecording? ==>
        && recorder.state.Recording? && recorder.state.profile == old(currentProfile)
        && recorder.state.gkey == event.n && recorder.state.captured == [] && recorder.Queued() == []
      ensures action.Some? && action.value.Error? ==> recorder.state == Idle
      // the LED commands, the notifications and the stored macros
      ensures action.Some? ==>
        && led.sent == old(led.sent) + RecordingLedCommands(action.value)
        && notifier.shown == old(notifier.shown) + RecordingNotifications(action.value, world.saveError)
      ensures action.None? && !old(recorder.state).Idle? ==>
        led.sent == old(led.sent) && notifier.shown == old(notifier.shown)
      ensures action.None? && old(recorder.state).Idle? ==>
        var switched := event.MKey? && old(currentProfile) != ProfileName(event.n);
        && led.sent == old(led.sent) + (if switched then [Led.SetProfileLed(event.n)] else [])
        && notifier.shown == old(notifier.shown) + (if switched && config.notify then [ProfileNotification(event.n)] else [])
      ensures config.notify == old(config.notify)
      ensures action.Some? && action.value.SaveMacro? ==>
        config.GetMacro(old(currentProfile), MacroName(action.value.gkey)) == Some(RecordedMacro(action.value.sequence))
      ensures !(action.Some? && action.value.SaveMacro?) ==> config.profiles == old(config.profiles)
    {
      action := HandleEventForRecording(event, led, world.capture);
      Dispatch(event, action, led, world);
    }

    /**
     * The second half of HandleIncoming: carry out the recorder's action, or,
     * when the recorder took nothing and is idle, handle the event ordinarily.
     */
    method Dispatch(event: Event, action: Option<RecordingAction>, led: Led.LedController, world: Outside)
      requires RecorderFollowsProfile() && ShowsProfile(led)
      requires action.Some? && action.value.SaveMacro? ==> action.value.profile == currentProfile
      modifies this, config, led, executor.keyboard, notifier
      ensures RecorderFollowsProfile() && ShowsProfile(led)
      ensures config.notify == old(config.notify)
      ensures !(action.None? && recorder.state.Idle?) ==> currentProfile == old(currentProfile) && unchanged(executor.keyboard)
      ensures action.Some? ==>
        && led.sent == old(led.sent) + RecordingLedCommands(action.value)
        && notifier.shown == old(notifier.shown) + RecordingNotifications(action.value, world.saveError)
      ensures action.Some? && action.value.SaveMacro? ==>
        config.GetMacro(old(currentProfile), MacroName(action.value.gkey)) == Some(RecordedMacro(action.value.sequence))
      ensures !(action.Some? && action.value.SaveMacro?) ==> config.profiles == old(config.profiles)
      ensures forall p, n :: p != old(currentProfile) ==> config.GetMacro(p, n) == old(config.GetMacro(p, n))
      ensures action.None? && !recorder.state.Idle? ==> led.sent == old(led.sent) && notifier.shown == old(notifier.shown)
      ensures action.None? && recorder.state.Idle? ==>
        var switched := event.MKey? && old(currentProfile) != ProfileName(event.n);
        && currentProfile == (if event.MKey? then ProfileName(event.n) else old(currentProfile))
        && led.sent == old(led.sent) + (if switched then [Led.SetProfileLed(event.n)] else [])
        && notifier.shown == old(notifier.shown) + (if switched && config.notify then [ProfileNotification(event.n)] else [])
      ensures action.None? && recorder.state.Idle? && TypesMacro(event, old(currentProfile)) ==>
        var events := Macros.MacroEvents(MacroFor(event, old(currentProfile)).value);
        Sink.Wrote(events, old(executor.keyboard.trace), old(executor.keyboard.outcomes),
          executor.keyboard.trace, executor.keyboard.outcomes, Sink.Run(events, old(executor.keyboard.outcomes)).ok)
    {
      if action.Some? {
        HandleRecordingAction(action.value, led, world.saveError);
      } else if !recorder.IsRecording() && !recorder.IsAwaiting() {
        HandleEvent(event, led, world.spawned);
      }
    }

    /**
     * One round of the event loop: stop when shutdown was asked for; while
     * recording, collect the captured chords and read with a timeout,
     * otherwise block on the read; then route what was read. A read error
     * ends the session unless shutdown was asked for meanwhile, in which case
     * the next round stops.
     */
    method Round(led: Led.LedController, world: Outside) returns (next: Next, received: Result<Option<Event>, string>)
      requires RecorderFollowsProfile() && ShowsProfile(led)
      modifies this, recorder, recorder.CaptureObjects(), led, led.pending, config, executor.keyboard, notifier
      ensures RecorderFollowsProfile() && ShowsProfile(led)
      ensures fresh(recorder.CaptureObjects() - old(recorder.CaptureObjects()))
      ensures !world.running ==> next == Shutdown && currentProfile == old(currentProfile) && recorder.state == old(recorder.state)
      ensures world.running ==> received == ReadFor(old(recorder.state), world)
      ensures world.running ==> next == if received.Err? && world.runningAfterError then Reconnect(received.error) else Continue
      ensures !(world.running && received.Ok? && received.value.Some?) ==> unchanged(executor.keyboard) && currentProfile == old(currentProfile)
      ensures !(world.running && received.Ok? && received.value.Some?) ==>
        led.sent == old(led.sent) && notifier.shown == old(notifier.shown) && config.profiles == old(config.profiles)
      // while recording, the chords the worker queued are collected, whatever is read
      ensures world.running && old(recorder.state).Recording? && !(received.Ok? && received.value.Some? && received.value.value.MRKey?) ==>
        recorder.state == old(recorder.state).(captured := old(recorder.state).captured + old(recorder.Queued()))
      // an MR press that is not an LED echo ends the recording
      ensures world.running && old(recorder.state).Recording? && received == Ok(Some(MRKey)) && !old(led.pending.value) ==>
        recorder.state == Idle
    {
      if !world.running {
        return Shutdown, Ok(None);
      }
      if recorder.IsRecording() {
        recorder.PollCapturedKeys();
      }
      if recorder.IsRecording() {
        received := Device.ReadEventTimeout(world.poll, world.read);
      } else {
        received := Device.ReadEvent(world.read);
      }
      next := Continue;
      match received {
        case Ok(Some(event)) =>
          var _ := HandleIncoming(event, led, world);
        case Ok(None) =>
        case Err(e) =>
          if world.runningAfterError {
            next := Reconnect(e);
          }
      }
    }

    /**
     * The event loop of one connection, over the rounds the outside world
     * offers: it runs until a round stops it. Across every round a recording
     * belongs to the current profile and the profile LED shows it.
     */
    method Session(led: Led.LedController, worlds: seq<Outside>) returns (next: Next, rounds: nat)
      requires RecorderFollowsProfile() && ShowsProfile(led)
      modifies this, recorder, recorder.CaptureObjects(), led, led.pending, config, executor.keyboard, notifier
      ensures RecorderFollowsProfile() && ShowsProfile(led)
      ensures rounds <= |worlds|
      ensures next == Continue ==> rounds == |worlds|
      ensures next != Continue ==> rounds >= 1
      ensures next.Shutdown? ==> !worlds[rounds - 1].running
      ensures forall k :: 0 <= k < rounds - 1 ==> worlds[k].running
    {
      next := Continue;
      rounds := 0;
      while rounds < |worlds| && next == Continue
        invariant rounds <= |worlds|
        invariant RecorderFollowsProfile() && ShowsProfile(led)
        invariant fresh(recorder.CaptureObjects() - old(recorder.CaptureObjects()))
        invariant next != Continue ==> rounds >= 1
        invariant next.Shutdown? ==> !worlds[rounds - 1].running
        invariant forall k :: 0 <= k < rounds - 1 ==> worlds[k].running
        invariant next == Continue ==> forall k :: 0 <= k < rounds ==> worlds[k].running
        decreases |worlds| - rounds
      {
        var received;
        next, received := Round(led, worlds[rounds]);
        rounds := rounds + 1;
      }
    }
  }

  /** No recorder action touches the profile LED: the last profile LED command stays the last. */
  lemma RecordingKeepsProfileLed(sent: seq<Led.LedCommand>, action: RecordingAction)
    ensures LastProfileLed(sent + RecordingLedCommands(action)) == LastProfileLed(sent)
  {
    var cmds := RecordingLedCommands(action);
    assert forall i :: 0 <= i < |cmds| ==> !cmds[i].SetProfileLed?;
    LastProfileLedAppend(sent, cmds);
  }
}
