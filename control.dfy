// The control loop: the key light's state as held by the terminal
// application, the key bindings that change it, the push of every change to
// the device, and the event loop that runs until the user quits.
//
// `Snapshot` and the functions over it are the value-level specification;
// the class `App` is the state the application mutates in place, and each
// of its methods is proved to move `State()` as the specification says.

module Control {

  import opened KeyLight

  const MinBrightness := 0
  const MaxBrightness := 100
  const MinTemperature := 143
  const MaxTemperature := 344

  // ---------------------------------------------------------------------
  // Input events

  datatype Modifier = Shift | Control | Alt | Super | Hyper | Meta

  datatype KeyCode = Esc | Enter | Left | Right | Up | Down | Char(c: char) | OtherKey(id: nat)

  /** A key together with the exact set of modifiers held. */
  datatype KeyEvent = KeyEvent(modifiers: set<Modifier>, code: KeyCode)

  datatype KeyEventKind = Press | Repeat | Release

  /** A terminal event: a key event, or anything else (mouse, resize, focus,
      paste), which the loop ignores. */
  datatype Event = Key(kind: KeyEventKind, key: KeyEvent) | NonKey

  /** The operation a key event selects. */
  datatype Action = Exit | StepBrightness(delta: int) | StepTemperature(delta: int) | TogglePower | NoAction

  predicate IsQuitKey(key: KeyEvent)
  {
    key.code == Esc || key.code == Char('q') ||
    (key.modifiers == {Control} && (key.code == Char('c') || key.code == Char('C')))
  }

  /** The match of `on_key_event`, taken arm by arm in order: a quit key wins
      over everything, Shift alone selects the fine step of 1, any other
      modifier set the coarse step of 10; Up raises the raw temperature. */
  function Classify(key: KeyEvent): (a: Action)
    ensures a == Exit <==> IsQuitKey(key)
    ensures a.StepBrightness? <==> !IsQuitKey(key) && key.code in {Left, Right}
    ensures a.StepTemperature? <==> !IsQuitKey(key) && key.code in {Up, Down}
    ensures a == TogglePower <==> !IsQuitKey(key) && key.code in {Char(' '), Enter}
    ensures a.StepBrightness? ==>
              a.delta == (if key.code == Left then -1 else 1) * (if key.modifiers == {Shift} then 1 else 10)
    ensures a.StepTemperature? ==>
              a.delta == (if key.code == Up then 1 else -1) * (if key.modifiers == {Shift} then 1 else 10)
  {
    var shift := key.modifiers == {Shift};
    if IsQuitKey(key) then Exit
    else if shift && key.code == Left then StepBrightness(-1)
    else if shift && key.code == Right then StepBrightness(1)
    else if key.code == Left then StepBrightness(-10)
    else if key.code == Right then StepBrightness(10)
    else if shift && key.code == Up then StepTemperature(1)
    else if shift && key.code == Down then StepTemperature(-1)
    else if key.code == Up then StepTemperature(10)
    else if key.code == Down then StepTemperature(-10)
    else if key.code == Char(' ') || key.code == Enter then TogglePower
    else NoAction
  }

  /** Rust's `Ord::clamp`. */
  function Clamp(x: int, lo: int, hi: int): (r: int)
    requires lo <= hi
    ensures lo <= r <= hi
    ensures lo <= x <= hi ==> r == x
    ensures x < lo ==> r == lo
    ensures hi < x ==> r == hi
  {
    if x < lo then lo else if hi < x then hi else x
  }

  // ---------------------------------------------------------------------
  // Value-level specification

  /** The fields of `App` the loop changes, together with the pushes issued
      so far and the device failure that aborted the process, if any. */
  datatype Snapshot = Snapshot(
    running: bool,
    on: bool,
    brightness: int,
    temperature: int,
    pushed: seq<Light>,
    fault: Option<DeviceError>)

  predicate InRange(s: Snapshot)
  {
    MinBrightness <= s.brightness <= MaxBrightness &&
    MinTemperature <= s.temperature <= MaxTemperature
  }

  /** The process is still handling input: not quit and not aborted. */
  predicate Live(s: Snapshot)
  {
    s.running && s.fault.None?
  }

  /** `App::new`: not yet running, power decoded as `on == 1`, brightness and
      temperature copied without clamping, nothing pushed. */
  function Initial(light: Light): (s: Snapshot)
    ensures !s.running && s.fault.None? && s.pushed == []
    ensures s.on <==> light.on == 1
    ensures s.brightness == light.brightness && s.temperature == light.temperature
  {
    Snapshot(false, light.on == 1, light.brightness, light.temperature, [], None)
  }

  /** The light `set_light` sends for a state: the three fields, with the
      power flag encoded on the wire as 0 or 1. */
  function Current(s: Snapshot): (l: Light)
    ensures l.on == 1 <==> s.on
    ensures l.on == 0 <==> !s.on
    ensures l.brightness == s.brightness && l.temperature == s.temperature
  {
    NewLight(s.on, s.brightness, s.temperature)
  }

  /** The error, if any, that the reply to a push makes fatal: the caller
      `expect`s the result, so a returned error aborts like a panic. */
  function PushFault(r: Outcome): (f: Option<DeviceError>)
    ensures f.None? <==> r.Ok?
  {
    if r.Ok? then None else Some(r.error)
  }

  /** `App::set_light`: while running, push the current state and abort on
      failure; the device's answer is never written back, and an abort once
      recorded is never cleared. */
  function Pushed(s: Snapshot, replies: nat -> Reply): (r: Snapshot)
    ensures r.running == s.running && r.on == s.on
    ensures r.brightness == s.brightness && r.temperature == s.temperature
    ensures s.running ==> r.pushed == s.pushed + [Current(s)]
    ensures s.running && s.fault.None? ==> (r.fault.None? <==> Accepted(replies(|s.pushed|)))
    ensures s.fault.Some? ==> r.fault == s.fault
    ensures !s.running ==> r == s
  {
    if !s.running then s
    else
      var outcome := PushOutcome(replies(|s.pushed|));
      s.(pushed := s.pushed + [Current(s)],
         fault := if s.fault.Some? then s.fault else PushFault(outcome))
  }

  /** `App::on_key_event`: a brightness or temperature key adds its step to
      that field and clamps it, leaving the other two alone; the toggle key
      flips the power flag; only a quit key clears `running`; an unbound key
      changes nothing. The push log either stays as it is or gains exactly
      the new state, and it gains it exactly when the application is running
      and the key changes the light; an abort is never cleared. */
  function Step(s: Snapshot, key: KeyEvent, replies: nat -> Reply): (r: Snapshot)
    ensures Classify(key).StepBrightness? ==>
              r.brightness == Clamp(s.brightness + Classify(key).delta, MinBrightness, MaxBrightness) &&
              r.on == s.on && r.temperature == s.temperature
    ensures Classify(key).StepTemperature? ==>
              r.temperature == Clamp(s.temperature + Classify(key).delta, MinTemperature, MaxTemperature) &&
              r.on == s.on && r.brightness == s.brightness
    ensures Classify(key) == TogglePower ==>
              r.on == !s.on && r.brightness == s.brightness && r.temperature == s.temperature
    ensures Classify(key) == Exit ==> r == s.(running := false)
    ensures Classify(key) == NoAction ==> r == s
    ensures r.running <==> s.running && Classify(key) != Exit
    ensures r.pushed == s.pushed || r.pushed == s.pushed + [Current(r)]
    ensures r.pushed != s.pushed <==> s.running && Classify(key) !in {Exit, NoAction}
    ensures s.fault.Some? ==> r.fault == s.fault
  {
    match Classify(key)
    case Exit => s.(running := false)
    case StepBrightness(d) =>
      Pushed(s.(brightness := Clamp(s.brightness + d, MinBrightness, MaxBrightness)), replies)
    case StepTemperature(d) =>
      Pushed(s.(temperature := Clamp(s.temperature + d, MinTemperature, MaxTemperature)), replies)
    case TogglePower => Pushed(s.(on := !s.on), replies)
    case NoAction => s
  }

  /** Whether an event reaches `on_key_event` at all: key presses do, key
      releases and repeats and every other event do not. */
  predicate Pressed(e: Event)
  {
    e.Key? && e.kind == Press
  }

  /** `App::handle_crossterm_events` for one event already read: anything
      but a key press leaves the state as it is; a press acts as one step. */
  function Handle(s: Snapshot, e: Event, replies: nat -> Reply): (r: Snapshot)
    ensures !Pressed(e) ==> r == s
    ensures r.running ==> s.running
    ensures r.pushed == s.pushed || r.pushed == s.pushed + [Current(r)]
    ensures r.pushed != s.pushed <==> s.running && Mutates(e)
  {
    if Pressed(e) then Step(s, e.key, replies) else s
  }

  /** The loop of `App::run` over the events read, in order, while the
      application is running and has not aborted: a state that is not live
      is left as it is, `running` is never set again, and earlier pushes
      are kept. */
  function Session(s: Snapshot, events: seq<Event>, replies: nat -> Reply): (r: Snapshot)
    ensures !Live(s) ==> r == s
    ensures r.running ==> s.running
    ensures s.pushed <= r.pushed
    decreases |events|
  {
    if !Live(s) || events == [] then s
    else Session(Handle(s, events[0], replies), events[1..], replies)
  }

  /** How many events that loop reads before it stops. */
  function Consumed(s: Snapshot, events: seq<Event>, replies: nat -> Reply): (n: nat)
    ensures n <= |events|
    decreases |events|
  {
    if !Live(s) || events == [] then 0
    else 1 + Consumed(Handle(s, events[0], replies), events[1..], replies)
  }

  /** An event that reaches `on_key_event` and quits. */
  predicate IsQuitEvent(e: Event)
  {
    Pressed(e) && Classify(e.key) == Exit
  }

  /** Events that change the light and therefore push it. */
  predicate Mutates(e: Event)
  {
    Pressed(e) && Classify(e.key) !in {Exit, NoAction}
  }

  /** The number of events that change the light: none exactly when no
      event does. */
  function CountMutating(events: seq<Event>): (n: nat)
    ensures n <= |events|
    ensures n == 0 <==> forall i :: 0 <= i < |events| ==> !Mutates(events[i])
  {
    if events == [] then 0
    else (if Mutates(events[0]) then 1 else 0) + CountMutating(events[1..])
  }

  // ---------------------------------------------------------------------
  // Properties of one step

  /** Every brightness or temperature step lands inside its range, whatever
      the starting value and however large the step; the other fields and
      the running flag do not change. */
  lemma StepClamps(s: Snapshot, key: KeyEvent, replies: nat -> Reply)
    ensures var r := Step(s, key, replies);
            match Classify(key)
            case StepBrightness(d) =>
              MinBrightness <= r.brightness <= MaxBrightness &&
              r.on == s.on && r.temperature == s.temperature && r.running == s.running
            case StepTemperature(d) =>
              MinTemperature <= r.temperature <= MaxTemperature &&
              r.on == s.on && r.brightness == s.brightness && r.running == s.running
            case _ => true
  {
  }

  /** One step keeps brightness and temperature in range. */
  lemma StepKeepsRange(s: Snapshot, key: KeyEvent, replies: nat -> Reply)
    requires InRange(s)
    ensures InRange(Step(s, key, replies))
  {
  }

  /** One toggle flips the power flag; toggling twice with nothing in between
      restores it and leaves brightness, temperature and the running flag
      alone. */
  lemma ToggleInvolution(s: Snapshot, key: KeyEvent, replies: nat -> Reply)
    requires Classify(key) == TogglePower
    ensures Step(s, key, replies).on == !s.on
    ensures var r := Step(Step(s, key, replies), key, replies);
            r.on == s.on && r.brightness == s.brightness &&
            r.temperature == s.temperature && r.running == s.running
  {
  }

  /** Quitting clears `running` and nothing else, and from then on no key
      pushes anything. */
  lemma QuitThenSilent(s: Snapshot, quit: KeyEvent, key: KeyEvent, replies: nat -> Reply)
    requires IsQuitKey(quit)
    ensures Step(s, quit, replies) == s.(running := false)
    ensures Step(Step(s, quit, replies), key, replies).pushed == s.pushed
  {
  }

  /** Keys bound to nothing change nothing. */
  lemma UnboundKeyIsNoOp(s: Snapshot, key: KeyEvent, replies: nat -> Reply)
    requires !IsQuitKey(key) && key.code !in {Left, Right, Up, Down, Char(' '), Enter}
    ensures Step(s, key, replies) == s
  {
  }

  /** The power flag survives the trip device -> wire -> application, and
      brightness and temperature are copied exactly. */
  lemma InitialRoundTrip(on: bool, brightness: int, temperature: int)
    ensures var s := Initial(NewLight(on, brightness, temperature));
            s.on == on && s.brightness == brightness && s.temperature == temperature
  {
  }

  // ---------------------------------------------------------------------
  // Properties of a whole session

  /** A session that starts in range stays in range. */
  lemma {:induction false} SessionKeepsRange(s: Snapshot, events: seq<Event>, replies: nat -> Reply)
    requires InRange(s)
    ensures InRange(Session(s, events, replies))
    decreases |events|
  {
    if Live(s) && events != [] {
      if Pressed(events[0]) {
        StepKeepsRange(s, events[0].key, replies);
      }
      SessionKeepsRange(Handle(s, events[0], replies), events[1..], replies);
    }
  }

  /** The loop stops for one of three reasons only: the input ran out, the
      last event read was a quit key (and then `running` is false), or the
      last event read changed the light and its push failed (and then
      `running` is still true). No event read before the last one was a quit
      key. */
  lemma {:induction false} SessionStops(s: Snapshot, events: seq<Event>, replies: nat -> Reply)
    requires Live(s)
    ensures var n := Consumed(s, events, replies);
            var r := Session(s, events, replies);
            (forall j :: 0 <= j < n - 1 ==> !IsQuitEvent(events[j])) &&
            (Live(r) ==> n == |events|) &&
            (!r.running ==> 0 < n && IsQuitEvent(events[n - 1])) &&
            (0 < n && IsQuitEvent(events[n - 1]) ==> !r.running) &&
            (r.running && !Live(r) ==> 0 < n && Mutates(events[n - 1]))
    decreases |events|
  {
    if events != [] {
      var t := Handle(s, events[0], replies);
      if Live(t) {
        SessionStops(t, events[1..], replies);
        var n := Consumed(s, events, replies);
        var m := Consumed(t, events[1..], replies);
        if 0 < m {
          assert events[1..][m - 1] == events[m];
        }
        forall j | 0 <= j < n - 1
          ensures !IsQuitEvent(events[j])
        {
          if j > 0 {
            assert events[j] == events[1..][j - 1];
          }
        }
      }
    }
  }

  /** Every event the loop reads that changes the light pushes exactly one
      light, and earlier pushes are kept. */
  lemma {:induction false} SessionPushCount(s: Snapshot, events: seq<Event>, replies: nat -> Reply)
    ensures var n := Consumed(s, events, replies);
            var r := Session(s, events, replies);
            s.pushed <= r.pushed &&
            |r.pushed| == |s.pushed| + CountMutating(events[..n])
    decreases |events|
  {
    var n := Consumed(s, events, replies);
    if Live(s) && events != [] {
      var t := Handle(s, events[0], replies);
      SessionPushCount(t, events[1..], replies);
      assert events[..n][1..] == events[1..][..n - 1];
    } else {
      assert events[..n] == [];
    }
  }

  /** After a quit no further event changes anything. */
  lemma StoppedSessionIsInert(s: Snapshot, events: seq<Event>, replies: nat -> Reply)
    requires !Live(s)
    ensures Session(s, events, replies) == s && Consumed(s, events, replies) == 0
  {
  }

  // ---------------------------------------------------------------------
  // The application state, updated in place

  class App {
    /** Address of the key light, fixed for the session. */
    const ip: string
    /** The device's reply to the k-th push of the session. */
    const replies: nat -> Reply

    var running: bool
    var on: bool
    var brightness: int
    var temperature: int
    /** Every push attempted, in order: the light it carried. */
    var pushed: seq<Light>
    /** The device failure that aborted the process, if any. */
    var fault: Option<DeviceError>

    function State(): Snapshot
      reads this
    {
      Snapshot(running, on, brightness, temperature, pushed, fault)
    }

    /** `App::new` from the light fetched at start-up. */
    constructor (ip: string, light: Light, replies: nat -> Reply)
      ensures this.ip == ip && this.replies == replies
      ensures State() == Initial(light)
    {
      this.ip := ip;
      this.replies := replies;
      running := false;
      on := light.on == 1;
      brightness := light.brightness;
      temperature := light.temperature;
      pushed := [];
      fault := None;
    }

    /** `App::set_light`. */
    method SetLight()
      requires fault.None?
      modifies this`pushed, this`fault
      ensures State() == Pushed(old(State()), replies)
      ensures old(running) ==> pushed == old(pushed) + [NewLight(on, brightness, temperature)]
      ensures !old(running) ==> pushed == old(pushed) && fault == old(fault)
    {
      if running {
        var light := NewLight(on, brightness, temperature);
        var request, outcome := KeyLight.SetLight(ip, light, replies(|pushed|));
        pushed := pushed + [light];
        if !outcome.Ok? {
          fault := Some(outcome.error);
        }
      }
    }

    /** `App::change_brightness`. */
    method ChangeBrightness(change: int)
      requires fault.None?
      modifies this
      ensures brightness == Clamp(old(brightness) + change, MinBrightness, MaxBrightness)
      ensures MinBrightness <= brightness <= MaxBrightness
      ensures running == old(running) && on == old(on) && temperature == old(temperature)
      ensures State() == Pushed(old(State()).(brightness := brightness), replies)
    {
      brightness := Clamp(brightness + change, MinBrightness, MaxBrightness);
      SetLight();
    }

    /** `App::change_temperature`. */
    method ChangeTemperature(change: int)
      requires fault.None?
      modifies this
      ensures temperature == Clamp(old(temperature) + change, MinTemperature, MaxTemperature)
      ensures MinTemperature <= temperature <= MaxTemperature
      ensures running == old(running) && on == old(on) && brightness == old(brightness)
      ensures State() == Pushed(old(State()).(temperature := temperature), replies)
    {
      temperature := Clamp(temperature + change, MinTemperature, MaxTemperature);
      SetLight();
    }

    /** `App::set_on`. */
    method SetOn(value: bool)
      requires fault.None?
      modifies this
      ensures on == value
      ensures running == old(running) && brightness == old(brightness) && temperature == old(temperature)
      ensures State() == Pushed(old(State()).(on := value), replies)
    {
      on := value;
      SetLight();
    }

    /** `App::quit`. */
    method Quit()
      modifies this`running
      ensures !running
      ensures State() == old(State()).(running := false)
    {
      running := false;
    }

    /** `App::on_key_event`. */
    method OnKeyEvent(key: KeyEvent)
      requires fault.None?
      modifies this
      ensures State() == Step(old(State()), key, replies)
    {
      match Classify(key)
      case Exit => Quit();
      case StepBrightness(d) => ChangeBrightness(d);
      case StepTemperature(d) => ChangeTemperature(d);
      case TogglePower => SetOn(!on);
      case NoAction =>
    }

    /** `App::handle_crossterm_events`, for the event it read. */
    method HandleEvent(e: Event)
      requires fault.None?
      modifies this
      ensures State() == Handle(old(State()), e, replies)
    {
      if e.Key? && e.kind == Press {
        OnKeyEvent(e.key);
      }
    }

    /** `App::run` over the events the terminal delivers: set running, then
        handle events in order until the user quits, a push aborts the
        process, or the input runs out. Returns how many events were read. */
    method Run(events: seq<Event>) returns (processed: nat)
      requires fault.None?
      modifies this
      ensures processed == Consumed(old(State()).(running := true), events, replies)
      ensures State() == Session(old(State()).(running := true), events, replies)
      ensures processed < |events| ==> !Live(State())
    {
      running := true;
      ghost var start := State();
      processed := 0;
      while running && fault.None? && processed < |events|
        invariant processed <= |events|
        invariant Session(State(), events[processed..], replies) == Session(start, events, replies)
        invariant processed + Consumed(State(), events[processed..], replies)
                  == Consumed(start, events, replies)
        decreases |events| - processed
      {
        assert events[processed..][1..] == events[processed + 1..];
        HandleEvent(events[processed]);
        processed := processed + 1;
      }
    }
  }
}
