/** The game-length menu: a cursor over three options (180, 240 and 300 seconds),
    moved by up/down at most once per 0.2 s, drawn by putting the marker on the
    selected text section, and confirmed into the round length and a switch to the
    game screen.

    `Step` is the specification of one run of the menu's per-frame system on a value
    of the whole menu state; `MenuSelectionSystem` is the system itself, working in
    place on the menu's component and resource objects, and is proved to do what
    `Step` says. */
module Menu {
  import opened Timers
  import opened MarkerText

  /** The application's screens. */
  datatype AppState = Splash | Pause | Menu | Game | GameOver

  /** The engine's pending screen switch: none, or the screen to enter next. */
  datatype NextState = Unchanged | Pending(state: AppState)

  /** What one frame gives the menu: the frame's time step in nanoseconds, whether up
      or down is held, and whether confirm was pressed on this frame. */
  datatype Input = Input(delta: nat, up: bool, down: bool, confirm: bool)

  /** The rate limit between two cursor moves: 0.2 s. */
  const RateLimit: nat := 200_000_000

  /** The options occupy sections 1 to 3; section 0 is the header. */
  const FirstOption: nat := 1
  const LastOption: nat := 3

  /** The round length before any choice is made. */
  const DefaultTotalSeconds: nat := 180

  /** The menu's text as it is spawned: the header, then the three options with the
      marker on the first. */
  function InitialSections(): seq<string>
  {
    [ "Game length:\n\n",
      "\U{25B6}  180 seconds (3 minutes)\n\n",
      "  240 seconds (4 minutes)\n\n",
      "  300 seconds (5 minutes)" ]
  }

  /** The whole state the menu system reads and writes: the rate-limit timer and the
      cursor of the scroll control, the text sections, the round length and the
      pending screen switch. */
  datatype MenuState = MenuState(timer: Timer, index: nat, sections: seq<string>,
                                 totalSeconds: nat, next: NextState)

  /** The invariant the menu keeps from its set-up on: a valid 0.2 s timer, the cursor
      on an option, a text section for every option, and the marker on the selected
      option only. */
  predicate Valid(s: MenuState)
  {
    && TimerValid(s.timer) && s.timer.duration == RateLimit
    && FirstOption <= s.index <= LastOption
    && LastOption < |s.sections|
    && MarkerInvariant(s.sections, s.index)
  }

  /** The menu as set up on entering the menu screen. Setting up the menu does not
      touch the round length: it is 180 s on the first entry (the value the resource
      is installed with) and the last confirmed length on any later entry, so it is a
      parameter here. */
  function Initial(totalSeconds: nat): (s: MenuState)
    ensures Valid(s)
    ensures s.index == FirstOption && s.totalSeconds == totalSeconds && s.next == Unchanged
    ensures |s.sections| == 4 && Marker in s.sections[1]
    ensures !s.timer.finished && s.timer.elapsed == 0
  {
    var r := MenuState(NewTimer(RateLimit), FirstOption, InitialSections(), totalSeconds, Unchanged);
    assert Marker == r.sections[1][0];
    assert Marker !in r.sections[2] && Marker !in r.sections[3];
    r
  }

  /** The round length for the chosen option: 180 s for the first, 240 s for the
      second, 300 s for anything else. */
  function SecondsFor(index: nat): (r: nat)
    ensures r == 180 <==> index == 1
    ensures r == 240 <==> index == 2
    ensures r == 300 <==> index != 1 && index != 2
  {
    if index == 1 then 180 else if index == 2 then 240 else 300
  }

  /** The cursor after a move inside the open rate-limit gate, clamped to the
      options. Up wins over down. The cursor is an unsigned integer, so decrementing
      it needs it to be at least 1. */
  function Moved(index: nat, up: bool, down: bool): (r: nat)
    requires FirstOption <= index
    ensures FirstOption <= r <= LastOption
    ensures index <= LastOption && up ==> r == if index == FirstOption then FirstOption else index - 1
    ensures index < LastOption && !up && down ==> r == index + 1
    ensures index <= LastOption && !up && !down ==> r == index
    ensures LastOption < index ==> r == LastOption
    ensures index == LastOption && !up ==> r == LastOption
  {
    var moved: nat := if up then index - 1 else if down then index + 1 else index;
    if moved < FirstOption then FirstOption
    else if moved > LastOption then LastOption
    else moved
  }

  /** One run of the menu system. The timer is ticked; while it has not run out the
      cursor and the text stay as they are. Once it has, a held key moves the cursor
      and restarts the timer, and the text is refreshed for the (new) selection. A
      confirm press, gate or no gate, sets the round length for the selection and
      requests the game screen. */
  function Step(s: MenuState, input: Input): (r: MenuState)
    requires FirstOption <= s.index
    ensures FirstOption <= r.index
    ensures Valid(s) ==> Valid(r)
    ensures r.timer.duration == s.timer.duration
    ensures |r.sections| == |s.sections|
    ensures !Expired(Tick(s.timer, input.delta)) ==>
              r.index == s.index && r.sections == s.sections && r.timer == Tick(s.timer, input.delta)
    ensures Expired(Tick(s.timer, input.delta)) ==>
              && r.index == Moved(s.index, input.up, input.down)
              && MarkerInvariant(r.sections, r.index)
              && r.sections == Refreshed(s.sections, r.index)
    ensures Expired(Tick(s.timer, input.delta)) && (input.up || input.down) ==>
              r.timer.elapsed == 0 && !r.timer.finished && !r.timer.justFinished
    ensures !(input.up || input.down) ==> r.timer == Tick(s.timer, input.delta)
    ensures input.confirm ==> r.totalSeconds == SecondsFor(r.index) && r.next == Pending(Game)
    ensures !input.confirm ==> r.totalSeconds == s.totalSeconds && r.next == s.next
  {
    var ticked := Tick(s.timer, input.delta);
    var gated :=
      if Expired(ticked) then
        var index := Moved(s.index, input.up, input.down);
        s.(timer := if input.up || input.down then Reset(ticked) else ticked,
           index := index,
           sections := Refreshed(s.sections, index))
      else
        s.(timer := ticked);
    if input.confirm then gated.(totalSeconds := SecondsFor(gated.index), next := Pending(Game))
    else gated
  }

  /** The menu after a run of the system on each input in turn. */
  function Run(s: MenuState, inputs: seq<Input>): (r: MenuState)
    requires FirstOption <= s.index
    ensures FirstOption <= r.index
    ensures Valid(s) ==> Valid(r)
    ensures |r.sections| == |s.sections|
    decreases |inputs|
  {
    if inputs == [] then s else Run(Step(s, inputs[0]), inputs[1..])
  }

  /** The frame time steps of a run of inputs. */
  function Deltas(inputs: seq<Input>): (r: seq<nat>)
    ensures |r| == |inputs|
    ensures forall i :: 0 <= i < |inputs| ==> r[i] == inputs[i].delta
  {
    seq(|inputs|, i requires 0 <= i < |inputs| => inputs[i].delta)
  }

  /** The text as spawned already carries the marker exactly where the spawned
      cursor is, so the first refresh leaves it as it is. */
  lemma InitialIsRefreshed()
    ensures Refreshed(InitialSections(), FirstOption) == InitialSections()
  {
    assert MarkerInvariant(Initial(DefaultTotalSeconds).sections, FirstOption);
    RefreshedFixedPoint(InitialSections(), FirstOption);
  }

  /** Whatever frames follow the set-up, the selected option carries the marker and
      no other option does. */
  lemma SelectedMarkedAfterRun(totalSeconds: nat, inputs: seq<Input>)
    ensures var r := Run(Initial(totalSeconds), inputs);
      && |r.sections| == 4 && FirstOption <= r.index <= LastOption
      && Marker in r.sections[r.index]
      && forall i :: FirstOption <= i <= LastOption && i != r.index ==> Marker !in r.sections[i]
  {
  }

  /** Refreshing the text again for the same selection changes nothing, so a run of
      the system whose gate is open but whose keys are released leaves the text as
      the previous refresh made it. */
  lemma RefreshIsStable(s: MenuState, input: Input)
    requires Valid(s)
    requires Expired(Tick(s.timer, input.delta)) && !input.up && !input.down
    ensures Step(s, input).sections == s.sections
  {
    RefreshedFixedPoint(s.sections, s.index);
  }

  /** Rate limiting: after a move restarts the timer, the cursor and the text stay put
      through any run of frames whose time steps add up to less than what is left of
      the 0.2 s, whatever keys are held. */
  lemma {:induction false} MoveCooldown(s: MenuState, inputs: seq<Input>)
    requires Valid(s) && !s.timer.finished
    requires s.timer.elapsed + SumDeltas(Deltas(inputs)) < RateLimit
    ensures Run(s, inputs).index == s.index
    ensures Run(s, inputs).sections == s.sections
    ensures Run(s, inputs).timer.elapsed == s.timer.elapsed + SumDeltas(Deltas(inputs))
    ensures !Run(s, inputs).timer.finished
    decreases |inputs|
  {
    if inputs != [] {
      assert Deltas(inputs)[1..] == Deltas(inputs[1..]);
      assert SumDeltas(Deltas(inputs)) == inputs[0].delta + SumDeltas(Deltas(inputs[1..]));
      MoveCooldown(Step(s, inputs[0]), inputs[1..]);
    }
  }

  /** The cursor's rate-limit timer and position (one component of the menu text
      entity). */
  class MenuScrollControl {
    var rateLimitSelection: Timer
    var selectionIndex: nat

    /** The component as the menu spawns it: a fresh 0.2 s one-shot timer and the
        cursor on the first option. */
    constructor ()
      ensures rateLimitSelection == NewTimer(RateLimit) && selectionIndex == FirstOption
    {
      rateLimitSelection := NewTimer(RateLimit);
      selectionIndex := FirstOption;
    }
  }

  /** The menu's text component: its sections, in order. */
  class Text {
    var sections: seq<string>

    constructor (sections: seq<string>)
      ensures this.sections == sections
    {
      this.sections := sections;
    }
  }

  /** The round-length resource, in seconds. */
  class TotalSeconds {
    var value: nat

    /** Installed with the menu plugin at 180 s. */
    constructor ()
      ensures value == DefaultTotalSeconds
    {
      value := DefaultTotalSeconds;
    }
  }

  /** The engine's pending screen switch resource. */
  class NextAppState {
    var value: NextState
  }

  /** The state that the objects hold, as one value. */
  ghost function Snapshot(control: MenuScrollControl, text: Text,
                          totalSeconds: TotalSeconds, appState: NextAppState): MenuState
    reads control, text, totalSeconds, appState
  {
    MenuState(control.rateLimitSelection, control.selectionIndex, text.sections,
              totalSeconds.value, appState.value)
  }

  /** Spawns the menu text entity: its scroll control and its sections. The round
      length and the pending screen switch are only read: the engine has already
      applied the switch into the menu, so none is pending, and the round length is
      whatever it was. Together they make up `Initial` of that round length. */
  method MenuSetup(totalSeconds: TotalSeconds, appState: NextAppState)
      returns (control: MenuScrollControl, text: Text)
    requires appState.value == Unchanged
    ensures fresh(control) && fresh(text)
    ensures Snapshot(control, text, totalSeconds, appState) == Initial(totalSeconds.value)
    ensures control.rateLimitSelection == NewTimer(RateLimit)
    ensures control.selectionIndex == FirstOption
    ensures text.sections == InitialSections()
  {
    control := new MenuScrollControl();
    text := new Text(InitialSections());
  }

  /** The loop over the text sections: the header is skipped, every other option
      loses its markers and the selected one gets a marker unless it has one. */
  method RefreshSections(text: Text, selected: nat)
    modifies text
    ensures text.sections == Refreshed(old(text.sections), selected)
  {
    var i := 0;
    while i < |text.sections|
      invariant 0 <= i <= |text.sections| == |old(text.sections)|
      invariant forall k :: 0 <= k < i ==>
                  text.sections[k] == RefreshSection(k, selected, old(text.sections)[k])
      invariant forall k :: i <= k < |text.sections| ==> text.sections[k] == old(text.sections)[k]
    {
      if i == 0 {
        i := i + 1;
        continue;
      }
      if i != selected {
        text.sections := text.sections[i := RemoveMarker(text.sections[i])];
      } else if Marker !in text.sections[i] {
        text.sections := text.sections[i := [Marker] + text.sections[i]];
      }
      i := i + 1;
    }
  }

  /** The menu's per-frame system: tick the rate limiter, move and clamp the cursor
      when the gate is open, rewrite the sections so that only the selection carries
      the marker, and on confirm set the round length and request the game screen. */
  method MenuSelectionSystem(input: Input, control: MenuScrollControl, text: Text,
                             totalSeconds: TotalSeconds, appState: NextAppState)
    requires FirstOption <= control.selectionIndex
    modifies control, text, totalSeconds, appState
    ensures Snapshot(control, text, totalSeconds, appState)
         == Step(old(Snapshot(control, text, totalSeconds, appState)), input)
  {
    control.rateLimitSelection := Tick(control.rateLimitSelection, input.delta);

    if control.rateLimitSelection.finished || control.rateLimitSelection.justFinished {
      if input.up {
        control.selectionIndex := control.selectionIndex - 1;
        control.rateLimitSelection := Reset(control.rateLimitSelection);
      } else if input.down {
        control.selectionIndex := control.selectionIndex + 1;
        control.rateLimitSelection := Reset(control.rateLimitSelection);
      }

      if control.selectionIndex < FirstOption {
        control.selectionIndex := FirstOption;
      }
      if control.selectionIndex > LastOption {
        control.selectionIndex := LastOption;
      }

      RefreshSections(text, control.selectionIndex);
    }

    if input.confirm {
      if control.selectionIndex == 1 {
        totalSeconds.value := 180;
      } else if control.selectionIndex == 2 {
        totalSeconds.value := 240;
      } else {
        totalSeconds.value := 300;
      }
      appState.value := Pending(Game);
    }
  }
}
