/**
  The translator's session state and its transitions: a text change
  re-encodes, the speed slider sets the unit duration, the play button starts
  a campaign unless the message is empty or one is running, and the
  completion timer ends the campaign. Volume is not modelled.
 */
module Player {
  import opened Wrappers
  import opened Encoder
  import opened Playback

  /** Either no campaign is running, or one is, with its plan. */
  datatype Status = Idle | Playing(campaign: Plan)

  /** What the session holds: the shown text, its Morse code, the speed and the playback status. */
  datatype App = App(text: string, morse: string, speed: nat, status: Status)

  /** The result of one transition: the next state, and the campaign it launched, if any. */
  datatype Transition = Transition(next: App, launched: Option<Plan>)

  /** The user actions and the completion timer firing. */
  datatype Event = Typed(input: string) | SpeedSet(ms: nat) | PlayPressed | Completed

  /** The speed the session starts with, in milliseconds per character. */
  const DefaultSpeed: nat := 500

  /** The state before any interaction. */
  const Initial: App := App("", "", DefaultSpeed, Idle)

  /** The values the speed slider can produce: 100 to 1000 in steps of 50. */
  predicate ValidSpeed(ms: nat)
  {
    100 <= ms <= 1000 && ms % 50 == 0
  }

  /** A plan whose cues are due in strictly increasing order, all before completion. */
  predicate WellTimed(plan: Plan)
  {
    && (forall k, l :: 0 <= k < l < |plan.cues| ==> plan.cues[k].time < plan.cues[l].time)
    && (forall k :: 0 <= k < |plan.cues| ==> plan.cues[k].time < plan.completion)
  }

  /** The session invariant: a slider speed, and a well-timed campaign when one is running. */
  predicate Valid(app: App)
  {
    ValidSpeed(app.speed) && (app.status.Playing? ==> WellTimed(app.status.campaign))
  }

  /** Events the user interface can produce: the slider only yields slider speeds. */
  predicate Possible(e: Event)
  {
    e.SpeedSet? ==> ValidSpeed(e.ms)
  }

  /**
    A change of the text box: the text is shown upper-cased and the shown
    Morse code is the encoding of the shown text. Speed and playback are
    untouched, so a running campaign plays on.
   */
  function TypeText(app: App, input: string): (next: App)
    ensures next.text == UpperString(input)
    ensures next.morse == Encode(next.text)
    ensures next.speed == app.speed && next.status == app.status
  {
    EncodeUpper(input);
    app.(text := UpperString(input), morse := Encode(input))
  }

  /** A move of the speed slider. */
  function SetSpeed(app: App, ms: nat): App
    requires ValidSpeed(ms)
  {
    app.(speed := ms)
  }

  /**
    The play button. Nothing happens when the message is empty or a campaign
    is running; otherwise the campaign for the current message and speed is
    launched and becomes the running one.
   */
  function Press(app: App): (t: Transition)
    ensures t.launched.None? <==> (app.morse == "" || app.status.Playing?)
    ensures t.launched.None? ==> t.next == app
    ensures t.launched.Some? ==>
      && t.launched.value == Schedule(app.morse, app.speed)
      && t.next == app.(status := Playing(t.launched.value))
  {
    if app.morse == "" || app.status.Playing? then Transition(app, None)
    else
      var plan := Schedule(app.morse, app.speed);
      Transition(app.(status := Playing(plan)), Some(plan))
  }

  /** The completion timer: playback is over. */
  function Finish(app: App): App
  {
    app.(status := Idle)
  }

  /** One event. */
  function Step(app: App, e: Event): Transition
    requires Possible(e)
  {
    match e
    case Typed(input) => Transition(TypeText(app, input), None)
    case SpeedSet(ms) => Transition(SetSpeed(app, ms), None)
    case PlayPressed => Press(app)
    case Completed => Transition(Finish(app), None)
  }

  /** The final state after `events`, and every campaign launched on the way, in order. */
  function Run(app: App, events: seq<Event>): (App, seq<Plan>)
    requires forall i :: 0 <= i < |events| ==> Possible(events[i])
    decreases |events|
  {
    if |events| == 0 then (app, [])
    else
      var t := Step(app, events[0]);
      var (final, rest) := Run(t.next, events[1..]);
      (final, (if t.launched.Some? then [t.launched.value] else []) + rest)
  }

  /** The completion timer does not fire in `events`. */
  predicate NoCompletion(events: seq<Event>)
  {
    forall i :: 0 <= i < |events| ==> !events[i].Completed?
  }

  /** The session starts valid, and pressing play before typing does nothing. */
  lemma InitialState()
    ensures Valid(Initial)
    ensures Press(Initial) == Transition(Initial, None)
  {
  }

  /** Every step keeps the session invariant, and what it launches is well-timed. */
  lemma StepValid(app: App, e: Event)
    requires Valid(app) && Possible(e)
    ensures Valid(Step(app, e).next)
    ensures Step(app, e).launched.Some? ==> WellTimed(Step(app, e).launched.value)
  {
    if e.PlayPressed? && Press(app).launched.Some? {
      ScheduleTiming(app.morse, app.speed);
    }
  }

  /**
    Along any run from a valid state the invariant holds at the end, and
    every launched campaign has increasing cue times before its completion.
   */
  lemma {:induction false} RunValid(app: App, events: seq<Event>)
    requires Valid(app)
    requires forall i :: 0 <= i < |events| ==> Possible(events[i])
    ensures Valid(Run(app, events).0)
    ensures forall j :: 0 <= j < |Run(app, events).1| ==> WellTimed(Run(app, events).1[j])
    decreases |events|
  {
    if |events| > 0 {
      var t := Step(app, events[0]);
      StepValid(app, events[0]);
      RunValid(t.next, events[1..]);
    }
  }

  /**
    While a campaign runs and its completion has not fired, nothing launches
    and the running campaign, with its completion time, stays as it is.
   */
  lemma {:induction false} NoOverlap(app: App, events: seq<Event>)
    requires app.status.Playing?
    requires forall i :: 0 <= i < |events| ==> Possible(events[i])
    requires NoCompletion(events)
    ensures Run(app, events).1 == []
    ensures Run(app, events).0.status == app.status
    decreases |events|
  {
    if |events| > 0 {
      var t := Step(app, events[0]);
      assert t.launched.None? && t.next.status == app.status;
      NoOverlap(t.next, events[1..]);
    }
  }

  /** Between two completions at most one campaign is launched. */
  lemma {:induction false} AtMostOneCampaign(app: App, events: seq<Event>)
    requires forall i :: 0 <= i < |events| ==> Possible(events[i])
    requires NoCompletion(events)
    ensures |Run(app, events).1| <= 1
    decreases |events|
  {
    if |events| > 0 {
      var t := Step(app, events[0]);
      if t.launched.Some? {
        NoOverlap(t.next, events[1..]);
      } else {
        AtMostOneCampaign(t.next, events[1..]);
      }
    }
  }

  /** After completion a new press with a non-empty message is accepted again. */
  lemma RestartAfterCompletion(app: App)
    requires app.morse != ""
    ensures Press(Finish(app)).launched == Some(Schedule(app.morse, app.speed))
  {
  }
}
