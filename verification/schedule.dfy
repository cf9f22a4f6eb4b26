/**
  The playback schedule: the encoded string is walked one character at a
  time, and position i contributes a dot or dash tone at time i * speed when
  it holds `.` or `-`, and silence otherwise; completion follows at
  |morse| * speed. Timers and audio are replaced by this data.
 */
module Playback {
  import opened Wrappers

  /** The two tones. */
  datatype Sound = Dot | Dash

  /** A tone due at `time` (in the same unit as the speed, milliseconds in the app). */
  datatype Cue = Cue(time: nat, sound: Sound)

  /** A playback campaign: the tones in schedule order, and the time playback is over. */
  datatype Plan = Plan(cues: seq<Cue>, completion: nat)

  /** Characters that sound: a dot or a dash. */
  predicate IsSymbol(c: char)
  {
    c == '.' || c == '-'
  }

  /** The tone of a sounding character. */
  function SoundOf(c: char): Sound
    requires IsSymbol(c)
  {
    if c == '.' then Dot else Dash
  }

  /** One slot per character of `morse`: a cue at its own position, or nothing. */
  function Slots(morse: string, speed: nat): seq<Option<Cue>>
  {
    seq(|morse|, i requires 0 <= i < |morse| =>
      if IsSymbol(morse[i]) then Some(Cue(i * speed, SoundOf(morse[i]))) else None)
  }

  /** The cues of the occupied slots, in slot order; empty slots schedule nothing. */
  function Fired(slots: seq<Option<Cue>>): seq<Cue>
  {
    if |slots| == 0 then []
    else
      var last := slots[|slots| - 1];
      Fired(slots[..|slots| - 1]) + (if last.Some? then [last.value] else [])
  }

  /** The campaign for `morse` played at `speed` time units per character. */
  function Schedule(morse: string, speed: nat): Plan
  {
    Plan(Fired(Slots(morse, speed)), |morse| * speed)
  }

  /**
    The positions of `morse` that sound, in increasing order: exactly the
    indices that hold a dot or a dash.
   */
  function SymbolPositions(morse: string): (ps: seq<nat>)
    ensures forall k :: 0 <= k < |ps| ==> ps[k] < |morse| && IsSymbol(morse[ps[k]])
    ensures forall i :: 0 <= i < |morse| && IsSymbol(morse[i]) ==> i in ps
    ensures forall k, l :: 0 <= k < l < |ps| ==> ps[k] < ps[l]
  {
    if |morse| == 0 then []
    else
      var n := |morse| - 1;
      SymbolPositions(morse[..n]) + (if IsSymbol(morse[n]) then [n] else [])
  }

  /** The number of dots and dashes in `morse`. */
  function SymbolCount(morse: string): nat
  {
    multiset(morse)['.'] + multiset(morse)['-']
  }

  /** There is one sounding position per dot or dash. */
  lemma {:induction false} PositionsCount(morse: string)
    ensures |SymbolPositions(morse)| == SymbolCount(morse)
  {
    if |morse| > 0 {
      var n := |morse| - 1;
      PositionsCount(morse[..n]);
      assert morse == morse[..n] + [morse[n]];
      assert multiset(morse) == multiset(morse[..n]) + multiset{morse[n]};
    }
  }

  /** Dropping the last character drops the last slot and keeps the others. */
  lemma SlotsPrefix(morse: string, speed: nat)
    requires |morse| > 0
    ensures Slots(morse, speed)[..|morse| - 1] == Slots(morse[..|morse| - 1], speed)
  {
  }

  /**
    The campaign's cues are exactly one per sounding position, in order: the
    k-th cue sounds the k-th dot or dash of `morse`, at its position times the
    speed.
   */
  lemma {:induction false} ScheduleCues(morse: string, speed: nat)
    ensures |Schedule(morse, speed).cues| == |SymbolPositions(morse)|
    ensures forall k :: 0 <= k < |SymbolPositions(morse)| ==>
      Schedule(morse, speed).cues[k] ==
        Cue(SymbolPositions(morse)[k] * speed, SoundOf(morse[SymbolPositions(morse)[k]]))
  {
    if |morse| > 0 {
      var n := |morse| - 1;
      SlotsPrefix(morse, speed);
      ScheduleCues(morse[..n], speed);
      var ps := SymbolPositions(morse[..n]);
      forall k | 0 <= k < |ps|
        ensures morse[..n][ps[k]] == morse[ps[k]]
      {
      }
    }
  }

  /** The campaign holds one cue per dot or dash of the message. */
  lemma ScheduleCount(morse: string, speed: nat)
    ensures |Schedule(morse, speed).cues| == SymbolCount(morse)
  {
    ScheduleCues(morse, speed);
    PositionsCount(morse);
  }

  /** Every dot and dash of the message is sounded at its own position times the speed. */
  lemma ScheduleComplete(morse: string, speed: nat, i: nat)
    requires i < |morse| && IsSymbol(morse[i])
    ensures Cue(i * speed, SoundOf(morse[i])) in Schedule(morse, speed).cues
  {
    ScheduleCues(morse, speed);
    var ps := SymbolPositions(morse);
    var k :| 0 <= k < |ps| && ps[k] == i;
    assert Schedule(morse, speed).cues[k] == Cue(i * speed, SoundOf(morse[i]));
  }

  /** Multiplying by a positive speed keeps a strict order. */
  lemma MulStrict(a: nat, b: nat, speed: nat)
    requires a < b && speed > 0
    ensures a * speed < b * speed
  {
  }

  /**
    At a positive speed the cue times strictly increase, and every cue is due
    strictly before the completion time.
   */
  lemma ScheduleTiming(morse: string, speed: nat)
    requires speed > 0
    ensures forall k, l :: 0 <= k < l < |Schedule(morse, speed).cues| ==>
      Schedule(morse, speed).cues[k].time < Schedule(morse, speed).cues[l].time
    ensures forall k :: 0 <= k < |Schedule(morse, speed).cues| ==>
      Schedule(morse, speed).cues[k].time < Schedule(morse, speed).completion
  {
    ScheduleCues(morse, speed);
    var ps := SymbolPositions(morse);
    var plan := Schedule(morse, speed);
    forall k, l | 0 <= k < l < |plan.cues|
      ensures plan.cues[k].time < plan.cues[l].time
    {
      MulStrict(ps[k], ps[l], speed);
    }
    forall k | 0 <= k < |plan.cues|
      ensures plan.cues[k].time < plan.completion
    {
      MulStrict(ps[k], |morse|, speed);
    }
  }

  /** Two characters at 500 per unit: a dot at 0, a dash at 500, completion at 1000. */
  lemma ScheduleDotDash()
    ensures Schedule(".-", 500) == Plan([Cue(0, Dot), Cue(500, Dash)], 1000)
  {
    ScheduleCues(".-", 500);
  }
}
