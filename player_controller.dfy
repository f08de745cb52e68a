/**
 * The player's action state machine (Assets/_Game/Scripts/Player/PlayerController.cs).
 * Each input handler moves `currentState` between Normal, Attacking,
 * ChargingRed, GuardingYellow and CastingSpell, and the attacks push their
 * note index (0 Green, 1 Blue, 2 Red, 3 Yellow) to the spell system.
 *
 * Input callbacks, coroutine ends and animation events are the actions of a
 * pure step function on the value view `Control`; the class's handlers apply
 * one step each. A coroutine's end is its own action (`AttackRoutineEnded`,
 * and `SafetyCheck` for the cast safety net's check after 0.4 s, whose later
 * `OnCastEndFrame` is the `CastEndFrame` action). The spell system's
 * `PushNote`, `HasSpellReady` and `FireCurrentSpell` are not shown in the code
 * modelled here: a push and a fire are outputs, `HasSpellReady` an input.
 * Movement, rotation, gravity, VFX, animation and camera shake are not modelled.
 */
module Controller {
  import opened Wrappers

  datatype PlayerState = Normal | Attacking | ChargingRed | GuardingYellow | CastingSpell

  /** The note index each attack pushes. */
  const GreenNote: nat := 0
  const BlueNote: nat := 1
  const RedNote: nat := 2
  const YellowNote: nat := 3

  /** The inspector thresholds: `minChargeTimeRed` and `tapThresholdYellow`. */
  datatype Timing = Timing(minChargeTimeRed: real, tapThresholdYellow: real)

  const DefaultTiming := Timing(0.5, 0.2)

  /** The fields the state machine reads and writes. */
  datatype Control = Control(state: PlayerState, chargeStartTime: real, guardStartTime: real)

  /** The inputs, coroutine ends and animation events that drive the machine. */
  datatype Action =
    | GreenPressed
    | BluePressed
    | AttackRoutineEnded
    | RedPressed(now: real)
    | RedReleased(now: real)
    | GuardPressed(now: real)
    | GuardReleased(now: real)
    | CastPressed(spellReady: bool)
    | SpellFireFrame
    | CastEndFrame
    | SafetyCheck

  /**
   * What a step does besides the state: the note pushed, whether the current
   * spell is fired, whether the guard ends in a tap-repel, and whether the
   * safety net goes on to end the cast.
   */
  datatype Effect = Effect(pushed: Option<nat>, fired: bool, repelled: bool, endsCast: bool)

  const NoEffect := Effect(None, false, false, false)

  /** The actions that start something, each of which needs the Normal state. */
  predicate IsEntry(a: Action)
  {
    a.GreenPressed? || a.BluePressed? || a.RedPressed? || a.GuardPressed? || a.CastPressed?
  }

  /** One handler run. */
  function Step(t: Timing, c: Control, a: Action): (r: (Control, Effect))
    ensures r.1.pushed.Some? ==> r.1.pushed == NoteOf(a)
    ensures r.1.fired ==> c.state == CastingSpell
    ensures c.state == CastingSpell && r.0.state != CastingSpell ==> a.CastEndFrame? || a.AttackRoutineEnded?
  {
    match a
    case GreenPressed =>
      if c.state != Normal then (c, NoEffect)
      else (c.(state := Attacking), NoEffect.(pushed := Some(GreenNote)))
    case BluePressed =>
      if c.state != Normal then (c, NoEffect)
      else (c.(state := Attacking), NoEffect.(pushed := Some(BlueNote)))
    case AttackRoutineEnded => (c.(state := Normal), NoEffect)
    case RedPressed(now) =>
      if c.state != Normal then (c, NoEffect)
      else (c.(state := ChargingRed, chargeStartTime := now), NoEffect)
    case RedReleased(now) =>
      if c.state != ChargingRed then (c, NoEffect)
      else if now - c.chargeStartTime >= t.minChargeTimeRed then (c, NoEffect.(pushed := Some(RedNote)))
      else (c.(state := Normal), NoEffect)
    case GuardPressed(now) =>
      if c.state != Normal then (c, NoEffect)
      else (c.(state := GuardingYellow, guardStartTime := now), NoEffect)
    case GuardReleased(now) =>
      if c.state != GuardingYellow then (c, NoEffect)
      else (c.(state := Normal),
            NoEffect.(pushed := Some(YellowNote), repelled := now - c.guardStartTime <= t.tapThresholdYellow))
    case CastPressed(spellReady) =>
      if c.state != Normal || !spellReady then (c, NoEffect)
      else (c.(state := CastingSpell), NoEffect)
    case SpellFireFrame => (c, NoEffect.(fired := c.state == CastingSpell))
    case CastEndFrame => (c.(state := Normal), NoEffect)
    case SafetyCheck =>
      if c.state == CastingSpell then (c, NoEffect.(fired := true, endsCast := true)) else (c, NoEffect)
  }

  /** Every entry action is ignored outside the Normal state. */
  lemma EntriesNeedNormal(t: Timing, c: Control, a: Action)
    requires IsEntry(a) && c.state != Normal
    ensures Step(t, c, a) == (c, NoEffect)
  {
  }

  /**
   * From Normal, Green and Blue start an attack pushing notes 0 and 1; Red
   * and guard presses start charging and guarding, remembering the time; a
   * cast starts only with a spell ready. The attack's routine end always
   * returns to Normal.
   */
  lemma EntryTransitions(t: Timing, c: Control, now: real, ready: bool)
    requires c.state == Normal
    ensures Step(t, c, GreenPressed) == (c.(state := Attacking), Effect(Some(0), false, false, false))
    ensures Step(t, c, BluePressed) == (c.(state := Attacking), Effect(Some(1), false, false, false))
    ensures Step(t, c, RedPressed(now)) == (c.(state := ChargingRed, chargeStartTime := now), NoEffect)
    ensures Step(t, c, GuardPressed(now)) == (c.(state := GuardingYellow, guardStartTime := now), NoEffect)
    ensures Step(t, c, CastPressed(ready)).0.state == (if ready then CastingSpell else Normal)
    ensures Step(t, c, CastPressed(ready)).1 == NoEffect
    ensures forall d: Control :: Step(t, d, AttackRoutineEnded).0.state == Normal
  {
  }

  /**
   * A Red release outside ChargingRed is ignored. Held for less than
   * `minChargeTimeRed` it returns to Normal with no note; otherwise the smash
   * pushes note 2 and the state stays ChargingRed until the smash ends.
   */
  lemma RedRelease(t: Timing, c: Control, now: real)
    ensures c.state != ChargingRed ==> Step(t, c, RedReleased(now)) == (c, NoEffect)
    ensures c.state == ChargingRed && now - c.chargeStartTime < t.minChargeTimeRed ==>
              Step(t, c, RedReleased(now)) == (c.(state := Normal), NoEffect)
    ensures c.state == ChargingRed && now - c.chargeStartTime >= t.minChargeTimeRed ==>
              Step(t, c, RedReleased(now)) == (c, Effect(Some(2), false, false, false))
  {
  }

  /**
   * A guard release from GuardingYellow pushes note 3 exactly once, whether
   * it is a tap-repel or a hold, and returns to Normal; from any other state
   * it is ignored.
   */
  lemma GuardRelease(t: Timing, c: Control, now: real)
    ensures var (d, e) := Step(t, c, GuardReleased(now));
      && (c.state == GuardingYellow ==>
            d.state == Normal && e.pushed == Some(3) && !e.fired
            && (e.repelled <==> now - c.guardStartTime <= t.tapThresholdYellow))
      && (c.state != GuardingYellow ==> d == c && e == NoEffect)
  {
  }

  /**
   * The fire frame fires only while casting and never changes the state; the
   * end frame always returns to Normal; the safety check fires and ends the
   * cast only while still casting.
   */
  lemma CastEvents(t: Timing, c: Control)
    ensures Step(t, c, SpellFireFrame).0 == c
    ensures Step(t, c, SpellFireFrame).1.fired <==> c.state == CastingSpell
    ensures Step(t, c, CastEndFrame).0.state == Normal && Step(t, c, CastEndFrame).1 == NoEffect
    ensures var (d, e) := Step(t, c, SafetyCheck);
      d == c && (e.fired <==> c.state == CastingSpell) && (e.endsCast <==> c.state == CastingSpell)
  {
  }

  /** The state, the notes pushed and the number of fires over a run of actions. */
  function Run(t: Timing, c: Control, actions: seq<Action>): (Control, seq<nat>, nat)
    decreases |actions|
  {
    if actions == [] then (c, [], 0)
    else
      var (d, e) := Step(t, c, actions[0]);
      var (final, pushed, fires) := Run(t, d, actions[1..]);
      (final, (if e.pushed.Some? then [e.pushed.value] else []) + pushed, fires + (if e.fired then 1 else 0))
  }

  /** The note index an action can push: Green 0, Blue 1, a Red release 2, a guard release 3. */
  function NoteOf(a: Action): Option<nat>
  {
    match a
    case GreenPressed => Some(GreenNote)
    case BluePressed => Some(BlueNote)
    case RedReleased(_) => Some(RedNote)
    case GuardReleased(_) => Some(YellowNote)
    case _ => None
  }

  /** How many of `actions` could push a note. */
  function NoteActions(actions: seq<Action>): nat
    decreases |actions|
  {
    if actions == [] then 0 else (if NoteOf(actions[0]).Some? then 1 else 0) + NoteActions(actions[1..])
  }

  /**
   * Over any run, every pushed note is a valid index below 4 and was pushed by
   * an action of its own colour, and no action pushes more than one note.
   */
  lemma {:induction false} RunPushesOwnNotes(t: Timing, c: Control, actions: seq<Action>)
    ensures var pushed := Run(t, c, actions).1;
      && |pushed| <= NoteActions(actions)
      && (forall k | 0 <= k < |pushed| :: pushed[k] < 4
            && exists i | 0 <= i < |actions| :: NoteOf(actions[i]) == Some(pushed[k]))
    decreases |actions|
  {
    if actions != [] {
      var (d, e) := Step(t, c, actions[0]);
      var rest := actions[1..];
      RunPushesOwnNotes(t, d, rest);
      var tail := Run(t, d, rest).1;
      var pushed := Run(t, c, actions).1;
      assert e.pushed.Some? ==> e.pushed == NoteOf(actions[0]);
      forall k | 0 <= k < |pushed|
        ensures pushed[k] < 4 && exists i | 0 <= i < |actions| :: NoteOf(actions[i]) == Some(pushed[k])
      {
        if e.pushed.Some? && k == 0 {
          assert NoteOf(actions[0]) == Some(pushed[0]);
        } else {
          var j := if e.pushed.Some? then k - 1 else k;
          assert pushed[k] == tail[j];
          var i :| 0 <= i < |rest| && NoteOf(rest[i]) == Some(tail[j]);
          assert actions[i + 1] == rest[i];
        }
      }
    }
  }

  /**
   * A cast whose fire frame arrives but whose end frame has not arrived by the
   * safety check fires the spell twice: the check sees the state still
   * CastingSpell.
   */
  lemma SafetyNetCanFireTwice(t: Timing, c: Control)
    requires c.state == Normal
    ensures Run(t, c, [CastPressed(true), SpellFireFrame, SafetyCheck, CastEndFrame]).2 == 2
    ensures Run(t, c, [CastPressed(true), SpellFireFrame, CastEndFrame, SafetyCheck]).2 == 1
  {
    var s := c.(state := CastingSpell);
    var n := s.(state := Normal);
    var a := [CastPressed(true), SpellFireFrame, SafetyCheck, CastEndFrame];
    assert a[1..][1..][1..][1..] == [];
    assert Run(t, s, a[1..][1..][1..]).2 == 0;
    assert Run(t, s, a[1..][1..]).2 == 1;
    assert Run(t, s, a[1..]).2 == 2;
    var b := [CastPressed(true), SpellFireFrame, CastEndFrame, SafetyCheck];
    assert b[1..][1..][1..][1..] == [];
    assert Run(t, n, b[1..][1..][1..]).2 == 0;
    assert Run(t, s, b[1..][1..]).2 == 0;
    assert Run(t, s, b[1..]).2 == 1;
  }

  /**
   * A Red press during a smash is ignored but its release is not: the state
   * is still ChargingRed with the old charge time, so a second smash pushes
   * note 2 again without a new charge.
   */
  lemma RepressDuringSmashSmashesAgain(t: Timing, c: Control, t0: real, t1: real, t2: real, t3: real)
    requires c.state == Normal && t.minChargeTimeRed >= 0.0
    requires t0 + t.minChargeTimeRed <= t1 <= t2 <= t3
    ensures Run(t, c, [RedPressed(t0), RedReleased(t1), RedPressed(t2), RedReleased(t3)]).1 == [2, 2]
  {
    var s := c.(state := ChargingRed, chargeStartTime := t0);
    var a := [RedPressed(t0), RedReleased(t1), RedPressed(t2), RedReleased(t3)];
    assert a[1..][1..][1..][1..] == [];
    assert [2] + [] == [] + [2] == [2];
    assert Run(t, s, a[1..][1..][1..]) == (s, [2], 0);
    assert Run(t, s, a[1..][1..]) == (s, [2], 0);
    assert Run(t, s, a[1..]) == (s, [2] + [2], 0);
  }

  /** The player's controller. */
  class PlayerController {
    const minChargeTimeRed: real
    const tapThresholdYellow: real

    var currentState: PlayerState
    var chargeStartTime: real
    var guardStartTime: real

    function Settings(): Timing
    {
      Timing(minChargeTimeRed, tapThresholdYellow)
    }

    function View(): Control
      reads this
    {
      Control(currentState, chargeStartTime, guardStartTime)
    }

    /** A fresh controller with the inspector thresholds 0.5 and 0.2, in the Normal state. */
    constructor ()
      ensures Settings() == DefaultTiming && currentState == Normal
    {
      minChargeTimeRed := 0.5;
      tapThresholdYellow := 0.2;
      currentState := Normal;
      chargeStartTime := 0.0;
      guardStartTime := 0.0;
    }

    /** The Green poke: starts its routine, which pushes note 0 at once. */
    method PerformGreenAttack() returns (pushed: Option<nat>)
      modifies this
      ensures (View(), NoEffect.(pushed := pushed)) == Step(Settings(), old(View()), GreenPressed)
    {
      pushed := None;
      if currentState != Normal {
        return;
      }
      currentState := Attacking;
      pushed := Some(GreenNote);
    }

    /** The Blue slash: starts its routine, which pushes note 1 at once. */
    method PerformBlueAttack() returns (pushed: Option<nat>)
      modifies this
      ensures (View(), NoEffect.(pushed := pushed)) == Step(Settings(), old(View()), BluePressed)
    {
      pushed := None;
      if currentState != Normal {
        return;
      }
      currentState := Attacking;
      pushed := Some(BlueNote);
    }

    /** The end of the poke, slash or smash routine. */
    method AttackRoutineEnd()
      modifies this
      ensures View() == Step(Settings(), old(View()), AttackRoutineEnded).0
    {
      currentState := Normal;
    }

    method StartChargingRed(now: real)
      modifies this
      ensures View() == Step(Settings(), old(View()), RedPressed(now)).0
    {
      if currentState != Normal {
        return;
      }
      currentState := ChargingRed;
      chargeStartTime := now;
    }

    /** Release of the Red key: a charged release starts the smash, which pushes note 2 at once. */
    method ReleaseRedAttack(now: real) returns (pushed: Option<nat>)
      modifies this
      ensures (View(), NoEffect.(pushed := pushed)) == Step(Settings(), old(View()), RedReleased(now))
    {
      pushed := None;
      if currentState != ChargingRed {
        return;
      }
      if now - chargeStartTime >= minChargeTimeRed {
        pushed := Some(RedNote);
      } else {
        currentState := Normal;
      }
    }

    method StartGuardingInput(now: real)
      modifies this
      ensures View() == Step(Settings(), old(View()), GuardPressed(now)).0
    {
      if currentState != Normal {
        return;
      }
      guardStartTime := now;
      currentState := GuardingYellow;
    }

    /** Release of the guard: a tap repels and a hold does not, both push note 3. */
    method StopGuardingInput(now: real) returns (pushed: Option<nat>, repelled: bool)
      modifies this
      ensures (View(), NoEffect.(pushed := pushed, repelled := repelled))
              == Step(Settings(), old(View()), GuardReleased(now))
    {
      pushed, repelled := None, false;
      if currentState != GuardingYellow {
        return;
      }
      var duration := now - guardStartTime;
      if duration <= tapThresholdYellow {
        pushed := PerformYellowRepel();
        repelled := true;
      } else {
        pushed := Some(YellowNote);
      }
      currentState := Normal;
    }

    /** The tap-repel's note push. */
    method PerformYellowRepel() returns (pushed: Option<nat>)
      ensures pushed == Some(YellowNote)
    {
      pushed := Some(YellowNote);
    }

    /** The cast key: with a spell ready the player is locked in CastingSpell and the safety net starts. */
    method PerformCast(spellReady: bool)
      modifies this
      ensures View() == Step(Settings(), old(View()), CastPressed(spellReady)).0
    {
      if currentState != Normal {
        return;
      }
      if !spellReady {
        return;
      }
      currentState := CastingSpell;
    }

    /** The safety net's check after its delay: still casting, it fires and will end the cast. */
    method CastSafetyCheck() returns (fired: bool, endsCast: bool)
      ensures (View(), NoEffect.(fired := fired, endsCast := endsCast)) == Step(Settings(), View(), SafetyCheck)
    {
      fired, endsCast := false, false;
      if currentState == CastingSpell {
        fired := OnSpellFireFrame();
        endsCast := true;
      }
    }

    /** The animation's fire frame: fires only while casting. */
    method OnSpellFireFrame() returns (fired: bool)
      ensures (View(), NoEffect.(fired := fired)) == Step(Settings(), View(), SpellFireFrame)
    {
      fired := false;
      if currentState != CastingSpell {
        return;
      }
      fired := true;
    }

    /** The animation's end frame, also called by the safety net. */
    method OnCastEndFrame()
      modifies this
      ensures View() == Step(Settings(), old(View()), CastEndFrame).0
    {
      currentState := Normal;
    }
  }
}
