/**
 * The dispenser's workflow state machine (fsm.py).
 *
 * Every name the source spells out becomes a constructor, and `Spelling`
 * gives the string it stands for, so a name the transition table uses but
 * the state list does not declare stays visible as a name outside `States`.
 */
module Fsm {
  import opened Wrappers

  /**
   * Every state name the source spells out, in the state list or in the
   * transition table. `DeliverMedsWaitingCupPresent` is the one name the
   * state list actually holds where the comma after 'deliver_meds' is
   * missing; `DeliverMeds`, `WaitingCupPresent` and `WaitingForCupClear`
   * appear only in the table.
   */
  datatype StateName =
    | Asleep | SplashScreen | WifiSsid | WifiSecurity | LoadingLiquidInstructions
    | LoadingPillInstructions | LoadingLiquid | LoadingPill | ScheduleSetup
    | CheckingSchedule | MedTime | DeliverMedsWaitingCupPresent | WaitingCupClear
    | DeliverMeds | WaitingCupPresent | WaitingForCupClear

  /** The trigger names passed to `add_transition`, each a generated method on the model. */
  datatype Trigger =
    | WakeUpT | TimerCompleteT | WifiSsidCompleteT | TimeoutCompleteT
    | LoadingLiquidCompleteT | LoadingPillInstructionsCompleteT | LoadingPillCompleteT
    | ScheduleCompleteT | LoadPressedT | ConfigPressedT | MedTimeT | CupOnT
    | MedsDeliveredT | CupClearT

  /** The string the source writes for each state name. */
  function Spelling(n: StateName): string
  {
    match n
    case Asleep => "asleep"
    case SplashScreen => "splash_screen"
    case WifiSsid => "wifi_ssid"
    case WifiSecurity => "wifi_security"
    case LoadingLiquidInstructions => "loading_liquid_instructions"
    case LoadingPillInstructions => "loading_pill_instructions"
    case LoadingLiquid => "loading_liquid"
    case LoadingPill => "loading_pill"
    case ScheduleSetup => "schedule_setup"
    case CheckingSchedule => "checking_schedule"
    case MedTime => "med_time"
    // Python joins the adjacent literals 'deliver_meds' 'waiting_cup_present'
    case DeliverMedsWaitingCupPresent => "deliver_meds" + "waiting_cup_present"
    case WaitingCupClear => "waiting_cup_clear"
    case DeliverMeds => "deliver_meds"
    case WaitingCupPresent => "waiting_cup_present"
    case WaitingForCupClear => "waiting_for_cup_clear"
  }

  /** One `add_transition(trigger=..., source=..., dest=...)` call. */
  datatype Transition = Transition(trigger: Trigger, source: StateName, dest: StateName)

  /** `PillDispenser.states`, as Python reads the list: thirteen names, one of them fused. */
  const States: seq<StateName> := [
    Asleep, SplashScreen, WifiSsid, WifiSecurity, LoadingLiquidInstructions,
    LoadingPillInstructions, LoadingLiquid, LoadingPill, ScheduleSetup,
    CheckingSchedule, MedTime, DeliverMedsWaitingCupPresent, WaitingCupClear
  ]

  /** The machine's `initial` state. */
  const Initial: StateName := Asleep

  /** The transitions, in the order `__init__` adds them. */
  const Table: seq<Transition> := [
    Transition(WakeUpT, Asleep, SplashScreen),
    Transition(TimerCompleteT, SplashScreen, WifiSsid),
    Transition(WifiSsidCompleteT, WifiSsid, WifiSecurity),
    Transition(TimeoutCompleteT, WifiSecurity, WifiSsid),
    Transition(LoadingLiquidCompleteT, LoadingLiquid, LoadingPillInstructions),
    Transition(LoadingPillInstructionsCompleteT, LoadingPillInstructions, LoadingPill),
    Transition(LoadingPillCompleteT, LoadingPill, ScheduleSetup),
    Transition(ScheduleCompleteT, ScheduleSetup, CheckingSchedule),
    Transition(LoadPressedT, CheckingSchedule, LoadingPillInstructions),
    Transition(ConfigPressedT, CheckingSchedule, WifiSsid),
    Transition(MedTimeT, CheckingSchedule, WaitingCupPresent),
    Transition(CupOnT, WaitingCupPresent, DeliverMeds),
    Transition(MedsDeliveredT, DeliverMeds, WaitingCupClear),
    Transition(CupClearT, WaitingForCupClear, CheckingSchedule)
  ]

  /** True when entry `tr` is a transition of trigger `t` out of state `s`. */
  predicate Matches(tr: Transition, s: StateName, t: Trigger)
  {
    tr.trigger == t && tr.source == s
  }

  /**
   * The destination of the first transition of `t` out of `s` in `ts`, if
   * there is one: the library tries an event's transitions from the current
   * state in the order they were added.
   */
  function Lookup(ts: seq<Transition>, s: StateName, t: Trigger): (r: Option<StateName>)
    ensures r.None? <==> forall i :: 0 <= i < |ts| ==> !Matches(ts[i], s, t)
    ensures r.Some? ==>
      exists i :: 0 <= i < |ts| && ts[i] == Transition(t, s, r.value) &&
        forall j :: 0 <= j < i ==> !Matches(ts[j], s, t)
  {
    if ts == [] then None
    else if Matches(ts[0], s, t) then Some(ts[0].dest)
    else
      var r := Lookup(ts[1..], s, t);
      assert forall i :: 1 <= i < |ts| ==> ts[i] == ts[1..][i - 1];
      r
  }

  /**
   * The library files each transition under its trigger's event and, within
   * the event, under its source state. Every trigger here is added exactly
   * once, so an event holds one transition: this is that transition.
   */
  function Registered(t: Trigger): (tr: Transition)
    ensures tr.trigger == t
  {
    match t
    case WakeUpT => Table[0]
    case TimerCompleteT => Table[1]
    case WifiSsidCompleteT => Table[2]
    case TimeoutCompleteT => Table[3]
    case LoadingLiquidCompleteT => Table[4]
    case LoadingPillInstructionsCompleteT => Table[5]
    case LoadingPillCompleteT => Table[6]
    case ScheduleCompleteT => Table[7]
    case LoadPressedT => Table[8]
    case ConfigPressedT => Table[9]
    case MedTimeT => Table[10]
    case CupOnT => Table[11]
    case MedsDeliveredT => Table[12]
    case CupClearT => Table[13]
  }

  /**
   * The state that trigger `t` leads to from state `s`, or None when its
   * event has no transition from `s`: the one entry added for `t` fires
   * exactly when it leaves `s`, and then leads to its destination.
   */
  function Step(s: StateName, t: Trigger): (r: Option<StateName>)
    ensures r.Some? <==> Table[IndexOf(t)].source == s
    ensures r.Some? ==> Table[IndexOf(t)] == Transition(t, s, r.value)
  {
    var tr := Registered(t);
    if tr.source == s then Some(tr.dest) else None
  }

  /** The state after one trigger: a trigger without an entry raises and leaves the state as it was. */
  function Next(s: StateName, t: Trigger): (r: StateName)
    ensures Step(s, t).None? ==> r == s
    ensures Step(s, t).Some? ==> r == Step(s, t).value
  {
    match Step(s, t)
    case Some(d) => d
    case None => s
  }

  /**
   * The state after firing the triggers `ts` in order, starting in `s`.
   * No trigger leads out of the reachable set, so a run that starts inside
   * it stays inside it.
   */
  function Run(s: StateName, ts: seq<Trigger>): (r: StateName)
    ensures s in Reachable ==> r in Reachable
    decreases |ts|
  {
    if ts == [] then s
    else
      var n := Next(s, ts[0]);
      assert s in Reachable ==> n in Reachable by {
        if s in Reachable {
          StepClosed(s, ts[0]);
        }
      }
      Run(n, ts[1..])
  }

  /** The states that some sequence of triggers reaches from `asleep`. */
  const Reachable: set<StateName> := {Asleep, SplashScreen, WifiSsid, WifiSecurity}

  /** Every trigger name is added once, so no two entries share a trigger. */
  lemma TriggersDistinct()
    ensures forall i, j :: 0 <= i < j < |Table| ==> Table[i].trigger != Table[j].trigger
  {
  }

  /** The position in the table of the `add_transition` call for `t`. */
  function IndexOf(t: Trigger): (k: nat)
    ensures k < |Table| && Table[k] == Registered(t)
  {
    match t
    case WakeUpT => 0
    case TimerCompleteT => 1
    case WifiSsidCompleteT => 2
    case TimeoutCompleteT => 3
    case LoadingLiquidCompleteT => 4
    case LoadingPillInstructionsCompleteT => 5
    case LoadingPillCompleteT => 6
    case ScheduleCompleteT => 7
    case LoadPressedT => 8
    case ConfigPressedT => 9
    case MedTimeT => 10
    case CupOnT => 11
    case MedsDeliveredT => 12
    case CupClearT => 13
  }

  /** Each table entry sits at the position of its own trigger. */
  lemma TableIndexed()
    ensures forall i :: 0 <= i < |Table| ==> IndexOf(Table[i].trigger) == i
  {
  }

  /** The event of `t` holds the one table entry whose trigger is `t`. */
  lemma OnlyEntry(i: int, t: Trigger)
    requires 0 <= i < |Table| && Table[i].trigger == t
    ensures i == IndexOf(t)
  {
    TableIndexed();
  }

  /** When `ts[k]` is the only entry of trigger `t`, the scan finds it exactly when it leaves `s`. */
  lemma LookupSoleEntry(ts: seq<Transition>, s: StateName, t: Trigger, k: nat)
    requires k < |ts| && ts[k].trigger == t
    requires forall i :: 0 <= i < |ts| && ts[i].trigger == t ==> i == k
    ensures Lookup(ts, s, t) == if ts[k].source == s then Some(ts[k].dest) else None
  {
    if ts[k].source == s {
      assert Matches(ts[k], s, t);
      var i :| 0 <= i < |ts| && ts[i] == Transition(t, s, Lookup(ts, s, t).value);
      assert i == k;
    } else {
      assert forall i :: 0 <= i < |ts| ==> !Matches(ts[i], s, t);
    }
  }

  /**
   * Looking a (state, trigger) pair up in the event of its trigger gives the
   * same answer as scanning the whole table in the order it was built.
   */
  lemma StepIsTableLookup(s: StateName, t: Trigger)
    ensures Step(s, t) == Lookup(Table, s, t)
  {
    forall i | 0 <= i < |Table| && Table[i].trigger == t
      ensures i == IndexOf(t)
    {
      OnlyEntry(i, t);
    }
    LookupSoleEntry(Table, s, t, IndexOf(t));
  }

  /** The table is deterministic: a (state, trigger) pair has at most one destination. */
  lemma Deterministic(s: StateName, t: Trigger, d1: StateName, d2: StateName)
    requires Transition(t, s, d1) in Table && Transition(t, s, d2) in Table
    ensures d1 == d2
  {
    TriggersDistinct();
  }

  /** The machine starts asleep, in a declared state. */
  lemma InitialIsDeclared()
    ensures Spelling(Initial) == "asleep" && Initial in States
  {
  }

  /** `wake_up` leaves `asleep` for the splash screen, whose timer leads on to SSID entry. */
  lemma WakeUpThenTimer()
    ensures Step(Asleep, WakeUpT) == Some(SplashScreen)
    ensures Step(SplashScreen, TimerCompleteT) == Some(WifiSsid)
  {
  }

  /** Entering the SSID and then timing out on the security page returns to SSID entry. */
  lemma WifiRoundTrip()
    ensures Run(WifiSsid, [WifiSsidCompleteT, TimeoutCompleteT]) == WifiSsid
  {
    assert Step(WifiSsid, WifiSsidCompleteT) == Some(WifiSecurity);
    assert Step(WifiSecurity, TimeoutCompleteT) == Some(WifiSsid);
  }

  /** `checking_schedule` has exactly three exits. */
  lemma CheckingScheduleExits(t: Trigger)
    ensures Step(CheckingSchedule, t) ==
      if t == LoadPressedT then Some(LoadingPillInstructions)
      else if t == ConfigPressedT then Some(WifiSsid)
      else if t == MedTimeT then Some(WaitingCupPresent)
      else None
  {
  }

  /** `cup_on` has an entry from `waiting_cup_present` and from no other state. */
  lemma CupOnOnlyWhenWaiting(s: StateName)
    ensures Step(s, CupOnT).Some? <==> s == WaitingCupPresent
    ensures Step(WaitingCupPresent, CupOnT) == Some(DeliverMeds)
  {
  }

  /**
   * The missing comma: the fused name is declared and is spelled as the two
   * names joined, while neither of the two names it was meant to be is declared.
   */
  lemma MissingCommaFusesStates()
    ensures DeliverMedsWaitingCupPresent in States
    ensures Spelling(DeliverMedsWaitingCupPresent) == Spelling(DeliverMeds) + Spelling(WaitingCupPresent)
    ensures DeliverMeds !in States && WaitingCupPresent !in States
  {
  }

  /** `cup_clear` names an undeclared source, so no declared state accepts it. */
  lemma CupClearNeverFires(s: StateName)
    requires s in States
    ensures WaitingForCupClear !in States
    ensures Step(s, CupClearT) == None
  {
  }

  /** `loading_liquid_instructions` and `med_time` have no outgoing transitions. */
  lemma DeadEnds(t: Trigger)
    ensures Step(LoadingLiquidInstructions, t) == None
    ensures Step(MedTime, t) == None
  {
  }

  /** No trigger leads out of the reachable set. */
  lemma StepClosed(s: StateName, t: Trigger)
    requires s in Reachable
    ensures Next(s, t) in Reachable
  {
  }

  /**
   * The states reachable from `asleep` are exactly the four setup states: the
   * loading, schedule and delivery states can never be entered.
   */
  lemma ReachableExactly(s: StateName)
    ensures s in Reachable <==> exists ts :: Run(Initial, ts) == s
  {
    if s == Asleep {
      assert Run(Initial, []) == s;
    } else if s == SplashScreen {
      ReachSplash();
    } else if s == WifiSsid {
      ReachWifiSsid();
    } else if s == WifiSecurity {
      ReachWifiSecurity();
    }
    forall ts | Run(Initial, ts) == s
      ensures s in Reachable
    {
      assert Initial in Reachable;
    }
  }

  /** Firing `[t] + ts` is firing `t`, then `ts`. */
  lemma RunCons(s: StateName, t: Trigger, ts: seq<Trigger>)
    ensures Run(s, [t] + ts) == Run(Next(s, t), ts)
  {
    assert ([t] + ts)[1..] == ts;
  }

  /** `wake_up` reaches the splash screen. */
  lemma ReachSplash()
    ensures Run(Initial, [WakeUpT]) == SplashScreen
  {
    RunCons(Asleep, WakeUpT, []);
  }

  /** `wake_up`, `timer_complete` reaches SSID entry. */
  lemma ReachWifiSsid()
    ensures Run(Initial, [WakeUpT, TimerCompleteT]) == WifiSsid
  {
    RunCons(SplashScreen, TimerCompleteT, []);
    RunCons(Asleep, WakeUpT, [TimerCompleteT]);
    assert [WakeUpT] + [TimerCompleteT] == [WakeUpT, TimerCompleteT];
  }

  /** `wake_up`, `timer_complete`, `wifi_ssid_complete` reaches the security page. */
  lemma ReachWifiSecurity()
    ensures Run(Initial, [WakeUpT, TimerCompleteT, WifiSsidCompleteT]) == WifiSecurity
  {
    RunCons(WifiSsid, WifiSsidCompleteT, []);
    RunCons(SplashScreen, TimerCompleteT, [WifiSsidCompleteT]);
    RunCons(Asleep, WakeUpT, [TimerCompleteT, WifiSsidCompleteT]);
    assert [TimerCompleteT] + [WifiSsidCompleteT] == [TimerCompleteT, WifiSsidCompleteT];
    assert [WakeUpT] + [TimerCompleteT, WifiSsidCompleteT] == [WakeUpT, TimerCompleteT, WifiSsidCompleteT];
  }

  /** The workflow object: the `state` attribute the library keeps on the model. */
  class PillDispenser {
    var state: StateName

    ghost predicate Valid()
      reads this
    {
      state in Reachable
    }

    /** `PillDispenser(serial_number)`: the serial number is accepted but not stored. */
    constructor (serialNumber: string)
      ensures Valid() && state == Initial
    {
      state := Initial;
    }

    /**
     * Fires `trigger`. When the table has no entry for the current state the
     * library raises instead; that is `fired == false` with the state unchanged.
     */
    method Fire(trigger: Trigger) returns (fired: bool)
      requires Valid()
      modifies this
      ensures Valid()
      ensures fired <==> Step(old(state), trigger).Some?
      ensures fired ==> state == Step(old(state), trigger).value
      ensures !fired ==> state == old(state)
      ensures state == Run(old(state), [trigger])
    {
      StepClosed(state, trigger);
      match Step(state, trigger)
      case Some(d) =>
        state := d;
        fired := true;
      case None =>
        fired := false;
    }
  }
}
