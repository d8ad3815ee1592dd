/**
 * Screen navigation (screens.py): `ScreenManager` keeps a list of screens
 * used as a stack, and only the top screen is entered, exited, fed input,
 * updated and drawn.
 *
 * A screen is an identity; what its hooks do (printing, drawing, pushing
 * further screens) is not part of this model. Each hook call is appended to
 * a log, so the contracts state which hooks run, on which screen, in order.
 */
module Screens {
  import opened Wrappers

  /** The identity of a screen object. */
  type ScreenId = nat

  /** A call the manager makes on one of its screens. */
  datatype Hook =
    | Enter(screen: ScreenId)
    | Exit(screen: ScreenId)
    | InputTo(screen: ScreenId)
    | UpdateTo(screen: ScreenId)
    | DrawTo(screen: ScreenId)

  /** What `pop` raises: `list.pop` on an empty list. */
  datatype ScreenError = EmptyStack

  /** `on_enter` on the top screen, if there is one. */
  function EnterHooks(st: seq<ScreenId>): seq<Hook>
  {
    if st == [] then [] else [Enter(st[|st| - 1])]
  }

  /** `on_exit` on the top screen, if there is one. */
  function ExitHooks(st: seq<ScreenId>): seq<Hook>
  {
    if st == [] then [] else [Exit(st[|st| - 1])]
  }

  /** The hooks `push(s)` runs on stack `st`: the old top, if any, is exited, then `s` is entered. */
  function PushHooks(st: seq<ScreenId>, s: ScreenId): (r: seq<Hook>)
    ensures |r| == if st == [] then 1 else 2
    ensures st != [] ==> r[0] == Exit(st[|st| - 1])
    ensures r[|r| - 1] == Enter(s)
  {
    ExitHooks(st) + EnterHooks(st + [s])
  }

  /**
   * The hooks `pop` runs on a non-empty stack `st`: its top is exited, then
   * the screen below it, if any, is entered.
   */
  function PopHooks(st: seq<ScreenId>): (r: seq<Hook>)
    requires st != []
    ensures |r| == if |st| == 1 then 1 else 2
    ensures r[0] == Exit(st[|st| - 1])
    ensures |st| > 1 ==> r[1] == Enter(st[|st| - 2])
  {
    ExitHooks(st) + EnterHooks(st[..|st| - 1])
  }

  /** The hooks run by popping `st` until it is empty. */
  function DrainHooks(st: seq<ScreenId>): (r: seq<Hook>)
    ensures r == [] <==> st == []
    decreases |st|
  {
    if st == [] then [] else PopHooks(st) + DrainHooks(st[..|st| - 1])
  }

  /** The screen `h` exits, if it is an exit hook. */
  function ExitOf(h: Hook): seq<ScreenId>
  {
    if h.Exit? then [h.screen] else []
  }

  /** The screen `h` enters, if it is an enter hook. */
  function EnterOf(h: Hook): seq<ScreenId>
  {
    if h.Enter? then [h.screen] else []
  }

  /** The screens the hooks `hs` exit, in order. */
  function Exited(hs: seq<Hook>): seq<ScreenId>
    decreases |hs|
  {
    if hs == [] then [] else ExitOf(hs[0]) + Exited(hs[1..])
  }

  /** The screens the hooks `hs` enter, in order. */
  function Entered(hs: seq<Hook>): seq<ScreenId>
    decreases |hs|
  {
    if hs == [] then [] else EnterOf(hs[0]) + Entered(hs[1..])
  }

  /** `st` from top to bottom. */
  function TopDown(st: seq<ScreenId>): (r: seq<ScreenId>)
    ensures |r| == |st|
    ensures forall i :: 0 <= i < |st| ==> r[i] == st[|st| - 1 - i]
    decreases |st|
  {
    if st == [] then [] else [st[|st| - 1]] + TopDown(st[..|st| - 1])
  }

  lemma {:induction false} ExitedAppend(a: seq<Hook>, b: seq<Hook>)
    ensures Exited(a + b) == Exited(a) + Exited(b)
    decreases |a|
  {
    if a == [] {
      assert a + b == b;
    } else {
      calc {
        Exited(a + b);
        ExitOf(a[0]) + Exited((a + b)[1..]);
        { assert (a + b)[1..] == a[1..] + b; }
        ExitOf(a[0]) + Exited(a[1..] + b);
        { ExitedAppend(a[1..], b); }
        ExitOf(a[0]) + (Exited(a[1..]) + Exited(b));
      }
    }
  }

  lemma {:induction false} EnteredAppend(a: seq<Hook>, b: seq<Hook>)
    ensures Entered(a + b) == Entered(a) + Entered(b)
    decreases |a|
  {
    if a == [] {
      assert a + b == b;
    } else {
      calc {
        Entered(a + b);
        EnterOf(a[0]) + Entered((a + b)[1..]);
        { assert (a + b)[1..] == a[1..] + b; }
        EnterOf(a[0]) + Entered(a[1..] + b);
        { EnteredAppend(a[1..], b); }
        EnterOf(a[0]) + (Entered(a[1..]) + Entered(b));
      }
    }
  }

  lemma Single(h: Hook)
    ensures Exited([h]) == ExitOf(h) && Entered([h]) == EnterOf(h)
  {
    assert [h][1..] == [];
  }

  /** The hooks popping a non-empty stack `st` runs exit its top and enter the screen below it, if any. */
  lemma PopVisits(st: seq<ScreenId>)
    requires st != []
    ensures Exited(PopHooks(st)) == [st[|st| - 1]]
    ensures Entered(PopHooks(st)) == if |st| == 1 then [] else [st[|st| - 2]]
  {
    var rest := st[..|st| - 1];
    ExitedAppend(ExitHooks(st), EnterHooks(rest));
    EnteredAppend(ExitHooks(st), EnterHooks(rest));
    Single(Exit(st[|st| - 1]));
    if rest != [] {
      Single(Enter(rest[|rest| - 1]));
    }
  }

  /** Concatenation of hook logs regroups freely. */
  lemma Associative(a: seq<Hook>, b: seq<Hook>, c: seq<Hook>)
    ensures (a + b) + c == a + (b + c)
  {
  }

  /** Emptying a stack of `n` screens runs `n` exit hooks and `n - 1` enter hooks. */
  lemma {:induction false} DrainLength(st: seq<ScreenId>)
    ensures |DrainHooks(st)| == if st == [] then 0 else 2 * |st| - 1
    decreases |st|
  {
    if st != [] {
      DrainLength(st[..|st| - 1]);
    }
  }

  /** Emptying a non-empty stack is one pop followed by emptying the rest. */
  lemma DrainStep(st: seq<ScreenId>, log: seq<Hook>)
    requires st != []
    ensures (log + PopHooks(st)) + DrainHooks(st[..|st| - 1]) == log + DrainHooks(st)
  {
    var pop, rest := PopHooks(st), DrainHooks(st[..|st| - 1]);
    assert DrainHooks(st) == pop + rest;
    Associative(log, pop, rest);
  }

  /** Emptying a stack exits every screen exactly once, from the top down. */
  lemma {:induction false} DrainExitsTopDown(st: seq<ScreenId>)
    ensures Exited(DrainHooks(st)) == TopDown(st)
    decreases |st|
  {
    if st != [] {
      var rest := st[..|st| - 1];
      calc {
        Exited(DrainHooks(st));
        Exited(PopHooks(st) + DrainHooks(rest));
        { ExitedAppend(PopHooks(st), DrainHooks(rest)); }
        Exited(PopHooks(st)) + Exited(DrainHooks(rest));
        { PopVisits(st); DrainExitsTopDown(rest); }
        [st[|st| - 1]] + TopDown(rest);
      }
    }
  }

  /**
   * Emptying a stack re-enters every screen below the top exactly once,
   * from the top down: each pop enters the screen it uncovers.
   */
  lemma {:induction false} DrainEntersBelowTop(st: seq<ScreenId>)
    requires st != []
    ensures Entered(DrainHooks(st)) == TopDown(st[..|st| - 1])
    decreases |st|
  {
    var rest := st[..|st| - 1];
    if rest == [] {
      calc {
        Entered(DrainHooks(st));
        Entered(PopHooks(st) + DrainHooks(rest));
        { EnteredAppend(PopHooks(st), DrainHooks(rest)); }
        Entered(PopHooks(st)) + Entered(DrainHooks(rest));
        { PopVisits(st); }
        [];
      }
    } else {
      calc {
        Entered(DrainHooks(st));
        Entered(PopHooks(st) + DrainHooks(rest));
        { EnteredAppend(PopHooks(st), DrainHooks(rest)); }
        Entered(PopHooks(st)) + Entered(DrainHooks(rest));
        { PopVisits(st); DrainEntersBelowTop(rest); }
        [st[|st| - 2]] + TopDown(rest[..|rest| - 1]);
        [rest[|rest| - 1]] + TopDown(rest[..|rest| - 1]);
        TopDown(rest);
      }
    }
  }

  /**
   * A push followed by a pop runs: exit the old top, enter the new screen,
   * exit it again, and re-enter the old top.
   */
  lemma PushThenPopHooks(st: seq<ScreenId>, s: ScreenId)
    ensures PushHooks(st, s) + PopHooks(st + [s]) == ExitHooks(st) + [Enter(s), Exit(s)] + EnterHooks(st)
  {
    assert (st + [s])[..|st + [s]| - 1] == st;
  }

  /** The screen stack. */
  class ScreenManager {
    /** The screens, bottom first; the last one is on top. */
    var screens: seq<ScreenId>
    /** Every hook called on a screen, oldest first. */
    var hooks: seq<Hook>

    constructor ()
      ensures screens == [] && hooks == []
    {
      screens := [];
      hooks := [];
    }

    method IsEmpty() returns (empty: bool)
      ensures empty <==> |screens| == 0
    {
      empty := |screens| == 0;
    }

    /** `enter_screen`: `on_enter` on the top screen, if any. */
    method EnterScreen()
      modifies this
      ensures screens == old(screens)
      ensures hooks == old(hooks) + EnterHooks(screens)
    {
      if |screens| > 0 {
        hooks := hooks + [Enter(screens[|screens| - 1])];
      }
    }

    /** `exit_screen`: `on_exit` on the top screen, if any. */
    method ExitScreen()
      modifies this
      ensures screens == old(screens)
      ensures hooks == old(hooks) + ExitHooks(screens)
    {
      if |screens| > 0 {
        hooks := hooks + [Exit(screens[|screens| - 1])];
      }
    }

    /** `input(events)`: passed to the top screen only, if any. */
    method Input()
      modifies this
      ensures screens == old(screens)
      ensures hooks == old(hooks) + if screens == [] then [] else [InputTo(screens[|screens| - 1])]
    {
      if |screens| > 0 {
        hooks := hooks + [InputTo(screens[|screens| - 1])];
      }
    }

    /** `update(events)`: passed to the top screen only, if any. */
    method Update()
      modifies this
      ensures screens == old(screens)
      ensures hooks == old(hooks) + if screens == [] then [] else [UpdateTo(screens[|screens| - 1])]
    {
      if |screens| > 0 {
        hooks := hooks + [UpdateTo(screens[|screens| - 1])];
      }
    }

    /** `draw`: the top screen only, if any. */
    method Draw()
      modifies this
      ensures screens == old(screens)
      ensures hooks == old(hooks) + if screens == [] then [] else [DrawTo(screens[|screens| - 1])]
    {
      if |screens| > 0 {
        hooks := hooks + [DrawTo(screens[|screens| - 1])];
      }
    }

    /** `push(screen)`: the earlier screens stay, `screen` goes on top. */
    method Push(screen: ScreenId)
      modifies this
      ensures screens == old(screens) + [screen]
      ensures hooks == old(hooks) + PushHooks(old(screens), screen)
    {
      ExitScreen();
      screens := screens + [screen];
      EnterScreen();
    }

    /** `pop`: removes the top screen; on an empty stack the exit hook does nothing and the pop raises. */
    method Pop() returns (r: Outcome<ScreenError>)
      modifies this
      ensures old(screens) == [] ==> r == Fail(EmptyStack) && screens == [] && hooks == old(hooks)
      ensures old(screens) != [] ==> r == Pass
      ensures old(screens) != [] ==> screens == old(screens)[..|old(screens)| - 1]
      ensures old(screens) != [] ==> hooks == old(hooks) + PopHooks(old(screens))
    {
      ExitScreen();
      if |screens| == 0 {
        return Fail(EmptyStack);
      }
      screens := screens[..|screens| - 1];
      EnterScreen();
      r := Pass;
    }

    /** `set(screen)`: pops every screen, then pushes `screen`, which is then the only one. */
    method Set(screen: ScreenId)
      modifies this
      ensures screens == [screen]
      ensures hooks == old(hooks) + DrainHooks(old(screens)) + [Enter(screen)]
    {
      Clear();
      Push(screen);
    }

    /** `clear`: pops until the stack is empty. */
    method Clear()
      modifies this
      ensures screens == []
      ensures hooks == old(hooks) + DrainHooks(old(screens))
    {
      while |screens| > 0
        invariant screens == old(screens)[..|screens|]
        invariant hooks + DrainHooks(screens) == old(hooks) + DrainHooks(old(screens))
        decreases |screens|
      {
        ghost var before := screens;
        ghost var log := hooks;
        var r := Pop();
        assert screens == before[..|before| - 1];
        DrainStep(before, log);
      }
    }
  }
}
