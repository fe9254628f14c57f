/** The hero text's typing animation: it types a title one character at a
    time, pauses on the full title, deletes it one character at a time and
    moves on to the next title, forever. One run of the effect is one step;
    the timer delays are not modelled. */
module Typing {

  const Titles: seq<string> := ["Physics Educator.", "Quantum Researcher.", "Tech Enthusiast."]

  /** The four state variables the effect reads and writes. */
  datatype Frame = Frame(displayText: string, currentTitleIndex: nat, isDeleting: bool, isPaused: bool)

  /** The initial `useState` values. */
  const Initial := Frame("", 0, false, false)

  /** What every reachable frame satisfies: the index names a title, the text
      shown is a prefix of that title, the animation is never paused and
      deleting at once, and a pause always shows the whole title. */
  ghost predicate Consistent(s: Frame) {
    s.currentTitleIndex < |Titles|
    && s.displayText <= Titles[s.currentTitleIndex]
    && !(s.isPaused && s.isDeleting)
    && (s.isPaused ==> s.displayText == Titles[s.currentTitleIndex])
  }

  /** One run of the effect. */
  function Next(s: Frame): (r: Frame)
    requires s.currentTitleIndex < |Titles|
    ensures r.currentTitleIndex < |Titles|
  {
    var title := Titles[s.currentTitleIndex];
    if s.isPaused then
      s.(isPaused := false, isDeleting := true)
    else if s.isDeleting then
      if |s.displayText| > 0 then s.(displayText := s.displayText[..|s.displayText| - 1])
      else s.(isDeleting := false, currentTitleIndex := (s.currentTitleIndex + 1) % |Titles|)
    else if |s.displayText| < |title| then
      s.(displayText := title[..|s.displayText| + 1])
    else
      s.(isPaused := true)
  }

  lemma InitialConsistent()
    ensures Consistent(Initial)
  {
  }

  /** Every step keeps the invariant. */
  lemma NextKeepsConsistent(s: Frame)
    requires Consistent(s)
    ensures Consistent(Next(s))
  {
  }

  /** The text grows by one character while typing, shrinks by one while
      deleting, and otherwise keeps its length. */
  lemma NextMovesOneCharacter(s: Frame)
    requires Consistent(s)
    ensures var r := Next(s);
      (|r.displayText| == |s.displayText| + 1 <==> !s.isPaused && !s.isDeleting && |s.displayText| < |Titles[s.currentTitleIndex]|)
      && (|r.displayText| + 1 == |s.displayText| <==> s.isDeleting && s.displayText != [])
      && |s.displayText| - 1 <= |r.displayText| <= |s.displayText| + 1
  {
  }

  /** The title changes only when an empty text has been deleted, and then to
      the next one, cyclically. */
  lemma TitleChangesOnlyWhenDeleted(s: Frame)
    requires Consistent(s)
    ensures var r := Next(s);
      r.currentTitleIndex != s.currentTitleIndex <==> s.isDeleting && s.displayText == []
    ensures var r := Next(s);
      r.currentTitleIndex != s.currentTitleIndex ==>
        r.currentTitleIndex == (s.currentTitleIndex + 1) % |Titles| && r.displayText == [] && !r.isDeleting
  {
  }

  /** A pause starts only from typing the full title, and a pause is left
      only by starting to delete. */
  lemma PauseEntryAndExit(s: Frame)
    requires Consistent(s)
    ensures var r := Next(s);
      (r.isPaused && !s.isPaused ==> !s.isDeleting && s.displayText == Titles[s.currentTitleIndex])
      && (s.isPaused ==> !r.isPaused && r.isDeleting && r.displayText == s.displayText)
  {
  }

  /** `n` runs of the effect. */
  function Run(s: Frame, n: nat): (r: Frame)
    requires s.currentTitleIndex < |Titles|
    ensures r.currentTitleIndex < |Titles|
    decreases n
  {
    if n == 0 then s else Run(Next(s), n - 1)
  }

  /** Every frame reached from a valid one is valid. */
  lemma {:induction false} RunKeepsConsistent(s: Frame, n: nat)
    requires Consistent(s)
    ensures Consistent(Run(s, n))
    decreases n
  {
    if n > 0 {
      NextKeepsConsistent(s);
      RunKeepsConsistent(Next(s), n - 1);
    }
  }

  lemma {:induction false} RunSplits(s: Frame, a: nat, b: nat)
    requires s.currentTitleIndex < |Titles|
    ensures Run(s, a + b) == Run(Run(s, a), b)
    decreases a
  {
    if a > 0 {
      RunSplits(Next(s), a - 1, b);
    }
  }

  /** Typing from a prefix of length `k` reaches the whole title in
      `|title| - k` steps. */
  lemma {:induction false} TypesOut(i: nat, k: nat)
    requires i < |Titles| && k <= |Titles[i]|
    ensures Run(Frame(Titles[i][..k], i, false, false), |Titles[i]| - k) == Frame(Titles[i], i, false, false)
    decreases |Titles[i]| - k
  {
    var t := Titles[i];
    if k < |t| {
      assert Next(Frame(t[..k], i, false, false)) == Frame(t[..k + 1], i, false, false);
      TypesOut(i, k + 1);
    } else {
      assert t[..k] == t;
    }
  }

  /** Deleting from a prefix of length `k` empties the text in `k` steps. */
  lemma {:induction false} DeletesOut(i: nat, k: nat)
    requires i < |Titles| && k <= |Titles[i]|
    ensures Run(Frame(Titles[i][..k], i, true, false), k) == Frame("", i, true, false)
    decreases k
  {
    var t := Titles[i];
    if k > 0 {
      assert t[..k][..k - 1] == t[..k - 1];
      DeletesOut(i, k - 1);
    }
  }

  /** Showing one title takes `2 * |title| + 3` steps: type it, pause, start
      deleting, delete it, and move to the next title.
      The starting frame is a parameter fixed by the precondition rather than
      a literal, so that the verifier does not evaluate `Run` on constant
      arguments one step at a time. */
  lemma {:induction false} OneTitle(start: Frame, i: nat)
    requires i < |Titles| && start == Frame("", i, false, false)
    ensures Run(start, 2 * |Titles[i]| + 3) == Frame("", (i + 1) % |Titles|, false, false)
  {
    var t := Titles[i];
    var n := |t|;
    assert t[..0] == "";
    TypesOut(i, 0);
    var typed := Run(start, n);
    assert typed == Frame(t, i, false, false);
    var deleting := Run(typed, 2);
    assert deleting == Frame(t, i, true, false);
    assert t[..n] == t;
    DeletesOut(i, n);
    var emptied := Run(deleting, n);
    assert Run(emptied, 1) == Frame("", (i + 1) % |Titles|, false, false);
    RunSplits(start, n, 2);
    RunSplits(start, n + 2, n);
    RunSplits(start, 2 * n + 2, 1);
  }

  /** After all three titles, 113 steps, the animation is back in its
      initial state.
      The starting frame is a parameter fixed by the precondition rather than
      a literal, so that the verifier does not evaluate `Run` on constant
      arguments one step at a time. */
  lemma {:induction false} OnePeriod(s: Frame)
    requires s == Initial
    ensures Run(s, 113) == Initial
  {
    var n0, n1, n2 := 2 * |Titles[0]| + 3, 2 * |Titles[1]| + 3, 2 * |Titles[2]| + 3;
    assert n0 + n1 + n2 == 113;
    OneTitle(s, 0);
    OneTitle(Run(s, n0), 1);
    OneTitle(Run(Run(s, n0), n1), 2);
    RunSplits(s, n0, n1);
    RunSplits(s, n0 + n1, n2);
  }

  /** The animation is periodic: every multiple of 113 steps brings it back
      to its initial state.
      The starting frame is a parameter fixed by the precondition rather than
      a literal, so that the verifier does not evaluate `Run` on constant
      arguments one step at a time. */
  lemma {:induction false} CyclesThroughAllTitles(s: Frame, periods: nat)
    requires s == Initial
    ensures Run(s, 113 * periods) == Initial
    decreases periods
  {
    if periods > 0 {
      OnePeriod(s);
      RunSplits(s, 113, 113 * (periods - 1));
      CyclesThroughAllTitles(s, periods - 1);
    }
  }

  /** The component, its state kept in fields. */
  class TypingAnimation {
    var displayText: string
    var currentTitleIndex: nat
    var isDeleting: bool
    var isPaused: bool

    function Snapshot(): Frame
      reads this
    {
      Frame(displayText, currentTitleIndex, isDeleting, isPaused)
    }

    ghost predicate Valid()
      reads this
    {
      Consistent(Snapshot())
    }

    constructor ()
      ensures Valid() && Snapshot() == Initial
    {
      displayText := "";
      currentTitleIndex := 0;
      isDeleting := false;
      isPaused := false;
    }

    /** One run of the effect body, its state setters applied in place. */
    method Step()
      requires Valid()
      modifies this
      ensures Valid()
      ensures Snapshot() == Next(old(Snapshot()))
    {
      NextKeepsConsistent(Snapshot());
      var currentTitle := Titles[currentTitleIndex];
      if isPaused {
        isPaused := false;
        isDeleting := true;
      } else if isDeleting {
        if |displayText| > 0 {
          displayText := displayText[..|displayText| - 1];
        } else {
          isDeleting := false;
          currentTitleIndex := (currentTitleIndex + 1) % |Titles|;
        }
      } else {
        if |displayText| < |currentTitle| {
          displayText := currentTitle[..|displayText| + 1];
        } else {
          isPaused := true;
        }
      }
    }
  }
}
