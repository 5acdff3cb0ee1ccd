/** The playback cursor and the three ways the player moves it: the Next
    button (when no line is being typed), the Prev button, and the scene dots.
    `Position` flattens a cursor to its index in reading order; it is the
    reference against which the moves are stated. */
module Navigation {
  import opened Script

  /** Which scene, and which line of that scene, is on screen. */
  datatype Cursor = Cursor(scene: nat, line: nat)

  const Start := Cursor(0, 0)

  predicate ValidCursor(script: seq<Scene>, c: Cursor) {
    c.scene < |script| && c.line < |script[c.scene].dialogues|
  }

  function LineAt(script: seq<Scene>, c: Cursor): DialogueLine
    requires ValidCursor(script, c)
  {
    script[c.scene].dialogues[c.line]
  }

  /** The label condition of the Next button: last line of the last scene. */
  predicate IsFinalLine(script: seq<Scene>, c: Cursor)
    requires c.scene < |script|
    ensures IsFinalLine(script, c) ==>
              forall d :: ValidCursor(script, d) ==> d.scene < c.scene || (d.scene == c.scene && d.line <= c.line)
  {
    c.line == |script[c.scene].dialogues| - 1 && c.scene == |script| - 1
  }

  function NextLabel(script: seq<Scene>, c: Cursor): (caption: string)
    requires c.scene < |script|
    ensures caption == "Replay Story" <==> IsFinalLine(script, c)
    ensures caption == "Next" <==> !IsFinalLine(script, c)
  {
    if IsFinalLine(script, c) then "Replay Story" else "Next"
  }

  /** The Prev button is disabled on the first line of a scene. */
  predicate PrevDisabled(c: Cursor) {
    c.line == 0
  }

  /** The cursor move of the Next button once the line is fully shown. */
  function Advance(script: seq<Scene>, c: Cursor): (r: Cursor)
    requires c.scene < |script|
    ensures WellFormed(script) && ValidCursor(script, c) ==> ValidCursor(script, r)
    ensures ValidCursor(script, c) ==> (r == c <==> IsFinalLine(script, c))
    ensures r.scene == c.scene || r == Cursor(c.scene + 1, 0)
  {
    if c.line < |script[c.scene].dialogues| - 1 then Cursor(c.scene, c.line + 1)
    else if c.scene < |script| - 1 then Cursor(c.scene + 1, 0)
    else c
  }

  /** The cursor move of the Prev button. */
  function Rewind(c: Cursor): (r: Cursor)
    ensures r.scene == c.scene && r.line <= c.line
    ensures r == c <==> PrevDisabled(c)
    ensures !PrevDisabled(c) ==> r.line + 1 == c.line
  {
    if c.line > 0 then Cursor(c.scene, c.line - 1) else c
  }

  /** The cursor move of scene dot `k`. */
  function JumpTo(k: nat): (r: Cursor)
    ensures r.scene == k && PrevDisabled(r)
  {
    Cursor(k, 0)
  }

  /** Number of lines in the scenes before scene `k`. */
  function Offset(script: seq<Scene>, k: nat): nat
    requires k <= |script|
  {
    if k == 0 then 0 else Offset(script, k - 1) + |script[k - 1].dialogues|
  }

  function TotalLines(script: seq<Scene>): nat {
    Offset(script, |script|)
  }

  /** Index of the cursor's line when the script is read as one list. */
  function Position(script: seq<Scene>, c: Cursor): nat
    requires c.scene < |script|
  {
    Offset(script, c.scene) + c.line
  }

  /** `n` presses of Next on fully shown lines, starting from `c`. */
  function AdvanceN(script: seq<Scene>, c: Cursor, n: nat): (r: Cursor)
    requires WellFormed(script) && ValidCursor(script, c)
    ensures ValidCursor(script, r)
  {
    if n == 0 then c else Advance(script, AdvanceN(script, c, n - 1))
  }

  lemma {:induction false} OffsetGrows(script: seq<Scene>, i: nat, j: nat)
    requires i < j <= |script|
    ensures Offset(script, i) + |script[i].dialogues| <= Offset(script, j)
    decreases j
  {
    if j > i + 1 {
      OffsetGrows(script, i, j - 1);
    }
  }

  /** Every valid cursor names a line of the flattened script... */
  lemma PositionInRange(script: seq<Scene>, c: Cursor)
    requires ValidCursor(script, c)
    ensures Position(script, c) < TotalLines(script)
  {
    OffsetGrows(script, c.scene, |script|);
  }

  /** ...and no two valid cursors name the same one. */
  lemma PositionInjective(script: seq<Scene>, c1: Cursor, c2: Cursor)
    requires ValidCursor(script, c1) && ValidCursor(script, c2)
    requires Position(script, c1) == Position(script, c2)
    ensures c1 == c2
  {
    if c1.scene < c2.scene {
      OffsetGrows(script, c1.scene, c2.scene);
    } else if c2.scene < c1.scene {
      OffsetGrows(script, c2.scene, c1.scene);
    }
  }

  /** Next on a fully shown line keeps the cursor in range, steps to the
      following line of the flattened script, and does nothing at all on the
      final line: there is no replay to the start. */
  lemma AdvanceStep(script: seq<Scene>, c: Cursor)
    requires WellFormed(script) && ValidCursor(script, c)
    ensures ValidCursor(script, Advance(script, c))
    ensures IsFinalLine(script, c) <==> Advance(script, c) == c
    ensures !IsFinalLine(script, c) ==> Position(script, Advance(script, c)) == Position(script, c) + 1
    ensures Advance(script, c).scene == c.scene || Advance(script, c) == JumpTo(c.scene + 1)
  {
  }

  /** The final line is the last line of the flattened script. */
  lemma FinalIsLast(script: seq<Scene>, c: Cursor)
    requires WellFormed(script) && ValidCursor(script, c)
    ensures IsFinalLine(script, c) <==> Position(script, c) == TotalLines(script) - 1
  {
    if !IsFinalLine(script, c) {
      AdvanceStep(script, c);
      PositionInRange(script, Advance(script, c));
    }
  }

  /** Pressing Next on fully shown lines from the start walks the script in
      reading order and then stays on the final line. */
  lemma {:induction false} AdvanceSweep(script: seq<Scene>, n: nat)
    requires WellFormed(script)
    ensures Position(script, AdvanceN(script, Start, n)) ==
            if n < TotalLines(script) then n else TotalLines(script) - 1
  {
    PositionInRange(script, Start);
    if n > 0 {
      var prev := AdvanceN(script, Start, n - 1);
      AdvanceSweep(script, n - 1);
      AdvanceStep(script, prev);
      FinalIsLast(script, prev);
    }
  }

  /** Every line of the script is reached by Next from the start, after
      exactly as many presses as its position. */
  lemma EveryLineReached(script: seq<Scene>, c: Cursor)
    requires WellFormed(script) && ValidCursor(script, c)
    ensures AdvanceN(script, Start, Position(script, c)) == c
  {
    PositionInRange(script, c);
    AdvanceSweep(script, Position(script, c));
    PositionInjective(script, AdvanceN(script, Start, Position(script, c)), c);
  }

  /** Prev keeps the cursor in range and in the same scene; it steps back
      exactly one line, and is a no-op exactly when the button is disabled. */
  lemma RewindStep(script: seq<Scene>, c: Cursor)
    requires ValidCursor(script, c)
    ensures ValidCursor(script, Rewind(c)) && Rewind(c).scene == c.scene
    ensures PrevDisabled(c) <==> Rewind(c) == c
    ensures !PrevDisabled(c) ==> Position(script, Rewind(c)) + 1 == Position(script, c)
  {
  }

  /** Forward crosses scene boundaries, backward does not: Prev undoes a Next
      inside a scene, and is a no-op right after Next entered a new scene. */
  lemma AdvanceThenRewind(script: seq<Scene>, c: Cursor)
    requires WellFormed(script) && ValidCursor(script, c) && !IsFinalLine(script, c)
    ensures Advance(script, c).scene == c.scene ==> Rewind(Advance(script, c)) == c
    ensures Advance(script, c).scene != c.scene ==> Rewind(Advance(script, c)) == Advance(script, c)
  {
  }

  /** A scene dot lands on the first line of its scene, whatever the cursor was. */
  lemma JumpStep(script: seq<Scene>, k: nat)
    requires WellFormed(script) && k < |script|
    ensures ValidCursor(script, JumpTo(k)) && Position(script, JumpTo(k)) == Offset(script, k)
    ensures PrevDisabled(JumpTo(k))
  {
  }

  /** The Next button reads "Replay Story" exactly where pressing it on a
      fully shown line leaves the cursor where it is. */
  lemma ReplayLabelIsNoOp(script: seq<Scene>, c: Cursor)
    requires WellFormed(script) && ValidCursor(script, c)
    ensures NextLabel(script, c) == "Replay Story" <==> Advance(script, c) == c
    ensures NextLabel(script, c) == "Replay Story" && TotalLines(script) > 1 ==> Advance(script, c) != Start
  {
    FinalIsLast(script, c);
    if NextLabel(script, c) == "Replay Story" && TotalLines(script) > 1 {
      assert Position(script, Start) == 0;
    }
  }

  /** The shipped script has 26 lines and its final line is (5, 2). */
  lemma ScenesFinalLine()
    ensures TotalLines(Scenes) == 26
    ensures IsFinalLine(Scenes, Cursor(5, 2)) && Position(Scenes, Cursor(5, 2)) == 25
  {
    ScenesShape();
    assert Offset(Scenes, 1) == 5;
    assert Offset(Scenes, 2) == 9;
    assert Offset(Scenes, 3) == 13;
    assert Offset(Scenes, 4) == 18;
    assert Offset(Scenes, 5) == 23;
  }
}
