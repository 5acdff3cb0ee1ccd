/** The player's on-screen state (cursor and reveal) as a value, and what
    each user action and each interval firing does to it. The typing effect is
    keyed on the current line, so the typing restarts exactly when the cursor
    moves. The `StoryPlayer` class is proved to follow these transitions. */
module Engine {
  import opened Script
  import opened Navigation
  import opened Typewriter

  datatype Snapshot = Snapshot(at: Cursor, typewriter: Reveal)

  /** Cursor in range, reveal invariant, and the reveal is of the line on screen. */
  predicate Consistent(script: seq<Scene>, s: Snapshot)
    ensures Consistent(script, s) ==> ValidCursor(script, s.at) && s.typewriter.displayed <= LineAt(script, s.at).text
  {
    ValidCursor(script, s.at) && Inv(s.typewriter) && s.typewriter.text == LineAt(script, s.at).text
  }

  /** Set the cursor to `c`; the reveal restarts only if the line changed. */
  function MoveTo(script: seq<Scene>, s: Snapshot, c: Cursor): (r: Snapshot)
    requires ValidCursor(script, c)
    ensures r.at == c
    ensures c != s.at ==> r.typewriter == Restart(LineAt(script, c).text)
    ensures c == s.at ==> r == s
    ensures Consistent(script, s) ==> Consistent(script, r)
  {
    if c == s.at then s else Snapshot(c, Restart(LineAt(script, c).text))
  }

  /** The Next button: finish the typing, or move on once the line is shown. */
  function OnNext(script: seq<Scene>, s: Snapshot): (r: Snapshot)
    requires WellFormed(script) && ValidCursor(script, s.at)
    ensures Consistent(script, s) ==> Consistent(script, r)
  {
    if s.typewriter.typing then s.(typewriter := Skip(s.typewriter))
    else MoveTo(script, s, Advance(script, s.at))
  }

  /** The Prev button. It does not look at the typing flag. */
  function OnPrev(script: seq<Scene>, s: Snapshot): (r: Snapshot)
    requires ValidCursor(script, s.at)
    ensures Consistent(script, s) ==> Consistent(script, r)
  {
    MoveTo(script, s, Rewind(s.at))
  }

  /** Scene dot `k`: always lands on (k, 0); the reveal restarts only when
      that is not already the line on screen. */
  function OnSelect(script: seq<Scene>, s: Snapshot, k: nat): (r: Snapshot)
    requires WellFormed(script) && k < |script|
    ensures r.at == JumpTo(k)
    ensures s.at == JumpTo(k) ==> r == s
    ensures Consistent(script, s) ==> Consistent(script, r)
  {
    MoveTo(script, s, JumpTo(k))
  }

  /** One firing of the typing interval; the cursor never moves. */
  function OnTick(s: Snapshot): (r: Snapshot)
    ensures r.at == s.at && r.typewriter.text == s.typewriter.text
    ensures Inv(s.typewriter) ==> Inv(r.typewriter)
  {
    s.(typewriter := Fire(s.typewriter))
  }

  /** Next while typing never moves the cursor; Next on a shown line moves it
      one line forward in reading order, or not at all on the final line. */
  lemma NextMovesAtMostOne(script: seq<Scene>, s: Snapshot)
    requires WellFormed(script) && Consistent(script, s)
    ensures s.typewriter.typing ==> OnNext(script, s).at == s.at && !OnNext(script, s).typewriter.typing
    ensures s.typewriter.typing ==> OnNext(script, s).typewriter.displayed == LineAt(script, s.at).text
    ensures !s.typewriter.typing && IsFinalLine(script, s.at) ==> OnNext(script, s) == s
    ensures !s.typewriter.typing && !IsFinalLine(script, s.at) ==>
              Position(script, OnNext(script, s).at) == Position(script, s.at) + 1
              && OnNext(script, s).typewriter.typing
  {
  }

  /** Two presses of Next never move more than one line; right after a line
      change (typing) they move exactly one, unless on the final line. */
  lemma TwoPressesAdvanceAtMostOne(script: seq<Scene>, s: Snapshot)
    requires WellFormed(script) && Consistent(script, s)
    ensures Consistent(script, OnNext(script, OnNext(script, s)))
    ensures Position(script, OnNext(script, OnNext(script, s)).at) <= Position(script, s.at) + 1
    ensures s.typewriter.typing && !IsFinalLine(script, s.at) ==>
              Position(script, OnNext(script, OnNext(script, s)).at) == Position(script, s.at) + 1
  {
  }

  /** Prev never leaves the scene and restarts the reveal whenever it moves. */
  lemma PrevStaysInScene(script: seq<Scene>, s: Snapshot)
    requires Consistent(script, s)
    ensures OnPrev(script, s).at.scene == s.at.scene
    ensures PrevDisabled(s.at) ==> OnPrev(script, s) == s
    ensures !PrevDisabled(s.at) ==>
              Position(script, OnPrev(script, s).at) + 1 == Position(script, s.at)
              && OnPrev(script, s).typewriter == Restart(LineAt(script, OnPrev(script, s).at).text)
  {
  }
}
