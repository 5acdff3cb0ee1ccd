# Story mode playback engine

A Dafny model of the playback engine of the "story mode" page of a website
about *The Old Man and the Sea*. The page steps through a fixed script of
six scenes of dialogue lines. It types each line out like a typewriter,
speaks it with speech synthesis (a voice, pitch and rate chosen per
speaker), and plays a background track per scene. The reader drives it with
a Next button (or a click on the stage), a Prev button, one dot per scene
and a mute button.

Modules, one per concern of `src/StoryMode.tsx`:

- `Script` (`script.dfy`): speakers, dialogue lines, scenes and the shipped
  six-scene script, verbatim.
- `Navigation` (`navigation.dfy`): the cursor (scene index, line index), the
  cursor moves of Next, Prev and a scene dot, and the "Replay Story" label
  condition. `Position` flattens a cursor to its index in reading order.
  The moves are stated against it: Next walks the flattened script one
  line at a time, and Prev steps back one line without leaving the scene.
- `Typewriter` (`typewriter.dfy`): the reveal of one line. Each live
  interval carries the text its closure captured and its own character
  counter. `Restart` is the typing effect, `Fire` one firing of the
  interval and `Skip` the Next button while typing.
- `Speech` (`speech.dfy`): the voice pools (substring tests on voice
  names), the first-match voice choice, the per-speaker pitch and rate, the
  commands the speech effect sends, and `Outstanding`, what is left queued
  in the speech engine after a command log.
- `Engine` (`engine.dfy`): the on-screen state (cursor and reveal) as a
  value, and the transition of each user action and of each interval firing.
- `Player` (`player.dfy`): the component as a class `StoryPlayer`. Its fields
  are the component's state. Its methods are the handlers, the interval
  firing, the arrival of the voice list and the effects that follow a
  change. Each method is proved to follow the `Engine` transition and states
  the commands it appends to the audio and speech logs. `Valid()` keeps
  three things: the cursor is in range; there is at most one typing
  interval, it is for the line on screen, and the displayed text is a prefix
  of that line; and the speech engine holds at most one utterance, which is
  for the line on screen, and none while muted. `StoryPlayer.Session` is a
  worked scenario, not a part of the component: it mounts a player, presses
  Next twice on the first line (the first press finishes the typing, the
  second moves to line 1), then mutes and unmutes, and asserts the state
  after each step.

Handlers are atomic state updates. The effects whose dependencies changed
follow as explicit steps, in the component's order: track switch, then
speech, then typing. The typing and speech effects depend on the current
line object, and every cursor names a different line object, so those
effects re-run exactly when the cursor moves. The track effect re-runs
when the scene index or the mute flag changes.

Where the code's behaviour differs from what its controls suggest, the model
follows the code:

- On the final line the Next button reads "Replay Story", but pressing it
  once the line is shown leaves the cursor and the typing state as they are
  (`Navigation.ReplayLabelIsNoOp`); it still resumes a paused track, as
  every press of Next does.
- Skipping the typing does not clear the interval. Its later firings show
  shorter prefixes again while typing stays off
  (`Typewriter.SkipThenFireShortens`, `Typewriter.SkipFlickerOnLastLine`),
  until it reaches the end of the line and clears itself
  (`Typewriter.SkippedIntervalRunsOut`).
- Lines of "The Marlin" are still spoken, with the engine's default voice,
  pitch and rate.
- Unmuting re-runs the speech effect, so the current line is spoken again
  from its start.
- A scene dot cannot pass an out-of-range index, because the dots are drawn
  one per scene. `SelectScene` therefore requires `k < |script|`.

## Model

| member | source | states |
|---|---|---|
| Script.ScenesShape | src/StoryMode.tsx:40-246 | the shipped script has six scenes of 5, 4, 4, 5, 5 and 3 lines, none empty, ending on the narrator's "THE END" |
| Navigation.ScenesFinalLine | src/StoryMode.tsx:224-246 | the shipped script has 26 lines; its final line is (5, 2), the 26th in reading order |
| Navigation.IsFinalLine | src/StoryMode.tsx:577-578 | on the final line no valid cursor comes later in reading order (`FinalIsLast` states it exactly via `Position`) |
| Navigation.NextLabel | src/StoryMode.tsx:577-580 | the Next button reads "Replay Story" exactly on the final line and "Next" everywhere else |
| Navigation.PrevDisabled | src/StoryMode.tsx:568 | the Prev button is disabled on line 0 of a scene; `Navigation.Rewind` and `RewindStep` state that this is exactly where Prev does nothing |
| Navigation.Advance | src/StoryMode.tsx:418-423 | Next on a shown line keeps a valid cursor valid, stays in the scene or goes to line 0 of the next one, and leaves the cursor unchanged exactly on the final line (`AdvanceStep`, `AdvanceSweep` relate it to reading order) |
| Navigation.Rewind | src/StoryMode.tsx:427-429 | Prev stays in the scene, never moves forward, steps back exactly one line unless the button is disabled, and is a no-op exactly when it is |
| Navigation.JumpTo | src/StoryMode.tsx:501-505 | a scene dot lands in scene `k` on a line where Prev is disabled (`JumpStep` adds validity and the reading-order position) |
| Navigation.AdvanceN | src/StoryMode.tsx:418-424 | any number of Next presses on shown lines keeps the cursor in range |
| Navigation.PositionInRange | src/StoryMode.tsx:285-286 | every valid cursor names one of the script's lines in reading order |
| Navigation.PositionInjective | src/StoryMode.tsx:285-286 | two valid cursors naming the same line in reading order are equal |
| Navigation.AdvanceStep | src/StoryMode.tsx:418-424 | Next on a shown line keeps the cursor valid, moves to the next line in reading order (crossing into line 0 of the next scene at a scene's end), and is the identity exactly on the final line |
| Navigation.FinalIsLast | src/StoryMode.tsx:577-578 | the final-line condition holds exactly at the last line of the script in reading order |
| Navigation.AdvanceSweep | src/StoryMode.tsx:418-424 | n presses of Next on shown lines from (0,0) reach line min(n, total-1) in reading order: the script is walked in order and then the cursor stays on the final line |
| Navigation.EveryLineReached | src/StoryMode.tsx:418-424 | every line of the script is reached from (0,0) by as many presses of Next as its position |
| Navigation.RewindStep | src/StoryMode.tsx:427-429 | Prev keeps the cursor valid and in the same scene, steps back exactly one line, and does nothing exactly when the Prev button is disabled (line 0) |
| Navigation.AdvanceThenRewind | src/StoryMode.tsx:418-429 | Prev undoes a Next inside a scene, and is a no-op right after Next crossed into a new scene |
| Navigation.JumpStep | src/StoryMode.tsx:501-505 | a scene dot gives a valid cursor at line 0 of its scene, the first line of that scene in reading order |
| Navigation.ReplayLabelIsNoOp | src/StoryMode.tsx:577-580 | the label reads "Replay Story" exactly where Next on a shown line leaves the cursor unchanged, which is not the start whenever the script has more than one line |
| Typewriter.Inv | src/StoryMode.tsx:389-406 | the reveal invariant: the display is never longer than the line, and while typing it is shorter than the number of firings the interval needs; `Restart`, `Fire` and `Skip` keep it |
| Typewriter.Shown | src/StoryMode.tsx:397 | the displayed slice is a prefix of the line, of length min(k, length) |
| Typewriter.Restart | src/StoryMode.tsx:389-395 | a line change leaves the reveal valid, typing, showing nothing, with exactly one interval |
| Typewriter.Fire | src/StoryMode.tsx:395-403 | one firing advances the live interval's counter and shows the line up to it; at the end of the line the interval clears itself and typing stops, otherwise the typing flag is left as it was; with no live interval nothing changes; the reveal invariant is kept |
| Typewriter.Skip | src/StoryMode.tsx:414-416 | a skip shows the whole line and stops typing, but keeps the interval |
| Typewriter.TypingTimeline | src/StoryMode.tsx:389-406 | after n firings from a line change the reveal shows the first n characters and is typing; after max(1, length) firings it shows the whole line, is not typing and has no interval |
| Typewriter.FireNFront | src/StoryMode.tsx:395-403 | firings compose: `n + 1` firings are one firing followed by `n` more |
| Typewriter.LiveIntervalRunsOut | src/StoryMode.tsx:395-403 | a live interval at counter k stops itself after `FiringsToFinish(text) - k` more firings, leaving the whole line shown, typing off and no interval |
| Typewriter.SkippedIntervalRunsOut | src/StoryMode.tsx:395-416 | after a skip the interval keeps running and still clears itself on schedule, ending with the whole line shown |
| Typewriter.FireExtends | src/StoryMode.tsx:395-398 | while typing, a firing only extends the displayed text |
| Typewriter.SkipThenFireShortens | src/StoryMode.tsx:395-416 | after a skip mid-line the next firing shows a strict prefix again, typing stays off, and the interval is still live |
| Typewriter.SkipFlickerOnLastLine | src/StoryMode.tsx:243 | on "THE END", skipping after one firing and firing once more shows "TH" |
| Speech.Includes | src/StoryMode.tsx:340-351 | `includes` on voice names: true only when the pattern fits in the name, and true whenever the name starts with it (`IncludesMeansOccurs` gives the exact meaning) |
| Speech.InPool | src/StoryMode.tsx:340-351 | the two `find` predicates of the speech effect; `FemalePoolSimplifies` and `IncludesMeansOccurs` state what they accept |
| Speech.IncludesMeansOccurs | src/StoryMode.tsx:340-351 | the substring test on voice names holds exactly when the pattern occurs at some index |
| Speech.FemalePoolSimplifies | src/StoryMode.tsx:346-351 | the female pool is decided by "Female" or "Zira" alone; the "Google UK English Female" test adds nothing |
| Speech.PoolFor | src/StoryMode.tsx:353-368 | Santiago and the narrator draw from the male-leaning pool, Manolin from the female-leaning one, and exactly the Marlin from none |
| Speech.FirstIn | src/StoryMode.tsx:340-351 | the chosen voice is the first of the list in the pool, and none is chosen exactly when no voice is in the pool |
| Speech.VoicePolicy | src/StoryMode.tsx:353-368 | Santiago and the narrator get the first male-leaning voice, Manolin the first female-leaning one (default voice when none matches); pitch and rate are 0.1/0.8, 1.1/0.85 and 1.3/1.1; the Marlin gets no override at all |
| Speech.ProsodyAgainstNeutral | src/StoryMode.tsx:353-368 | Santiago is pitched and paced below neutral, Manolin above, the narrator pitched above and paced below; Santiago and the narrator share a voice |
| Speech.Dispatch | src/StoryMode.tsx:332-372 | the speech effect's commands: a cancel first; exactly two commands when unmuted with a non-empty voice list and the cancel alone otherwise; the second command speaks the full text of the line with the speaker's voicing |
| Speech.Outstanding | src/StoryMode.tsx:332-382 | what the speech engine still holds after a command log: never more utterances than commands, and as many as commands when no cancel was sent (`OutstandingWithoutCancel` states which ones; `DispatchReplacesQueue`, `CancelEmptiesQueue` give its value after each effect) |
| Speech.OutstandingWithoutCancel | src/StoryMode.tsx:332-372 | with no cancel in the log, the engine holds every utterance spoken, in the order spoken |
| Speech.DispatchReplacesQueue | src/StoryMode.tsx:332-372 | the speech effect cancels first; afterwards the engine holds exactly the full text of the line, once, when unmuted with a non-empty voice list, and nothing otherwise |
| Speech.CancelEmptiesQueue | src/StoryMode.tsx:382 | a cancel leaves nothing queued in the speech engine |
| Engine.Consistent | src/StoryMode.tsx:285-286 | the on-screen state: a valid cursor, and the displayed text a prefix of the line at that cursor; every transition below keeps it |
| Engine.MoveTo | src/StoryMode.tsx:389-406 | the cursor becomes `c`; the reveal restarts when the cursor changed, and the whole on-screen state is left exactly as it was when it did not; consistency is kept |
| Engine.OnNext | src/StoryMode.tsx:409-425 | Next keeps the on-screen state consistent |
| Engine.OnPrev | src/StoryMode.tsx:427-429 | Prev keeps the on-screen state consistent |
| Engine.OnSelect | src/StoryMode.tsx:501-505 | a scene dot always lands on (k, 0), from any cursor; it changes nothing when already there; consistency is kept |
| Engine.OnTick | src/StoryMode.tsx:395-403 | an interval firing never moves the cursor and keeps the reveal invariant |
| Engine.NextMovesAtMostOne | src/StoryMode.tsx:414-424 | Next while typing shows the whole line without moving; Next on a shown line moves one line forward in reading order and starts typing, or changes nothing on the final line |
| Engine.TwoPressesAdvanceAtMostOne | src/StoryMode.tsx:414-424 | two presses of Next never move more than one line, and right after a line change they move exactly one unless on the final line |
| Engine.PrevStaysInScene | src/StoryMode.tsx:427-429 | Prev stays in the scene, is a no-op at line 0, and otherwise steps back one line and restarts the reveal |
| Player.TrackSwitch | src/StoryMode.tsx:317-329 | the track effect pauses, loads the scene's track, and then plays it as its last command when unmuted; when muted it stops after the load, so the element ends up playing the scene's track exactly when unmuted |
| Player.StoryPlayer.Valid | src/StoryMode.tsx:273-286 | the component's invariant: the cursor is valid and the displayed text is a prefix of the current line; every handler keeps it |
| Player.StoryPlayer.constructor | src/StoryMode.tsx:273-283 | the first render: cursor (0,0), nothing displayed, not typing, unmuted, no audio element, no voices |
| Player.StoryPlayer.OnLineChange | src/StoryMode.tsx:317-406 | after a cursor move: the track switch if the scene changed, one speech dispatch for the new line, the old interval cleared and a fresh reveal started |
| Player.StoryPlayer.TrackEffect | src/StoryMode.tsx:316-328 | the track effect appends `TrackSwitch` for the scene's track exactly when the scene changed and the audio element exists, and nothing otherwise |
| Player.StoryPlayer.SpeechEffect | src/StoryMode.tsx:332-372 | the speech effect appends exactly `Dispatch` for the current line, after which the engine holds that line's utterance alone when unmuted with voices, and nothing otherwise |
| Player.StoryPlayer.TypingEffect | src/StoryMode.tsx:389-395 | the typing effect clears the old interval and leaves the reveal at `Restart` of the current line |
| Player.StoryPlayer.GoTo | src/StoryMode.tsx:419-422 | setting the cursor follows `Engine.MoveTo` and runs the effects only when the cursor moved |
| Player.StoryPlayer.Mount | src/StoryMode.tsx:289-314 | mounting creates the audio element, runs the track, speech and typing effects, and re-runs speech once the initial voice list is in the state |
| Player.StoryPlayer.VoicesLoaded | src/StoryMode.tsx:296-305 | an empty voice report is ignored; a non-empty one replaces the list and re-runs the speech effect |
| Player.StoryPlayer.FinishTyping | src/StoryMode.tsx:414-416 | a press while typing shows the whole line and stops typing (`Typewriter.Skip`) but leaves the interval, the cursor and both command logs as they were |
| Player.StoryPlayer.Next | src/StoryMode.tsx:409-425 | follows `Engine.OnNext`; resumes a paused unmuted track; dispatches speech exactly when the cursor moved and switches track exactly when the scene changed |
| Player.StoryPlayer.Prev | src/StoryMode.tsx:427-429 | follows `Engine.OnPrev`; never touches the audio; dispatches speech exactly when the cursor moved |
| Player.StoryPlayer.SelectScene | src/StoryMode.tsx:501-505 | follows `Engine.OnSelect`; switches track exactly when the scene index changed |
| Player.StoryPlayer.Tick | src/StoryMode.tsx:395-403 | follows `Engine.OnTick` and sends no audio or speech command |
| Player.StoryPlayer.ToggleMute | src/StoryMode.tsx:375-386 | no audio element: nothing; muting pauses, cancels speech and leaves nothing queued; unmuting plays and speaks the current line again; the reveal is untouched |

## Left out

- Text is a sequence of characters, while `slice`, `length` and `includes`
  count UTF-16 code units. The firing counts and the shown prefixes match
  the component only for text without characters outside the Basic
  Multilingual Plane (those JavaScript stores as two code units); every
  line of the shipped script is ASCII.
- Rendering: the JSX, styling, `@keyframes`, the character images and
  `Avatar`. The scene's `background` and the line's `effect` are kept as
  data only.
- The other pages (`src/Home.tsx`, `src/Analysis.tsx`) and the route table
  (`src/App.tsx`): static content and routing.
- The audio element and the speech engine are foreign. They appear only as
  logs of the commands sent to them. The audio element's volume and loop
  settings, the swallowing of `play()` rejections, and whether speech
  actually sounds are not modelled. `Speech.Outstanding` counts an
  utterance until it is cancelled, whether or not the engine has finished
  saying it.
- The audio element's `paused` flag, read by the Next handler, is a
  parameter of `StoryPlayer.Next`.
- Voice discovery is asynchronous. Each report is modelled as a call of
  `StoryPlayer.VoicesLoaded`. A voice is named by its index in the reported
  list, and each non-empty report is taken as a new list, so it re-runs the
  speech effect.
- The 25 ms cadence of the interval: each firing is one call of
  `StoryPlayer.Tick`, and wall-clock time is not modelled.
- Pitch and rate are constant `real` literals; no arithmetic is done on them.
- Unmount teardown (pausing and releasing the audio element, cancelling
  speech, clearing the interval) is not modelled: after it the component no
  longer exists.
- React scheduling (batched updates, functional updates, the exact re-run
  rules of effects) is reduced to the atomic handler plus explicit effect
  steps described above. The model lets a handler be called before `Mount`,
  which the page never does; the audio element is absent only then.
