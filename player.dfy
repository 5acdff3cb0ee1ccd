/** The story player component: its state fields, the handlers the page calls
    (Next, Prev, a scene dot, the mute button), the firing of the typing
    interval, the arrival of the voice list, and the effects that run after a
    change. Background audio and speech are the commands sent to the audio
    element and to the speech engine, kept as logs. */
module Player {
  import opened Script
  import opened Navigation
  import opened Typewriter
  import opened Speech
  import opened Engine

  datatype AudioCmd = Pause | Load(track: string) | Play

  /** The track-switching effect on the background audio element. */
  function TrackSwitch(track: string, muted: bool): (cmds: seq<AudioCmd>)
    ensures |cmds| >= 2 && cmds[0] == Pause && cmds[1] == Load(track)
    ensures Play in cmds <==> !muted
    ensures |cmds| == if muted then 2 else 3
    ensures !muted ==> cmds[2] == Play
  {
    [Pause, Load(track)] + if muted then [] else [Play]
  }

  class StoryPlayer {
    const script: seq<Scene>
    var sceneIdx: nat
    var lineIdx: nat
    var displayedText: string
    var isTyping: bool
    /** The typing intervals still scheduled, each with its closure's counter. */
    var timers: seq<Interval>
    var isMuted: bool
    /** Whether the background audio element exists (it is created on mount). */
    var hasAudio: bool
    /** Names of the speech engine's voices, as last reported non-empty. */
    var voices: seq<string>
    var speechLog: seq<SpeechCmd>
    var audioLog: seq<AudioCmd>

    function At(): Cursor
      reads this`sceneIdx, this`lineIdx
    {
      Cursor(sceneIdx, lineIdx)
    }

    function Line(): DialogueLine
      reads this`sceneIdx, this`lineIdx
      requires ValidCursor(script, At())
    {
      LineAt(script, At())
    }

    function Snap(): Snapshot
      reads this`sceneIdx, this`lineIdx, this`displayedText, this`isTyping, this`timers
      requires ValidCursor(script, At())
    {
      Snapshot(At(), Reveal(Line().text, displayedText, isTyping, timers))
    }

    /** The utterance the speech effect would queue for the line on screen. */
    function CurrentUtterance(): Utterance
      reads this`sceneIdx, this`lineIdx, this`voices
      requires ValidCursor(script, At())
    {
      Utterance(Line().text, VoicePolicy(Line().speaker, voices))
    }

    /** Cursor in range; at most one typing interval, for the line on screen,
        with the display a prefix of that line; and the speech engine holds at
        most one utterance, which is for the line on screen, and none while muted. */
    ghost predicate Valid()
      reads this
      ensures Valid() ==> ValidCursor(script, At()) && displayedText <= Line().text
    {
      && WellFormed(script)
      && ValidCursor(script, At())
      && Consistent(script, Snap())
      && (Outstanding(speechLog) == [] || Outstanding(speechLog) == [CurrentUtterance()])
      && (isMuted ==> Outstanding(speechLog) == [])
    }

    /** The first render: cursor at the start, nothing typed, no effect run yet. */
    constructor (script: seq<Scene>)
      requires WellFormed(script)
      ensures Valid()
      ensures this.script == script && At() == Start
      ensures displayedText == "" && !isTyping && timers == []
      ensures !isMuted && !hasAudio && voices == []
      ensures speechLog == [] && audioLog == []
    {
      this.script := script;
      sceneIdx, lineIdx := 0, 0;
      displayedText, isTyping, timers := "", false, [];
      isMuted, hasAudio, voices := false, false, [];
      speechLog, audioLog := [], [];
    }

    /** The effects that depend on the current line, run after the cursor
        moved: the track switch when the scene changed, the speech effect,
        and the typing effect (old interval cleared, new one started). */
    method OnLineChange(sceneChanged: bool)
      requires WellFormed(script) && ValidCursor(script, At())
      modifies this`audioLog, this`speechLog, this`timers, this`displayedText, this`isTyping
      ensures At() == old(At()) && isMuted == old(isMuted) && hasAudio == old(hasAudio) && voices == old(voices)
      ensures Snap().typewriter == Restart(Line().text)
      ensures speechLog == old(speechLog) + Dispatch(Line(), isMuted, voices)
      ensures Outstanding(speechLog) == if !isMuted && |voices| > 0 then [CurrentUtterance()] else []
      ensures audioLog == old(audioLog) +
                if sceneChanged && hasAudio then TrackSwitch(script[sceneIdx].audio, isMuted) else []
    {
      ghost var line, u := Line(), CurrentUtterance();
      TrackEffect(sceneChanged);
      assert Line() == line && CurrentUtterance() == u;
      SpeechEffect();
      ghost var queued := Outstanding(speechLog);
      TypingEffect();
      assert Line() == line && CurrentUtterance() == u && Outstanding(speechLog) == queued;
    }

    /** The track effect, which re-runs only when the scene (or the mute
        flag) changed, and only once the audio element exists. */
    method TrackEffect(sceneChanged: bool)
      requires sceneIdx < |script|
      modifies this`audioLog
      ensures audioLog == old(audioLog) +
                if sceneChanged && hasAudio then TrackSwitch(script[sceneIdx].audio, isMuted) else []
    {
      if sceneChanged && hasAudio {
        audioLog := audioLog + TrackSwitch(script[sceneIdx].audio, isMuted);
      }
    }

    /** The speech effect: cancel, then speak the current line when unmuted
        with voices; the engine then holds that line alone or nothing. */
    method SpeechEffect()
      requires ValidCursor(script, At())
      modifies this`speechLog
      ensures speechLog == old(speechLog) + Dispatch(Line(), isMuted, voices)
      ensures Outstanding(speechLog) == if !isMuted && |voices| > 0 then [CurrentUtterance()] else []
    {
      DispatchReplacesQueue(speechLog, Line(), isMuted, voices);
      speechLog := speechLog + Dispatch(Line(), isMuted, voices);
    }

    /** The typing effect: the old interval cleared, nothing displayed,
        typing on, and a new interval with its counter at 0. */
    method TypingEffect()
      requires ValidCursor(script, At())
      modifies this`timers, this`displayedText, this`isTyping
      ensures Snap().typewriter == Restart(Line().text)
    {
      timers := [];
      displayedText := "";
      isTyping := true;
      timers := timers + [Interval(Line().text, 0)];
    }

    /** Set the cursor as a handler does; the effects follow when it moved. */
    method GoTo(c: Cursor)
      requires Valid() && ValidCursor(script, c)
      modifies this
      ensures Valid()
      ensures Snap() == MoveTo(script, old(Snap()), c)
      ensures isMuted == old(isMuted) && hasAudio == old(hasAudio) && voices == old(voices)
      ensures speechLog == old(speechLog) + if c != old(At()) then Dispatch(Line(), isMuted, voices) else []
      ensures audioLog == old(audioLog) +
                if c.scene != old(sceneIdx) && hasAudio then TrackSwitch(script[sceneIdx].audio, isMuted) else []
    {
      var prevScene, prevLine := sceneIdx, lineIdx;
      sceneIdx, lineIdx := c.scene, c.line;
      if sceneIdx != prevScene || lineIdx != prevLine {
        OnLineChange(sceneIdx != prevScene);
      }
    }

    /** The effects of the first commit: the audio element is created and the
        current voice list read; the track, speech and typing effects run
        with the voice list still empty, and then again for speech once the
        voice list read on mount is in the state. */
    method Mount(initialVoices: seq<string>)
      requires Valid() && !hasAudio
      modifies this
      ensures Valid()
      ensures At() == old(At()) && isMuted == old(isMuted) && hasAudio
      ensures Snap().typewriter == Restart(Line().text)
      ensures voices == if |initialVoices| > 0 then initialVoices else old(voices)
      ensures audioLog == old(audioLog) + TrackSwitch(script[sceneIdx].audio, isMuted)
      ensures speechLog == old(speechLog) + Dispatch(Line(), isMuted, old(voices)) +
                if |initialVoices| > 0 then Dispatch(Line(), isMuted, initialVoices) else []
    {
      hasAudio := true;
      OnLineChange(true);
      VoicesLoaded(initialVoices);
    }

    /** The voice list reported by the speech engine; an empty list is ignored,
        a non-empty one re-runs the speech effect. */
    method VoicesLoaded(reported: seq<string>)
      requires Valid()
      modifies this
      ensures Valid()
      ensures Snap() == old(Snap()) && isMuted == old(isMuted) && hasAudio == old(hasAudio)
      ensures audioLog == old(audioLog)
      ensures voices == if |reported| > 0 then reported else old(voices)
      ensures speechLog == old(speechLog) + if |reported| > 0 then Dispatch(Line(), isMuted, reported) else []
    {
      if |reported| > 0 {
        voices := reported;
        DispatchReplacesQueue(speechLog, Line(), isMuted, voices);
        speechLog := speechLog + Dispatch(Line(), isMuted, voices);
      }
    }

    /** The typing branch of the Next button: the whole line, typing off. */
    method FinishTyping()
      requires Valid() && isTyping
      modifies this
      ensures Valid()
      ensures Snap() == old(Snap()).(typewriter := Skip(old(Snap()).typewriter))
      ensures isMuted == old(isMuted) && hasAudio == old(hasAudio) && voices == old(voices)
      ensures speechLog == old(speechLog) && audioLog == old(audioLog)
    {
      displayedText := Line().text;
      isTyping := false;
    }

    /** The Next button. `audioPaused` is the audio element's paused flag. */
    method Next(audioPaused: bool)
      requires Valid()
      modifies this
      ensures Valid()
      ensures Snap() == OnNext(script, old(Snap()))
      ensures isMuted == old(isMuted) && hasAudio == old(hasAudio) && voices == old(voices)
      ensures speechLog == old(speechLog) + if At() != old(At()) then Dispatch(Line(), isMuted, voices) else []
      ensures audioLog == old(audioLog)
                + (if hasAudio && audioPaused && !isMuted then [Play] else [])
                + (if sceneIdx != old(sceneIdx) && hasAudio then TrackSwitch(script[sceneIdx].audio, isMuted) else [])
    {
      ghost var resumed := audioLog + if hasAudio && audioPaused && !isMuted then [Play] else [];
      if hasAudio && audioPaused && !isMuted {
        audioLog := audioLog + [Play];
      }
      assert audioLog == resumed;
      if isTyping {
        FinishTyping();
        assert audioLog == resumed + [];
      } else {
        AdvanceStep(script, At());
        GoTo(Advance(script, At()));
      }
    }

    /** The Prev button. */
    method Prev()
      requires Valid()
      modifies this
      ensures Valid()
      ensures Snap() == OnPrev(script, old(Snap()))
      ensures isMuted == old(isMuted) && hasAudio == old(hasAudio) && voices == old(voices)
      ensures audioLog == old(audioLog)
      ensures speechLog == old(speechLog) + if At() != old(At()) then Dispatch(Line(), isMuted, voices) else []
    {
      if lineIdx > 0 {
        GoTo(Rewind(At()));
      }
    }

    /** Scene dot `k`; the dots are drawn one per scene, so `k` is in range. */
    method SelectScene(k: nat)
      requires Valid() && k < |script|
      modifies this
      ensures Valid()
      ensures Snap() == OnSelect(script, old(Snap()), k)
      ensures isMuted == old(isMuted) && hasAudio == old(hasAudio) && voices == old(voices)
      ensures speechLog == old(speechLog) + if At() != old(At()) then Dispatch(Line(), isMuted, voices) else []
      ensures audioLog == old(audioLog) +
                if sceneIdx != old(sceneIdx) && hasAudio then TrackSwitch(script[sceneIdx].audio, isMuted) else []
    {
      GoTo(JumpTo(k));
    }

    /** One firing of the typing interval, if one is live. */
    method Tick()
      requires Valid()
      modifies this
      ensures Valid()
      ensures Snap() == OnTick(old(Snap()))
      ensures isMuted == old(isMuted) && hasAudio == old(hasAudio) && voices == old(voices)
      ensures speechLog == old(speechLog) && audioLog == old(audioLog)
    {
      ghost var before := Snap().typewriter;
      if timers != [] {
        var iv := timers[0];
        var charIndex := iv.charIndex + 1;
        displayedText := Shown(iv.fullText, charIndex);
        if charIndex >= |iv.fullText| {
          isTyping := false;
          timers := timers[1..];
        } else {
          timers := [Interval(iv.fullText, charIndex)] + timers[1..];
        }
        assert Snap().typewriter == Fire(before);
      }
    }

    /** The mute button. Without an audio element it does nothing. Otherwise
        it flips the flag (muting also pauses and cancels speech, unmuting
        resumes), and the track and speech effects re-run because they depend
        on the flag: unmuting speaks the current line again. The typing is
        never touched. */
    method ToggleMute()
      requires Valid()
      modifies this
      ensures Valid()
      ensures Snap() == old(Snap()) && hasAudio == old(hasAudio) && voices == old(voices)
      ensures !hasAudio ==> isMuted == old(isMuted) && speechLog == old(speechLog) && audioLog == old(audioLog)
      ensures hasAudio ==> isMuted == !old(isMuted)
      ensures hasAudio && !isMuted ==>
                audioLog == old(audioLog) + [Play] + TrackSwitch(script[sceneIdx].audio, false)
                && speechLog == old(speechLog) + Dispatch(Line(), false, voices)
                && Outstanding(speechLog) == if |voices| > 0 then [CurrentUtterance()] else []
      ensures hasAudio && isMuted ==>
                audioLog == old(audioLog) + [Pause] + TrackSwitch(script[sceneIdx].audio, true)
                && speechLog == old(speechLog) + [Cancel] + Dispatch(Line(), true, voices)
                && Outstanding(speechLog) == []
    {
      if hasAudio {
        if isMuted {
          audioLog := audioLog + [Play];
          isMuted := false;
        } else {
          audioLog := audioLog + [Pause];
          speechLog := speechLog + [Cancel];
          isMuted := true;
        }
        audioLog := audioLog + TrackSwitch(script[sceneIdx].audio, isMuted);
        DispatchReplacesQueue(speechLog, Line(), isMuted, voices);
        speechLog := speechLog + Dispatch(Line(), isMuted, voices);
      }
    }
  }

  /** A session: mount with a voice list, press Next twice on the first
      line, then mute and unmute. */
  method Session(script: seq<Scene>, voices: seq<string>)
    requires WellFormed(script) && |script[0].dialogues| > 1
  {
    var p := new StoryPlayer(script);
    p.Mount(voices);
    assert p.isTyping && p.At() == Start;
    p.Next(false);
    assert p.At() == Start && !p.isTyping;
    p.Next(false);
    assert p.At() == Cursor(0, 1) && p.isTyping && p.displayedText == "";
    p.ToggleMute();
    assert p.isMuted && Outstanding(p.speechLog) == [];
    p.ToggleMute();
    assert !p.isMuted;
    assert |voices| > 0 ==> Outstanding(p.speechLog) == [p.CurrentUtterance()];
  }
}
