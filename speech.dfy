/** Speech dispatch for the current line: which voice, pitch and rate each
    speaker gets, the commands sent to the speech engine, and what is left
    queued in the engine after a sequence of commands. */
module Speech {
  import opened Script

  datatype Option<T> = None | Some(value: T)

  /** `pat` occurs in `s` starting at index `i`. */
  ghost predicate OccursAt(s: string, pat: string, i: nat) {
    i + |pat| <= |s| && s[i..i + |pat|] == pat
  }

  /** Substring test on voice names. */
  function Includes(s: string, pat: string): (b: bool)
    ensures b ==> |pat| <= |s|
    ensures pat <= s ==> b
    decreases |s|
  {
    |pat| <= |s| && (s[..|pat|] == pat || Includes(s[1..], pat))
  }

  lemma {:induction false} IncludesMeansOccurs(s: string, pat: string)
    ensures Includes(s, pat) <==> exists i: nat :: OccursAt(s, pat, i)
    decreases |s|
  {
    if |pat| <= |s| {
      if s[..|pat|] == pat {
        assert OccursAt(s, pat, 0);
      } else {
        IncludesMeansOccurs(s[1..], pat);
        if Includes(s[1..], pat) {
          var i: nat :| OccursAt(s[1..], pat, i);
          assert s[1..][i..i + |pat|] == s[i + 1..i + 1 + |pat|];
          assert OccursAt(s, pat, i + 1);
        }
        if exists i: nat :: OccursAt(s, pat, i) {
          var i: nat :| OccursAt(s, pat, i);
          assert i > 0;
          assert s[1..][i - 1..i - 1 + |pat|] == s[i..i + |pat|];
          assert OccursAt(s[1..], pat, i - 1);
        }
      }
    }
  }

  /** The two voice pools of the speech effect. */
  datatype Pool = MaleLeaning | FemaleLeaning

  predicate InPool(name: string, pool: Pool) {
    match pool
    case MaleLeaning =>
      Includes(name, "Male") || Includes(name, "David") || Includes(name, "Google US English")
    case FemaleLeaning =>
      Includes(name, "Female") || Includes(name, "Zira") || Includes(name, "Google UK English Female")
  }

  /** The third female pattern never decides anything: a name that contains
      "Google UK English Female" already contains "Female". */
  lemma FemalePoolSimplifies(name: string)
    ensures InPool(name, FemaleLeaning) <==> Includes(name, "Female") || Includes(name, "Zira")
  {
    var long := "Google UK English Female";
    if Includes(name, long) {
      IncludesMeansOccurs(name, long);
      var i: nat :| OccursAt(name, long, i);
      assert long[18..] == "Female";
      assert name[i + 18..i + 24] == name[i..i + 24][18..];
      assert OccursAt(name, "Female", i + 18);
      IncludesMeansOccurs(name, "Female");
    }
  }

  /** Index of the first voice of the pool in the voice list, as `find` does. */
  function FirstIn(voices: seq<string>, pool: Pool): (r: Option<nat>)
    ensures r.Some? ==> r.value < |voices| && InPool(voices[r.value], pool)
    ensures r.Some? ==> forall j :: 0 <= j < r.value ==> !InPool(voices[j], pool)
    ensures r.None? ==> forall j :: 0 <= j < |voices| ==> !InPool(voices[j], pool)
  {
    if voices == [] then None
    else if InPool(voices[0], pool) then Some(0)
    else
      match FirstIn(voices[1..], pool)
      case None => None
      case Some(i) => Some(i + 1)
  }

  /** Settings put on an utterance; `None` leaves the engine's default.
      A voice is named by its index in the voice list. */
  datatype Voicing = Voicing(voice: Option<nat>, pitch: Option<real>, rate: Option<real>)

  /** The pool a speaker draws from; the Marlin has none. */
  function PoolFor(speaker: Speaker): (p: Option<Pool>)
    ensures p.None? <==> speaker == Marlin
    ensures speaker == Santiago || speaker == Narrator ==> p == Some(MaleLeaning)
    ensures speaker == Manolin ==> p == Some(FemaleLeaning)
  {
    match speaker
    case Santiago => Some(MaleLeaning)
    case Manolin => Some(FemaleLeaning)
    case Narrator => Some(MaleLeaning)
    case Marlin => None
  }

  function VoicePolicy(speaker: Speaker, voices: seq<string>): (v: Voicing)
    ensures v.voice.Some? ==> PoolFor(speaker).Some? && v.voice.value < |voices|
    ensures v.voice.Some? ==> InPool(voices[v.voice.value], PoolFor(speaker).value)
    ensures v.voice.Some? ==> forall j :: 0 <= j < v.voice.value ==> !InPool(voices[j], PoolFor(speaker).value)
    ensures v.voice.None? && PoolFor(speaker).Some? ==>
              forall j :: 0 <= j < |voices| ==> !InPool(voices[j], PoolFor(speaker).value)
    ensures speaker == Santiago ==> v.pitch == Some(0.1) && v.rate == Some(0.8)
    ensures speaker == Manolin ==> v.pitch == Some(1.3) && v.rate == Some(1.1)
    ensures speaker == Narrator ==> v.pitch == Some(1.1) && v.rate == Some(0.85)
    ensures speaker == Marlin <==> v == Voicing(None, None, None)
  {
    var male := FirstIn(voices, MaleLeaning);
    var female := FirstIn(voices, FemaleLeaning);
    match speaker
    case Santiago => Voicing(male, Some(0.1), Some(0.8))
    case Manolin => Voicing(female, Some(1.3), Some(1.1))
    case Narrator => Voicing(male, Some(1.1), Some(0.85))
    case Marlin => Voicing(None, None, None)
  }

  /** Against the engine's neutral 1.0: Santiago is low and slow, Manolin high
      and quick, the narrator a little high and slow. */
  lemma ProsodyAgainstNeutral(voices: seq<string>)
    ensures VoicePolicy(Santiago, voices).pitch.value < 1.0 && VoicePolicy(Santiago, voices).rate.value < 1.0
    ensures VoicePolicy(Manolin, voices).pitch.value > 1.0 && VoicePolicy(Manolin, voices).rate.value > 1.0
    ensures VoicePolicy(Narrator, voices).pitch.value > 1.0 && VoicePolicy(Narrator, voices).rate.value < 1.0
    ensures VoicePolicy(Santiago, voices).voice == VoicePolicy(Narrator, voices).voice
  {
  }

  datatype Utterance = Utterance(text: string, voicing: Voicing)

  datatype SpeechCmd = Cancel | Speak(utterance: Utterance)

  /** The speech effect of the current line. */
  function Dispatch(line: DialogueLine, muted: bool, voices: seq<string>): (cmds: seq<SpeechCmd>)
    ensures |cmds| >= 1 && cmds[0] == Cancel
    ensures |cmds| == if !muted && |voices| > 0 then 2 else 1
    ensures forall i :: 1 <= i < |cmds| ==> cmds[i] == Speak(Utterance(line.text, VoicePolicy(line.speaker, voices)))
  {
    [Cancel] + if !muted && |voices| > 0 then [Speak(Utterance(line.text, VoicePolicy(line.speaker, voices)))] else []
  }

  /** Utterances queued in the engine after a command log: those spoken
      since the last cancel. */
  function Outstanding(log: seq<SpeechCmd>): (q: seq<Utterance>)
    ensures |q| <= |log|
    ensures Cancel !in log ==> |q| == |log|
  {
    if log == [] then []
    else
      match log[|log| - 1]
      case Cancel => []
      case Speak(u) => Outstanding(log[..|log| - 1]) + [u]
  }

  /** With no cancel in the log, the engine still holds every utterance
      spoken, in the order spoken. */
  lemma {:induction false} OutstandingWithoutCancel(log: seq<SpeechCmd>)
    requires Cancel !in log
    ensures |Outstanding(log)| == |log|
    ensures forall i :: 0 <= i < |log| ==> Outstanding(log)[i] == log[i].utterance
  {
    if log != [] {
      var init := log[..|log| - 1];
      assert Cancel !in init by {
        forall i | 0 <= i < |init| ensures init[i] != Cancel {
          assert init[i] == log[i];
        }
      }
      OutstandingWithoutCancel(init);
    }
  }

  /** The speech effect cancels first and then speaks the whole line at most
      once, only when unmuted with a non-empty voice list; whatever was
      queued before is gone. */
  lemma DispatchReplacesQueue(log: seq<SpeechCmd>, line: DialogueLine, muted: bool, voices: seq<string>)
    ensures Dispatch(line, muted, voices)[0] == Cancel
    ensures Outstanding(log + Dispatch(line, muted, voices)) ==
            if !muted && |voices| > 0 then [Utterance(line.text, VoicePolicy(line.speaker, voices))] else []
  {
  }

  /** A cancel empties the queue. */
  lemma CancelEmptiesQueue(log: seq<SpeechCmd>)
    ensures Outstanding(log + [Cancel]) == []
  {
  }
}
