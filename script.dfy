/** The fixed story script: speakers, dialogue lines, scenes, and the six-scene
    constant that the player runs over. Nothing here changes at run time. */
module Script {

  /** The closed set of speakers; `Marlin` is the speaker written "The Marlin". */
  datatype Speaker = Santiago | Manolin | Narrator | Marlin

  /** The visual effect of a line. The renderer only distinguishes `Shake`;
      every line of the script sets one of these. */
  datatype Effect = Normal | Shake | Fade

  datatype DialogueLine = DialogueLine(id: nat, speaker: Speaker, text: string, effect: Effect)

  datatype Scene = Scene(
    id: string,
    title: string,
    day: string,
    audio: string,
    background: string,
    dialogues: seq<DialogueLine>)

  /** What the player relies on: at least one scene, and no scene without lines. */
  predicate WellFormed(script: seq<Scene>) {
    |script| > 0 && forall i :: 0 <= i < |script| ==> |script[i].dialogues| > 0
  }

  const Intro: Scene := Scene("intro", "The Boy and the Old Man", "Day 1 - The Shack", "/audio/calm.mp3",
    "bg-gradient-to-b from-slate-800 to-slate-900", [
      DialogueLine(1, Narrator, "He was an old man who fished alone in a skiff in the Gulf Stream and he had gone eighty-four days now without taking a fish.", Normal),
      DialogueLine(2, Manolin, "Santiago, I could go with you again. We've made some money.", Normal),
      DialogueLine(3, Santiago, "No. You are with a lucky boat. Stay with them.", Normal),
      DialogueLine(4, Manolin, "But remember how you went eighty-seven days without fish and then we caught big ones every day for three weeks.", Normal),
      DialogueLine(5, Santiago, "I remember. I know you did not leave me because you doubted.", Normal)
    ])

  const Hooking: Scene := Scene("hooking", "The Great Catch", "Day 2 - The Deep Sea", "/audio/calm2.mp3",
    "bg-gradient-to-b from-sky-900 to-blue-950", [
      DialogueLine(1, Narrator, "The boat began to move slowly off towards the North-West. The fish was moving steadily and they travelled slowly on the calm water.", Normal),
      DialogueLine(2, Santiago, "He is a big one. I must keep him tight, but not too tight.", Normal),
      DialogueLine(3, Marlin, "*The line goes taut, vibrating with immense power against the old man's back*", Shake),
      DialogueLine(4, Santiago, "Fish, I love you and respect you very much. But I will kill you dead before this day ends.", Normal)
    ])

  const Battle: Scene := Scene("battle", "Brotherhood & Pain", "Day 3 - Exhaustion", "/audio/thrill.mp3",
    "bg-gradient-to-b from-indigo-950 to-black", [
      DialogueLine(1, Santiago, "I am tired, old fish. You are tired too.", Normal),
      DialogueLine(2, Santiago, "You are killing me, fish. But you have a right to. Never have I seen a greater, or more beautiful, or a calmer or more noble thing than you, brother.", Normal),
      DialogueLine(3, Santiago, "Come on and kill me! I do not care who kills who!", Shake),
      DialogueLine(4, Narrator, "He summoned all his pain and what strength he had left and he put it against the fish's agony.", Normal)
    ])

  const Sharks: Scene := Scene("sharks", "The Sharks", "Day 4 - The Loss", "/audio/thrill2.mp3",
    "bg-gradient-to-b from-red-950 to-slate-900", [
      DialogueLine(1, Narrator, "The shark was not an accident. He had come up from deep down in the water as the dark cloud of blood had settled.", Normal),
      DialogueLine(2, Santiago, "Ay. Galanos. Come on then.", Normal),
      DialogueLine(3, Narrator, "He drove his harpoon into the shark's head. The shark rolled over and sank, taking the harpoon with him.", Shake),
      DialogueLine(4, Santiago, "A man can be destroyed but not defeated.", Normal),
      DialogueLine(5, Narrator, "But more came. In the night, he fought them with the tiller until it broke. They ate all the silver flesh, leaving only the white skeleton.", Normal)
    ])

  const Return: Scene := Scene("return", "The Return", "Day 5 - The Village", "/audio/calm.mp3",
    "bg-gradient-to-b from-slate-900 to-slate-800", [
      DialogueLine(1, Narrator, "He pulled the skiff up on the rocks. He unstepped the mast and furled the sail and tied it. Then he shouldered the mast and started to climb.", Normal),
      DialogueLine(2, Narrator, "The boy saw that the old man was breathing and then he saw the old man's hands and he started to cry.", Normal),
      DialogueLine(3, Manolin, "They beat you, Santiago. They truly beat you.", Normal),
      DialogueLine(4, Santiago, "He didn't beat me. Not the fish. It was afterwards.", Normal),
      DialogueLine(5, Manolin, "Now we fish together again. The hell with luck. I'll bring the luck with me.", Normal)
    ])

  const Dream: Scene := Scene("dream", "The Dream", "Epilogue", "/audio/calm.mp3",
    "bg-gradient-to-b from-amber-950 to-black", [
      DialogueLine(1, Narrator, "Up the road, in his shack, the old man was sleeping again. He was still sleeping on his face and the boy was sitting by him watching him.", Normal),
      DialogueLine(2, Narrator, "The old man was dreaming about the lions.", Fade),
      DialogueLine(3, Narrator, "THE END", Fade)
    ])

  const Scenes: seq<Scene> := [Intro, Hooking, Battle, Sharks, Return, Dream]

  /** The script the player ships with has six scenes, none of them empty,
      and ends on the narrator's "THE END". */
  lemma ScenesShape()
    ensures WellFormed(Scenes) && |Scenes| == 6
    ensures [|Scenes[0].dialogues|, |Scenes[1].dialogues|, |Scenes[2].dialogues|,
             |Scenes[3].dialogues|, |Scenes[4].dialogues|, |Scenes[5].dialogues|] == [5, 4, 4, 5, 5, 3]
    ensures Scenes[5].dialogues[2] == DialogueLine(3, Narrator, "THE END", Fade)
  {
    assert |Scenes[0].dialogues| == 5 && |Scenes[1].dialogues| == 4 && |Scenes[2].dialogues| == 4;
    assert |Scenes[3].dialogues| == 5 && |Scenes[4].dialogues| == 5 && |Scenes[5].dialogues| == 3;
  }
}
