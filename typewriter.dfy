/** The typewriter reveal of one dialogue line. A line change clears the old
    interval and starts a new one whose closure owns a character counter; each
    firing of the interval advances the counter and shows that many characters,
    and the interval clears itself once the counter reaches the text length.
    Skipping shows the whole text at once but leaves the interval running. */
module Typewriter {

  /** A live interval: the text its closure captured and its own counter. */
  datatype Interval = Interval(fullText: string, charIndex: nat)

  /** The reveal state of the current line: its text, what is displayed,
      the typing flag, and the intervals still scheduled. */
  datatype Reveal = Reveal(text: string, displayed: string, typing: bool, timers: seq<Interval>)

  /** The first `k` characters of `text`, or all of it when `k` runs past the end. */
  function Shown(text: string, k: nat): (r: string)
    ensures r <= text
    ensures |r| == if k < |text| then k else |text|
  {
    if k < |text| then text[..k] else text
  }

  /** Firings until an interval stops itself: it checks only after counting,
      so even an empty text takes one. */
  function FiringsToFinish(text: string): nat {
    if |text| == 0 then 1 else |text|
  }

  /** The reveal invariant: at most one live interval, for this text and not
      yet finished; the display a prefix of the text; while typing, the
      display is the slice up to the live interval's counter. */
  predicate Inv(r: Reveal)
    ensures Inv(r) ==> |r.displayed| <= |r.text|
    ensures Inv(r) && r.typing ==> |r.displayed| < FiringsToFinish(r.text)
  {
    && |r.timers| <= 1
    && (forall iv :: iv in r.timers ==> iv.fullText == r.text && iv.charIndex < FiringsToFinish(r.text))
    && r.displayed <= r.text
    && (r.typing ==> r.timers != [] && r.displayed == Shown(r.text, r.timers[0].charIndex))
  }

  /** The typing effect for a new line: nothing shown, typing, one fresh interval. */
  function Restart(text: string): (r: Reveal)
    ensures Inv(r) && r.typing && r.displayed == [] && |r.timers| == 1
  {
    Reveal(text, "", true, [Interval(text, 0)])
  }

  /** One firing of the live interval; with none live, nothing happens. The
      counter advances; once it reaches the text length the interval clears
      itself and typing stops, otherwise the typing flag is left alone. */
  function Fire(r: Reveal): (r': Reveal)
    ensures r'.text == r.text
    ensures r.timers == [] ==> r' == r
    ensures Inv(r) ==> Inv(r')
    ensures Inv(r) && r.timers != [] ==> r'.displayed == Shown(r.text, r.timers[0].charIndex + 1)
    ensures Inv(r) && r.timers != [] ==>
              if r.timers[0].charIndex + 1 >= |r.text| then !r'.typing && r'.timers == []
              else r'.typing == r.typing && r'.timers == [Interval(r.text, r.timers[0].charIndex + 1)]
  {
    if r.timers == [] then r
    else
      var iv := r.timers[0];
      var c := iv.charIndex + 1;
      var shown := Shown(iv.fullText, c);
      if c >= |iv.fullText| then r.(displayed := shown, typing := false, timers := r.timers[1..])
      else r.(displayed := shown, timers := [Interval(iv.fullText, c)] + r.timers[1..])
  }

  /** The Next button while typing: the whole text, typing off, interval untouched. */
  function Skip(r: Reveal): (r': Reveal)
    ensures Inv(r) ==> Inv(r')
    ensures r'.displayed == r.text && !r'.typing && r'.timers == r.timers
  {
    r.(displayed := r.text, typing := false)
  }

  function FireN(r: Reveal, n: nat): Reveal {
    if n == 0 then r else Fire(FireN(r, n - 1))
  }

  /** Left alone after a line change, the reveal shows one more character per
      firing while typing, and after `FiringsToFinish` firings shows the whole
      text, stops typing and has no interval left. */
  lemma {:induction false} TypingTimeline(text: string, n: nat)
    ensures n < FiringsToFinish(text) ==>
              FireN(Restart(text), n) == Reveal(text, Shown(text, n), true, [Interval(text, n)])
    ensures n >= FiringsToFinish(text) ==> FireN(Restart(text), n) == Reveal(text, text, false, [])
  {
    if n > 0 {
      TypingTimeline(text, n - 1);
      var prev := FireN(Restart(text), n - 1);
      if n - 1 < FiringsToFinish(text) {
        if n >= |text| {
          assert Shown(text, n) == text;
        }
        assert Fire(prev).displayed == Shown(text, n);
      }
    }
  }

  /** `n + 1` firings are one firing followed by `n` more. */
  lemma {:induction false} FireNFront(r: Reveal, n: nat)
    ensures FireN(r, n + 1) == FireN(Fire(r), n)
  {
    if n > 0 {
      FireNFront(r, n - 1);
    }
  }

  /** Every live interval stops itself: from counter `k`, another
      `FiringsToFinish(text) - k` firings show the whole text, stop typing and
      leave no interval, whether or not the typing was skipped meanwhile. */
  lemma {:induction false} LiveIntervalRunsOut(r: Reveal)
    requires Inv(r) && r.timers != []
    ensures FireN(r, FiringsToFinish(r.text) - r.timers[0].charIndex) == Reveal(r.text, r.text, false, [])
    decreases FiringsToFinish(r.text) - r.timers[0].charIndex
  {
    var k := r.timers[0].charIndex;
    FireNFront(r, FiringsToFinish(r.text) - k - 1);
    if k + 1 >= |r.text| {
      assert Shown(r.text, k + 1) == r.text;
    } else {
      LiveIntervalRunsOut(Fire(r));
    }
  }

  /** A skip leaves the interval running, and it still runs out on schedule. */
  lemma SkippedIntervalRunsOut(r: Reveal)
    requires Inv(r) && r.typing
    ensures FireN(Skip(r), FiringsToFinish(r.text) - r.timers[0].charIndex) == Reveal(r.text, r.text, false, [])
  {
    LiveIntervalRunsOut(Skip(r));
  }

  /** While typing, each firing only extends what is displayed. */
  lemma FireExtends(r: Reveal)
    requires Inv(r) && r.typing
    ensures r.displayed <= Fire(r).displayed
  {
  }

  /** A skip does not stop the interval, so the next firing takes the display
      back to a strict prefix of the text while typing stays off. */
  lemma SkipThenFireShortens(r: Reveal)
    requires Inv(r) && r.typing && r.timers[0].charIndex + 1 < |r.text|
    ensures Skip(r).displayed == r.text
    ensures Fire(Skip(r)).displayed < r.text && |Fire(Skip(r)).displayed| == r.timers[0].charIndex + 1
    ensures !Fire(Skip(r)).typing && Fire(Skip(r)).timers != []
  {
  }

  /** The script's last line, skipped after one character: the next firing shows "TH". */
  lemma SkipFlickerOnLastLine()
    ensures Fire(Skip(Fire(Restart("THE END")))) == Reveal("THE END", "TH", false, [Interval("THE END", 2)])
  {
  }
}
