/** The Testimonials section: the typewriter that spells out the company name,
    the carousel with its autoplay timer, and the star rating of each card. */
module Testimonials {

  // ---------------------------------------------------------------------------
  // Typewriter

  /** The word the typewriter spells, leading space included. */
  const WORD: string := " INDALYXO"

  /** Which timer the typewriter is waiting on: the typing interval, the
      five-second restart timeout, or neither once the section is unmounted. */
  datatype Phase = Typing | AwaitingRestart | Stopped

  datatype TypewriterState = TypewriterState(typedText: string, index: nat, phase: Phase)

  /** `startTyping`: the text is emptied, the index reset, the interval started. */
  function Restart(): (s: TypewriterState)
    ensures s.typedText == [] && s.index == 0 && s.phase == Typing
  {
    TypewriterState("", 0, Typing)
  }

  /** `s.charAt(i)`: the one character at `i`, or the empty string past the end. */
  function CharAt(s: string, i: nat): (r: string)
    ensures i < |s| ==> r == [s[i]]
    ensures i >= |s| ==> r == []
  {
    if i < |s| then [s[i]] else []
  }

  /** What the typewriter shows after `index` characters have been consumed.
      The updater given to `setTypedText` runs at the next render, after
      `index++`, so it reads the index one past the character it was meant for:
      WORD's leading space is skipped and the last tick appends nothing. */
  function Shown(index: nat): string
    requires index <= |WORD|
  {
    WORD[1..Min(index + 1, |WORD|)]
  }

  ghost predicate Consistent(s: TypewriterState) {
    s.index <= |WORD| && s.typedText == Shown(s.index)
  }

  /** One firing of the typing interval: while characters remain, advance the
      index and append the character at the advanced index; otherwise stop the
      interval and schedule the restart. Without a running interval nothing
      happens. */
  function AfterTick(s: TypewriterState): (r: TypewriterState)
    ensures Consistent(s) ==> Consistent(r)
    ensures s.phase == Typing && s.index < |WORD| ==>
              r.index == s.index + 1 && r.typedText == s.typedText + CharAt(WORD, s.index + 1)
    ensures |r.typedText| <= |s.typedText| + 1
  {
    if s.phase != Typing then s
    else if s.index < |WORD| then
      s.(typedText := s.typedText + CharAt(WORD, s.index + 1), index := s.index + 1)
    else
      s.(phase := AwaitingRestart)
  }

  /** The restart timeout firing: `startTyping` again. */
  function AfterRestartTimeout(s: TypewriterState): (r: TypewriterState)
    ensures s.phase == AwaitingRestart ==> r == Restart()
    ensures s.phase != AwaitingRestart ==> r == s
  {
    if s.phase == AwaitingRestart then Restart() else s
  }

  /** The effect's cleanup: both timers are cleared, the text stays. */
  function AfterUnmount(s: TypewriterState): (r: TypewriterState)
    ensures r.typedText == s.typedText && r.phase == Stopped
  {
    s.(phase := Stopped)
  }

  /** `k` consecutive firings of the typing interval. */
  function Ticks(s: TypewriterState, k: nat): TypewriterState
    decreases k
  {
    if k == 0 then s else Ticks(AfterTick(s), k - 1)
  }

  function Min(a: int, b: int): int {
    if a <= b then a else b
  }

  /** From any consistent state, `k` ticks type `k` more characters or up to the
      end of the word; the interval stops once the word is complete. */
  lemma {:induction false} TicksType(s: TypewriterState, k: nat)
    requires Consistent(s) && s.phase == Typing
    decreases k
    ensures Consistent(Ticks(s, k))
    ensures Ticks(s, k).index == Min(s.index + k, |WORD|)
    ensures Ticks(s, k).phase == (if s.index + k <= |WORD| then Typing else AwaitingRestart)
  {
    if k == 0 {
    } else if s.index < |WORD| {
      TicksType(AfterTick(s), k - 1);
    } else {
      TicksStayAwaiting(AfterTick(s), k - 1);
    }
  }

  /** Once the restart is scheduled further interval firings change nothing. */
  lemma {:induction false} TicksStayAwaiting(s: TypewriterState, k: nat)
    requires s.phase == AwaitingRestart
    ensures Ticks(s, k) == s
  {
    if k > 0 {
      TicksStayAwaiting(AfterTick(s), k - 1);
    }
  }

  /** After `k` ticks since a restart the text is WORD from its second
      character up to position `k`: a full round shows "INDALYXO" without the
      leading space, and the text never holds a space. */
  lemma TypedAfterRestart(k: nat)
    ensures Ticks(Restart(), k).typedText == WORD[1..Min(k + 1, |WORD|)]
    ensures k >= |WORD| - 1 ==> Ticks(Restart(), k).typedText == "INDALYXO"
    ensures ' ' !in Ticks(Restart(), k).typedText
  {
    TicksType(Restart(), k);
    assert WORD[1..] == "INDALYXO";
  }

  /** The typewriter of a mounted section, driven by its two timers. */
  class Typewriter {
    var typedText: string
    var index: nat
    var phase: Phase

    function State(): TypewriterState
      reads this
    {
      TypewriterState(typedText, index, phase)
    }

    /** Mounting runs `startTyping` once. */
    constructor ()
      ensures State() == Restart()
    {
      typedText, index, phase := "", 0, Typing;
    }

    /** The interval callback. */
    method Tick()
      modifies this
      ensures State() == AfterTick(old(State()))
    {
      if phase == Typing {
        if index < |WORD| {
          index := index + 1;
          typedText := typedText + CharAt(WORD, index);
        } else {
          phase := AwaitingRestart;
        }
      }
    }

    /** The restart timeout callback. */
    method RestartTimeout()
      modifies this
      ensures State() == AfterRestartTimeout(old(State()))
    {
      if phase == AwaitingRestart {
        typedText, index, phase := "", 0, Typing;
      }
    }

    method Unmount()
      modifies this
      ensures State() == AfterUnmount(old(State()))
    {
      phase := Stopped;
    }

    /** `k` firings of the typing interval in a row. */
    method RunTicks(k: nat)
      modifies this
      ensures State() == Ticks(old(State()), k)
    {
      var i := 0;
      while i < k
        invariant 0 <= i <= k
        invariant Ticks(old(State()), k) == Ticks(State(), k - i)
      {
        Tick();
        i := i + 1;
      }
    }
  }

  // ---------------------------------------------------------------------------
  // Carousel

  datatype Testimonial = Testimonial(name: string, role: string, rating: nat, text: string)

  const TESTIMONIALS: seq<Testimonial> := [
    Testimonial("Akilandam", "CEO, Nellai Connect.", 5,
      "The development process was smooth from start to finish. Communication was excellent, and they provided quick support whenever we needed updates."),
    Testimonial("Jerome Abel", "Director, TechSolutions", 4,
      "We needed a scalable web application, and they delivered exactly what we wanted using modern technologies."),
    Testimonial("Jacin", "Co-Founder", 5,
      "After launching the new website built by this team, our online presence increased significantly.")
  ]

  /** `testimonials.length`. */
  const COUNT: nat := |TESTIMONIALS|

  /** JavaScript's `a % n` for `n > 0`: the remainder truncated toward zero,
      so it carries the sign of the dividend (Dafny's `%` is Euclidean), written
      as repeated subtraction of `n` from the magnitude. */
  function JsRem(a: int, n: int): (r: int)
    requires n > 0
    ensures -n < r < n
    ensures a >= 0 ==> r >= 0
    ensures a <= 0 ==> r <= 0
    ensures 0 <= a < n ==> r == a
    ensures n <= a < 2 * n ==> r == a - n
    decreases if a < 0 then 1 - a else a
  {
    if a < 0 then -JsRem(-a, n)
    else if a < n then a
    else JsRem(a - n, n)
  }

  /** `(prev + 1) % testimonials.length`: the following slide, wrapping from the
      last back to the first. */
  function Next(i: int, n: int): (r: int)
    requires n > 0
    ensures 0 <= i < n ==> 0 <= r < n
    ensures 0 <= i < n - 1 ==> r == i + 1
    ensures i == n - 1 ==> r == 0
  {
    JsRem(i + 1, n)
  }

  /** `(prev - 1 + testimonials.length) % testimonials.length`: the preceding
      slide, wrapping from the first to the last. */
  function Prev(i: int, n: int): (r: int)
    requires n > 0
    ensures 0 <= i < n ==> 0 <= r < n
    ensures 0 < i < n ==> r == i - 1
    ensures i == 0 ==> r == n - 1
  {
    JsRem(i - 1 + n, n)
  }

  /** Previous undoes next and next undoes previous. */
  lemma PrevNextInverse(i: int, n: int)
    requires 0 <= i < n
    ensures Prev(Next(i, n), n) == i
    ensures Next(Prev(i, n), n) == i
  {
  }

  /** `k` clicks on the next button (or `k` autoplay ticks). */
  function NextTimes(i: int, n: int, k: nat): int
    requires n > 0
    decreases k
  {
    if k == 0 then i else NextTimes(Next(i, n), n, k - 1)
  }

  /** Stepping `a` times and then `b` times is stepping `a + b` times. */
  lemma {:induction false} NextTimesAdd(i: int, n: int, a: nat, b: nat)
    requires n > 0
    ensures NextTimes(NextTimes(i, n, a), n, b) == NextTimes(i, n, a + b)
    decreases a
  {
    if a > 0 {
      NextTimesAdd(Next(i, n), n, a - 1, b);
    }
  }

  /** Below the last slide, `k` steps just count up. */
  lemma {:induction false} NextTimesCountsUp(i: int, n: int, k: nat)
    requires 0 <= i && i + k < n
    ensures NextTimes(i, n, k) == i + k
    decreases k
  {
    if k > 0 {
      NextTimesCountsUp(i + 1, n, k - 1);
    }
  }

  /** `n` steps forward come back to the start: up to the last slide, wrap to
      the first, and up again. */
  lemma FullCycle(i: int, n: int)
    requires 0 <= i < n
    ensures NextTimes(i, n, n) == i
  {
    NextTimesCountsUp(i, n, n - 1 - i);
    NextTimesAdd(i, n, n - 1 - i, 1);
    assert NextTimes(i, n, n - i) == 0;
    NextTimesCountsUp(0, n, i);
    NextTimesAdd(i, n, n - i, i);
  }

  /** The carousel of a mounted section. */
  class Carousel {
    var currentIndex: int
    var isAutoPlaying: bool

    ghost predicate Valid()
      reads this
    {
      0 <= currentIndex < COUNT
    }

    constructor ()
      ensures Valid() && currentIndex == 0 && isAutoPlaying
    {
      currentIndex, isAutoPlaying := 0, true;
    }

    /** The autoplay interval. It exists only while `isAutoPlaying` holds (the
        effect returns early otherwise), so a tick advances exactly then. */
    method AutoplayTick()
      requires Valid()
      modifies this
      ensures Valid() && isAutoPlaying == old(isAutoPlaying)
      ensures currentIndex == if old(isAutoPlaying) then Next(old(currentIndex), COUNT)
                              else old(currentIndex)
    {
      if isAutoPlaying {
        currentIndex := (currentIndex + 1) % COUNT;
      }
    }

    /** `goToPrev`: stops autoplay for good and steps back. */
    method GoToPrev()
      requires Valid()
      modifies this
      ensures Valid() && !isAutoPlaying
      ensures currentIndex == Prev(old(currentIndex), COUNT)
    {
      isAutoPlaying := false;
      currentIndex := (currentIndex - 1 + COUNT) % COUNT;
    }

    /** `goToNext`: stops autoplay for good and steps forward. */
    method GoToNext()
      requires Valid()
      modifies this
      ensures Valid() && !isAutoPlaying
      ensures currentIndex == Next(old(currentIndex), COUNT)
    {
      isAutoPlaying := false;
      currentIndex := (currentIndex + 1) % COUNT;
    }

    /** `goToSlide(i)`, called by the i-th dot button only, so `i` is a slide. */
    method GoToSlide(i: int)
      requires Valid() && 0 <= i < COUNT
      modifies this
      ensures Valid() && !isAutoPlaying
      ensures currentIndex == i
    {
      isAutoPlaying := false;
      currentIndex := i;
    }
  }

  // ---------------------------------------------------------------------------
  // Star rating

  datatype Star = Star

  /** `[...Array(t.rating)]`: one star per rating point. */
  function Stars(rating: nat): (r: seq<Star>)
    ensures |r| == rating
  {
    seq(rating, _ => Star)
  }
}
