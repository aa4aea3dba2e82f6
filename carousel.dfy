/**
 * The home-page carousel: the shown slide's index (wrapping over the four
 * slides), the direction of the last move and the play/pause flag, driven by
 * the arrow buttons, the dots and the keyboard.
 */
module Carousel {
  import opened Js

  datatype Item = Item(src: string, alt: string, title: Option<string>, description: Option<string>)

  /** `carouselItems`: the four banners. */
  const Items: seq<Item> := [
    Item("Banner1.gif", "Banner 1", Some("Welcome to CodeSensei"),
         Some("Master programming with our interactive platform")),
    Item("Banner2.png", "Banner 2", Some("Learn & Practice"),
         Some("Hands-on coding exercises and challenges")),
    Item("Banner3.png", "Banner 3", Some("Expert Guidance"),
         Some("Learn from AI in more practical ways")),
    Item("Banner4.png", "Banner 4", Some("Build Projects"),
         Some("Create real-world applications"))
  ]

  /** `carouselItems.length`. */
  const N: nat := |Items|

  const InitialPlaying: bool := true

  /** The slide after `i`: `(i + 1) % N`. */
  function NextIndex(i: int): (r: int)
    requires 0 <= i < N
    ensures 0 <= r < N
    ensures r == if i == N - 1 then 0 else i + 1
  {
    (i + 1) % N
  }

  /** The slide before `i`: `(i - 1 + N) % N`. */
  function PrevIndex(i: int): (r: int)
    requires 0 <= i < N
    ensures 0 <= r < N
    ensures r == if i == 0 then N - 1 else i - 1
  {
    (i - 1 + N) % N
  }

  /** The direction `goToSlide(k)` records when leaving slide `index`. */
  function GoDirection(k: int, index: int): (d: int)
    ensures d == 1 || d == -1
    ensures d == 1 <==> k > index
  {
    if k > index then 1 else -1
  }

  /** The number the counter shows for slide `index`: `index + 1`. */
  function CounterLabel(index: int): (r: int)
    requires 0 <= index < N
    ensures 1 <= r <= N
    ensures r - 1 == index
  {
    index + 1
  }

  /** `k` consecutive "next" moves. */
  function NextTimes(i: int, k: nat): (r: int)
    requires 0 <= i < N
    ensures 0 <= r < N
    decreases k
  {
    if k == 0 then i else NextTimes(NextIndex(i), k - 1)
  }

  lemma PrevAfterNext(i: int)
    requires 0 <= i < N
    ensures PrevIndex(NextIndex(i)) == i
  {
  }

  lemma NextAfterPrev(i: int)
    requires 0 <= i < N
    ensures NextIndex(PrevIndex(i)) == i
  {
  }

  /** `k` "next" moves advance the index by `k` modulo the number of slides. */
  lemma {:induction false} NextTimesIsModular(i: int, k: nat)
    requires 0 <= i < N
    ensures NextTimes(i, k) == (i + k) % N
    decreases k
  {
    if k > 0 {
      NextTimesIsModular(NextIndex(i), k - 1);
      assert NextIndex(i) == (i + 1) % N;
    }
  }

  /** `N` consecutive "next" moves return to the same slide. */
  lemma FullCycle(i: int)
    requires 0 <= i < N
    ensures NextTimes(i, N) == i
  {
    NextTimesIsModular(i, N);
  }

  /**
   * As written, the keydown handler is registered once, on the first render,
   * so the `togglePlayPause` it calls always reads that render's `isPlaying`,
   * which is `InitialPlaying`. Space therefore always leaves the slideshow paused.
   */
  function SpacePlayingAsWritten(playing: bool): (r: bool)
    ensures !r
  {
    !InitialPlaying
  }

  /** Space as intended: the same toggle as the play/pause button. */
  function SpacePlaying(playing: bool): (r: bool)
    ensures r != playing
  {
    !playing
  }

  /** As written, Space on a paused carousel leaves it paused: it does not toggle. */
  lemma SpaceDoesNotResumeAsWritten()
    ensures SpacePlayingAsWritten(false) == false
    ensures SpacePlayingAsWritten(false) != SpacePlaying(false)
  {
  }

  /** As intended, two Space presses restore the play state. */
  lemma SpaceTwiceRestores(playing: bool)
    ensures SpacePlaying(SpacePlaying(playing)) == playing
  {
  }

  class Slideshow {
    var index: int
    var direction: int
    var isPlaying: bool

    ghost predicate Valid()
      reads this
    {
      0 <= index < N && (direction == 1 || direction == -1)
    }

    constructor ()
      ensures Valid()
      ensures index == 0 && direction == 1 && isPlaying == InitialPlaying
    {
      index := 0;
      direction := 1;
      isPlaying := InitialPlaying;
    }

    method NextSlide()
      requires Valid()
      modifies this
      ensures Valid()
      ensures direction == 1 && index == NextIndex(old(index)) && isPlaying == old(isPlaying)
    {
      direction := 1;
      index := (index + 1) % N;
    }

    method PrevSlide()
      requires Valid()
      modifies this
      ensures Valid()
      ensures direction == -1 && index == PrevIndex(old(index)) && isPlaying == old(isPlaying)
    {
      direction := -1;
      index := (index - 1 + N) % N;
    }

    /** Called by the dot of slide `slideIndex`; equal indices count as a backward move. */
    method GoToSlide(slideIndex: int)
      requires Valid() && 0 <= slideIndex < N
      modifies this
      ensures Valid()
      ensures index == slideIndex && isPlaying == old(isPlaying)
      ensures direction == GoDirection(slideIndex, old(index))
    {
      direction := if slideIndex > index then 1 else -1;
      index := slideIndex;
    }

    method TogglePlayPause()
      requires Valid()
      modifies this
      ensures Valid()
      ensures isPlaying == !old(isPlaying)
      ensures index == old(index) && direction == old(direction)
    {
      isPlaying := !isPlaying;
    }

    /** The keydown handler as written: Space applies the toggle captured on the first render. */
    method KeyDownAsWritten(key: string)
      requires Valid()
      modifies this
      ensures Valid()
      ensures key == "ArrowLeft" ==>
        direction == -1 && index == PrevIndex(old(index)) && isPlaying == old(isPlaying)
      ensures key == "ArrowRight" ==>
        direction == 1 && index == NextIndex(old(index)) && isPlaying == old(isPlaying)
      ensures key == " " ==>
        isPlaying == SpacePlayingAsWritten(old(isPlaying)) &&
        index == old(index) && direction == old(direction)
      ensures key != "ArrowLeft" && key != "ArrowRight" && key != " " ==>
        index == old(index) && direction == old(direction) && isPlaying == old(isPlaying)
    {
      if key == "ArrowLeft" {
        PrevSlide();
      }
      if key == "ArrowRight" {
        NextSlide();
      }
      if key == " " {
        isPlaying := !InitialPlaying;
      }
    }

    /** The keydown handler as intended: Space toggles like the play/pause button. */
    method KeyDown(key: string)
      requires Valid()
      modifies this
      ensures Valid()
      ensures key == "ArrowLeft" ==>
        direction == -1 && index == PrevIndex(old(index)) && isPlaying == old(isPlaying)
      ensures key == "ArrowRight" ==>
        direction == 1 && index == NextIndex(old(index)) && isPlaying == old(isPlaying)
      ensures key == " " ==>
        isPlaying == SpacePlaying(old(isPlaying)) &&
        index == old(index) && direction == old(direction)
      ensures key != "ArrowLeft" && key != "ArrowRight" && key != " " ==>
        index == old(index) && direction == old(direction) && isPlaying == old(isPlaying)
    {
      if key == "ArrowLeft" {
        PrevSlide();
      }
      if key == "ArrowRight" {
        NextSlide();
      }
      if key == " " {
        TogglePlayPause();
      }
    }
  }
}
