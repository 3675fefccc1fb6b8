/** The screenshot carousel (components/SessionScreenshotCarousel.tsx): a
    wrap-around index over the session's screenshots, an expanded/collapsed
    flag and a full-screen modal flag. */
module SessionScreenshotCarousel {
  import opened Text

  /** The index after `goToNext` among `n` screenshots. */
  function Next(i: int, n: int): int
  {
    if i == n - 1 then 0 else i + 1
  }

  /** The index after `goToPrevious` among `n` screenshots. */
  function Prev(i: int, n: int): int
  {
    if i == 0 then n - 1 else i - 1
  }

  /** Both moves keep a valid index valid, and each undoes the other. */
  lemma MovesStayInRange(i: int, n: int)
    requires 0 <= i < n
    ensures 0 <= Next(i, n) < n && 0 <= Prev(i, n) < n
    ensures Prev(Next(i, n), n) == i
    ensures Next(Prev(i, n), n) == i
  {
  }

  /** The index after `k` calls of `goToNext`. */
  function NextTimes(i: int, n: int, k: nat): int
  {
    if k == 0 then i else Next(NextTimes(i, n, k - 1), n)
  }

  /** Up to `n` calls of `goToNext` advance the index by `k`, wrapping past the
      last screenshot back to the first (the index moves to `(i + k) mod n`). */
  lemma {:induction false} NextTimesWraps(i: int, n: int, k: nat)
    requires 0 <= i < n && k <= n
    ensures NextTimes(i, n, k) == if i + k < n then i + k else i + k - n
  {
    if k > 0 {
      NextTimesWraps(i, n, k - 1);
    }
  }

  /** `n` calls of `goToNext` go round once and return to the start. */
  lemma FullCycle(i: int, n: int)
    requires 0 <= i < n
    ensures NextTimes(i, n, n) == i
  {
    NextTimesWraps(i, n, n);
  }

  class Carousel {
    /** `screenshots.length`. */
    const count: nat
    var currentIndex: int
    var isExpanded: bool
    var isModalOpen: bool

    /** The index names a screenshot whenever there is one. */
    predicate Valid()
      reads this
    {
      if count == 0 then currentIndex == 0 else 0 <= currentIndex < count
    }

    /** The initial state: the first screenshot, expanded, modal closed. */
    constructor(count: nat)
      ensures this.count == count
      ensures currentIndex == 0 && isExpanded && !isModalOpen
      ensures Valid()
    {
      this.count := count;
      currentIndex := 0;
      isExpanded := true;
      isModalOpen := false;
    }

    /** `goToPrevious`; its buttons exist only when there are screenshots. */
    method GoToPrevious()
      requires count > 0 && Valid()
      modifies this
      ensures currentIndex == Prev(old(currentIndex), count)
      ensures isExpanded == old(isExpanded) && isModalOpen == old(isModalOpen)
      ensures Valid()
    {
      if currentIndex == 0 {
        currentIndex := count - 1;
      } else {
        currentIndex := currentIndex - 1;
      }
    }

    /** `goToNext`; its buttons exist only when there are screenshots. */
    method GoToNext()
      requires count > 0 && Valid()
      modifies this
      ensures currentIndex == Next(old(currentIndex), count)
      ensures isExpanded == old(isExpanded) && isModalOpen == old(isModalOpen)
      ensures Valid()
    {
      if currentIndex == count - 1 {
        currentIndex := 0;
      } else {
        currentIndex := currentIndex + 1;
      }
    }

    /** A thumbnail click: that screenshot, and the carousel expanded again. */
    method SelectThumbnail(k: int)
      requires 0 <= k < count
      modifies this
      ensures currentIndex == k && isExpanded
      ensures isModalOpen == old(isModalOpen)
      ensures Valid()
    {
      currentIndex := k;
      isExpanded := true;
    }

    /** The collapse/expand button. */
    method ToggleExpanded()
      modifies this
      ensures isExpanded == !old(isExpanded)
      ensures currentIndex == old(currentIndex) && isModalOpen == old(isModalOpen)
    {
      isExpanded := !isExpanded;
    }

    /** A click on the main image opens the modal. */
    method OpenModal()
      modifies this
      ensures isModalOpen
      ensures currentIndex == old(currentIndex) && isExpanded == old(isExpanded)
    {
      isModalOpen := true;
    }

    /** The modal's close button. */
    method CloseModal()
      modifies this
      ensures !isModalOpen
      ensures currentIndex == old(currentIndex) && isExpanded == old(isExpanded)
    {
      isModalOpen := false;
    }

    /** The counter: nothing for an empty list (which renders only the empty
        state), otherwise `index + 1` of `count`, which lies in 1..count. */
    function Counter(): (r: string)
      requires Valid()
      reads this
      ensures count == 0 ==> r == "No screenshots in this session"
      ensures count > 0 ==> 1 <= currentIndex + 1 <= count
      ensures count > 0 ==> r == NatToString(currentIndex + 1) + " of " + NatToString(count)
    {
      if count == 0 then "No screenshots in this session"
      else NatToString(currentIndex + 1) + " of " + NatToString(count)
    }
  }
}
