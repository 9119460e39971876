// The flashcard card (src/pages/Quiz/components/FlashcardCard.tsx): flipping
// between front and back behind an animation lock, counting how often the back
// has been viewed. The 300 ms timer that releases the lock is the explicit
// method `AnimationDone`.
module FlashcardCard {
  import opened Wrappers
  import opened Content
  import opened QuizProgress

  /** How many entries of `flips` are flips to the back. */
  function CountToBack(flips: seq<bool>): nat {
    if flips == [] then 0 else CountToBack(flips[..|flips| - 1]) + (if flips[|flips| - 1] then 1 else 0)
  }

  class Card {
    var flashcard: Flashcard
    var isFlipped: bool
    var isAnimating: bool
    var viewCount: nat
    /** The sides turned to by each accepted flip since the last reset (true: to the back). */
    ghost var flips: seq<bool>

    /** The view counter is the number of flips to the back since the last reset. */
    ghost predicate Valid()
      reads this
    {
      viewCount == CountToBack(flips)
      && (flips == [] ==> !isFlipped)
      && (flips != [] ==> isFlipped == flips[|flips| - 1])
    }

    constructor (f: Flashcard)
      ensures Valid() && flashcard == f && !isFlipped && !isAnimating && viewCount == 0 && flips == []
    {
      flashcard := f;
      isFlipped := false;
      isAnimating := false;
      viewCount := 0;
      flips := [];
    }

    /** The effect on `flashcard.id`: a different card starts on its front, unlocked, never viewed. */
    method ChangeFlashcard(f: Flashcard)
      requires Valid()
      modifies this
      ensures Valid() && flashcard == f
      ensures f.id != old(flashcard.id) ==> !isFlipped && !isAnimating && viewCount == 0 && flips == []
      ensures f.id == old(flashcard.id) ==>
                isFlipped == old(isFlipped) && isAnimating == old(isAnimating) && viewCount == old(viewCount)
                && flips == old(flips)
    {
      if f.id != flashcard.id {
        isFlipped := false;
        isAnimating := false;
        viewCount := 0;
        flips := [];
      }
      flashcard := f;
    }

    /**
      * `handleFlip`: ignored while animating; otherwise locks, turns the card, and counts a view
      * when it turns to the back.
      */
    method Flip() returns (report: Option<Report>)
      requires Valid()
      modifies this
      ensures Valid() && flashcard == old(flashcard)
      ensures report.Some? <==> !old(isAnimating)
      ensures old(isAnimating) ==>
                isAnimating && isFlipped == old(isFlipped) && viewCount == old(viewCount) && flips == old(flips)
      ensures !old(isAnimating) ==> isAnimating && isFlipped == !old(isFlipped) && flips == old(flips) + [isFlipped]
      ensures !old(isAnimating) && isFlipped ==>
                viewCount == old(viewCount) + 1 && report == Some(FlashcardReport(true, viewCount, true))
      ensures !old(isAnimating) && !isFlipped ==>
                viewCount == old(viewCount) && report == Some(FlashcardReport(false, viewCount, viewCount > 0))
      ensures viewCount >= old(viewCount)
      ensures report.Some? ==> (Answered(report.value) <==> viewCount > 0) && !Correct(report.value)
    {
      if isAnimating {
        report := None;
        return;
      }
      isAnimating := true;
      var newFlipped := !isFlipped;
      isFlipped := newFlipped;
      flips := flips + [newFlipped];
      assert flips[..|flips| - 1] == old(flips);
      if newFlipped {
        var newViewCount := viewCount + 1;
        viewCount := newViewCount;
        report := Some(FlashcardReport(newFlipped, newViewCount, true));
      } else {
        report := Some(FlashcardReport(newFlipped, viewCount, viewCount > 0));
      }
    }

    /** The deferred callback: the only thing that releases the lock. */
    method AnimationDone()
      requires Valid()
      modifies this
      ensures Valid() && !isAnimating
      ensures isFlipped == old(isFlipped) && viewCount == old(viewCount) && flips == old(flips)
      ensures flashcard == old(flashcard)
    {
      isAnimating := false;
    }
  }

  /** Once the back has been seen, no later flip can report the answer as unseen. */
  lemma {:induction false} SeenStaysSeen(flips: seq<bool>, more: seq<bool>)
    requires CountToBack(flips) > 0
    ensures CountToBack(flips + more) >= CountToBack(flips) > 0
    decreases |more|
  {
    if more != [] {
      var init := more[..|more| - 1];
      SeenStaysSeen(flips, init);
      assert (flips + more)[..|flips + more| - 1] == flips + init;
      assert CountToBack(flips + more) >= CountToBack(flips + init);
    } else {
      assert flips + more == flips;
    }
  }

  /** Two complete flips, front to back and back again, leave one view and the answer seen. */
  method FlipTwice(f: Flashcard) returns (views: nat, seen: bool)
    ensures views == 1 && seen
  {
    var card := new Card(f);
    var first := card.Flip();
    card.AnimationDone();
    var second := card.Flip();
    views, seen := card.viewCount, second.value.hasSeenAnswer;
  }
}
