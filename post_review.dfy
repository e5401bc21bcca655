/** The review composer of app/components/PostReview.tsx: the modal flag, the
    star rating with its hover preview, and the two text fields. Publishing
    only resets the form; nothing is submitted. */
module PostReview {

  const MaxStars := 5

  /** `hoverRating || rating`: the hover preview wins while it is non-zero. */
  function EffectiveRating(rating: nat, hoverRating: nat): (r: nat)
    ensures hoverRating != 0 ==> r == hoverRating
    ensures hoverRating == 0 ==> r == rating
  {
    if hoverRating != 0 then hoverRating else rating
  }

  /** The class test of star `star`. */
  predicate IsHighlighted(star: nat, rating: nat, hoverRating: nat) {
    star <= EffectiveRating(rating, hoverRating)
  }

  /** The highlight of stars 1..5, in order. */
  function StarRow(rating: nat, hoverRating: nat): (r: seq<bool>)
    ensures |r| == MaxStars
    ensures forall i :: 0 <= i < MaxStars ==> r[i] == IsHighlighted(i + 1, rating, hoverRating)
  {
    seq(MaxStars, i requires 0 <= i => IsHighlighted(i + 1, rating, hoverRating))
  }

  /** With an effective rating in 0..5, exactly that many stars are lit and
      they are the leading ones. */
  lemma StarRowIsPrefix(rating: nat, hoverRating: nat)
    requires EffectiveRating(rating, hoverRating) <= MaxStars
    ensures var row, k := StarRow(rating, hoverRating), EffectiveRating(rating, hoverRating);
      && (forall i :: 0 <= i < k ==> row[i])
      && (forall i :: k <= i < MaxStars ==> !row[i])
  {
  }

  /** Leaving the stars shows the committed rating again. */
  lemma LeaveRestoresRating(rating: nat, star: nat)
    ensures IsHighlighted(star, rating, 0) <==> star <= rating
  {
  }

  class PostReviewForm {
    var isOpen: bool
    var rating: nat
    var hoverRating: nat
    var restaurant: string
    var review: string

    /** Both ratings are 0 or a star number. */
    predicate Valid()
      reads this
    {
      rating <= MaxStars && hoverRating <= MaxStars
    }

    /** The five stars as rendered: in a valid form the lit stars are exactly
        the leading "effective rating" ones. */
    function Highlights(): (r: seq<bool>)
      reads this
      requires Valid()
      ensures |r| == MaxStars
      ensures forall i :: 0 <= i < MaxStars ==> (r[i] <==> i < EffectiveRating(rating, hoverRating))
    {
      StarRowIsPrefix(rating, hoverRating);
      StarRow(rating, hoverRating)
    }

    constructor ()
      ensures Valid()
      ensures !isOpen && rating == 0 && hoverRating == 0 && restaurant == "" && review == ""
    {
      isOpen, rating, hoverRating, restaurant, review := false, 0, 0, "", "";
    }

    /** The floating button, the backdrop and the close button. */
    method SetOpen(open: bool)
      requires Valid()
      modifies this
      ensures Valid()
      ensures isOpen == open
      ensures rating == old(rating) && hoverRating == old(hoverRating)
      ensures restaurant == old(restaurant) && review == old(review)
    {
      isOpen := open;
    }

    method SetRestaurant(value: string)
      requires Valid()
      modifies this
      ensures Valid()
      ensures restaurant == value
      ensures isOpen == old(isOpen) && rating == old(rating) && hoverRating == old(hoverRating) && review == old(review)
    {
      restaurant := value;
    }

    method SetReview(value: string)
      requires Valid()
      modifies this
      ensures Valid()
      ensures review == value
      ensures isOpen == old(isOpen) && rating == old(rating) && hoverRating == old(hoverRating) && restaurant == old(restaurant)
    {
      review := value;
    }

    /** Clicking one of the stars 1..5 commits it. */
    method ClickStar(star: nat)
      requires Valid() && 1 <= star <= MaxStars
      modifies this
      ensures Valid()
      ensures rating == star
      ensures isOpen == old(isOpen) && hoverRating == old(hoverRating)
      ensures restaurant == old(restaurant) && review == old(review)
    {
      rating := star;
    }

    /** Hovering one of the stars 1..5 previews it. */
    method EnterStar(star: nat)
      requires Valid() && 1 <= star <= MaxStars
      modifies this
      ensures Valid()
      ensures hoverRating == star
      ensures Highlights() == StarRow(rating, star)
      ensures isOpen == old(isOpen) && rating == old(rating)
      ensures restaurant == old(restaurant) && review == old(review)
    {
      hoverRating := star;
    }

    /** Leaving a star drops the preview. */
    method LeaveStar()
      requires Valid()
      modifies this
      ensures Valid()
      ensures hoverRating == 0
      ensures Highlights() == StarRow(rating, 0)
      ensures isOpen == old(isOpen) && rating == old(rating)
      ensures restaurant == old(restaurant) && review == old(review)
    {
      hoverRating := 0;
    }

    /** `resetForm`: rating and both texts cleared; the hover preview is not touched. */
    method ResetForm()
      requires Valid()
      modifies this
      ensures Valid()
      ensures rating == 0 && restaurant == "" && review == ""
      ensures hoverRating == old(hoverRating) && isOpen == old(isOpen)
    {
      rating := 0;
      restaurant := "";
      review := "";
    }

    /** The publish button: the form is reset and the modal closes. */
    method Publish()
      requires Valid()
      modifies this
      ensures Valid()
      ensures !isOpen && rating == 0 && restaurant == "" && review == ""
      ensures hoverRating == old(hoverRating)
    {
      ResetForm();
      SetOpen(false);
    }
  }
}
