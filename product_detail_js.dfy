/** The product page script (petshop/static/js/product_detail.js): the reviews
    ordered newest first and shown five to a page with numbered page buttons,
    and the "write a review" link. */
module ProductDetailJs {
  import opened Wrappers
  import Serializers
  import Models

  const ReviewsPerPage: nat := 5

  /** A review as the product endpoint sends it; `createdAt` is the creation
      time as a number, which is what the comparator subtracts. */
  datatype Review = Review(user: string, rating: int, text: string, createdAt: int)

  // ---------------------------------------------------------------- ordering

  predicate NewestFirst(s: seq<Review>)
  {
    forall i, j :: 0 <= i < j < |s| ==> s[i].createdAt >= s[j].createdAt
  }

  /** Puts `x` before the first review that is not newer than it. */
  function Insert(x: Review, sorted: seq<Review>): (r: seq<Review>)
  {
    if sorted == [] || sorted[0].createdAt <= x.createdAt then [x] + sorted
    else [sorted[0]] + Insert(x, sorted[1..])
  }

  /** The `sort` with comparator `b.created_at - a.created_at`: newest first,
      equal times kept in their order. */
  function SortNewestFirst(reviews: seq<Review>): seq<Review>
  {
    if reviews == [] then [] else Insert(reviews[0], SortNewestFirst(reviews[1..]))
  }

  lemma {:induction false} InsertPermutes(x: Review, sorted: seq<Review>)
    ensures multiset(Insert(x, sorted)) == multiset(sorted) + multiset{x}
  {
    if sorted != [] && sorted[0].createdAt > x.createdAt {
      InsertPermutes(x, sorted[1..]);
      assert sorted == [sorted[0]] + sorted[1..];
    }
  }

  lemma {:induction false} InsertKeepsOrder(x: Review, sorted: seq<Review>)
    requires NewestFirst(sorted)
    ensures NewestFirst(Insert(x, sorted))
  {
    if sorted != [] && sorted[0].createdAt > x.createdAt {
      InsertKeepsOrder(x, sorted[1..]);
      InsertPermutes(x, sorted[1..]);
      var r := Insert(x, sorted);
      forall j | 1 <= j < |r|
        ensures r[0].createdAt >= r[j].createdAt
      {
        assert r[j] in multiset(Insert(x, sorted[1..]));
        assert r[j] == x || r[j] in sorted[1..];
      }
    }
  }

  /** The sorted reviews are newest first and are the received reviews,
      each as often as it was received. */
  lemma {:induction false} SortNewestFirstSpec(reviews: seq<Review>)
    ensures NewestFirst(SortNewestFirst(reviews))
    ensures multiset(SortNewestFirst(reviews)) == multiset(reviews)
    ensures |SortNewestFirst(reviews)| == |reviews|
  {
    if reviews != [] {
      SortNewestFirstSpec(reviews[1..]);
      InsertKeepsOrder(reviews[0], SortNewestFirst(reviews[1..]));
      InsertPermutes(reviews[0], SortNewestFirst(reviews[1..]));
      assert reviews == [reviews[0]] + reviews[1..];
    }
    assert |SortNewestFirst(reviews)| == |multiset(SortNewestFirst(reviews))|;
  }

  // ---------------------------------------------------------------- paging

  /** `Math.ceil(n / 5)`. */
  function TotalPages(n: nat): (t: nat)
    ensures n > 0 ==> t >= 1 && (t - 1) * ReviewsPerPage < n <= t * ReviewsPerPage
    ensures n == 0 ==> t == 0
  {
    (n + ReviewsPerPage - 1) / ReviewsPerPage
  }

  /** The requested page is raised to 1 and then lowered to the last page. */
  function Clamp(page: int, totalPages: nat): (p: int)
    ensures totalPages >= 1 ==> 1 <= p <= totalPages
    ensures 1 <= page <= totalPages ==> p == page
  {
    var p := if page < 1 then 1 else page;
    if p > totalPages then totalPages else p
  }

  /** `allReviews.slice((p - 1) * 5, p * 5)`. */
  function PageReviews(reviews: seq<Review>, page: int): (r: seq<Review>)
    requires page >= 1
    ensures |r| == (if (page - 1) * ReviewsPerPage >= |reviews| then 0
                    else if page * ReviewsPerPage <= |reviews| then ReviewsPerPage
                    else |reviews| - (page - 1) * ReviewsPerPage)
    ensures forall i :: 0 <= i < |r| ==> r[i] == reviews[(page - 1) * ReviewsPerPage + i]
  {
    var start := (page - 1) * ReviewsPerPage;
    if start >= |reviews| then []
    else if page * ReviewsPerPage <= |reviews| then reviews[start..page * ReviewsPerPage]
    else reviews[start..]
  }

  /** Every review is shown on page `i / 5 + 1`, at place `i % 5`, and that
      page is within the page count. */
  lemma ReviewOnItsPage(reviews: seq<Review>, i: nat)
    requires i < |reviews|
    ensures 1 <= i / ReviewsPerPage + 1 <= TotalPages(|reviews|)
    ensures i % ReviewsPerPage < |PageReviews(reviews, i / ReviewsPerPage + 1)|
    ensures PageReviews(reviews, i / ReviewsPerPage + 1)[i % ReviewsPerPage] == reviews[i]
  {
    assert (i / ReviewsPerPage) * ReviewsPerPage + i % ReviewsPerPage == i;
  }

  /** A page within the count is never empty. */
  lemma PageInRangeNotEmpty(reviews: seq<Review>, page: int)
    requires 1 <= page <= TotalPages(|reviews|)
    ensures PageReviews(reviews, page) != []
  {
  }

  /** One button of `renderPagination`: the page it asks for, whether it is
      the active page, and whether it is disabled. */
  datatype PageButton = PageButton(target: int, active: bool, disabled: bool)

  /** "Назад", the numbered pages, "Вперед". */
  function PaginationButtons(current: int, totalPages: nat): (r: seq<PageButton>)
    ensures |r| == totalPages + 2
    ensures r[0] == PageButton(current - 1, false, current == 1)
    ensures r[totalPages + 1] == PageButton(current + 1, false, current == totalPages)
    ensures forall i :: 1 <= i <= totalPages ==> r[i] == PageButton(i, i == current, false)
  {
    [PageButton(current - 1, false, current == 1)]
    + seq(totalPages, i => PageButton(i + 1, i + 1 == current, false))
    + [PageButton(current + 1, false, current == totalPages)]
  }

  /** On a page within the count, a button is disabled exactly when the page
      it asks for is one the click handler ignores. */
  lemma DisabledButtonsAreIgnored(current: int, totalPages: nat)
    requires 1 <= current <= totalPages
    ensures var r := PaginationButtons(current, totalPages);
            forall i :: 0 <= i < |r| ==> (r[i].disabled <==> !(1 <= r[i].target <= totalPages))
  {
    var r := PaginationButtons(current, totalPages);
    assert r[0] == PageButton(current - 1, false, current == 1);
    assert r[totalPages + 1] == PageButton(current + 1, false, current == totalPages);
  }

  /** What the reviews block shows. */
  datatype ReviewsView =
    | NotRendered
    | NoReviews
    | ReviewsPage(items: seq<Review>, buttons: seq<PageButton>)

  /** The review section under the product: the link with the number of
      reviews still allowed, or the note that a review needs a received
      order. */
  datatype ReviewSection = Hidden | WriteReviewLink(remaining: int) | OnlyAfterReceipt

  function ReviewSectionFor(canReview: int): (s: ReviewSection)
    ensures s.WriteReviewLink? <==> canReview > 0
    ensures s.WriteReviewLink? ==> s.remaining == canReview
    ensures !s.Hidden?
  {
    if canReview > 0 then WriteReviewLink(canReview) else OnlyAfterReceipt
  }

  /** With the count the product endpoint computes, the link is shown exactly
      to a signed-in user who has received more of the product than they have
      reviewed. */
  lemma LinkShownIffReviewable(orders: seq<Models.Order>, reviews: seq<Models.Review>,
                               user: Option<Models.UserId>, product: Models.ProductId)
    ensures var n := Serializers.CanReview(orders, reviews, user, product);
            ReviewSectionFor(n).WriteReviewLink?
            <==> user.Some? && Models.ReviewCount(reviews, user.value, product)
                               < Models.ReceivedItemCount(orders, user.value, product)
  {
  }

  /** The state of the product page's review handlers. */
  class ReviewPager {
    var allReviews: seq<Review>
    var currentReviewPage: int
    var view: ReviewsView
    var section: ReviewSection

    /** The page is at least 1, and a drawn page lies within the count. */
    predicate Valid()
      reads this
    {
      currentReviewPage >= 1
      && (view.ReviewsPage? ==> allReviews != [] && currentReviewPage <= TotalPages(|allReviews|))
    }

    constructor ()
      ensures Valid()
      ensures allReviews == [] && currentReviewPage == 1 && view == NotRendered && section == Hidden
    {
      allReviews := [];
      currentReviewPage := 1;
      view := NotRendered;
      section := Hidden;
    }

    /** `renderReviewsPage`: with no reviews the note is shown and the
        pagination removed; otherwise the page is clamped and becomes the
        current one, and its reviews and buttons are drawn. */
    method RenderReviewsPage(page: int)
      requires currentReviewPage >= 1
      modifies this
      ensures Valid()
      ensures allReviews == old(allReviews) && section == old(section)
      ensures old(allReviews) == [] ==> view == NoReviews && currentReviewPage == old(currentReviewPage)
      ensures old(allReviews) != [] ==>
                var total := TotalPages(|allReviews|);
                currentReviewPage == Clamp(page, total)
                && view == ReviewsPage(PageReviews(allReviews, currentReviewPage),
                                       PaginationButtons(currentReviewPage, total))
    {
      if allReviews == [] {
        view := NoReviews;
        return;
      }
      var total := TotalPages(|allReviews|);
      var p := page;
      if p < 1 {
        p := 1;
      }
      if p > total {
        p := total;
      }
      currentReviewPage := p;
      view := ReviewsPage(PageReviews(allReviews, p), PaginationButtons(p, total));
    }

    /** A click on a page button asking for `target`: pages outside the count
        are ignored. */
    method ClickPage(target: int)
      requires Valid()
      requires view.ReviewsPage?
      modifies this
      ensures Valid()
      ensures allReviews == old(allReviews) && section == old(section)
      ensures !(1 <= target <= TotalPages(|allReviews|)) ==>
                currentReviewPage == old(currentReviewPage) && view == old(view)
      ensures 1 <= target <= TotalPages(|allReviews|) ==>
                currentReviewPage == target
                && view == ReviewsPage(PageReviews(allReviews, target),
                                       PaginationButtons(target, TotalPages(|allReviews|)))
    {
      if 1 <= target <= TotalPages(|allReviews|) {
        RenderReviewsPage(target);
      }
    }

    /** The product is loaded: its reviews, newest first, replace the list,
        the current page is drawn again, and the review section is set. */
    method LoadProduct(reviews: seq<Review>, canReview: int)
      requires Valid()
      modifies this
      ensures Valid()
      ensures allReviews == SortNewestFirst(reviews)
      ensures NewestFirst(allReviews) && multiset(allReviews) == multiset(reviews)
      ensures section == ReviewSectionFor(canReview)
      ensures reviews == [] ==> view == NoReviews && currentReviewPage == old(currentReviewPage)
      ensures reviews != [] ==>
                currentReviewPage == Clamp(old(currentReviewPage), TotalPages(|reviews|))
                && view == ReviewsPage(PageReviews(allReviews, currentReviewPage),
                                       PaginationButtons(currentReviewPage, TotalPages(|reviews|)))
    {
      SortNewestFirstSpec(reviews);
      allReviews := SortNewestFirst(reviews);
      RenderReviewsPage(currentReviewPage);
      section := ReviewSectionFor(canReview);
    }
  }
}
