/** The pure parts of the server-rendered views: the role predicates used by
    `user_passes_test`, and the review counters of the product page. */
module PetshopViews {
  import opened Wrappers
  import opened Models
  import Serializers

  const AdminRole := "Администратор"
  const CustomerRole := "Покупатель"

  /** The request user as the role checks see it; `role` is a non-null
      foreign key defaulting to the first role, so every account has one. */
  datatype RequestUser = Anonymous | Account(id: UserId, roleName: string)

  predicate IsAuthenticated(u: RequestUser) {
    u.Account?
  }

  /** `admin_required`. */
  function AdminRequired(u: RequestUser): (ok: bool)
    ensures ok <==> u.Account? && u.roleName == AdminRole
  {
    IsAuthenticated(u) && u.roleName == AdminRole
  }

  /** `customer_required`. */
  function CustomerRequired(u: RequestUser): (ok: bool)
    ensures ok <==> u.Account? && u.roleName == CustomerRole
  {
    IsAuthenticated(u) && u.roleName == CustomerRole
  }

  /** No user passes both role checks. */
  lemma RolesExclusive(u: RequestUser)
    ensures !(AdminRequired(u) && CustomerRequired(u))
  {
    assert AdminRole[0] != CustomerRole[0];
  }

  /** The user id the counting queries filter on, none for anonymous users. */
  function UserOf(u: RequestUser): (r: Option<UserId>)
    ensures r.Some? <==> u.Account?
    ensures r.Some? ==> r.value == u.id
  {
    if u.Account? then Some(u.id) else None
  }

  /** The context values `can_review` and `remaining_reviews` of
      `product_detail`; both counts are zero for anonymous users, and the
      difference is not clamped. */
  datatype ReviewCounters = ReviewCounters(canReview: bool, remaining: int)

  function ProductPageCounters(orders: seq<Order>, reviews: seq<Review>, u: RequestUser, product: ProductId): (c: ReviewCounters)
    ensures u.Anonymous? ==> c == ReviewCounters(false, 0)
    ensures u.Account? ==> c.remaining == ReceivedItemCount(orders, u.id, product) - ReviewCount(reviews, u.id, product)
    ensures c.canReview <==> c.remaining > 0
  {
    var received := if IsAuthenticated(u) then ReceivedItemCount(orders, u.id, product) else 0;
    var written := if IsAuthenticated(u) then ReviewCount(reviews, u.id, product) else 0;
    ReviewCounters(received > written, received - written)
  }

  /** The page and the API agree: `get_can_review` is the page's remaining
      count clamped at zero, and it is positive exactly when the page offers
      a review. */
  lemma PageAgreesWithApi(orders: seq<Order>, reviews: seq<Review>, u: RequestUser, product: ProductId)
    ensures var c := ProductPageCounters(orders, reviews, u, product);
            Serializers.CanReview(orders, reviews, UserOf(u), product) == (if c.remaining > 0 then c.remaining else 0)
            && (c.canReview <==> Serializers.CanReview(orders, reviews, UserOf(u), product) > 0)
  {
  }
}
