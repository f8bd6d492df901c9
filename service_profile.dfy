/** The service page (`ServiceProfile`): the service card with its display
    fallbacks, the five-star selector and its highlight rule, the review list
    with its star-fill rule, and the review submission that is blocked until a
    rating is picked and that replaces the list by a fresh fetch. */
module ServiceView {
  import opened Common

  /** Both star rows have five stars. */
  const StarCount: nat := 5

  const MsgPickRating := "Please select a rating!"
  const NoDescription := "No description provided"
  const NoProviderName := "N/A"
  const NotProvided := "Not provided"
  const FlexibleHours := "Flexible hours"
  const Anonymous := "Anonymous"
  const NoComment := "No comment provided"

  datatype Reviewer = Reviewer(name: Option<string>)
  datatype Review = Review(rating: int, comment: Option<string>, user: Option<Reviewer>)

  datatype Provider = Provider(name: Option<string>, email: Option<string>, phone: Option<string>)
  datatype Hours = Hours(start: Option<string>, end: string)
  datatype Service = Service(serviceName: string, description: Option<string>, provider: Option<Provider>,
                             workingHours: Option<Hours>, totalReviews: Option<nat>)

  /** Number of filled stars in a row. */
  function CountTrue(s: seq<bool>): nat
  {
    if s == [] then 0 else (if s[0] then 1 else 0) + CountTrue(s[1..])
  }

  /** A row whose first `n` stars are filled and the rest empty has `n`
      filled stars. */
  lemma {:induction false} CountTrueOfPrefix(s: seq<bool>, n: int)
    requires 0 <= n <= |s|
    requires forall i :: 0 <= i < |s| ==> (s[i] <==> i < n)
    ensures CountTrue(s) == n
  {
    if s != [] {
      assert forall i :: 1 <= i < |s| ==> s[1..][i - 1] == s[i];
      CountTrueOfPrefix(s[1..], if n == 0 then 0 else n - 1);
    }
  }

  /** `x` brought into 0..5. */
  function ClampStars(x: int): nat
  {
    if x < 0 then 0 else if x > StarCount then StarCount else x
  }

  /** `hover || rating`: the value the selector shows. */
  function Shown(hover: Option<int>, rating: int): int
  {
    if hover.Some? && hover.value != 0 then hover.value else rating
  }

  /** The selector row: star `i` (0-based, so it sets rating `i + 1`) is
      highlighted iff `i + 1 <= (hover || rating)`. While the pointer is over
      a star the row follows the hover, otherwise the chosen rating; the
      number of highlighted stars is that value. */
  function SelectorStars(hover: Option<int>, rating: int): (s: seq<bool>)
    ensures |s| == StarCount
    ensures hover.Some? && hover.value != 0 ==>
      forall i :: 0 <= i < StarCount ==> (s[i] <==> i + 1 <= hover.value)
    ensures hover.None? ==> forall i :: 0 <= i < StarCount ==> (s[i] <==> i + 1 <= rating)
    ensures CountTrue(s) == ClampStars(Shown(hover, rating))
  {
    var s := seq(StarCount, i => i + 1 <= Shown(hover, rating));
    CountTrueOfPrefix(s, ClampStars(Shown(hover, rating)));
    s
  }

  /** The stars of a displayed review: star `i` (0-based) is filled iff
      `i < rating`, so a rating in 0..5 shows exactly that many filled stars. */
  function ReviewStars(rating: int): (s: seq<bool>)
    ensures |s| == StarCount
    ensures forall i :: 0 <= i < StarCount ==> (s[i] <==> i < rating)
    ensures CountTrue(s) == ClampStars(rating)
    ensures 0 <= rating <= StarCount ==> CountTrue(s) == rating
  {
    var s := seq(StarCount, i => i < rating);
    CountTrueOfPrefix(s, ClampStars(rating));
    s
  }

  /** The hours line of the service card. */
  function HoursText(h: Option<Hours>): (t: string)
    ensures h.Some? && Present(h.value.start) ==> t == h.value.start.value + " - " + h.value.end
    ensures !(h.Some? && Present(h.value.start)) ==> t == FlexibleHours
    ensures t != ""
  {
    if h.Some? && Present(h.value.start) then h.value.start.value + " - " + h.value.end
    else FlexibleHours
  }

  /** The texts of the service card. */
  datatype ServiceCard = ServiceCard(title: string, description: string, providerName: string,
                                     providerEmail: string, providerPhone: string, hours: string,
                                     reviewCount: nat)

  /** `service.provider?.x` reads every field of a missing provider as
      missing. */
  function ProviderOrBlank(p: Option<Provider>): (r: Provider)
    ensures p.Some? ==> r == p.value
    ensures p.None? ==> r.name.None? && r.email.None? && r.phone.None?
  {
    if p.Some? then p.value else Provider(None, None, None)
  }

  /** Renders a fetched service. Every optional text falls back to a fixed
      placeholder, so no line of the card is ever blank, and a present value
      is shown as it is. */
  function CardOf(s: Service): (c: ServiceCard)
    ensures c.title == s.serviceName
    ensures c.description != "" && c.providerName != "" && c.providerEmail != ""
    ensures c.providerPhone != "" && c.hours != ""
    ensures Present(s.description) ==> c.description == s.description.value
    ensures !Present(s.description) ==> c.description == NoDescription
    ensures var p := ProviderOrBlank(s.provider);
      && c.providerName == OrElse(p.name, NoProviderName)
      && c.providerEmail == OrElse(p.email, NotProvided)
      && c.providerPhone == OrElse(p.phone, NotProvided)
    ensures s.provider.None? ==> c.providerName == NoProviderName && c.providerEmail == NotProvided
                                 && c.providerPhone == NotProvided
    ensures c.hours == HoursText(s.workingHours)
    ensures s.totalReviews.Some? ==> c.reviewCount == s.totalReviews.value
    ensures s.totalReviews.None? ==> c.reviewCount == 0
  {
    var p := ProviderOrBlank(s.provider);
    ServiceCard(
      s.serviceName,
      OrElse(s.description, NoDescription),
      OrElse(p.name, NoProviderName),
      OrElse(p.email, NotProvided),
      OrElse(p.phone, NotProvided),
      HoursText(s.workingHours),
      if s.totalReviews.Some? then s.totalReviews.value else 0)
  }

  /** One rendered review. */
  datatype ReviewEntry = ReviewEntry(stars: seq<bool>, author: string, text: string)

  /** Renders a review: its stars, the reviewer's name or "Anonymous", the
      comment or "No comment provided". */
  function EntryOf(r: Review): (e: ReviewEntry)
    ensures e.stars == ReviewStars(r.rating)
    ensures e.author != "" && e.text != ""
    ensures r.user.Some? && Present(r.user.value.name) ==> e.author == r.user.value.name.value
    ensures !(r.user.Some? && Present(r.user.value.name)) ==> e.author == Anonymous
    ensures Present(r.comment) ==> e.text == r.comment.value
    ensures !Present(r.comment) ==> e.text == NoComment
  {
    var name := if r.user.Some? then r.user.value.name else None;
    ReviewEntry(ReviewStars(r.rating), OrElse(name, Anonymous), OrElse(r.comment, NoComment))
  }

  /** The reviews panel: the "No reviews yet" text or one entry per review. */
  datatype ReviewsPanel = NoReviewsYet | Entries(entries: seq<ReviewEntry>)

  function PanelOf(rs: seq<Review>): (v: ReviewsPanel)
    ensures v.NoReviewsYet? <==> rs == []
    ensures v.Entries? ==> |v.entries| == |rs| && forall i :: 0 <= i < |rs| ==> v.entries[i] == EntryOf(rs[i])
  {
    if |rs| > 0 then Entries(seq(|rs|, i requires 0 <= i < |rs| => EntryOf(rs[i]))) else NoReviewsYet
  }

  /** The body of the POST to `/reviews/add/<serviceId>`. */
  datatype ReviewPost = ReviewPost(rating: int, comment: string)

  /** The page's state. `service` is `None` while the page shows its loading
      text. */
  class ServiceProfile {
    var service: Option<Service>
    var reviews: seq<Review>
    var rating: int
    var hover: Option<int>
    var comment: string

    /** The selector can only ever set a rating in 1..5 (0 meaning none) and
        hover over a star in 1..5. */
    ghost predicate Valid()
      reads this
    {
      && 0 <= rating <= StarCount
      && (hover.Some? ==> 1 <= hover.value <= StarCount)
    }

    constructor ()
      ensures Valid()
      ensures service.None? && reviews == [] && rating == 0 && hover.None? && comment == ""
    {
      service := None;
      reviews := [];
      rating := 0;
      hover := None;
      comment := "";
    }

    /** `fetchService` once the GET settles; a failure is only logged. */
    method LoadService(fetched: Outcome<Service>)
      modifies this`service
      ensures fetched.Ok? ==> service == Some(fetched.data)
      ensures fetched.Err? ==> service == old(service)
    {
      if fetched.Ok? {
        service := Some(fetched.data);
      }
    }

    /** `fetchReviews` once the GET settles; a failure is only logged. */
    method LoadReviews(fetched: Outcome<seq<Review>>)
      modifies this`reviews
      ensures fetched.Ok? ==> reviews == fetched.data
      ensures fetched.Err? ==> reviews == old(reviews)
    {
      if fetched.Ok? {
        reviews := fetched.data;
      }
    }

    /** A click on selector star `k`. */
    method ClickStar(k: int)
      requires Valid() && 1 <= k <= StarCount
      modifies this`rating
      ensures Valid() && rating == k
    {
      rating := k;
    }

    /** The pointer enters selector star `k`. */
    method EnterStar(k: int)
      requires Valid() && 1 <= k <= StarCount
      modifies this`hover
      ensures Valid() && hover == Some(k)
    {
      hover := Some(k);
    }

    /** The pointer leaves a selector star. */
    method LeaveStar()
      requires Valid()
      modifies this`hover
      ensures Valid() && hover.None?
    {
      hover := None;
    }

    /** The comment box's `onChange`. */
    method EditComment(text: string)
      modifies this`comment
      ensures comment == text
    {
      comment := text;
    }

    /** `submitReview`. With no rating chosen it only alerts "Please select
        a rating!". Otherwise it posts the rating and comment; on success it resets rating, comment
        and hover and then REPLACES the review list by the re-fetched one (a
        failed re-fetch keeps the old list); on failure nothing changes. */
    method SubmitReview(posted: Outcome<()>, refetched: Outcome<seq<Review>>)
      returns (post: Option<ReviewPost>, alert: Option<string>)
      requires Valid()
      modifies this`rating, this`hover, this`comment, this`reviews
      ensures Valid()
      ensures old(rating) == 0 ==>
        && post.None? && alert == Some(MsgPickRating)
        && rating == old(rating) && hover == old(hover) && comment == old(comment) && reviews == old(reviews)
      ensures old(rating) != 0 ==> alert.None? && post == Some(ReviewPost(old(rating), old(comment)))
      ensures old(rating) != 0 && posted.Ok? ==>
        && rating == 0 && comment == "" && hover.None?
        && reviews == (if refetched.Ok? then refetched.data else old(reviews))
      ensures old(rating) != 0 && posted.Err? ==>
        rating == old(rating) && hover == old(hover) && comment == old(comment) && reviews == old(reviews)
    {
      if rating == 0 {
        return None, Some(MsgPickRating);
      }
      post, alert := Some(ReviewPost(rating, comment)), None;
      if posted.Ok? {
        comment := "";
        rating := 0;
        hover := None;
        if refetched.Ok? {
          reviews := refetched.data;
        }
      }
    }
  }
}
