/** The package card: cover image, featured ribbon and seat-availability badge. */
module PackageCard {
  import opened Options
  import opened Strings
  import opened Types

  const DefaultImage: string :=
    "https://images.unsplash.com/photo-1469854523086-cc02fe5d8800?w=800&h=600&fit=crop"

  /** The badges that can sit in the card's top-right corner. */
  datatype SeatBadge = OnlyLeft(seats: int) | SoldOut

  /** The text each availability badge shows. */
  function BadgeText(b: SeatBadge): string {
    match b
    case OnlyLeft(n) => "Only " + IntToDecimal(n) + " seats left!"
    case SoldOut => "Sold Out"
  }

  /**
   * The availability badges rendered, in document order: the low-seats badge when
   * 0 < seats <= 3, then the sold-out badge when seats == 0.
   */
  function SeatBadges(seats: int): (badges: seq<SeatBadge>)
    ensures |badges| <= 1
    ensures OnlyLeft(seats) in badges <==> 1 <= seats <= 3
    ensures SoldOut in badges <==> seats == 0
    ensures badges == [] <==> seats > 3 || seats < 0
    ensures forall b :: b in badges ==> b == OnlyLeft(seats) || b == SoldOut
  {
    (if seats <= 3 && seats > 0 then [OnlyLeft(seats)] else [])
    + (if seats == 0 then [SoldOut] else [])
  }

  /** `image_url || defaultImage`: a missing or empty URL falls back to the default. */
  function ImageSource(imageUrl: Option<string>): (src: string)
    ensures src != ""
    ensures imageUrl.Some? && imageUrl.value != "" ==> src == imageUrl.value
    ensures imageUrl.None? || imageUrl.value == "" ==> src == DefaultImage
  {
    match imageUrl
    case Some(url) => if url != "" then url else DefaultImage
    case None => DefaultImage
  }

  /** What a card shows besides the package's own text. */
  datatype CardView = CardView(
    href: string, imageSrc: string, featuredRibbon: bool, seatBadges: seq<SeatBadge>, badgeTexts: seq<string>)

  function Card(pkg: TourPackage): (v: CardView)
    ensures v.href == "/packages/" + pkg.slug
    ensures v.featuredRibbon <==> pkg.featured
    ensures v.imageSrc == ImageSource(pkg.imageUrl)
    ensures v.seatBadges == SeatBadges(pkg.seatsAvailable)
    ensures |v.badgeTexts| == |v.seatBadges|
    ensures forall i :: 0 <= i < |v.badgeTexts| ==> v.badgeTexts[i] == BadgeText(v.seatBadges[i])
  {
    var badges := SeatBadges(pkg.seatsAvailable);
    CardView("/packages/" + pkg.slug, ImageSource(pkg.imageUrl), pkg.featured, badges,
             seq(|badges|, i requires 0 <= i < |badges| => BadgeText(badges[i])))
  }

  /** A low-seats badge names its count as one digit; a sold-out card says so. */
  lemma BadgeTexts(seats: int)
    ensures 1 <= seats <= 3 ==>
              BadgeText(OnlyLeft(seats)) == "Only " + [DigitChar(seats)] + " seats left!"
    ensures BadgeText(SoldOut) == "Sold Out"
  {
  }

  /** The low-seats badge and the sold-out badge are never shown together. */
  lemma BadgesExclusive(seats: int)
    ensures !(OnlyLeft(seats) in SeatBadges(seats) && SoldOut in SeatBadges(seats))
  {
  }
}
