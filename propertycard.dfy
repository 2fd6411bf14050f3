/** The property tile (`src/components/renttrack/PropertyCard.tsx`): which
    image it shows, how many amenity badges, and its labels. */
module PropertyCard {
  import opened Wrappers
  import opened Strings
  import opened Js

  const BackendUrl := "http://localhost:8080/api"
  const PlaceholderImage := "https://via.placeholder.com/600x400"
  const Placeholder := PlaceholderImage + "?text=No+Image"

  /** `imageUrl`: the first image, as given when it starts with "http" and
      behind the backend address otherwise; the placeholder when there is none. */
  function ImageUrl(images: Option<seq<string>>): (url: string)
    ensures (images.None? || images.value == []) ==> url == Placeholder
    ensures images.Some? && images.value != [] && StartsWith(images.value[0], "http") ==> url == images.value[0]
    ensures images.Some? && images.value != [] && !StartsWith(images.value[0], "http") ==>
              url == BackendUrl + images.value[0]
  {
    if images.Some? && |images.value| > 0 then
      if StartsWith(images.value[0], "http") then images.value[0] else BackendUrl + images.value[0]
    else Placeholder
  }

  /** Only the first image counts. */
  lemma FirstImageOnly(first: string, rest: seq<string>)
    ensures ImageUrl(Some([first] + rest)) == ImageUrl(Some([first]))
  {
  }

  lemma PrefixKept(a: string, b: string, prefix: string)
    requires StartsWith(a, prefix)
    ensures StartsWith(a + b, prefix)
  {
    assert (a + b)[..|prefix|] == a[..|prefix|];
  }

  lemma BackendAbsolute()
    ensures StartsWith(BackendUrl, "http")
  {
    assert BackendUrl[..4] == "http";
  }

  lemma PlaceholderAbsolute()
    ensures StartsWith(Placeholder, "http")
  {
    assert PlaceholderImage[..4] == "http";
    PrefixKept(PlaceholderImage, "?text=No+Image", "http");
  }

  /** Every address the tile can show starts with "http". */
  lemma ImageUrlAbsolute(images: Option<seq<string>>)
    ensures StartsWith(ImageUrl(images), "http")
  {
    BackendAbsolute();
    PlaceholderAbsolute();
    if images.Some? && images.value != [] {
      PrefixKept(BackendUrl, images.value[0], "http");
    }
  }

  /** So an address the tile shows, given back as the only image, is shown unchanged. */
  lemma ImageUrlIdempotent(images: Option<seq<string>>)
    ensures ImageUrl(Some([ImageUrl(images)])) == ImageUrl(images)
  {
    ImageUrlAbsolute(images);
  }

  /** The amenity block: the badges shown and the count on the "+n" badge. */
  datatype Badges = Badges(shown: seq<string>, more: Option<nat>)

  /** Absent or empty amenities show no block; otherwise the first three are
      shown and a "+n" badge counts the rest when there are more. */
  function AmenityBadges(amenities: Option<seq<string>>): (b: Option<Badges>)
    ensures b.None? <==> amenities.None? || amenities.value == []
    ensures b.Some? ==> |b.value.shown| <= 3 && b.value.shown <= amenities.value
    ensures b.Some? ==> (b.value.more.Some? <==> |amenities.value| > 3)
    ensures b.Some? ==> |b.value.shown| + b.value.more.GetOr(0) == |amenities.value|
    ensures b.Some? && |amenities.value| > 3 ==>
              b.value.shown == amenities.value[..3] && b.value.more == Some(|amenities.value| - 3)
    ensures b.Some? && |amenities.value| <= 3 ==> b.value.shown == amenities.value && b.value.more == None
  {
    if amenities.None? || |amenities.value| == 0 then None
    else
      var a := amenities.value;
      if |a| > 3 then Some(Badges(a[..3], Some(|a| - 3))) else Some(Badges(a, None))
  }

  /** The text of the extra badge, `+{amenities.length - 3}`: a plus sign
      and the number of amenities not shown, in decimal. */
  function MoreText(b: Badges): (text: Option<string>)
    ensures text.Some? <==> b.more.Some?
    ensures text.Some? ==> |text.value| > 0 && text.value[0] == '+' && NumberOf(text.value[1..]) == Finite(b.more.value)
  {
    match b.more
    case None => None
    case Some(n) =>
      var t := "+" + IntToString(n);
      assert t[1..] == IntToString(n);
      NumberOfIntToString(n);
      Some(t)
  }

  /** More than three amenities give a "+n" badge that reads as the number
      of amenities left out; one to three give none. */
  lemma MoreTextCountsHidden(amenities: Option<seq<string>>)
    requires amenities.Some? && |amenities.value| > 0
    ensures var t := MoreText(AmenityBadges(amenities).value);
            |amenities.value| > 3 ==> t.Some? && NumberOf(t.value[1..]) == Finite(|amenities.value| - 3)
    ensures |amenities.value| <= 3 ==> MoreText(AmenityBadges(amenities).value).None?
  {
  }

  /** The availability badge. */
  function AvailabilityLabel(available: bool): (text: string)
    ensures text == "Available" <==> available
    ensures text == "Occupied" <==> !available
  {
    if available then "Available" else "Occupied"
  }

  /** `bedrooms ?? 0`: a missing count is shown as 0, a present one as itself. */
  function Bedrooms(bedrooms: Option<int>): (n: int)
    ensures bedrooms.None? ==> n == 0
    ensures bedrooms.Some? ==> n == bedrooms.value
  {
    Coalesce(bedrooms, 0)
  }
}
