/** The schema.org LocalBusiness description of the studio, built from the business
    configuration. The configuration is a parameter (its file is not part of this model); the
    record's `@type` fields are given as strings. */
module JsonLd {
  import opened Common

  datatype Address = Address(streetAddress: string, city: string, region: string, postalCode: string,
                             countryCode: string)
  datatype Geo = Geo(latitude: real, longitude: real)
  datatype OpeningHours = OpeningHours(days: seq<string>, opens: string, closes: string)
  datatype Social = Social(instagram: Option<string>, facebook: Option<string>, youtube: Option<string>,
                           twitter: Option<string>, linkedin: Option<string>)
  datatype Seo = Seo(ogImageUrl: Option<string>, defaultDescription: string, siteUrl: string)

  datatype BusinessConfig = BusinessConfig(
    name: string, phone: string, address: Address, geo: Geo, openingHours: seq<OpeningHours>,
    social: Social, seo: Seo, priceRange: string, currenciesAccepted: string)

  datatype PostalAddress = PostalAddress(atType: string, streetAddress: string, addressLocality: string,
                                         addressRegion: string, postalCode: string, addressCountry: string)
  datatype GeoCoordinates = GeoCoordinates(atType: string, latitude: real, longitude: real)
  datatype OpeningHoursSpecification = OpeningHoursSpecification(atType: string, dayOfWeek: seq<string>,
                                                                 opens: string, closes: string)

  datatype LocalBusiness = LocalBusiness(
    atContext: string, atType: string, name: string, image: Option<string>, description: string,
    telephone: string, url: string, address: PostalAddress, geo: GeoCoordinates,
    openingHoursSpecification: seq<OpeningHoursSpecification>, priceRange: string,
    currenciesAccepted: string, sameAs: Option<seq<string>>)

  const SchemaContext := "https://schema.org"

  /** One entry of the opening hours, days and times copied. */
  function HoursEntry(spec: OpeningHours): (e: OpeningHoursSpecification)
    ensures e.atType == "OpeningHoursSpecification"
    ensures e.dayOfWeek == spec.days && e.opens == spec.opens && e.closes == spec.closes
  {
    OpeningHoursSpecification("OpeningHoursSpecification", spec.days, spec.opens, spec.closes)
  }

  /** `openingHours.map(...)`: one entry per configured period, in the same order. */
  function MapHours(hours: seq<OpeningHours>): (r: seq<OpeningHoursSpecification>)
    ensures |r| == |hours|
    ensures forall i :: 0 <= i < |hours| ==> r[i] == HoursEntry(hours[i])
  {
    if hours == [] then [] else [HoursEntry(hours[0])] + MapHours(hours[1..])
  }

  /** A link is kept when it is a non-empty string. */
  function Qualifying(link: Option<string>): (r: seq<string>)
    ensures r == [] <==> !Truthy(link)
    ensures Truthy(link) ==> r == [link.value]
  {
    if link.Some? && link.value != "" then [link.value] else []
  }

  /** The `filter` over the candidate links, order kept. */
  function Filter(links: seq<Option<string>>): (r: seq<string>)
    ensures |r| <= |links|
  {
    if links == [] then [] else Qualifying(links[0]) + Filter(links[1..])
  }

  /** The filter keeps exactly the defined, non-empty links. */
  lemma {:induction false} FilterKeepsExactly(links: seq<Option<string>>, u: string)
    ensures u in Filter(links) <==> Some(u) in links && u != ""
  {
    if links != [] {
      FilterKeepsExactly(links[1..], u);
      assert links == [links[0]] + links[1..];
    }
  }

  /** The filter of a concatenation is the concatenation of the filters. */
  lemma {:induction false} FilterAppend(a: seq<Option<string>>, b: seq<Option<string>>)
    ensures Filter(a + b) == Filter(a) + Filter(b)
  {
    if a == [] {
      assert a + b == b;
    } else {
      assert (a + b)[0] == a[0];
      assert (a + b)[1..] == a[1..] + b;
      FilterAppend(a[1..], b);
    }
  }

  /** The candidate social links, in their fixed order. */
  function SocialLinks(social: Social): seq<Option<string>>
  {
    [social.instagram, social.facebook, social.youtube, social.twitter, social.linkedin]
  }

  /** The kept links are exactly the non-empty ones, in the order instagram, facebook,
      youtube, twitter, linkedin. */
  lemma SameAsInOrder(social: Social)
    ensures Filter(SocialLinks(social)) ==
            Qualifying(social.instagram) + Qualifying(social.facebook) + Qualifying(social.youtube) +
            Qualifying(social.twitter) + Qualifying(social.linkedin)
  {
    var l1 := [social.facebook, social.youtube, social.twitter, social.linkedin];
    var l2 := [social.youtube, social.twitter, social.linkedin];
    var l3 := [social.twitter, social.linkedin];
    var l4 := [social.linkedin];
    assert SocialLinks(social)[1..] == l1 && l1[1..] == l2 && l2[1..] == l3 && l3[1..] == l4 && l4[1..] == [];
    assert Filter(l4) == Qualifying(social.linkedin) + Filter([]);
    assert Filter(l3) == Qualifying(social.twitter) + Filter(l4);
    assert Filter(l2) == Qualifying(social.youtube) + Filter(l3);
    assert Filter(l1) == Qualifying(social.facebook) + Filter(l2);
    assert Filter(SocialLinks(social)) == Qualifying(social.instagram) + Filter(l1);
  }

  /** No link is kept exactly when none of the five is a non-empty string. */
  lemma NoSameAsIff(social: Social)
    ensures Filter(SocialLinks(social)) == [] <==>
              !Truthy(social.instagram) && !Truthy(social.facebook) && !Truthy(social.youtube) &&
              !Truthy(social.twitter) && !Truthy(social.linkedin)
  {
    SameAsInOrder(social);
    var q := [Qualifying(social.instagram), Qualifying(social.facebook), Qualifying(social.youtube),
              Qualifying(social.twitter), Qualifying(social.linkedin)];
    assert |Filter(SocialLinks(social))| == |q[0]| + |q[1]| + |q[2]| + |q[3]| + |q[4]|;
  }

  /** `getLocalBusinessJsonLd`. */
  function Build(config: BusinessConfig): (j: LocalBusiness)
    ensures j.atContext == SchemaContext && j.atType == "LocalBusiness"
    ensures j.name == config.name && j.telephone == config.phone && j.url == config.seo.siteUrl
    ensures j.image == config.seo.ogImageUrl && j.description == config.seo.defaultDescription
    ensures j.address == PostalAddress("PostalAddress", config.address.streetAddress, config.address.city,
                                       config.address.region, config.address.postalCode, config.address.countryCode)
    ensures j.geo == GeoCoordinates("GeoCoordinates", config.geo.latitude, config.geo.longitude)
    ensures |j.openingHoursSpecification| == |config.openingHours|
    ensures forall i :: 0 <= i < |config.openingHours| ==>
              j.openingHoursSpecification[i].dayOfWeek == config.openingHours[i].days &&
              j.openingHoursSpecification[i].opens == config.openingHours[i].opens &&
              j.openingHoursSpecification[i].closes == config.openingHours[i].closes
    ensures j.sameAs.None? <==> !Truthy(config.social.instagram) && !Truthy(config.social.facebook) &&
                                !Truthy(config.social.youtube) && !Truthy(config.social.twitter) &&
                                !Truthy(config.social.linkedin)
    ensures j.sameAs.Some? ==> j.sameAs.value == Filter(SocialLinks(config.social)) && j.sameAs.value != []
    ensures j.priceRange == config.priceRange && j.currenciesAccepted == config.currenciesAccepted
  {
    var sameAs := Filter(SocialLinks(config.social));
    NoSameAsIff(config.social);
    var a := config.address;
    LocalBusiness(
      SchemaContext, "LocalBusiness", config.name, config.seo.ogImageUrl, config.seo.defaultDescription,
      config.phone, config.seo.siteUrl,
      PostalAddress("PostalAddress", a.streetAddress, a.city, a.region, a.postalCode, a.countryCode),
      GeoCoordinates("GeoCoordinates", config.geo.latitude, config.geo.longitude),
      MapHours(config.openingHours), config.priceRange, config.currenciesAccepted,
      if |sameAs| > 0 then Some(sameAs) else None)
  }
}
