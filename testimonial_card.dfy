/**
 * The testimonial card: the rating stars (the rating key read with `parseInt`), the client's
 * subtitle built from title and company, and the client photo.
 */
module TestimonialCard {
  import opened Outcomes
  import opened Js
  import opened Types
  import opened Stars

  /** `renderStars(ratingValue)`: `parseInt(ratingValue || '0')`, then five slots. */
  function RenderStars(ratingValue: Option<string>): seq<bool> {
    StarSlots(ParseInt(OrElse(ratingValue, "0")))
  }

  /**
   * Five slots; a key that is a number's text fills that many clamped to `[0, 5]`, a missing
   * or empty key fills none, a key with no leading number fills none, and never more than five.
   */
  lemma RenderStarsSpec(ratingValue: Option<string>, n: int)
    ensures |RenderStars(ratingValue)| == 5
    ensures FilledCount(RenderStars(ratingValue)) <= 5
    ensures !Truthy(ratingValue) ==> FilledCount(RenderStars(ratingValue)) == 0
    ensures ratingValue == Some(NumberToString(n)) ==> FilledCount(RenderStars(ratingValue)) == Clamp(n, 0, 5)
    ensures Truthy(ratingValue) && ParseInt(ratingValue.value).NaN? ==> FilledCount(RenderStars(ratingValue)) == 0
  {
    StarsFilled(ParseInt(OrElse(ratingValue, "0")));
    ParseNumberToString(n);
    ParseNumberToString(0);
    assert NumberToString(0) == "0";
  }

  /** The rating literals "1" to "5" are the texts of the numbers 1 to 5. */
  lemma RatingLiterals()
    ensures TestimonialRatings == set n | 1 <= n <= 5 :: NumberToString(n)
  {
    assert NumberToString(1) == "1" && NumberToString(2) == "2" && NumberToString(3) == "3";
    assert NumberToString(4) == "4" && NumberToString(5) == "5";
    var s := set n | 1 <= n <= 5 :: NumberToString(n);
    forall x | x in s ensures x in TestimonialRatings {
      var n :| 1 <= n <= 5 && x == NumberToString(n);
      assert n == 1 || n == 2 || n == 3 || n == 4 || n == 5;
    }
  }

  /** For each rating literal, the number of filled stars is the rating. */
  lemma RatingFillsItsValue(n: int)
    requires 1 <= n <= 5
    ensures NumberToString(n) in TestimonialRatings
    ensures FilledCount(RenderStars(Some(NumberToString(n)))) == n
  {
    RatingLiterals();
    RenderStarsSpec(Some(NumberToString(n)), n);
  }

  /** The subtitle: "T at C" with both, else whichever of the two is set, else nothing. */
  function Subtitle(title: Option<string>, company: Option<string>): Option<string> {
    if Truthy(title) && Truthy(company) then Some(title.value + " at " + company.value)
    else if Truthy(title) then Some(title.value)
    else if Truthy(company) then Some(company.value)
    else None
  }

  /**
   * The subtitle exists when either part is set; alone, a part is the whole subtitle; together,
   * it is exactly the title, " at ", and the company.
   */
  lemma SubtitleSpec(title: Option<string>, company: Option<string>)
    ensures Subtitle(title, company).None? <==> !Truthy(title) && !Truthy(company)
    ensures Truthy(title) ==> StartsWith(Subtitle(title, company).value, title.value)
    ensures Truthy(company) ==> EndsWith(Subtitle(title, company).value, company.value)
    ensures Truthy(title) && Truthy(company) ==>
      Subtitle(title, company).value[|title.value|..|title.value| + 4] == " at "
    ensures Truthy(title) && Truthy(company) ==>
      |Subtitle(title, company).value| == |title.value| + 4 + |company.value|
    ensures Truthy(title) && !Truthy(company) ==> Subtitle(title, company) == Some(title.value)
    ensures !Truthy(title) && Truthy(company) ==> Subtitle(title, company) == Some(company.value)
  {
    if Truthy(title) && Truthy(company) {
      var r := Subtitle(title, company).value;
      SuffixEndsWith(title.value + " at ", company.value);
      SuffixEndsWith(title.value, " at " + company.value);
      assert r == title.value + (" at " + company.value);
    } else if Truthy(title) {
      SuffixEndsWith(title.value, []);
    } else if Truthy(company) {
      SuffixEndsWith([], company.value);
    }
  }

  const PhotoWidth := 48
  const PhotoHeight := 48

  /** What the card shows besides the quoted text. */
  datatype TestimonialCardView = TestimonialCardView(
    stars: Option<seq<bool>>,
    clientName: Option<string>,
    subtitle: Option<string>,
    photoUrl: Option<string>)

  function RenderTestimonialCard(t: Testimonial): TestimonialCardView {
    var m := t.metadata;
    TestimonialCardView(
      if m.rating.Some? then Some(RenderStars(Some(m.rating.value.key))) else None,
      m.clientName,
      Subtitle(m.clientTitle, m.company),
      if m.clientPhoto.Some? then Some(ResizedUrl(m.clientPhoto.value, PhotoWidth, PhotoHeight)) else None)
  }

  /** Stars appear exactly when a rating is set, and count its key, not its label. */
  lemma TestimonialCardStars(t: Testimonial, n: int)
    requires 1 <= n <= 5
    ensures RenderTestimonialCard(t).stars.Some? <==> t.metadata.rating.Some?
    ensures t.metadata.rating.Some? && t.metadata.rating.value.key == NumberToString(n) ==>
      FilledCount(RenderTestimonialCard(t).stars.value) == n
  {
    if t.metadata.rating.Some? && t.metadata.rating.value.key == NumberToString(n) {
      RatingFillsItsValue(n);
    }
  }
}
