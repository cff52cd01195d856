/**
 * The project card: the featured badge, the resized cover image, and the description excerpt
 * `description.replace(/<[^>]*>/g, '').substring(0, 150) + '...'`.
 */
module ProjectCard {
  import opened Outcomes
  import opened Js
  import opened Types

  /**
   * `s.replace(/<[^>]*>/g, '')`: scanning left to right, a '<' that has a '>' somewhere after
   * it starts a match that runs to the first such '>', and the match is removed; any other
   * character is kept.
   */
  function StripTags(s: string): (r: string)
    ensures |r| <= |s|
    ensures forall c :: c in r ==> c in s
    decreases |s|
  {
    if s == [] then []
    else if s[0] == '<' && Includes(s, ">") then
      var close := IndexOf(s, ">").value;
      StripTags(s[close + 1..])
    else [s[0]] + StripTags(s[1..])
  }

  /** No '>' follows a '<': what the pattern `<[^>]*>` would still match. */
  predicate TagFree(s: string) {
    forall i, j :: 0 <= i < j < |s| && s[i] == '<' ==> s[j] != '>'
  }

  /** `includes(">")` is the presence of the character '>'. */
  lemma IncludesClose(s: string)
    ensures Includes(s, ">") <==> '>' in s
  {
    if '>' in s {
      var i :| 0 <= i < |s| && s[i] == '>';
      assert OccursAt(s, ">", i);
    }
    if Includes(s, ">") {
      var i := IndexOf(s, ">").value;
      assert s[i..i + 1] == ">";
      assert s[i] == '>';
    }
  }

  /** After stripping, no tag is left: no '>' occurs after any '<'. */
  lemma {:induction false} StripTagsTagFree(s: string)
    ensures TagFree(StripTags(s))
    decreases |s|
  {
    if s != [] {
      IncludesClose(s);
      if s[0] == '<' && Includes(s, ">") {
        StripTagsTagFree(s[IndexOf(s, ">").value + 1..]);
      } else {
        StripTagsTagFree(s[1..]);
        var r := StripTags(s);
        var rest := StripTags(s[1..]);
        assert r == [s[0]] + rest;
        if s[0] == '<' {
          assert '>' !in s[1..] by {
            forall c | c in s[1..] ensures c in s { }
          }
          assert '>' !in rest;
        }
      }
    }
  }

  /** Text that holds no tag is left as it is; in particular text without '<'. */
  lemma {:induction false} StripTagsUnchanged(s: string)
    requires TagFree(s)
    ensures StripTags(s) == s
    decreases |s|
  {
    if s != [] {
      IncludesClose(s);
      if s[0] == '<' {
        assert '>' !in s;
      }
      assert TagFree(s[1..]);
      StripTagsUnchanged(s[1..]);
    }
  }

  /** Stripping twice is stripping once. */
  lemma StripTagsIdempotent(s: string)
    ensures StripTags(StripTags(s)) == StripTags(s)
  {
    StripTagsTagFree(s);
    StripTagsUnchanged(StripTags(s));
  }

  /** Text before the first '<' is kept as it is. */
  lemma {:induction false} StripTagsKeepsText(a: string, b: string)
    requires '<' !in a
    ensures StripTags(a + b) == a + StripTags(b)
  {
    if a != [] {
      assert (a + b)[1..] == a[1..] + b;
      StripTagsKeepsText(a[1..], b);
    } else {
      assert a + b == b;
    }
  }

  /** A '<', text without '>', and a '>' are removed together. */
  lemma StripTagsRemovesTag(t: string, b: string)
    requires '>' !in t
    ensures StripTags("<" + t + ">" + b) == StripTags(b)
  {
    var s := "<" + t + ">" + b;
    IncludesClose(s);
    assert s[|t| + 1] == '>';
    var close := IndexOf(s, ">").value;
    assert s[close] == '>' by { assert s[close..close + 1] == ">"; }
    assert s[0] == '<';
    forall k | 1 <= k <= |t|
      ensures s[k] != '>'
    {
      assert s[k] == t[k - 1];
    }
    assert !OccursAt(s, ">", |t| + 1) ==> false by { assert s[|t| + 1..|t| + 2] == ">"; }
    assert close == |t| + 1;
    assert s[close + 1..] == b;
  }

  const ExcerptLength := 150
  const Ellipsis := "..."

  /** The excerpt of a description. */
  function Excerpt(description: string): string {
    Substring(StripTags(description), 0, ExcerptLength) + Ellipsis
  }

  /**
   * The excerpt is the first `min(150, n)` characters of the stripped text (of length `n`)
   * followed by "...", so at most 153 characters, and always ends in "...".
   */
  lemma ExcerptSpec(description: string)
    ensures var r := Excerpt(description); var text := StripTags(description);
      && |r| <= ExcerptLength + 3
      && EndsWith(r, Ellipsis)
      && r[..|r| - 3] == text[..if |text| < ExcerptLength then |text| else ExcerptLength]
      && StartsWith(text, r[..|r| - 3])
  {
    var r := Excerpt(description);
    var cut := Substring(StripTags(description), 0, ExcerptLength);
    SuffixEndsWith(cut, Ellipsis);
    assert r[..|r| - 3] == cut;
  }

  /** A short description without tags keeps all of its text before the "...". */
  lemma ShortExcerpt(description: string)
    requires '<' !in description && |description| <= ExcerptLength
    ensures Excerpt(description) == description + Ellipsis
  {
    StripTagsUnchanged(description);
  }

  /** The excerpt shows only for a present, non-empty description. */
  function ExcerptOf(description: Option<string>): Option<string> {
    if Truthy(description) then Some(Excerpt(description.value)) else None
  }

  const ImageWidth := 800
  const ImageHeight := 400

  /** The cover image's address is the `imgix_url` with the card's fixed query. */
  lemma ImageUrlLiteral(img: Image)
    ensures ResizedUrl(img, ImageWidth, ImageHeight)
         == img.imgixUrl + "?w=800&h=400&fit=crop&auto=format,compress"
  {
    Digits800();
    Digits400();
    var u := img.imgixUrl;
    var w, h, tail := "800", "400", "&fit=crop&auto=format,compress";
    assert ResizedUrl(img, ImageWidth, ImageHeight) == u + "?w=" + w + "&h=" + h + tail;
    assert u + "?w=" + w + "&h=" + h + tail == u + ("?w=" + w + "&h=" + h + tail);
    QueryLiteral();
  }

  lemma QueryLiteral()
    ensures "?w=" + "800" + "&h=" + "400" + "&fit=crop&auto=format,compress"
         == "?w=800&h=400&fit=crop&auto=format,compress"
  {
  }

  lemma Digits800()
    ensures NumberToString(800) == "800"
  {
    assert DecimalString(8) == "8";
    assert DecimalString(80) == "8" + "0";
    assert DecimalString(800) == "80" + "0";
  }

  lemma Digits400()
    ensures NumberToString(400) == "400"
  {
    assert DecimalString(4) == "4";
    assert DecimalString(40) == "4" + "0";
    assert DecimalString(400) == "40" + "0";
  }

  /** What the card shows besides its title and links. */
  datatype ProjectCardView = ProjectCardView(
    featuredBadge: bool,
    imageUrl: Option<string>,
    excerpt: Option<string>)

  function RenderProjectCard(p: Project): ProjectCardView {
    var m := p.metadata;
    ProjectCardView(
      IsTrue(m.featured),
      if m.featuredImage.Some? then Some(ResizedUrl(m.featuredImage.value, ImageWidth, ImageHeight)) else None,
      ExcerptOf(m.description))
  }

  /** Badge exactly for a featured project; excerpt exactly for a non-empty description. */
  lemma ProjectCardSpec(p: Project)
    ensures var v := RenderProjectCard(p);
      && (v.featuredBadge <==> p.metadata.featured == Some(true))
      && (v.excerpt.Some? <==> p.metadata.description.Some? && p.metadata.description.value != "")
      && (v.excerpt.Some? ==> |v.excerpt.value| <= 153 && EndsWith(v.excerpt.value, Ellipsis))
  {
    if Truthy(p.metadata.description) {
      ExcerptSpec(p.metadata.description.value);
    }
  }
}
