/**
 * The work-experience card: the date-range line with its "Present" rules, the "Current"
 * badge, and the company logo. `fmt` stands for `format(new Date(d), 'MMM yyyy')`.
 */
module ExperienceCard {
  import opened Outcomes
  import opened Js
  import opened Types

  const Present := "Present"
  const Separator := " - "

  /** The end of the range: "Present" for a current position or a missing end date. */
  function EndPart(endDate: Option<string>, current: Option<bool>, fmt: string -> string): string {
    if IsTrue(current) then Present
    else if Truthy(endDate) then fmt(endDate.value)
    else Present
  }

  /** `formatDateRange()`: empty without a start date, else "start - end". */
  function FormatDateRange(startDate: Option<string>, endDate: Option<string>, current: Option<bool>,
                           fmt: string -> string): string {
    if !Truthy(startDate) then ""
    else fmt(startDate.value) + Separator + EndPart(endDate, current, fmt)
  }

  /**
   * The range is empty exactly without a start date; otherwise it is the formatted start,
   * " - ", and an end that is "Present" for a current position whatever the end date, is
   * "Present" for a missing end date too, and is the formatted end date otherwise.
   */
  lemma FormatDateRangeSpec(startDate: Option<string>, endDate: Option<string>, current: Option<bool>,
                            fmt: string -> string)
    ensures var r := FormatDateRange(startDate, endDate, current, fmt);
      && (r == "" <==> !Truthy(startDate))
      && (r != "" ==> StartsWith(r, fmt(startDate.value) + Separator))
      && (r != "" && IsTrue(current) ==> EndsWith(r, Separator + Present))
      && (r != "" && !Truthy(endDate) ==> EndsWith(r, Separator + Present))
      && (r != "" && !IsTrue(current) && Truthy(endDate) ==> EndsWith(r, Separator + fmt(endDate.value)))
      && (Truthy(startDate) && (IsTrue(current) || !Truthy(endDate)) ==>
            r == fmt(startDate.value) + Separator + Present)
      && (Truthy(startDate) && !IsTrue(current) && Truthy(endDate) ==>
            r == fmt(startDate.value) + Separator + fmt(endDate.value))
  {
    if Truthy(startDate) {
      var s, e := fmt(startDate.value), EndPart(endDate, current, fmt);
      var r := s + Separator + e;
      assert |r| >= 3;
      SuffixEndsWith(s + Separator, e);
      SuffixEndsWith(s, Separator + e);
      assert r == s + (Separator + e);
    }
  }

  /** A current role, a finished role and an open-ended role, for any formatter that renders their months. */
  lemma FormatDateRangeExamples(fmt: string -> string)
    requires fmt("2021-03-01") == "Mar 2021"
    requires fmt("2019-06-15") == "Jun 2019" && fmt("2020-01-10") == "Jan 2020"
    requires fmt("2022-01-01") == "Jan 2022"
    ensures FormatDateRange(Some("2021-03-01"), None, Some(true), fmt) == "Mar 2021 - Present"
    ensures FormatDateRange(Some("2019-06-15"), Some("2020-01-10"), Some(false), fmt) == "Jun 2019 - Jan 2020"
    ensures FormatDateRange(Some("2022-01-01"), None, Some(false), fmt) == "Jan 2022 - Present"
  {
  }

  const LogoWidth := 64
  const LogoHeight := 64

  /** What the card shows around the job title and company. */
  datatype ExperienceCardView = ExperienceCardView(
    dateRange: string,
    currentBadge: bool,
    logoUrl: Option<string>)

  function RenderExperienceCard(w: WorkExperience, fmt: string -> string): ExperienceCardView {
    var m := w.metadata;
    ExperienceCardView(
      FormatDateRange(m.startDate, m.endDate, m.currentPosition, fmt),
      IsTrue(m.currentPosition),
      if m.companyLogo.Some? then Some(ResizedUrl(m.companyLogo.value, LogoWidth, LogoHeight)) else None)
  }

  /** The "Current" badge shows exactly for a current position, whose range then ends "Present". */
  lemma CurrentBadgeSpec(w: WorkExperience, fmt: string -> string)
    ensures var v := RenderExperienceCard(w, fmt);
      && (v.currentBadge <==> w.metadata.currentPosition == Some(true))
      && (v.currentBadge && v.dateRange != "" ==> EndsWith(v.dateRange, Separator + Present))
  {
    var m := w.metadata;
    FormatDateRangeSpec(m.startDate, m.endDate, m.currentPosition, fmt);
  }
}
