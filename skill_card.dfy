/**
 * The skill card: the displayed name, the proficiency badge (its colour from the level's key,
 * its text from the level's label), the proficiency stars, and the years-of-experience line.
 */
module SkillCard {
  import opened Outcomes
  import opened Js
  import opened Types
  import opened Stars

  /** The badge colours `getProficiencyColor` chooses between. */
  datatype Colour = Green | Blue | Yellow | Gray

  /** `getProficiencyColor(level)`: a `switch` on the key, gray for beginner and for anything else. */
  function ProficiencyColour(level: Option<string>): Colour {
    if level == Some("expert") then Green
    else if level == Some("advanced") then Blue
    else if level == Some("intermediate") then Yellow
    else Gray
  }

  /** The class string each colour stands for. */
  function ColourClass(c: Colour): string {
    match c
    case Green => "bg-green-100 text-green-800"
    case Blue => "bg-blue-100 text-blue-800"
    case Yellow => "bg-yellow-100 text-yellow-800"
    case Gray => "bg-gray-100 text-gray-800"
  }

  /** The level table of `renderStars`. */
  function LevelStars(level: string): Option<nat> {
    if level == "expert" then Some(5)
    else if level == "advanced" then Some(4)
    else if level == "intermediate" then Some(3)
    else if level == "beginner" then Some(2)
    else None
  }

  /** `levels[level] || 1`: a level outside the table, or none, gives one star. */
  function StarCount(level: Option<string>): (n: nat)
    ensures 1 <= n <= 5
  {
    match level
    case None => 1
    case Some(l) => match LevelStars(l) case Some(n) => n case None => 1
  }

  /** The stars `renderStars(level)` draws. */
  function RenderStars(level: Option<string>): seq<bool> {
    StarSlots(Int(StarCount(level)))
  }

  /** The four levels give 2 to 5 filled stars, and every other key, or none, gives 1. */
  lemma RenderStarsCount(level: Option<string>)
    ensures |RenderStars(level)| == 5
    ensures FilledCount(RenderStars(level)) == StarCount(level)
    ensures level == Some("expert") ==> FilledCount(RenderStars(level)) == 5
    ensures level == Some("advanced") ==> FilledCount(RenderStars(level)) == 4
    ensures level == Some("intermediate") ==> FilledCount(RenderStars(level)) == 3
    ensures level == Some("beginner") ==> FilledCount(RenderStars(level)) == 2
    ensures level.None? || level.value !in SkillProficiencies ==> FilledCount(RenderStars(level)) == 1
  {
    StarsFilled(Int(StarCount(level)));
  }

  /**
   * `levels[level] || 1` as written, on an object literal: a level naming a member the
   * literal inherits from `Object.prototype` finds that member, which is truthy, and
   * `index < member` compares with NaN and is false for every index, so no star is filled.
   */
  function FilledStarsAsWritten(level: Option<string>): nat {
    match level
    case None => 1
    case Some(l) =>
      match LevelStars(l)
      case Some(n) => n
      case None => if l in ObjectPrototypeMembers then 0 else 1
  }

  /**
   * As written, a card shows no filled star exactly for an inherited name, and otherwise fills
   * as many stars as the model's `StarCount`.
   */
  lemma FilledStarsAsWrittenSpec(level: Option<string>)
    ensures FilledStarsAsWritten(level) == 0 <==> level.Some? && level.value in ObjectPrototypeMembers
    ensures FilledStarsAsWritten(level) != 0 ==> FilledStarsAsWritten(level) == FilledCount(RenderStars(level))
  {
    RenderStarsCount(level);
  }

  /** The level "toString": no star as written, one star as `|| 1` evidently intends. */
  lemma ToStringLevelFillsNoStar()
    ensures FilledStarsAsWritten(Some("toString")) == 0
    ensures FilledCount(RenderStars(Some("toString"))) == 1
  {
    assert "toString" in ObjectPrototypeMembers;
    RenderStarsCount(Some("toString"));
  }

  /** Colour and star count rise together: the more stars, the warmer the badge. */
  lemma ColourMatchesStars(level: Option<string>)
    ensures ProficiencyColour(level) == Green <==> StarCount(level) == 5
    ensures ProficiencyColour(level) == Blue <==> StarCount(level) == 4
    ensures ProficiencyColour(level) == Yellow <==> StarCount(level) == 3
    ensures ProficiencyColour(level) == Gray <==> StarCount(level) <= 2
  {
  }

  /** `skill_name || title`. */
  function SkillName(skill: Skill): string {
    OrElse(skill.metadata.skillName, skill.title)
  }

  /** `{n} year{n !== 1 ? 's' : ''} experience`, shown only for a truthy (non-zero) number. */
  function YearsLabel(years: Option<int>): Option<string> {
    match years
    case None => None
    case Some(n) =>
      if n == 0 then None
      else Some(NumberToString(n) + YearsTail(n))
  }

  /** The label reads back as its number and says "years" for every number but one. */
  lemma YearsLabelSpec(n: int)
    requires n != 0
    ensures YearsLabel(Some(n)).Some?
    ensures ParseInt(YearsLabel(Some(n)).value) == Int(n)
    ensures n != 1 ==> EndsWith(YearsLabel(Some(n)).value, " years experience")
    ensures n == 1 ==> EndsWith(YearsLabel(Some(n)).value, " year experience")
  {
    YearsTailText(n);
    ParseNumberPrefix(n, YearsTail(n));
    SuffixEndsWith(NumberToString(n), YearsTail(n));
  }

  /** ` year{n !== 1 ? 's' : ''} experience` */
  function YearsTail(n: int): string {
    " year" + (if n != 1 then "s" else "") + " experience"
  }

  lemma YearsTailText(n: int)
    ensures YearsTail(n) == if n != 1 then " years experience" else " year experience"
  {
  }

  /** One year of experience is written in the singular. */
  lemma OneYear()
    ensures YearsLabel(Some(1)) == Some("1 year experience")
  {
    assert ('0' as int + 1) as char == '1';
    assert NumberToString(1) == "1";
    YearsTailText(1);
    assert "1" + " year experience" == "1 year experience";
  }

  /** What the card shows. */
  datatype SkillCardView = SkillCardView(
    name: string,
    badge: Option<(string, string)>,
    stars: Option<seq<bool>>,
    years: Option<string>,
    description: Option<string>)

  function RenderSkillCard(skill: Skill): SkillCardView {
    var m := skill.metadata;
    SkillCardView(
      SkillName(skill),
      if m.proficiency.Some? then Some((m.proficiency.value.value, ColourClass(ProficiencyColour(Some(m.proficiency.value.key))))) else None,
      if m.proficiency.Some? then Some(RenderStars(Some(m.proficiency.value.key))) else None,
      YearsLabel(m.yearsExperience),
      if Truthy(m.description) then m.description else None)
  }

  /**
   * The badge and the stars appear together, exactly when a proficiency is set; the badge
   * shows the label while colour and stars follow the key. The name falls back to the title.
   */
  lemma SkillCardSpec(skill: Skill)
    ensures var v := RenderSkillCard(skill); var p := skill.metadata.proficiency;
      && (v.badge.Some? <==> p.Some?) && (v.stars.Some? <==> p.Some?)
      && (p.Some? ==>
            && v.badge.value.0 == p.value.value
            && v.badge.value.1 == ColourClass(ProficiencyColour(Some(p.value.key)))
            && FilledCount(v.stars.value) == StarCount(Some(p.value.key))
            && (ProficiencyColour(Some(p.value.key)) == Gray <==> FilledCount(v.stars.value) <= 2))
      && (Truthy(skill.metadata.skillName) ==> v.name == skill.metadata.skillName.value)
      && (!Truthy(skill.metadata.skillName) ==> v.name == skill.title)
  {
    var p := skill.metadata.proficiency;
    if p.Some? {
      RenderStarsCount(Some(p.value.key));
      ColourMatchesStars(Some(p.value.key));
    }
  }
}
