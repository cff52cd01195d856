/**
 * The dashboard's statistics: the four collections fetched together, their sizes, and the
 * number of featured projects.
 */
module Dashboard {
  import opened Outcomes
  import opened Js
  import opened Types
  import opened StableSort
  import opened Cosmic

  datatype DashboardStats = DashboardStats(
    totalProjects: nat,
    totalSkills: nat,
    totalExperience: nat,
    totalTestimonials: nat,
    featuredProjects: nat)

  /** `p.metadata?.featured` is truthy. */
  predicate IsFeatured(p: Project) {
    IsTrue(p.metadata.featured)
  }

  /** `projects.filter(p => p.metadata?.featured)`. */
  function FeaturedProjects(ps: seq<Project>): (r: seq<Project>)
    ensures |r| <= |ps|
    ensures forall p :: p in r <==> p in ps && IsFeatured(p)
  {
    if ps == [] then []
    else
      var last := ps[|ps| - 1];
      var init := FeaturedProjects(ps[..|ps| - 1]);
      assert ps == ps[..|ps| - 1] + [last];
      if IsFeatured(last) then init + [last] else init
  }

  /** The filter keeps the featured projects with their multiplicity and drops the rest. */
  lemma {:induction false} FeaturedMultiset(ps: seq<Project>, p: Project)
    ensures multiset(FeaturedProjects(ps))[p] == if IsFeatured(p) then multiset(ps)[p] else 0
  {
    if ps != [] {
      var init := ps[..|ps| - 1];
      assert ps == init + [ps[|ps| - 1]];
      FeaturedMultiset(init, p);
    }
  }

  /** Every project is featured exactly when the filter keeps them all. */
  lemma {:induction false} AllFeatured(ps: seq<Project>)
    ensures |FeaturedProjects(ps)| == |ps| <==> forall p :: p in ps ==> IsFeatured(p)
  {
    if ps != [] {
      var init := ps[..|ps| - 1];
      var last := ps[|ps| - 1];
      assert ps == init + [last];
      AllFeatured(init);
      if !IsFeatured(last) {
        assert |FeaturedProjects(ps)| < |ps|;
      }
    }
  }

  /** The statistics of four successfully fetched collections. */
  function StatsOf(projects: seq<Project>, skills: seq<Skill>, experience: seq<WorkExperience>,
                   testimonials: seq<Testimonial>): (r: DashboardStats)
    ensures r.featuredProjects <= r.totalProjects
  {
    DashboardStats(|projects|, |skills|, |experience|, |testimonials|, |FeaturedProjects(projects)|)
  }

  /**
   * `Promise.all` over the four getters: the statistics when all four resolve, otherwise the
   * error of a getter that failed (taken in the order the getters are listed).
   */
  function Combined(p: Result<seq<Project>, FetchError>, s: Result<seq<Skill>, FetchError>,
                    e: Result<seq<WorkExperience>, FetchError>, t: Result<seq<Testimonial>, FetchError>)
    : (r: Result<DashboardStats, FetchError>)
    ensures r.Success? <==> p.Success? && s.Success? && e.Success? && t.Success?
    ensures r.Failure? ==>
      || (p.Failure? && r.error == p.error)
      || (s.Failure? && r.error == s.error)
      || (e.Failure? && r.error == e.error)
      || (t.Failure? && r.error == t.error)
    ensures r.Success? ==> r.value == StatsOf(p.value, s.value, e.value, t.value)
  {
    if p.Failure? then Failure(p.error)
    else if s.Failure? then Failure(s.error)
    else if e.Failure? then Failure(e.error)
    else if t.Failure? then Failure(t.error)
    else Success(StatsOf(p.value, s.value, e.value, t.value))
  }

  /** What `getDashboardStats` yields for the four query outcomes. */
  function DashboardOutcome(projects: Call<seq<Project>>, skills: Call<seq<Skill>>,
                            experience: Call<seq<WorkExperience>>, testimonials: Call<seq<Testimonial>>,
                            parse: string -> int): Result<DashboardStats, FetchError> {
    Combined(FetchedSorted(Projects, projects, ProjectTime(parse)), FetchedSkills(skills),
             FetchedSorted(WorkExperiences, experience, WorkExperienceTime(parse)),
             FetchedSorted(Testimonials, testimonials, TestimonialTime(parse)))
  }

  /** `getDashboardStats`: awaits the four getters and counts what they return. */
  method GetDashboardStats(projects: Call<seq<Project>>, skills: Call<seq<Skill>>,
                           experience: Call<seq<WorkExperience>>, testimonials: Call<seq<Testimonial>>,
                           parse: string -> int)
    returns (r: Result<DashboardStats, FetchError>)
    ensures r == DashboardOutcome(projects, skills, experience, testimonials, parse)
    ensures r.Success? && projects.Returned? ==>
      && r.value.totalProjects == |projects.value|
      && r.value.featuredProjects == |FeaturedProjects(projects.value)|
  {
    var p := GetProjects(projects, parse);
    var s := GetSkills(skills);
    var e := GetWorkExperience(experience, parse);
    var t := GetTestimonials(testimonials, parse);
    r := Combined(p, s, e, t);
    if r.Success? && projects.Returned? {
      SortDescMultiset(projects.value, ProjectTime(parse));
      FeaturedCountPermutation(p.value, projects.value);
    }
  }

  /** The featured count does not depend on the order the projects come in. */
  lemma {:induction false} FeaturedCountPermutation(a: seq<Project>, b: seq<Project>)
    requires multiset(a) == multiset(b)
    ensures |a| == |b|
    ensures |FeaturedProjects(a)| == |FeaturedProjects(b)|
  {
    assert |a| == |multiset(a)| == |multiset(b)| == |b|;
    forall p ensures multiset(FeaturedProjects(a))[p] == multiset(FeaturedProjects(b))[p] {
      FeaturedMultiset(a, p);
      FeaturedMultiset(b, p);
    }
    assert multiset(FeaturedProjects(a)) == multiset(FeaturedProjects(b));
    assert |FeaturedProjects(a)| == |multiset(FeaturedProjects(a))|;
    assert |FeaturedProjects(b)| == |multiset(FeaturedProjects(b))|;
  }

  /**
   * A collection the backend has never held (its query answers 404) counts as zero, and the
   * other counts are unaffected.
   */
  lemma MissingCollectionCountsZero(projects: seq<Project>, skills: seq<Skill>,
                                    experience: seq<WorkExperience>, e: JsValue, parse: string -> int)
    requires IsNotFound(e)
    ensures var r := DashboardOutcome(Returned(projects), Returned(skills), Returned(experience), Raised(e), parse);
      && r.Success?
      && r.value.totalTestimonials == 0
      && r.value.totalProjects == |projects|
      && r.value.totalSkills == |skills|
      && r.value.totalExperience == |experience|
  {
    SortDescMultiset(projects, ProjectTime(parse));
    SortDescMultiset(experience, WorkExperienceTime(parse));
    assert |SortDesc(projects, ProjectTime(parse))| == |projects|;
  }

  /** The getter answering `response` fails: it threw something other than a 404. */
  predicate Fails<T>(response: Call<T>) {
    response.Raised? && !IsNotFound(response.error)
  }

  /**
   * A failure of any one getter fails the whole dashboard with that getter's message (the
   * first failing getter in list order when several fail); without failures the dashboard
   * has its statistics.
   */
  lemma OneFailureFailsAll(projects: Call<seq<Project>>, skills: Call<seq<Skill>>,
                           experience: Call<seq<WorkExperience>>, testimonials: Call<seq<Testimonial>>,
                           parse: string -> int)
    ensures var r := DashboardOutcome(projects, skills, experience, testimonials, parse);
      && (r.Success? <==> !Fails(projects) && !Fails(skills) && !Fails(experience) && !Fails(testimonials))
      && (Fails(projects) ==> r == Failure(FetchFailure(Projects)))
      && (!Fails(projects) && Fails(skills) ==> r == Failure(FetchFailure(Skills)))
      && (!Fails(projects) && !Fails(skills) && Fails(experience) ==> r == Failure(FetchFailure(WorkExperiences)))
      && (!Fails(projects) && !Fails(skills) && !Fails(experience) && Fails(testimonials) ==>
            r == Failure(FetchFailure(Testimonials)))
  {
  }
}
