/**
 * The content kinds of the portfolio dashboard: a base object shared by every kind, whose
 * `type` string discriminates four variants, each with a metadata record whose fields are
 * all optional. The kind literals narrow the base object to a variant, as the type guards do.
 */
module Types {
  import opened Outcomes
  import opened Js

  /** A select-dropdown value: `key` is the machine value, `value` the display label. */
  datatype SelectValue = SelectValue(key: string, value: string)

  /** A hosted image: its raw URL and the URL of the image service that resizes it. */
  datatype Image = Image(url: string, imgixUrl: string)

  /**
   * The address of an image resized by the image service: the `imgix_url` with the query
   * `?w=W&h=H&fit=crop&auto=format,compress`.
   */
  function ResizedUrl(img: Image, width: nat, height: nat): string {
    img.imgixUrl + "?w=" + NumberToString(width) + "&h=" + NumberToString(height)
      + "&fit=crop&auto=format,compress"
  }

  /** The fields every backend object carries; `metadata` is the kind-specific record. */
  datatype CosmicObject<M> = CosmicObject(
    id: string,
    slug: string,
    title: string,
    content: Option<string>,
    objectType: string,
    createdAt: string,
    modifiedAt: string,
    metadata: M)

  datatype ProjectMetadata = ProjectMetadata(
    projectName: Option<string>,
    description: Option<string>,
    technologies: Option<string>,
    projectType: Option<SelectValue>,
    featuredImage: Option<Image>,
    gallery: Option<seq<Image>>,
    demoUrl: Option<string>,
    githubUrl: Option<string>,
    completionDate: Option<string>,
    featured: Option<bool>)

  datatype SkillMetadata = SkillMetadata(
    skillName: Option<string>,
    category: Option<SelectValue>,
    proficiency: Option<SelectValue>,
    yearsExperience: Option<int>,
    description: Option<string>)

  datatype WorkExperienceMetadata = WorkExperienceMetadata(
    jobTitle: Option<string>,
    company: Option<string>,
    companyLogo: Option<Image>,
    startDate: Option<string>,
    endDate: Option<string>,
    currentPosition: Option<bool>,
    location: Option<string>,
    employmentType: Option<SelectValue>,
    description: Option<string>,
    achievements: Option<string>)

  datatype TestimonialMetadata = TestimonialMetadata(
    clientName: Option<string>,
    clientTitle: Option<string>,
    company: Option<string>,
    clientPhoto: Option<Image>,
    testimonialText: Option<string>,
    rating: Option<SelectValue>,
    project: Option<Project>,
    dateReceived: Option<string>)

  const ProjectsType := "projects"
  const SkillsType := "skills"
  const WorkExperienceType := "work-experience"
  const TestimonialsType := "testimonials"

  /** Metadata with every optional field absent. */
  const NoProjectMetadata :=
    ProjectMetadata(None, None, None, None, None, None, None, None, None, None)

  type Project = o: CosmicObject<ProjectMetadata> | o.objectType == ProjectsType
    witness CosmicObject("", "", "", None, ProjectsType, "", "", NoProjectMetadata)

  type Skill = o: CosmicObject<SkillMetadata> | o.objectType == SkillsType
    witness CosmicObject("", "", "", None, SkillsType, "", "",
                         SkillMetadata(None, None, None, None, None))

  type WorkExperience = o: CosmicObject<WorkExperienceMetadata> | o.objectType == WorkExperienceType
    witness CosmicObject("", "", "", None, WorkExperienceType, "", "",
                         WorkExperienceMetadata(None, None, None, None, None, None, None, None, None, None))

  type Testimonial = o: CosmicObject<TestimonialMetadata> | o.objectType == TestimonialsType
    witness CosmicObject("", "", "", None, TestimonialsType, "", "",
                         TestimonialMetadata(None, None, None, None, None, None, None, None))

  // The select-dropdown literal types.
  const SkillCategories: set<string> := {"frontend", "backend", "database", "tools", "design"}
  const SkillProficiencies: set<string> := {"beginner", "intermediate", "advanced", "expert"}
  const TestimonialRatings: set<string> := {"5", "4", "3", "2", "1"}

  // The type guards: each tests the `type` string against its kind's literal.

  predicate IsProject<M>(o: CosmicObject<M>) {
    o.objectType == ProjectsType
  }

  predicate IsSkill<M>(o: CosmicObject<M>) {
    o.objectType == SkillsType
  }

  predicate IsWorkExperience<M>(o: CosmicObject<M>) {
    o.objectType == WorkExperienceType
  }

  predicate IsTestimonial<M>(o: CosmicObject<M>) {
    o.objectType == TestimonialsType
  }

  /** The four content kinds. */
  datatype Kind = Projects | Skills | WorkExperiences | Testimonials

  /** The `type` literal of each kind. */
  function TypeLiteral(k: Kind): string {
    match k
    case Projects => ProjectsType
    case Skills => SkillsType
    case WorkExperiences => WorkExperienceType
    case Testimonials => TestimonialsType
  }

  /** The kind a guard recognises, if any. */
  function KindOf<M>(o: CosmicObject<M>): (r: Option<Kind>)
    ensures r == Some(Projects) <==> IsProject(o)
    ensures r == Some(Skills) <==> IsSkill(o)
    ensures r == Some(WorkExperiences) <==> IsWorkExperience(o)
    ensures r == Some(Testimonials) <==> IsTestimonial(o)
    ensures r.Some? ==> TypeLiteral(r.value) == o.objectType
  {
    if IsProject(o) then Some(Projects)
    else if IsSkill(o) then Some(Skills)
    else if IsWorkExperience(o) then Some(WorkExperiences)
    else if IsTestimonial(o) then Some(Testimonials)
    else None
  }

  /** The four literals are distinct, so no object passes two guards. */
  lemma GuardsExclusive<M>(o: CosmicObject<M>)
    ensures IsProject(o) ==> !IsSkill(o) && !IsWorkExperience(o) && !IsTestimonial(o)
    ensures IsSkill(o) ==> !IsWorkExperience(o) && !IsTestimonial(o)
    ensures IsWorkExperience(o) ==> !IsTestimonial(o)
  {
    var r := KindOf(o);
  }

  /** Each guard holds of every value of its variant: the guard is the narrowing the type claims. */
  lemma GuardsNarrow(p: Project, s: Skill, w: WorkExperience, t: Testimonial)
    ensures IsProject(p) && IsSkill(s) && IsWorkExperience(w) && IsTestimonial(t)
    ensures KindOf(p) == Some(Projects) && KindOf(s) == Some(Skills)
    ensures KindOf(w) == Some(WorkExperiences) && KindOf(t) == Some(Testimonials)
  {
  }
}
