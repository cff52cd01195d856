/**
 * The content client: each getter runs one backend query for a kind, sorts the returned
 * objects newest-first (skills excepted) and turns a thrown error into an empty list when it
 * is a 404 and into a kind-specific failure otherwise. The query itself is a parameter: the
 * value it returned or the JavaScript value it threw.
 */
module Cosmic {
  import opened Outcomes
  import opened Js
  import opened Types
  import opened StableSort

  /** A property value of a thrown JavaScript value, as far as the client inspects it. */
  datatype PropValue = PUndefined | PNull | PBool(b: bool) | PNumber(n: int) | PString(s: string) | PObject

  /** A thrown JavaScript value; `props` are the properties visible to the `in` operator. */
  datatype JsValue =
    | VUndefined
    | VNull
    | VBool(b: bool)
    | VNumber(n: int)
    | VString(s: string)
    | VFunction(props: map<string, PropValue>)
    | VObject(props: map<string, PropValue>)

  /** A backend call: the value it resolved to, or the value it threw. */
  datatype Call<T> = Returned(value: T) | Raised(error: JsValue)

  /** The `typeof` operator (`typeof null` is `"object"`). */
  function TypeOf(v: JsValue): string {
    match v
    case VUndefined => "undefined"
    case VNull => "object"
    case VBool(_) => "boolean"
    case VNumber(_) => "number"
    case VString(_) => "string"
    case VFunction(_) => "function"
    case VObject(_) => "object"
  }

  function Properties(v: JsValue): map<string, PropValue> {
    if v.VFunction? || v.VObject? then v.props else map[]
  }

  /** `hasStatus(error)`: `typeof error === 'object' && error !== null && 'status' in error`. */
  predicate HasStatus(e: JsValue) {
    TypeOf(e) == "object" && e != VNull && "status" in Properties(e)
  }

  /** `hasStatus` holds exactly of the non-null objects that have a `status` property. */
  lemma HasStatusIff(e: JsValue)
    ensures HasStatus(e) <==> e.VObject? && "status" in e.props
  {
  }

  /** `hasStatus(error) && error.status === 404`: strict equality, so only the number 404. */
  predicate IsNotFound(e: JsValue) {
    HasStatus(e) && Properties(e)["status"] == PNumber(404)
  }

  datatype FetchError = FetchError(message: string)

  /** The name each getter's failure message gives its kind. */
  function KindName(k: Kind): string {
    match k
    case Projects => "projects"
    case Skills => "skills"
    case WorkExperiences => "work experience"
    case Testimonials => "testimonials"
  }

  function FetchFailure(k: Kind): FetchError {
    FetchError("Failed to fetch " + KindName(k))
  }

  /** The failure messages of the four getters are pairwise distinct. */
  lemma FetchFailuresDistinct(k1: Kind, k2: Kind)
    requires k1 != k2
    ensures FetchFailure(k1) != FetchFailure(k2)
  {
    var p := "Failed to fetch ";
    assert FetchFailure(k1).message[|p|..] == KindName(k1);
    assert FetchFailure(k2).message[|p|..] == KindName(k2);
  }

  /** The `catch` block of every getter. */
  function Recover<T>(kind: Kind, e: JsValue): (r: Result<seq<T>, FetchError>)
    ensures r.Success? <==> e.VObject? && "status" in e.props && e.props["status"] == PNumber(404)
    ensures r.Success? ==> r.value == []
    ensures r.Failure? ==> r.error == FetchFailure(kind)
  {
    if IsNotFound(e) then Success([]) else Failure(FetchFailure(kind))
  }

  /** An error without a `status` (an `Error`, a string, `null`) is a failure, never a 404. */
  lemma NoStatusIsFailure<T>(kind: Kind, e: JsValue)
    requires !(e.VObject? && "status" in e.props)
    ensures Recover<T>(kind, e) == Failure(FetchFailure(kind))
  {
  }

  /** A status of the string "404" is not the number 404, so it is a failure too. */
  lemma StringStatusIsFailure<T>(kind: Kind, props: map<string, PropValue>)
    requires "status" in props && props["status"] == PString("404")
    ensures Recover<T>(kind, VObject(props)) == Failure(FetchFailure(kind))
  {
  }

  // ---------------------------------------------------------------------------------------
  // Effective dates

  /** `date || createdAt`: an absent or empty metadata date falls back to `created_at`. */
  function EffectiveDate(date: Option<string>, createdAt: string): (r: string)
    ensures r == createdAt || date == Some(r)
    ensures r != createdAt ==> r != ""
    ensures Truthy(date) ==> r == date.value
    ensures !Truthy(date) ==> r == createdAt
  {
    OrElse(date, createdAt)
  }

  /** `||` and not `??`: an empty date string is replaced, a non-empty one is kept. */
  lemma EmptyDateFallsBack(createdAt: string, d: string)
    ensures EffectiveDate(Some(""), createdAt) == createdAt
    ensures EffectiveDate(None, createdAt) == createdAt
    ensures d != "" ==> EffectiveDate(Some(d), createdAt) == d
  {
  }

  /** Timestamps of projects, by completion date; `parse` stands for `new Date(..).getTime()`. */
  function ProjectTime(parse: string -> int): Project -> int {
    (p: Project) => parse(EffectiveDate(p.metadata.completionDate, p.createdAt))
  }

  function WorkExperienceTime(parse: string -> int): WorkExperience -> int {
    (w: WorkExperience) => parse(EffectiveDate(w.metadata.startDate, w.createdAt))
  }

  function TestimonialTime(parse: string -> int): Testimonial -> int {
    (t: Testimonial) => parse(EffectiveDate(t.metadata.dateReceived, t.createdAt))
  }

  // ---------------------------------------------------------------------------------------
  // The getters

  /** What a sorting getter returns for a query outcome. */
  function FetchedSorted<T>(kind: Kind, response: Call<seq<T>>, key: T -> int): Result<seq<T>, FetchError> {
    match response
    case Returned(objects) => Success(SortDesc(objects, key))
    case Raised(e) => Recover(kind, e)
  }

  /** A sorting getter: sorts the returned array in place, or recovers from what was thrown. */
  method FetchSorted<T>(kind: Kind, response: Call<seq<T>>, key: T -> int)
    returns (r: Result<seq<T>, FetchError>)
    ensures r == FetchedSorted(kind, response, key)
    ensures response.Returned? ==> r.Success? && IsStableSortOf(r.value, response.value, key)
    ensures response.Raised? ==> r == Recover(kind, response.error)
  {
    match response
    case Returned(objects) =>
      var a := new T[|objects|](i requires 0 <= i < |objects| => objects[i]);
      assert a[..] == objects;
      SortInPlace(a, key);
      r := Success(a[..]);
      SortDescIsStableSort(objects, key);
    case Raised(e) =>
      r := Recover(kind, e);
  }

  /** `getProjects`: newest completion date (else creation date) first. */
  method GetProjects(response: Call<seq<Project>>, parse: string -> int)
    returns (r: Result<seq<Project>, FetchError>)
    ensures r == FetchedSorted(Projects, response, ProjectTime(parse))
    ensures response.Returned? ==> r.Success? && IsStableSortOf(r.value, response.value, ProjectTime(parse))
    ensures response.Raised? ==> r == Recover(Projects, response.error)
  {
    r := FetchSorted(Projects, response, ProjectTime(parse));
  }

  /** What `getSkills` returns: the backend's objects in the backend's order. */
  function FetchedSkills(response: Call<seq<Skill>>): Result<seq<Skill>, FetchError> {
    match response
    case Returned(objects) => Success(objects)
    case Raised(e) => Recover(Skills, e)
  }

  /** `getSkills`: no sorting. */
  method GetSkills(response: Call<seq<Skill>>) returns (r: Result<seq<Skill>, FetchError>)
    ensures r == FetchedSkills(response)
    ensures response.Returned? ==> r == Success(response.value)
    ensures response.Raised? ==> r == Recover(Skills, response.error)
  {
    match response
    case Returned(objects) => r := Success(objects);
    case Raised(e) => r := Recover(Skills, e);
  }

  /** `getWorkExperience`: newest start date (else creation date) first. */
  method GetWorkExperience(response: Call<seq<WorkExperience>>, parse: string -> int)
    returns (r: Result<seq<WorkExperience>, FetchError>)
    ensures r == FetchedSorted(WorkExperiences, response, WorkExperienceTime(parse))
    ensures response.Returned? ==> r.Success? && IsStableSortOf(r.value, response.value, WorkExperienceTime(parse))
    ensures response.Raised? ==> r == Recover(WorkExperiences, response.error)
  {
    r := FetchSorted(WorkExperiences, response, WorkExperienceTime(parse));
  }

  /** `getTestimonials`: newest date received (else creation date) first. */
  method GetTestimonials(response: Call<seq<Testimonial>>, parse: string -> int)
    returns (r: Result<seq<Testimonial>, FetchError>)
    ensures r == FetchedSorted(Testimonials, response, TestimonialTime(parse))
    ensures response.Returned? ==> r.Success? && IsStableSortOf(r.value, response.value, TestimonialTime(parse))
    ensures response.Raised? ==> r == Recover(Testimonials, response.error)
  {
    r := FetchSorted(Testimonials, response, TestimonialTime(parse));
  }

  // ---------------------------------------------------------------------------------------
  // Mutations

  datatype MutationOp = Create | Update | Delete

  datatype MutationError = MutationError(message: string)

  function MutationFailure(op: MutationOp): MutationError {
    match op
    case Create => MutationError("Failed to create object")
    case Update => MutationError("Failed to update object")
    case Delete => MutationError("Failed to delete object")
  }

  /**
   * `createObject`, `updateObject`, `deleteObject`: one backend call whose result is passed
   * on; whatever it throws, a 404 included, becomes the operation's fixed failure.
   */
  function Mutate<T>(op: MutationOp, call: Call<T>): (r: Result<T, MutationError>)
    ensures r.Failure? <==> call.Raised?
    ensures call.Returned? ==> r.value == call.value
    ensures r.Failure? ==> r.error == MutationFailure(op)
  {
    match call
    case Returned(v) => Success(v)
    case Raised(_) => Failure(MutationFailure(op))
  }
}
