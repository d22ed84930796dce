/** The record shapes shared by the application (types.ts). Numbers the
    application treats as whole numbers (ratings, percentages, week numbers,
    the aptitude score) are `int`; the CGPA is a `real`. */
module Types {

  datatype Option<T> = None | Some(value: T)

  /** A signed-in user. */
  datatype User = User(fullName: string, email: string)

  /** One self-rated skill (rating 1..5 in the assessment form). */
  datatype SkillRating = SkillRating(name: string, rating: int)

  /** The profile submitted by one assessment. */
  datatype AssessmentData = AssessmentData(
    userType: string,
    field: string,
    cgpa: real,
    interests: seq<string>,
    skills: seq<SkillRating>,
    aptitudeScore: int)

  /** One week of a recommendation's roadmap. */
  datatype RoadmapWeek = RoadmapWeek(week: int, topics: seq<string>, tasks: seq<string>, project: string)

  datatype ResourceLink = ResourceLink(title: string, url: string, category: string)

  /** One recommended career role, from the generative service or the
      fallback engine. */
  datatype AIRecommendation = AIRecommendation(
    roleName: string,
    matchPercentage: int,
    reasons: seq<string>,
    skillsHave: seq<string>,
    skillsMissing: seq<string>,
    priority: Option<seq<string>>,
    roadmap: seq<RoadmapWeek>,
    resourceLinks: seq<ResourceLink>)

  /** An entry of the role library (icon and the optional detail fields are
      presentation only). */
  datatype CareerRole = CareerRole(
    id: string,
    name: string,
    domain: string,
    description: string,
    skills: seq<string>,
    level: string)
}
