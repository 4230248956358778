/** The candidate record shown by the screening dashboard and the table, and
    the filter record edited by the advanced-filters panel. */
module Candidates {

  /** One candidate row (the `Candidate` interface of the table component). */
  datatype Candidate = Candidate(
    id: int,
    fullName: string,
    email: string,
    phone: string,
    resume: string,
    appliedDate: string,
    status: string,
    score: int,
    experienceLevel: string,
    location: string,
    skills: seq<string>,
    highlightedSkills: seq<string>,
    yearsOfExperience: int,
    currentSalary: int,
    expectedSalary: int,
    summary: string,
    education: string,
    religion: string,
    nationality: string,
    languages: seq<string>,
    certifications: seq<string>,
    githubProfile: string,
    linkedinProfile: string)

  /** The filter record (the `Filters` interface). */
  datatype Filters = Filters(
    experienceLevel: string,
    minScore: int,
    maxScore: int,
    location: string,
    skills: seq<string>,
    minExperience: int,
    maxSalary: int,
    customFilters: map<string, string>)

  /** What `candidate[key]` yields for a key typed into a custom filter. */
  datatype FieldValue = Str(s: string) | List(items: seq<string>) | Number(n: int) | Undefined

  /** `candidate[key]`: a string, an array of strings, a number, or `undefined`
      for a key the record does not have. */
  function FieldOf(c: Candidate, key: string): FieldValue
  {
    match key
    case "id" => Number(c.id)
    case "fullName" => Str(c.fullName)
    case "email" => Str(c.email)
    case "phone" => Str(c.phone)
    case "resume" => Str(c.resume)
    case "appliedDate" => Str(c.appliedDate)
    case "status" => Str(c.status)
    case "score" => Number(c.score)
    case "experienceLevel" => Str(c.experienceLevel)
    case "location" => Str(c.location)
    case "skills" => List(c.skills)
    case "highlightedSkills" => List(c.highlightedSkills)
    case "yearsOfExperience" => Number(c.yearsOfExperience)
    case "currentSalary" => Number(c.currentSalary)
    case "expectedSalary" => Number(c.expectedSalary)
    case "summary" => Str(c.summary)
    case "education" => Str(c.education)
    case "religion" => Str(c.religion)
    case "nationality" => Str(c.nationality)
    case "languages" => List(c.languages)
    case "certifications" => List(c.certifications)
    case "githubProfile" => Str(c.githubProfile)
    case "linkedinProfile" => Str(c.linkedinProfile)
    case _ => Undefined
  }
}
