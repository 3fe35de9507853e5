/** The records the hiring funnel passes around. They are immutable values
    supplied by the screens and copied unchanged into the analysis result. */
module HiringModels {
  import opened Common

  datatype JobOpening = JobOpening(id: string, title: string, description: Option<string>)

  datatype HiringRequirements = HiringRequirements(
    experienceLevel: string,
    requiredSkills: seq<string>,
    niceToHaveSkills: Option<seq<string>>,
    specificRequirements: Option<string>)

  /** One completed analysis as shown on the dashboard. */
  datatype ResumeAnalysis = ResumeAnalysis(
    jobOpening: JobOpening,
    requirements: HiringRequirements,
    bestCandidate: string,
    analyzedResumesCount: nat,
    analysisDate: Timestamp)
}
