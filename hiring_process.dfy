/** `HiringProcessService`: the funnel's signals and subjects as fields. Every
    method is specified by the transition of `Funnel` that it performs. */
module HiringProcess {
  import opened Common
  import opened HiringModels
  import Funnel

  /** The two entries `loadRecentAnalyses` puts on the dashboard, dated one and two days before `now`. */
  function MockAnalyses(now: Timestamp): (r: seq<ResumeAnalysis>)
    ensures |r| == 2 && r[0].bestCandidate == "Candidato A" && r[1].bestCandidate == "Candidato B"
  {
    [ ResumeAnalysis(
        JobOpening("job1", "Desenvolvedor Frontend Angular", None),
        HiringRequirements("Pleno", ["Angular", "TypeScript"], Some(["NgRx"]), None),
        "Candidato A", 15, now - 86400000),
      ResumeAnalysis(
        JobOpening("job2", "Engenheiro de Dados Pleno", None),
        HiringRequirements("Senior", ["Python", "SQL", "Airflow"], None, Some("Experiência com cloud (AWS ou GCP)")),
        "Candidato B", 25, now - 172800000) ]
  }

  class HiringProcessService {
    var isHiringProcessActive: bool
    var currentStep: int
    var selectedJob: Option<JobOpening>
    var requirements: Option<HiringRequirements>
    var resumes: seq<File>
    var recentAnalyses: seq<ResumeAnalysis>

    /** The abstract value of the service. */
    function State(): Funnel.State
      reads this
    {
      Funnel.State(currentStep, isHiringProcessActive, selectedJob, requirements, resumes, recentAnalyses)
    }

    ghost predicate Valid()
      reads this
    {
      Funnel.Valid(State())
    }

    /** The service starts on the dashboard with the mock history loaded. */
    constructor (now: Timestamp)
      ensures Valid()
      ensures State() == Funnel.Idle(MockAnalyses(now))
    {
      isHiringProcessActive := false;
      currentStep := 0;
      selectedJob := None;
      requirements := None;
      resumes := [];
      recentAnalyses := MockAnalyses(now);
    }

    method StartHiringProcess()
      requires Valid()
      modifies this
      ensures Valid()
      ensures State() == Funnel.Start(old(State()))
    {
      ResetProcess();
      isHiringProcessActive := true;
      currentStep := 1;
    }

    method CancelHiringProcess()
      requires Valid()
      modifies this
      ensures Valid()
      ensures State() == Funnel.Cancel(old(State()))
    {
      isHiringProcessActive := false;
      currentStep := 0;
      ResetProcess();
    }

    /** Advances one step; at the last step it calls `triggerAnalysis` instead and
        returns what that scheduled. */
    method NextStep() returns (pending: Option<Funnel.Snapshot>)
      requires Valid()
      modifies this
      ensures Valid()
      ensures State() == Funnel.Next(old(State()))
      ensures pending == if old(currentStep) < Funnel.LastStep then None else Funnel.Capture(old(State()))
    {
      var current := currentStep;
      if current < Funnel.LastStep {
        currentStep := current + 1;
        pending := None;
      } else {
        pending := TriggerAnalysis();
      }
    }

    method PreviousStep()
      requires Valid()
      modifies this
      ensures Valid()
      ensures State() == Funnel.Previous(old(State()))
    {
      var current := currentStep;
      if current > 1 {
        currentStep := current - 1;
      } else {
        CancelHiringProcess();
      }
    }

    method SelectJob(job: JobOpening)
      requires Valid()
      modifies this
      ensures Valid()
      ensures State() == Funnel.SelectJob(old(State()), job)
    {
      selectedJob := Some(job);
    }

    method SetRequirements(req: HiringRequirements)
      requires Valid()
      modifies this
      ensures Valid()
      ensures State() == Funnel.SetRequirements(old(State()), req)
    {
      requirements := Some(req);
    }

    method UploadResumes(files: seq<File>)
      requires Valid()
      modifies this
      ensures Valid()
      ensures State() == Funnel.UploadResumes(old(State()), files)
    {
      resumes := files;
    }

    method ResetProcess()
      requires Valid()
      modifies this
      ensures Valid()
      ensures State() == Funnel.ResetSelections(old(State()))
    {
      selectedJob := None;
      requirements := None;
      resumes := [];
    }

    /** The synchronous part of `triggerAnalysis`: it validates the selections and, when
        they are complete, captures them for the delayed completion. It changes no state. */
    method TriggerAnalysis() returns (pending: Option<Funnel.Snapshot>)
      ensures pending.Some? <==> selectedJob.Some? && requirements.Some? && |resumes| > 0
      ensures pending == Funnel.Capture(State())
    {
      var job := selectedJob;
      var reqs := requirements;
      var files := resumes;
      if job.Some? && reqs.Some? && |files| > 0 {
        pending := Some(Funnel.Snapshot(job.value, reqs.value, files));
      } else {
        pending := None;
      }
    }

    /** The body of the delayed callback scheduled by an accepted `triggerAnalysis`. */
    method CompleteAnalysis(snap: Funnel.Snapshot, date: Timestamp)
      requires Valid()
      modifies this
      ensures Valid()
      ensures State() == Funnel.Complete(old(State()), snap, date)
      ensures recentAnalyses[0].analyzedResumesCount == |snap.resumes|
      ensures recentAnalyses[1..] == old(recentAnalyses)[..|recentAnalyses| - 1]
    {
      var newAnalysis := Funnel.NewAnalysis(snap, |recentAnalyses|, date);
      recentAnalyses := Funnel.PushRecent(recentAnalyses, newAnalysis);
      isHiringProcessActive := false;
      currentStep := 0;
      selectedJob := None;
      requirements := None;
      resumes := [];
    }

    function CurrentSelectedJob(): (job: Option<JobOpening>)
      reads this
      ensures job == State().job
    {
      selectedJob
    }

    function CurrentRequirements(): (req: Option<HiringRequirements>)
      reads this
      ensures req == State().requirements
    {
      requirements
    }

    function CurrentResumes(): (files: seq<File>)
      reads this
      ensures files == State().resumes
    {
      resumes
    }
  }

  /** The documented scenario: start, pick a job, set requirements, upload one file,
      trigger, complete. The analysis counts one résumé and the funnel is idle again. */
  method HappyPath(service: HiringProcessService, job: JobOpening, req: HiringRequirements, file: File, date: Timestamp)
    requires service.Valid()
    modifies service
    ensures service.Valid()
    ensures service.State() == Funnel.Idle(service.recentAnalyses)
    ensures service.recentAnalyses != []
    ensures service.recentAnalyses[0].jobOpening == job && service.recentAnalyses[0].requirements == req
    ensures service.recentAnalyses[0].analyzedResumesCount == 1
  {
    service.StartHiringProcess();
    service.SelectJob(job);
    service.SetRequirements(req);
    service.UploadResumes([file]);
    var pending := service.TriggerAnalysis();
    assert pending == Some(Funnel.Snapshot(job, req, [file]));
    service.CompleteAnalysis(pending.value, date);
  }
}
