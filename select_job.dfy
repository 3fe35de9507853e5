/** `SelectJobComponent`: the first wizard screen. It lists three mock
    openings, remembers the chosen id and only advances when one is chosen. */
module SelectJob {
  import opened Common
  import opened HiringModels
  import Funnel
  import HiringProcess

  /** The openings `ngOnInit` loads. */
  function MockOpenings(): (r: seq<JobOpening>)
    ensures |r| == 3 && r[0].id == "job1" && r[1].id == "job2" && r[2].id == "job3"
  {
    [ JobOpening("job1", "Desenvolvedor Frontend Angular", Some("Vaga para desenvolvedor com experiência em Angular 17+.")),
      JobOpening("job2", "Engenheiro de Dados Pleno", Some("Experiência com pipelines de dados e cloud.")),
      JobOpening("job3", "UX Designer Senior", Some("Foco em design de interfaces para aplicações web.")) ]
  }

  class SelectJobComponent {
    const service: HiringProcess.HiringProcessService
    var jobOpenings: seq<JobOpening>
    var selectedJobId: Option<string>

    ghost predicate Valid()
      reads this, service
    {
      service.Valid()
    }

    constructor (service: HiringProcess.HiringProcessService)
      requires service.Valid()
      ensures Valid() && this.service == service
      ensures jobOpenings == [] && selectedJobId == None
    {
      this.service := service;
      jobOpenings := [];
      selectedJobId := None;
    }

    /** Loads the openings and takes over the id of the job the funnel already holds. */
    method NgOnInit()
      requires Valid()
      modifies this
      ensures Valid()
      ensures jobOpenings == MockOpenings()
      ensures service.selectedJob.Some? ==> selectedJobId == Some(service.selectedJob.value.id)
      ensures service.selectedJob.None? ==> selectedJobId == None
    {
      jobOpenings := MockOpenings();
      var current := service.CurrentSelectedJob();
      selectedJobId := if current.Some? then Some(current.value.id) else None;
    }

    /** Records the choice here and in the funnel; the step does not move. */
    method SelectJob(job: JobOpening)
      requires Valid()
      modifies this, service
      ensures Valid() && jobOpenings == old(jobOpenings)
      ensures selectedJobId == Some(job.id)
      ensures service.State() == Funnel.SelectJob(old(service.State()), job)
      ensures service.currentStep == old(service.currentStep)
    {
      selectedJobId := Some(job.id);
      service.SelectJob(job);
    }

    /** Advances the funnel only when a job id is chosen; returns what `nextStep` scheduled. */
    method Next() returns (pending: Option<Funnel.Snapshot>)
      requires Valid()
      modifies service
      ensures Valid()
      ensures Truthy(selectedJobId) ==>
                service.State() == Funnel.Next(old(service.State())) &&
                pending == (if old(service.currentStep) < Funnel.LastStep then None else Funnel.Capture(old(service.State())))
      ensures !Truthy(selectedJobId) ==>
                service.State() == old(service.State()) && pending == None
    {
      if Truthy(selectedJobId) {
        pending := service.NextStep();
      } else {
        pending := None;
      }
    }

    method Cancel()
      requires Valid()
      modifies service
      ensures Valid()
      ensures service.State() == Funnel.Idle(old(service.recentAnalyses))
    {
      service.CancelHiringProcess();
    }
  }
}
