/** The hiring funnel as a pure state machine: the abstract value of
    `HiringProcessService` and the transitions its methods perform. */
module Funnel {
  import opened Common
  import opened HiringModels

  /** Step 0 is the dashboard, 1 selects the job, 2 sets requirements, 3 uploads résumés. */
  const LastStep: int := 3

  /** `recentAnalyses` keeps only the five newest entries. */
  const MaxRecent: nat := 5

  datatype State = State(
    step: int,
    active: bool,
    job: Option<JobOpening>,
    requirements: Option<HiringRequirements>,
    resumes: seq<File>,
    recent: seq<ResumeAnalysis>)

  /** What an accepted `triggerAnalysis` captures for its delayed completion. */
  datatype Snapshot = Snapshot(job: JobOpening, requirements: HiringRequirements, resumes: seq<File>)

  /** The invariant every transition keeps. */
  ghost predicate Valid(s: State)
  {
    0 <= s.step <= LastStep && |s.recent| <= MaxRecent
  }

  /** The dashboard state: inactive, step 0, nothing selected; the history is kept. */
  function Idle(recent: seq<ResumeAnalysis>): State
  {
    State(0, false, None, None, [], recent)
  }

  /** `resetProcess`: empties the three selection slots. */
  function ResetSelections(s: State): (r: State)
    ensures r.job.None? && r.requirements.None? && r.resumes == []
    ensures r.(job := s.job, requirements := s.requirements, resumes := s.resumes) == s
  {
    s.(job := None, requirements := None, resumes := [])
  }

  /** `startHiringProcess`. */
  function Start(s: State): (r: State)
    ensures r.step == 1 && r.active
    ensures r.job.None? && r.requirements.None? && r.resumes == [] && r.recent == s.recent
  {
    ResetSelections(s).(active := true, step := 1)
  }

  /** `cancelHiringProcess`. */
  function Cancel(s: State): (r: State)
    ensures r == Idle(s.recent)
  {
    ResetSelections(s.(active := false, step := 0))
  }

  /** `nextStep` as far as the state goes; at the last step it only triggers the analysis. */
  function Next(s: State): (r: State)
    ensures s.step < LastStep ==> r.step == s.step + 1
    ensures s.step >= LastStep ==> r.step == s.step
    ensures r.(step := s.step) == s
  {
    if s.step < LastStep then s.(step := s.step + 1) else s
  }

  /** `previousStep`. */
  function Previous(s: State): (r: State)
    ensures s.step > 1 ==> r.step == s.step - 1 && r.(step := s.step) == s
    ensures s.step <= 1 ==> r == Idle(s.recent)
  {
    if s.step > 1 then s.(step := s.step - 1) else Cancel(s)
  }

  /** `selectJob`: records the job; the step does not move. */
  function SelectJob(s: State, job: JobOpening): (r: State)
    ensures r.job == Some(job) && r.(job := s.job) == s
  {
    s.(job := Some(job))
  }

  /** `setRequirements`. */
  function SetRequirements(s: State, requirements: HiringRequirements): (r: State)
    ensures r.requirements == Some(requirements) && r.(requirements := s.requirements) == s
  {
    s.(requirements := Some(requirements))
  }

  /** `uploadResumes`: the list replaces the previous one. */
  function UploadResumes(s: State, files: seq<File>): (r: State)
    ensures r.resumes == files && r.(resumes := s.resumes) == s
  {
    s.(resumes := files)
  }

  /** The validation of `triggerAnalysis`: a job, requirements and at least one résumé. */
  function Capture(s: State): (r: Option<Snapshot>)
    ensures r.Some? <==> s.job.Some? && s.requirements.Some? && s.resumes != []
    ensures r.Some? ==> r.value.job == s.job.value && r.value.requirements == s.requirements.value && r.value.resumes == s.resumes
  {
    if s.job.Some? && s.requirements.Some? && |s.resumes| > 0
    then Some(Snapshot(s.job.value, s.requirements.value, s.resumes))
    else None
  }

  /** `Candidato ${String.fromCharCode(65 + n)}`: the simulated winner is A, B, C, ... */
  function CandidateLabel(n: nat): (text: string)
    requires n <= MaxRecent
    ensures |text| == 11 && text[..10] == "Candidato "
    ensures text[10] as int == 65 + n && 'A' <= text[10] <= 'F'
  {
    "Candidato " + [(65 + n) as char]
  }

  /** `slice(0, n)`: the first `n` elements, or all of them when there are fewer. */
  function Take<T>(s: seq<T>, n: nat): (r: seq<T>)
    ensures |r| == if |s| <= n then |s| else n
    ensures r == s[..|r|]
  {
    if |s| <= n then s else s[..n]
  }

  /** `[a, ...recent].slice(0, 5)`: the new entry first, then the newest old ones. */
  function PushRecent(recent: seq<ResumeAnalysis>, a: ResumeAnalysis): (r: seq<ResumeAnalysis>)
    ensures |r| == if |recent| < MaxRecent then |recent| + 1 else MaxRecent
    ensures r[0] == a
    ensures r[1..] == recent[..|r| - 1]
  {
    var r := Take([a] + recent, MaxRecent);
    assert r[1..] == ([a] + recent)[1..|r|];
    r
  }

  /** The record built by the completion callback. */
  function NewAnalysis(snap: Snapshot, historyLength: nat, date: Timestamp): (a: ResumeAnalysis)
    requires historyLength <= MaxRecent
    ensures a.jobOpening == snap.job && a.requirements == snap.requirements
    ensures a.analyzedResumesCount == |snap.resumes| && a.analysisDate == date
    ensures a.bestCandidate == CandidateLabel(historyLength)
  {
    ResumeAnalysis(snap.job, snap.requirements, CandidateLabel(historyLength), |snap.resumes|, date)
  }

  /** The completion callback of `triggerAnalysis`: record the result, then go back to the dashboard. */
  function Complete(s: State, snap: Snapshot, date: Timestamp): (r: State)
    requires |s.recent| <= MaxRecent
    ensures r == Idle(r.recent)
    ensures |r.recent| == if |s.recent| < MaxRecent then |s.recent| + 1 else MaxRecent
    ensures r.recent[0] == NewAnalysis(snap, |s.recent|, date)
    ensures r.recent[1..] == s.recent[..|r.recent| - 1]
  {
    Cancel(s.(recent := PushRecent(s.recent, NewAnalysis(snap, |s.recent|, date))))
  }

  /** Every way the service's state can change. */
  datatype Op =
    | OpStart
    | OpCancel
    | OpNext
    | OpPrevious
    | OpSelectJob(job: JobOpening)
    | OpSetRequirements(requirements: HiringRequirements)
    | OpUploadResumes(files: seq<File>)
    | OpComplete(snap: Snapshot, date: Timestamp)

  function Apply(s: State, op: Op): (r: State)
    requires Valid(s)
    ensures Valid(r)
  {
    match op
    case OpStart => Start(s)
    case OpCancel => Cancel(s)
    case OpNext => Next(s)
    case OpPrevious => Previous(s)
    case OpSelectJob(job) => SelectJob(s, job)
    case OpSetRequirements(req) => SetRequirements(s, req)
    case OpUploadResumes(files) => UploadResumes(s, files)
    case OpComplete(snap, date) => Complete(s, snap, date)
  }

  /** The state after a whole session of operations: step and history stay in bounds throughout. */
  function Run(s: State, ops: seq<Op>): (r: State)
    requires Valid(s)
    ensures Valid(r)
    ensures 0 <= r.step <= LastStep && |r.recent| <= MaxRecent
    decreases |ops|
  {
    if ops == [] then s else Run(Apply(s, ops[0]), ops[1..])
  }

  /** `start` from any state opens step 1 with empty selections. */
  lemma StartOpensFirstStep(s: State)
    ensures Start(s) == Idle(s.recent).(step := 1, active := true)
  {
  }

  /** `cancel` reaches the dashboard state from anywhere, is idempotent and undoes `start`. */
  lemma CancelReturnsToIdle(s: State)
    ensures Cancel(s) == Idle(s.recent)
    ensures Cancel(Cancel(s)) == Cancel(s)
    ensures Cancel(Start(s)) == Cancel(s)
  {
  }

  /** Between steps 1 and 3, `previousStep` undoes `nextStep` and the other way round. */
  lemma NextPreviousInverse(s: State)
    ensures 1 <= s.step < LastStep ==> Previous(Next(s)) == s && Next(s).step == s.step + 1
    ensures 1 < s.step <= LastStep ==> Next(Previous(s)) == s && Previous(s).step == s.step - 1
    ensures s.step >= LastStep ==> Next(s) == s
  {
  }

  /** At step 1 or below, `previousStep` is `cancel`. */
  lemma PreviousAtStartIsCancel(s: State)
    requires s.step <= 1
    ensures Previous(s) == Cancel(s)
  {
  }

  /** Each setter replaces its own slot and nothing else. */
  lemma SettersTouchOwnSlot(s: State, job: JobOpening, req: HiringRequirements, files: seq<File>)
    ensures SelectJob(s, job).(job := s.job) == s
    ensures SetRequirements(s, req).(requirements := s.requirements) == s
    ensures UploadResumes(s, files).(resumes := s.resumes) == s
  {
  }

  /** Missing data makes `triggerAnalysis` capture nothing, so no completion is scheduled. */
  lemma IncompleteDataIsRejected(s: State)
    ensures s.job.None? || s.requirements.None? || s.resumes == [] <==> Capture(s).None?
  {
  }

  /** The funnel's whole path: after `start` and the three setters the analysis sees
      exactly the chosen values, counts the résumés and leaves the funnel idle. */
  lemma {:induction false} FullFunnel(s: State, job: JobOpening, req: HiringRequirements, files: seq<File>, date: Timestamp)
    requires Valid(s) && files != []
    ensures var t := UploadResumes(SetRequirements(SelectJob(Start(s), job), req), files);
            Capture(t) == Some(Snapshot(job, req, files)) &&
            Complete(t, Capture(t).value, date) == Idle(PushRecent(s.recent, NewAnalysis(Snapshot(job, req, files), |s.recent|, date))) &&
            Complete(t, Capture(t).value, date).recent[0].analyzedResumesCount == |files|
  {
  }

  /** Adding a sixth entry evicts the oldest. */
  lemma SixthEvictsOldest(recent: seq<ResumeAnalysis>, a: ResumeAnalysis)
    requires |recent| == MaxRecent
    ensures PushRecent(recent, a) == [a] + recent[..MaxRecent - 1]
  {
  }
}
