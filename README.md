# Recruiter front end: verified model of its client-side state machines

This project models, in Dafny, the client-side logic of an Angular recruiter
application (`meu-app-auth`). It covers:

- the **hiring funnel** (`HiringProcessService`): a step counter 0..3 (dashboard,
  job, requirements, résumés), an active flag, three selection slots and a
  recent-analyses history capped at five, newest first;
- the **recruitment wizard** (`JobPositionService`): a process record (step 1..3,
  position, criteria, uploaded files) and a fixed criteria catalogue whose
  `selected` flags are flipped in place;
- the **auth token slot** (`AuthService`): one `auth_token` entry in
  `localStorage`, with every storage access gated by the browser check, and the
  logged-in flag;
- the **auth interceptor**: attaches `x-auth-token` to outgoing requests when a
  non-empty token is stored;
- the **chat page** (`ChatComponent`): an append-only message log, the input box
  and a loading flag;
- the two **wizard screens** `UploadResumesComponent` and `SelectJobComponent`:
  guard layers over the funnel.

## Structure

| file | module | contents |
|---|---|---|
| common.dfy | `Common`, `Seqs` | `Option`, `File(name, handle)`, `Timestamp`; `Truthy`, JavaScript truthiness of a `string \| null` (the `if (token)` test of the interceptor and `if (this.selectedJobId)` of the job screen); `Filter` (JavaScript `Array.filter`) with its laws |
| hiring_models.dfy | `HiringModels` | `JobOpening`, `HiringRequirements`, `ResumeAnalysis` as plain records |
| funnel.dfy | `Funnel` | the funnel as a pure state machine: `State`, one function per transition, `Capture` (the validation of `triggerAnalysis`), `Complete` (its delayed callback), `Run` over operation sequences, and the lemmas relating transitions |
| hiring_process.dfy | `HiringProcess` | class `HiringProcessService`; each method `ensures State() == Funnel.X(old(State()))` |
| job_position.dfy | `Recruitment` | class `JobPositionService` with the catalogue as an `array<AnalysisCriteria>`, and the pure `FirstIndex`/`Toggled`/`SelectedOf`/`WithoutFile` that specify it |
| auth.dfy | `Auth` | class `AuthService` over a `map<string, string>` storage |
| auth_interceptor.dfy | `AuthInterceptor` | the pure `Intercept` and its use with an `AuthService` |
| chat.dfy | `Chat` | class `ChatComponent`; `IsWhitespace`, the ECMAScript WhiteSpace and LineTerminator characters that `String.prototype.trim` removes, and `Trim` over it |
| upload_resumes.dfy | `UploadResumes` | class `UploadResumesComponent` holding the funnel service |
| select_job.dfy | `SelectJob` | class `SelectJobComponent` holding the funnel service |

Two design points:

- **Asynchrony.** `triggerAnalysis` is split in two. `TriggerAnalysis` validates
  and returns `Some(snapshot)` of the job, requirements and résumés it captured,
  without changing any state. `CompleteAnalysis(snapshot, date)` is the body of the
  2-second `setTimeout` callback. The chat's subscription is split the same way
  into `SendMessage`, `OnReply` and `OnError`. HTTP results (login, register,
  reply) are method inputs.
- **Components.** The two wizard screens are their own classes with a `const
  service: HiringProcessService`, mirroring `inject(HiringProcessService)`. Their
  extra fields (`selectedFiles`, `isLoading`, `jobOpenings`, `selectedJobId`) live
  there. Their contracts are stated through the funnel's `State()`.

Notes on what the code does:

- `nextStep` at step 3 calls `triggerAnalysis`. It is not a no-op.
- `selectJob` has no guard against the idle state.
- The auth service stores only `auth_token`. It has no refresh token, user name,
  expiry check or refresh timer. At construction, logged in means "a non-empty
  token is stored". A successful login sets it whatever the token is, even an
  empty one.
- The history is two mock entries, not a fetched list. The analysis never fails.
- Uploads are not checked for MIME type or size anywhere in the code. The model
  therefore rejects no file.

One consequence of the code as written: `UploadResumesComponent` sets
`isLoading` and nothing ever clears it (`UploadResumes.LoadingSticks`). This
includes the case where `triggerAnalysis` rejects incomplete data. From then on
`previous` on that screen does nothing.

## Model

| member | source | states |
|---|---|---|
| Seqs.Filter | meu-app-auth/src/app/job-position.ts:111 | the result is no longer than the input, holds only input elements that pass the predicate, is the input when all pass and empty when none pass |
| Seqs.FilterConcat | meu-app-auth/src/app/job-position.ts:157 | filtering distributes over concatenation, so kept elements stay in input order |
| Seqs.FilterCount | meu-app-auth/src/app/job-position.ts:157 | a kept element keeps every occurrence, a dropped one has none |
| Funnel.CandidateLabel | meu-app-auth/src/app/services/hiring-process.ts:125 | `"Candidato "` followed by the character with code 65 + n, a letter A..F |
| Funnel.ResetSelections | meu-app-auth/src/app/services/hiring-process.ts:77-81 | the job and requirements are cleared, the résumé list is empty, and every other field is kept |
| Funnel.Start | meu-app-auth/src/app/services/hiring-process.ts:32-36 | step 1, active, all three slots empty, history kept |
| Funnel.Cancel | meu-app-auth/src/app/services/hiring-process.ts:38-42 | the dashboard state (step 0, inactive, slots empty) with the history kept |
| Funnel.Next | meu-app-auth/src/app/services/hiring-process.ts:44-51 | below step 3 the step goes up by one; at step 3 it stays; nothing but the step changes |
| Funnel.Previous | meu-app-auth/src/app/services/hiring-process.ts:53-60 | above step 1 the step goes down by one and nothing else changes; otherwise the funnel is cancelled to the dashboard |
| Funnel.SelectJob | meu-app-auth/src/app/services/hiring-process.ts:62-65 | the job slot holds the job; every other field is kept |
| Funnel.SetRequirements | meu-app-auth/src/app/services/hiring-process.ts:67-70 | the requirements slot holds the requirements; every other field is kept |
| Funnel.UploadResumes | meu-app-auth/src/app/services/hiring-process.ts:72-75 | the résumé slot holds exactly the given list; every other field is kept |
| Funnel.Capture | meu-app-auth/src/app/services/hiring-process.ts:110-115 | a snapshot exists exactly when a job, requirements and at least one résumé are present, and it holds exactly those |
| Funnel.NewAnalysis | meu-app-auth/src/app/services/hiring-process.ts:122-128 | the new record carries the snapshot's job and requirements, the number of résumés, the date and the label for the history length |
| Funnel.Take | meu-app-auth/src/app/services/hiring-process.ts:129 | `slice(0, n)`: the first min(length, n) elements of the list, in order |
| Funnel.PushRecent | meu-app-auth/src/app/services/hiring-process.ts:129 | the new analysis comes first, followed by the newest old entries; the length is min(old + 1, 5) |
| Funnel.SixthEvictsOldest | meu-app-auth/src/app/services/hiring-process.ts:129 | with five entries, adding one drops the oldest |
| Funnel.Complete | meu-app-auth/src/app/services/hiring-process.ts:121-135 | the completed funnel is idle (step 0, inactive, cleared selections). Its history starts with the snapshot's job, requirements and résumé count, labelled from the old history length. The old entries follow, truncated to five in all |
| Funnel.Apply | meu-app-auth/src/app/services/hiring-process.ts:32-137 | every transition keeps the step in 0..3 and the history at most five |
| Funnel.Run | meu-app-auth/src/app/services/hiring-process.ts:32-137 | after any sequence of operations the step is in 0..3 and the history has at most five entries |
| Funnel.StartOpensFirstStep | meu-app-auth/src/app/services/hiring-process.ts:32-36 | `start` from any state gives step 1, active, no job, no requirements, no résumés, history kept |
| Funnel.CancelReturnsToIdle | meu-app-auth/src/app/services/hiring-process.ts:38-42 | `cancel` gives the idle state from any state, is idempotent, and undoes `start` |
| Funnel.NextPreviousInverse | meu-app-auth/src/app/services/hiring-process.ts:44-60 | below step 3 `nextStep` adds exactly one and `previousStep` undoes it; above step 1 the converse; at step 3 the state is unchanged |
| Funnel.PreviousAtStartIsCancel | meu-app-auth/src/app/services/hiring-process.ts:53-60 | at step 1 or below `previousStep` is `cancel` |
| Funnel.SettersTouchOwnSlot | meu-app-auth/src/app/services/hiring-process.ts:62-75 | each setter changes its own slot only; step, active flag and history are untouched |
| Funnel.IncompleteDataIsRejected | meu-app-auth/src/app/services/hiring-process.ts:110-115 | nothing is captured exactly when the job, the requirements or the résumés are missing |
| Funnel.FullFunnel | meu-app-auth/src/app/services/hiring-process.ts:110-135 | start, select, set and upload give a snapshot of exactly those values; completing it counts the résumés and returns to idle |
| HiringProcess.MockAnalyses | meu-app-auth/src/app/services/hiring-process.ts:85-107 | the initial history is two entries, "Candidato A" then "Candidato B" |
| HiringProcess.HiringProcessService.constructor | meu-app-auth/src/app/services/hiring-process.ts:11-28 | the service starts idle with the mock history |
| HiringProcess.HiringProcessService.StartHiringProcess | meu-app-auth/src/app/services/hiring-process.ts:32-36 | the new state is `Funnel.Start` of the old one |
| HiringProcess.HiringProcessService.CancelHiringProcess | meu-app-auth/src/app/services/hiring-process.ts:38-42 | the new state is `Funnel.Cancel` of the old one |
| HiringProcess.HiringProcessService.NextStep | meu-app-auth/src/app/services/hiring-process.ts:44-51 | below step 3 it advances and schedules nothing; at step 3 the state is kept and it returns what `triggerAnalysis` captured |
| HiringProcess.HiringProcessService.PreviousStep | meu-app-auth/src/app/services/hiring-process.ts:53-60 | the new state is `Funnel.Previous` of the old one |
| HiringProcess.HiringProcessService.SelectJob | meu-app-auth/src/app/services/hiring-process.ts:62-65 | only the job slot changes |
| HiringProcess.HiringProcessService.SetRequirements | meu-app-auth/src/app/services/hiring-process.ts:67-70 | only the requirements slot changes |
| HiringProcess.HiringProcessService.UploadResumes | meu-app-auth/src/app/services/hiring-process.ts:72-75 | only the résumé slot changes |
| HiringProcess.HiringProcessService.ResetProcess | meu-app-auth/src/app/services/hiring-process.ts:77-81 | the three slots are cleared, nothing else changes |
| HiringProcess.HiringProcessService.TriggerAnalysis | meu-app-auth/src/app/services/hiring-process.ts:110-143 | a snapshot is captured exactly when job, requirements and at least one résumé are present; no state changes |
| HiringProcess.HiringProcessService.CompleteAnalysis | meu-app-auth/src/app/services/hiring-process.ts:121-137 | the new state is `Funnel.Complete` of the old one; the first entry counts the snapshot's résumés and the rest is the old history's prefix |
| HiringProcess.HappyPath | meu-app-auth/src/app/services/hiring-process.ts:110-135 | start, select, set, upload one file, trigger and complete leave the funnel idle with a first entry for that job and requirements counting one résumé |
| HiringProcess.HiringProcessService.CurrentSelectedJob | meu-app-auth/src/app/services/hiring-process.ts:146-148 | the funnel state's job slot |
| HiringProcess.HiringProcessService.CurrentRequirements | meu-app-auth/src/app/services/hiring-process.ts:150-152 | the funnel state's requirements slot |
| HiringProcess.HiringProcessService.CurrentResumes | meu-app-auth/src/app/services/hiring-process.ts:154-156 | the funnel state's résumé list |
| Recruitment.DefaultCriteria | meu-app-auth/src/app/job-position.ts:47-84 | the catalogue has six entries, none selected |
| Recruitment.FirstIndex | meu-app-auth/src/app/job-position.ts:104 | the result is the first position with the id, or none when no entry has it |
| Recruitment.Toggled | meu-app-auth/src/app/job-position.ts:103-106 | the toggled catalogue has the same length and differs from the old one at most in `selected` flags |
| Recruitment.InitialProcess | meu-app-auth/src/app/job-position.ts:30-34 | the wizard starts at step 1 with no position, no criteria and no files |
| Recruitment.DefaultPositions | meu-app-auth/src/app/job-position.ts:37-44 | six positions with pairwise distinct ids |
| Recruitment.SelectedOf | meu-app-auth/src/app/job-position.ts:111 | the selected criteria are drawn from the catalogue and all selected; an unselected catalogue yields none |
| Recruitment.WithoutFile | meu-app-auth/src/app/job-position.ts:157 | no remaining file has the name, every remaining file was in the list, and a list without that name is unchanged |
| Recruitment.FirstIndexIgnoresFlags | meu-app-auth/src/app/job-position.ts:104 | the lookup depends only on the ids |
| Recruitment.ToggleFlipsMatch | meu-app-auth/src/app/job-position.ts:103-113 | the matching entry's flag is flipped and every other entry is unchanged; an unknown id changes nothing |
| Recruitment.ToggleTwice | meu-app-auth/src/app/job-position.ts:103-113 | toggling an id twice restores the catalogue and its selection |
| Recruitment.SelectedOfCharacterization | meu-app-auth/src/app/job-position.ts:111 | the selection holds exactly the selected entries, each as often as in the catalogue |
| Recruitment.WithoutFileCharacterization | meu-app-auth/src/app/job-position.ts:153-159 | no file of that name remains; every other file keeps all its occurrences |
| Recruitment.RemoveAfterAdd | meu-app-auth/src/app/job-position.ts:145-159 | removing a name from old + added files equals removing it from each part, in order |
| Recruitment.JobPositionService.constructor | meu-app-auth/src/app/job-position.ts:29-84 | step 1, no position, no criteria, no files; the default positions and catalogue |
| Recruitment.JobPositionService.GetJobPositions | meu-app-auth/src/app/job-position.ts:86-88 | returns the position list |
| Recruitment.JobPositionService.GetAnalysisCriteria | meu-app-auth/src/app/job-position.ts:90-92 | returns the catalogue array itself (aliased) |
| Recruitment.JobPositionService.SelectPosition | meu-app-auth/src/app/job-position.ts:94-101 | sets the position and step 2; criteria and files unchanged |
| Recruitment.JobPositionService.ToggleCriteria | meu-app-auth/src/app/job-position.ts:103-114 | the catalogue becomes `Toggled`; the process's criteria become the selected entries in catalogue order; an unknown id changes nothing |
| Recruitment.JobPositionService.GoToNextStep | meu-app-auth/src/app/job-position.ts:116-124 | increments only below step 3, otherwise nothing changes; the step stays in 1..3 |
| Recruitment.JobPositionService.GoToPreviousStep | meu-app-auth/src/app/job-position.ts:126-134 | decrements only above step 1, otherwise nothing changes; the step stays in 1..3 |
| Recruitment.JobPositionService.ResetProcess | meu-app-auth/src/app/job-position.ts:136-143 | every flag is cleared, so the catalogue is the default again, and the process is the initial one |
| Recruitment.JobPositionService.AddFiles | meu-app-auth/src/app/job-position.ts:145-151 | the file list becomes the old list followed by the new files; nothing else changes |
| Recruitment.JobPositionService.RemoveFile | meu-app-auth/src/app/job-position.ts:153-159 | the file list becomes the old one without that name, each remaining file being an old one; nothing else changes |
| Recruitment.ToggleTwiceRestores | meu-app-auth/src/app/job-position.ts:103-114 | two toggles of one id leave catalogue and process as they were |
| Auth.AuthService.constructor | meu-app-auth/src/app/services/auth.ts:29-47 | logged in exactly when in a browser with a non-empty stored `auth_token` |
| Auth.AuthService.IsLoggedIn | meu-app-auth/src/app/services/auth.ts:49-51 | returns the current logged-in value |
| Auth.AuthService.Login | meu-app-auth/src/app/services/auth.ts:53-63 | the caller gets the outcome. On a response in a browser the token is stored under `auth_token` and the user is logged in. On an error, or outside a browser, storage and flag are unchanged |
| Auth.AuthService.Logout | meu-app-auth/src/app/services/auth.ts:65-71 | in a browser it removes `auth_token`, logs out and navigates to `/login`; otherwise nothing changes |
| Auth.AuthService.GetToken | meu-app-auth/src/app/services/auth.ts:73-78 | returns `StoredToken` of the service's platform flag and storage |
| Auth.StoredToken | meu-app-auth/src/app/services/auth.ts:73-78 | a token exists exactly in a browser with an `auth_token` entry, and it is that entry |
| Auth.AuthService.HasToken | meu-app-auth/src/app/services/auth.ts:80-85 | true exactly when in a browser with a non-empty stored token |
| Auth.AuthService.Register | meu-app-auth/src/app/services/auth.ts:87-89 | the outcome is passed through and no state changes |
| Auth.LoginThenGetToken | meu-app-auth/src/app/services/auth.ts:53-78 | after a successful login in a browser `getToken` returns that token |
| Auth.LogoutThenGetToken | meu-app-auth/src/app/services/auth.ts:65-78 | after logout in a browser `getToken` returns none and `/login` was visited |
| AuthInterceptor.Intercept | meu-app-auth/src/app/interceptors/auth-interceptor.ts:17-32 | a non-empty token sets `x-auth-token` to it and keeps every other header. An absent or empty token forwards the request unchanged. Only the headers ever differ |
| AuthInterceptor.InterceptIdempotent | meu-app-auth/src/app/interceptors/auth-interceptor.ts:21-25 | intercepting twice is intercepting once |
| AuthInterceptor.InterceptWith | meu-app-auth/src/app/interceptors/auth-interceptor.ts:17-32 | the header carries the stored token exactly when in a browser with a non-empty token; otherwise the request goes out as it is |
| Chat.TrimStartEmptyIff | meu-app-auth/src/app/pages/chat/chat.ts:44 | trimming the start leaves nothing exactly for blank text |
| Chat.TrimStart | meu-app-auth/src/app/pages/chat/chat.ts:44 | the result is a suffix of the text, every dropped character is whitespace, and it does not start with whitespace |
| Chat.TrimEnd | meu-app-auth/src/app/pages/chat/chat.ts:44 | the result is a prefix of the text, every dropped character is whitespace, and it does not end with whitespace |
| Chat.Trim | meu-app-auth/src/app/pages/chat/chat.ts:44 | the result is a prefix of the left-trimmed text, every character dropped from its end is whitespace, and it neither starts nor ends with whitespace |
| Chat.TrimEmptyIff | meu-app-auth/src/app/pages/chat/chat.ts:44 | `trim()` is empty exactly for empty or whitespace-only text |
| Chat.ChatComponent.constructor | meu-app-auth/src/app/pages/chat/chat.ts:24-28 | no messages, empty input, not loading |
| Chat.ChatComponent.NgOnInit | meu-app-auth/src/app/pages/chat/chat.ts:30-36 | appends exactly the bot greeting |
| Chat.ChatComponent.SendMessage | meu-app-auth/src/app/pages/chat/chat.ts:43-57 | blank input changes nothing and sends nothing. Otherwise it appends the untrimmed text as a user message, clears the input, sets loading and sends the original text |
| Chat.ChatComponent.OnReply | meu-app-auth/src/app/pages/chat/chat.ts:58-65 | appends the reply as a bot message and stops loading |
| Chat.ChatComponent.OnError | meu-app-auth/src/app/pages/chat/chat.ts:66-74 | appends the fixed apology and stops loading |
| Chat.Exchange | meu-app-auth/src/app/pages/chat/chat.ts:43-76 | a send and its completion only extend the log; a non-blank send adds two messages and ends loading |
| UploadResumes.UploadResumesComponent.constructor | meu-app-auth/src/app/components/upload-resumes/upload-resumes.ts:14-17 | no files, not loading |
| UploadResumes.UploadResumesComponent.OnFileSelected | meu-app-auth/src/app/components/upload-resumes/upload-resumes.ts:22-29 | with files, both the component and the funnel's résumé slot hold the same list; with none, nothing changes |
| UploadResumes.UploadResumesComponent.Finish | meu-app-auth/src/app/components/upload-resumes/upload-resumes.ts:31-40 | with at least one file it sets loading and triggers the analysis once; with none it does neither; the funnel state does not change |
| UploadResumes.UploadResumesComponent.Previous | meu-app-auth/src/app/components/upload-resumes/upload-resumes.ts:42-46 | a no-op while loading, otherwise `previousStep` |
| UploadResumes.LoadingSticks | meu-app-auth/src/app/components/upload-resumes/upload-resumes.ts:31-46 | once loading, no operation of the component resets it |
| SelectJob.MockOpenings | meu-app-auth/src/app/pages/select-job/select-job.ts:20-24 | three openings, job1, job2, job3 |
| SelectJob.SelectJobComponent.constructor | meu-app-auth/src/app/pages/select-job/select-job.ts:13-16 | no openings, no selected id |
| SelectJob.SelectJobComponent.NgOnInit | meu-app-auth/src/app/pages/select-job/select-job.ts:18-26 | loads the three openings and takes the funnel's current job id, or none |
| SelectJob.SelectJobComponent.SelectJob | meu-app-auth/src/app/pages/select-job/select-job.ts:28-31 | records the id here and the job in the funnel; the step does not move |
| SelectJob.SelectJobComponent.Next | meu-app-auth/src/app/pages/select-job/select-job.ts:33-39 | advances the funnel only when a non-empty id is chosen, otherwise nothing changes |
| SelectJob.SelectJobComponent.Cancel | meu-app-auth/src/app/pages/select-job/select-job.ts:41-43 | the funnel reaches its idle state |

## Left out

- HTTP (`HttpClient`), RxJS subjects and observables, Angular signals and dependency injection: only their current values are modelled, as fields; HTTP outcomes are method inputs.
- `services/chat.ts` (a one-line POST wrapper): the text handed to it is the result of `SendMessage`.
- `setTimeout`: the 2-second delay becomes the separate `CompleteAnalysis` step. Which order overlapping completions arrive in is left to the caller.
- `Date.now()` / `new Date()`: timestamps are integers supplied by the caller. The mock dates are `now` minus one and two days. Nothing is stated about time.
- `alert` and `console` calls, DOM scrolling (`scrollToBottom`) and the `HTMLInputElement` access: user-interface side effects only; `input.files` becomes an `Option` parameter.
- Pages `dashboard` and `login`, and `app.config.ts` / `app.routes.ts`: delegation and framework wiring. `guards/auth-guard` and `models/hiring.models` are not part of this model; their types are plain records.
- AuthInterceptor.Intercept: header names are compared exactly and each header holds one value. Angular's `HttpHeaders` folds names to lower case and can hold several values, which the model does not capture.
- Chat.ChatComponent.OnReply: the reply is taken to be a string. A malformed response whose `reply` is missing is not modelled.
- Recruitment.JobPositionService.ToggleCriteria: `selectedCriteria` holds copies of the catalogue entries, while the source shares the same objects. This is equivalent here, because the copies are recomputed whenever a flag changes and reset clears them.
- HiringProcess.HiringProcessService.CompleteAnalysis: it requires the invariant that the history has at most five entries, which is what keeps `String.fromCharCode(65 + n)` within A..F. The constructor establishes it and every method keeps it.
