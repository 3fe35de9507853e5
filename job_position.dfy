/** `JobPositionService`: the recruitment wizard. Its `currentProcess` record is
    replaced wholesale by every operation; the criteria catalogue is an array
    whose `selected` flags are flipped in place. */
module Recruitment {
  import opened Common
  import Seqs

  datatype JobPosition = JobPosition(id: string, title: string, department: string, icon: string)

  datatype AnalysisCriteria = AnalysisCriteria(id: string, title: string, description: string, selected: bool)

  datatype RecruitmentProcess = RecruitmentProcess(
    step: int,
    selectedPosition: Option<JobPosition>,
    selectedCriteria: seq<AnalysisCriteria>,
    uploadedFiles: seq<File>)

  const FirstStep: int := 1
  const LastStep: int := 3

  /** The process the wizard starts from and returns to on reset. */
  function InitialProcess(): (p: RecruitmentProcess)
    ensures p.step == FirstStep && p.selectedPosition.None? && p.uploadedFiles == []
    ensures p.selectedCriteria == []
  {
    RecruitmentProcess(FirstStep, None, [], [])
  }

  /** The six positions offered; their ids tell them apart. */
  function DefaultPositions(): (r: seq<JobPosition>)
    ensures |r| == 6
    ensures forall i, j :: 0 <= i < j < |r| ==> r[i].id != r[j].id
  {
    [ JobPosition("1", "Desenvolvedor Full Stack", "Tecnologia", "💻"),
      JobPosition("2", "Designer UI/UX", "Design", "🎨"),
      JobPosition("3", "Gerente de Projetos", "Gestão", "📊"),
      JobPosition("4", "Analista de Dados", "Data Science", "📈"),
      JobPosition("5", "Desenvolvedor Backend", "Tecnologia", "⚙️"),
      JobPosition("6", "Analista de Marketing", "Marketing", "📱") ]
  }

  /** The criteria catalogue as created: nothing selected. */
  function DefaultCriteria(): (r: seq<AnalysisCriteria>)
    ensures |r| == 6
    ensures forall i :: 0 <= i < |r| ==> !r[i].selected
  {
    [ AnalysisCriteria("1", "Experiência Profissional", "Anos de experiência na área e projetos relevantes", false),
      AnalysisCriteria("2", "Formação Acadêmica", "Graduação, pós-graduação e certificações", false),
      AnalysisCriteria("3", "Habilidades Técnicas", "Linguagens, frameworks e ferramentas específicas", false),
      AnalysisCriteria("4", "Soft Skills", "Comunicação, trabalho em equipe e liderança", false),
      AnalysisCriteria("5", "Idiomas", "Proficiência em idiomas estrangeiros", false),
      AnalysisCriteria("6", "Adequação Cultural", "Alinhamento com valores e cultura da empresa", false) ]
  }

  function IsSelected(c: AnalysisCriteria): bool
  {
    c.selected
  }

  /** `analysisCriteria.filter(c => c.selected)` */
  function SelectedOf(catalogue: seq<AnalysisCriteria>): (r: seq<AnalysisCriteria>)
    ensures |r| <= |catalogue|
    ensures forall c :: c in r ==> c in catalogue && c.selected
    ensures (forall c :: c in catalogue ==> !c.selected) ==> r == []
  {
    Seqs.Filter(catalogue, IsSelected)
  }

  function Unflagged(c: AnalysisCriteria): AnalysisCriteria
  {
    c.(selected := false)
  }

  /** The predicate of `removeFile`'s filter. */
  function NotNamed(name: string): File -> bool
  {
    (f: File) => f.name != name
  }

  /** `uploadedFiles.filter(f => f.name !== fileName)` */
  function WithoutFile(files: seq<File>, name: string): (r: seq<File>)
    ensures |r| <= |files|
    ensures forall f :: f in r ==> f in files && f.name != name
    ensures (forall f :: f in files ==> f.name != name) ==> r == files
  {
    Seqs.Filter(files, NotNamed(name))
  }

  /** `find(c => c.id === criteriaId)`: the position of the first entry with that id. */
  function FirstIndex(s: seq<AnalysisCriteria>, id: string): (r: Option<nat>)
    ensures r.Some? ==> r.value < |s| && s[r.value].id == id
    ensures r.Some? ==> forall j :: 0 <= j < r.value ==> s[j].id != id
    ensures r.None? ==> forall j :: 0 <= j < |s| ==> s[j].id != id
  {
    if s == [] then None
    else if s[0].id == id then Some(0)
    else match FirstIndex(s[1..], id)
      case None => None
      case Some(k) => Some(k + 1)
  }

  /** The catalogue after `toggleCriteria(id)`: the first entry with that id is flipped. */
  function Toggled(s: seq<AnalysisCriteria>, id: string): (r: seq<AnalysisCriteria>)
    ensures |r| == |s|
    ensures forall j :: 0 <= j < |s| ==> r[j].(selected := s[j].selected) == s[j]
  {
    match FirstIndex(s, id)
    case None => s
    case Some(i) => s[i := s[i].(selected := !s[i].selected)]
  }

  /** `find` depends on the ids only, not on the flags. */
  lemma {:induction false} FirstIndexIgnoresFlags(s: seq<AnalysisCriteria>, t: seq<AnalysisCriteria>, id: string)
    requires |s| == |t|
    requires forall j :: 0 <= j < |s| ==> s[j].id == t[j].id
    ensures FirstIndex(s, id) == FirstIndex(t, id)
  {
    if s != [] && s[0].id != id {
      FirstIndexIgnoresFlags(s[1..], t[1..], id);
    }
  }

  /** `toggleCriteria` flips exactly the matching entry; an unknown id leaves the catalogue alone. */
  lemma ToggleFlipsMatch(s: seq<AnalysisCriteria>, id: string)
    ensures FirstIndex(s, id).None? ==> Toggled(s, id) == s
    ensures FirstIndex(s, id).Some? ==>
      var i := FirstIndex(s, id).value;
      Toggled(s, id)[i].selected == !s[i].selected &&
      forall j :: 0 <= j < |s| && j != i ==> Toggled(s, id)[j] == s[j]
  {
  }

  /** Toggling the same id twice restores the catalogue, hence the selection too. */
  lemma ToggleTwice(s: seq<AnalysisCriteria>, id: string)
    ensures Toggled(Toggled(s, id), id) == s
    ensures SelectedOf(Toggled(Toggled(s, id), id)) == SelectedOf(s)
  {
    FirstIndexIgnoresFlags(s, Toggled(s, id), id);
  }

  /** After a toggle the selection holds every selected entry, in catalogue order, and nothing else. */
  lemma SelectedOfCharacterization(s: seq<AnalysisCriteria>, c: AnalysisCriteria)
    ensures c in SelectedOf(s) <==> c in s && c.selected
    ensures multiset(SelectedOf(s))[c] == if c.selected then multiset(s)[c] else 0
  {
    Seqs.FilterCount(s, IsSelected, c);
  }

  /** `removeFile` drops every file with the name and keeps each other file, with all its occurrences. */
  lemma WithoutFileCharacterization(files: seq<File>, name: string, f: File)
    ensures f in WithoutFile(files, name) ==> f.name != name
    ensures f.name != name ==> multiset(WithoutFile(files, name))[f] == multiset(files)[f]
  {
    Seqs.FilterCount(files, NotNamed(name), f);
  }

  /** Removing a name after `addFiles` is the same as removing it from both parts, so order is kept. */
  lemma RemoveAfterAdd(files: seq<File>, added: seq<File>, name: string)
    ensures WithoutFile(files + added, name) == WithoutFile(files, name) + WithoutFile(added, name)
  {
    Seqs.FilterConcat(files, added, NotNamed(name));
  }

  class JobPositionService {
    var currentProcess: RecruitmentProcess
    const jobPositions: seq<JobPosition>
    const analysisCriteria: array<AnalysisCriteria>

    /** The step stays in 1..3, the catalogue keeps its entries (only flags change), and the
        process's criteria are the selected catalogue entries in catalogue order. */
    ghost predicate Valid()
      reads this, analysisCriteria
    {
      FirstStep <= currentProcess.step <= LastStep &&
      analysisCriteria.Length == |DefaultCriteria()| &&
      (forall i :: 0 <= i < analysisCriteria.Length ==> Unflagged(analysisCriteria[i]) == DefaultCriteria()[i]) &&
      currentProcess.selectedCriteria == SelectedOf(analysisCriteria[..])
    }

    constructor ()
      ensures Valid() && fresh(analysisCriteria)
      ensures currentProcess == InitialProcess()
      ensures analysisCriteria[..] == DefaultCriteria()
      ensures jobPositions == DefaultPositions()
    {
      currentProcess := InitialProcess();
      jobPositions := DefaultPositions();
      var defaults := DefaultCriteria();
      analysisCriteria := new AnalysisCriteria[|defaults|](i requires 0 <= i < |defaults| => defaults[i]);
      new;
      assert analysisCriteria[..] == defaults;
    }

    method GetJobPositions() returns (positions: seq<JobPosition>)
      ensures positions == jobPositions
    {
      positions := jobPositions;
    }

    /** Hands out the catalogue itself, so callers see later flag changes. */
    method GetAnalysisCriteria() returns (criteria: array<AnalysisCriteria>)
      ensures criteria == analysisCriteria
    {
      criteria := analysisCriteria;
    }

    method SelectPosition(position: JobPosition)
      requires Valid()
      modifies this
      ensures Valid()
      ensures currentProcess == old(currentProcess).(selectedPosition := Some(position), step := 2)
    {
      currentProcess := currentProcess.(selectedPosition := Some(position), step := 2);
    }

    method ToggleCriteria(criteriaId: string)
      requires Valid()
      modifies this, analysisCriteria
      ensures Valid()
      ensures analysisCriteria[..] == Toggled(old(analysisCriteria[..]), criteriaId)
      ensures currentProcess == old(currentProcess).(selectedCriteria := SelectedOf(analysisCriteria[..]))
      ensures FirstIndex(old(analysisCriteria[..]), criteriaId).None? ==>
                analysisCriteria[..] == old(analysisCriteria[..]) && currentProcess == old(currentProcess)
    {
      var found := FirstIndex(analysisCriteria[..], criteriaId);
      if found.Some? {
        var i := found.value;
        var c := analysisCriteria[i];
        analysisCriteria[i] := c.(selected := !c.selected);
        currentProcess := currentProcess.(selectedCriteria := SelectedOf(analysisCriteria[..]));
      }
    }

    method GoToNextStep()
      requires Valid()
      modifies this
      ensures Valid()
      ensures currentProcess == if old(currentProcess.step) < LastStep
                                then old(currentProcess).(step := old(currentProcess.step) + 1)
                                else old(currentProcess)
    {
      var current := currentProcess;
      if current.step < LastStep {
        currentProcess := current.(step := current.step + 1);
      }
    }

    method GoToPreviousStep()
      requires Valid()
      modifies this
      ensures Valid()
      ensures currentProcess == if old(currentProcess.step) > FirstStep
                                then old(currentProcess).(step := old(currentProcess.step) - 1)
                                else old(currentProcess)
    {
      var current := currentProcess;
      if current.step > FirstStep {
        currentProcess := current.(step := current.step - 1);
      }
    }

    method ResetProcess()
      requires Valid()
      modifies this, analysisCriteria
      ensures Valid()
      ensures analysisCriteria[..] == DefaultCriteria()
      ensures currentProcess == InitialProcess()
    {
      for k := 0 to analysisCriteria.Length
        invariant forall j :: 0 <= j < k ==> analysisCriteria[j] == Unflagged(old(analysisCriteria[j]))
        invariant forall j :: k <= j < analysisCriteria.Length ==> analysisCriteria[j] == old(analysisCriteria[j])
      {
        analysisCriteria[k] := Unflagged(analysisCriteria[k]);
      }
      currentProcess := InitialProcess();
      assert analysisCriteria[..] == DefaultCriteria();
    }

    method AddFiles(files: seq<File>)
      requires Valid()
      modifies this
      ensures Valid()
      ensures currentProcess == old(currentProcess).(uploadedFiles := old(currentProcess.uploadedFiles) + files)
    {
      var current := currentProcess;
      currentProcess := current.(uploadedFiles := current.uploadedFiles + files);
    }

    method RemoveFile(fileName: string)
      requires Valid()
      modifies this
      ensures Valid()
      ensures currentProcess == old(currentProcess).(uploadedFiles := WithoutFile(old(currentProcess.uploadedFiles), fileName))
      ensures forall f :: f in currentProcess.uploadedFiles ==> f in old(currentProcess.uploadedFiles) && f.name != fileName
    {
      var current := currentProcess;
      currentProcess := current.(uploadedFiles := WithoutFile(current.uploadedFiles, fileName));
    }
  }

  /** Toggling the same criterion twice leaves the service exactly as it was. */
  method ToggleTwiceRestores(service: JobPositionService, criteriaId: string)
    requires service.Valid()
    modifies service, service.analysisCriteria
    ensures service.Valid()
    ensures service.analysisCriteria[..] == old(service.analysisCriteria[..])
    ensures service.currentProcess == old(service.currentProcess)
  {
    ghost var before := service.analysisCriteria[..];
    service.ToggleCriteria(criteriaId);
    service.ToggleCriteria(criteriaId);
    ToggleTwice(before, criteriaId);
  }
}
