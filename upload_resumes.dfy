/** `UploadResumesComponent`: the last wizard screen, a thin guard layer over
    the funnel service it is given. */
module UploadResumes {
  import opened Common
  import Funnel
  import HiringProcess

  class UploadResumesComponent {
    const service: HiringProcess.HiringProcessService
    var selectedFiles: seq<File>
    var isLoading: bool

    ghost predicate Valid()
      reads this, service
    {
      service.Valid()
    }

    constructor (service: HiringProcess.HiringProcessService)
      requires service.Valid()
      ensures Valid() && this.service == service
      ensures selectedFiles == [] && !isLoading
    {
      this.service := service;
      selectedFiles := [];
      isLoading := false;
    }

    /** The file input's change event; `files` is `input.files`, null when the input has none. */
    method OnFileSelected(files: Option<seq<File>>)
      requires Valid()
      modifies this, service
      ensures Valid() && isLoading == old(isLoading)
      ensures files.Some? ==>
                selectedFiles == files.value && service.resumes == selectedFiles &&
                service.State() == Funnel.UploadResumes(old(service.State()), files.value)
      ensures files.None? ==>
                selectedFiles == old(selectedFiles) && service.State() == old(service.State())
    {
      if files.Some? {
        var list := files.value;
        selectedFiles := list;
        service.UploadResumes(list);
      }
    }

    /** Starts the analysis when at least one file was chosen. `triggered` says whether
        `triggerAnalysis` ran; `pending` is what it scheduled. The service's state does not change. */
    method Finish() returns (triggered: bool, pending: Option<Funnel.Snapshot>)
      requires Valid()
      modifies this
      ensures Valid() && selectedFiles == old(selectedFiles)
      ensures triggered <==> |selectedFiles| > 0
      ensures isLoading == (old(isLoading) || triggered)
      ensures pending == if triggered then Funnel.Capture(service.State()) else None
    {
      if |selectedFiles| > 0 {
        isLoading := true;
        triggered := true;
        pending := service.TriggerAnalysis();
      } else {
        triggered := false;
        pending := None;
      }
    }

    /** Going back is refused while the analysis is loading. */
    method Previous()
      requires Valid()
      modifies service
      ensures Valid()
      ensures isLoading ==> service.State() == old(service.State())
      ensures !isLoading ==> service.State() == Funnel.Previous(old(service.State()))
    {
      if isLoading {
        return;
      }
      service.PreviousStep();
    }
  }

  /** Once `finish` has started loading, no later use of the screen turns it off:
      the component never resets `isLoading`. */
  method LoadingSticks(screen: UploadResumesComponent, files: Option<seq<File>>)
    requires screen.Valid() && screen.isLoading
    modifies screen, screen.service
    ensures screen.Valid() && screen.isLoading
    ensures files.None? ==> screen.service.State() == old(screen.service.State())
  {
    screen.Previous();
    var _, _ := screen.Finish();
    screen.OnFileSelected(files);
  }
}
