/** `DetailViewModel`: the detail screen's mode machine (add, read, edit),
    its editable flag and the project its right button submits. The Rx
    wiring is reduced to one method per input event; the coordinator's
    `dismiss` is a returned flag and the use-case call a returned value. */
module Detail {
  import opened Wrappers
  import opened Domain

  datatype ViewMode = Add | Read | Edit

  /** What the right button asks of the use case. */
  datatype UseCaseCall = NoCall | CallCreate(project: Project) | CallUpdate(project: Project)

  /** The values `transform` hands to the view. */
  datatype Output = Output(projectTitle: string, projectDate: Date, projectDescription: string,
                           isEditable: bool, leftBarButtonText: string)

  /** The left button reads "Cancel" when adding and "Edit" otherwise. */
  function LeftBarButtonText(mode: ViewMode): (text: string)
    ensures text == "Cancel" <==> mode == Add
    ensures text != "Cancel" ==> text == "Edit"
  {
    if mode == Add then "Cancel" else "Edit"
  }

  /** The project the right button builds: the original's id and status,
      and each of title, description and date from the last edit if there
      is one, otherwise from the original. */
  function EditedProject(original: Project, title: Option<string>, description: Option<string>,
                         date: Option<Date>): (p: Project)
    ensures p.id == original.id && p.status == original.status
  {
    Project(original.id, title.GetOr(original.title), description.GetOr(original.description),
            date.GetOr(original.date), original.status)
  }

  lemma EditedProjectFields(original: Project, title: Option<string>, description: Option<string>, date: Option<Date>)
    ensures EditedProject(original, title, description, date).id == original.id
    ensures EditedProject(original, title, description, date).status == original.status
    ensures EditedProject(original, title, description, date).title == if title.Some? then title.value else original.title
    ensures EditedProject(original, title, description, date).description
         == if description.Some? then description.value else original.description
    ensures EditedProject(original, title, description, date).date == if date.Some? then date.value else original.date
    ensures title.None? && description.None? && date.None? ==> EditedProject(original, title, description, date) == original
  {
  }

  class DetailViewModel {
    var mode: ViewMode
    var project: Project
    /** The relays `transform` creates. */
    var isEditable: bool
    var currentTitle: Option<string>
    var currentDate: Option<Date>
    var currentDescription: Option<string>

    /** The screen is never editable while reading, and always editable
        while adding. */
    ghost predicate Valid()
      reads this
    {
      (isEditable ==> mode != Read) && (mode == Add ==> isEditable)
    }

    /** `init` followed by `transform`'s creation of the relays. */
    constructor (project: Project, mode: ViewMode)
      ensures Valid()
      ensures this.project == project && this.mode == mode
      ensures isEditable == (mode == Add)
      ensures currentTitle.None? && currentDate.None? && currentDescription.None?
    {
      this.project := project;
      this.mode := mode;
      isEditable := mode == Add;
      currentTitle, currentDate, currentDescription := None, None, None;
    }

    /** `transform`: fresh relays (editable exactly in add mode, no edits
        yet) and the outputs shown to the view. */
    method Transform() returns (out: Output)
      requires Valid()
      modifies this
      ensures Valid()
      ensures mode == old(mode) && project == old(project)
      ensures isEditable == (mode == Add)
      ensures currentTitle.None? && currentDate.None? && currentDescription.None?
      ensures out == Output(project.title, project.date, project.description, isEditable, LeftBarButtonText(mode))
    {
      isEditable := mode == Add;
      currentTitle, currentDate, currentDescription := None, None, None;
      out := Output(project.title, project.date, project.description, isEditable, LeftBarButtonText(mode));
    }

    method ChangeTitle(title: Option<string>)
      modifies this
      ensures currentTitle == title
      ensures mode == old(mode) && project == old(project) && isEditable == old(isEditable)
      ensures currentDate == old(currentDate) && currentDescription == old(currentDescription)
    {
      currentTitle := title;
    }

    method ChangeDate(date: Date)
      modifies this
      ensures currentDate == Some(date)
      ensures mode == old(mode) && project == old(project) && isEditable == old(isEditable)
      ensures currentTitle == old(currentTitle) && currentDescription == old(currentDescription)
    {
      currentDate := Some(date);
    }

    method ChangeDescription(description: Option<string>)
      modifies this
      ensures currentDescription == description
      ensures mode == old(mode) && project == old(project) && isEditable == old(isEditable)
      ensures currentTitle == old(currentTitle) && currentDate == old(currentDate)
    {
      currentDescription := description;
    }

    /** The left button: reading switches to editing and editing back to
        reading, each setting the flag to match; adding only dismisses. */
    method TapLeft() returns (dismiss: bool)
      requires Valid()
      modifies this
      ensures Valid()
      ensures old(mode) == Read ==> mode == Edit && isEditable && !dismiss
      ensures old(mode) == Edit ==> mode == Read && !isEditable && !dismiss
      ensures old(mode) == Add ==> mode == Add && isEditable == old(isEditable) && dismiss
      ensures project == old(project) && currentTitle == old(currentTitle)
      ensures currentDate == old(currentDate) && currentDescription == old(currentDescription)
    {
      dismiss := false;
      match mode
      case Read =>
        mode := Edit;
        isEditable := true;
      case Add =>
        dismiss := true;
      case Edit =>
        mode := Read;
        isEditable := false;
    }

    /** The right button: when editable, asks for an update in edit mode and
        a create otherwise, with the edited project; when not, asks nothing.
        It always dismisses, and changes no state itself. */
    method TapRight() returns (call: UseCaseCall, dismiss: bool)
      requires Valid()
      ensures dismiss
      ensures !isEditable ==> call == NoCall
      ensures mode == Read ==> call == NoCall
      ensures isEditable && mode == Edit ==>
                call == CallUpdate(EditedProject(project, currentTitle, currentDescription, currentDate))
      ensures isEditable && mode != Edit ==>
                call == CallCreate(EditedProject(project, currentTitle, currentDescription, currentDate))
      ensures call != NoCall ==> call.project.id == project.id && call.project.status == project.status
    {
      call := NoCall;
      if isEditable {
        var newProject := EditedProject(project, currentTitle, currentDescription, currentDate);
        call := if mode == Edit then CallUpdate(newProject) else CallCreate(newProject);
      }
      dismiss := true;
    }

    /** The use case's answer to that call: on success the screen keeps the
        returned project; on failure nothing changes. */
    method Receive(reply: Result<Project, string>)
      modifies this
      ensures project == if reply.Success? then reply.value else old(project)
      ensures mode == old(mode) && isEditable == old(isEditable)
      ensures currentTitle == old(currentTitle) && currentDate == old(currentDate)
      ensures currentDescription == old(currentDescription)
    {
      if reply.Success? {
        project := reply.value;
      }
    }
  }
}
