/** The event dialog: it opens on an existing event (to edit it) or on a day (to create one),
    checks the title and the description, and then either updates or creates the event. */
module EventModal {
  import opened Common
  import opened Types

  const NoUser := "Usuario no autenticado"
  const TitleRequired := "El título es requerido"
  const DescriptionRequired := "La descripción es requerida"
  const UpdateFailed := "Error al actualizar el evento"
  const CreateFailed := "Error al crear el evento"
  const SaveThrew := "Error inesperado al guardar el evento"

  /** The time a new event starts with. */
  const DefaultTime := "09:00"

  datatype EventFields = EventFields(title: string, description: string, date: string, time: string)

  /** A change event of one named input, with the value it carries. */
  datatype EventInput =
    | TitleInput(title: string)
    | DescriptionInput(description: string)
    | DateInput(date: string)
    | TimeInput(time: string)

  /** The write `handleSubmit` asks of the backend: an update of an existing event, or the
      creation of one owned by the user. */
  datatype EventWrite =
    | UpdateEvent(id: string, fields: EventFields)
    | CreateEvent(fields: EventFields, createdBy: string)

  /** `a || b` on strings: `a` unless it is empty. */
  function OrElse(a: string, b: string): (r: string)
    ensures a != "" ==> r == a
    ensures a == "" ==> r == b
  {
    if a != "" then a else b
  }

  /** The form the dialog opens with: each field of `event` when there is one and the field is
      not empty, otherwise the empty string, `selectedDate` or nine o'clock. */
  function InitialFields(event: Option<Event>, selectedDate: string): (f: EventFields)
    ensures event.None? ==> f == EventFields("", "", selectedDate, DefaultTime)
    ensures event.Some? ==> f.title == event.value.title && f.description == event.value.description
    ensures event.Some? ==> f.date == OrElse(event.value.date, selectedDate)
    ensures event.Some? ==> f.time == OrElse(event.value.time, DefaultTime)
  {
    match event
    case None => EventFields("", "", selectedDate, DefaultTime)
    case Some(e) =>
      EventFields(OrElse(e.title, ""), OrElse(e.description, ""), OrElse(e.date, selectedDate), OrElse(e.time, DefaultTime))
  }

  /** Opening an event whose date and time are set and saving it untouched sends back exactly
      its own four fields. */
  lemma EditingKeepsStoredFields(e: Event, selectedDate: string)
    requires e.date != "" && e.time != ""
    ensures InitialFields(Some(e), selectedDate) == EventFields(e.title, e.description, e.date, e.time)
  {
  }

  /** The form after one input event: the named field takes the value, the others are kept. */
  function Apply(fields: EventFields, input: EventInput): (r: EventFields)
    ensures r.title == (if input.TitleInput? then input.title else fields.title)
    ensures r.description == (if input.DescriptionInput? then input.description else fields.description)
    ensures r.date == (if input.DateInput? then input.date else fields.date)
    ensures r.time == (if input.TimeInput? then input.time else fields.time)
  {
    match input
    case TitleInput(v) => fields.(title := v)
    case DescriptionInput(v) => fields.(description := v)
    case DateInput(v) => fields.(date := v)
    case TimeInput(v) => fields.(time := v)
  }

  /** The message of the first guard of `handleSubmit` that fails: the user, the title, the
      description; the date and the time are not checked. `None` when all pass. */
  function Rejection(user: Option<User>, fields: EventFields): (msg: Option<string>)
    ensures msg.None? <==> user.Some? && !IsBlank(fields.title) && !IsBlank(fields.description)
    ensures user.None? ==> msg == Some(NoUser)
    ensures user.Some? && IsBlank(fields.title) ==> msg == Some(TitleRequired)
    ensures msg == Some(DescriptionRequired) <==>
      user.Some? && !IsBlank(fields.title) && IsBlank(fields.description)
  {
    if user.None? then Some(NoUser)
    else if IsBlank(fields.title) then Some(TitleRequired)
    else if IsBlank(fields.description) then Some(DescriptionRequired)
    else None
  }

  /** The write a form that passed the guards asks for: an update of the event being edited,
      otherwise a creation owned by the user. */
  function WriteFor(event: Option<Event>, user: User, fields: EventFields): (w: EventWrite)
    ensures w.fields == fields
    ensures w.UpdateEvent? <==> event.Some?
    ensures w.UpdateEvent? ==> w.id == event.value.id
    ensures w.CreateEvent? ==> w.createdBy == user.id
  {
    if event.Some? then UpdateEvent(event.value.id, fields) else CreateEvent(fields, user.id)
  }

  /** The message a backend error shows: it names the write that failed. */
  function FailureMessage(event: Option<Event>): (msg: string)
    ensures msg == UpdateFailed <==> event.Some?
    ensures msg == CreateFailed <==> event.None?
  {
    if event.Some? then UpdateFailed else CreateFailed
  }

  class EventForm {
    /** The event being edited, or `None` for a new one. */
    const event: Option<Event>
    var formData: EventFields
    var loading: bool
    var error: string

    constructor (event: Option<Event>, selectedDate: string)
      ensures this.event == event && formData == InitialFields(event, selectedDate)
      ensures !loading && error == ""
    {
      this.event := event;
      formData := InitialFields(event, selectedDate);
      loading, error := false, "";
    }

    /** `handleInputChange`: the named field takes the value and the error is cleared. */
    method HandleInputChange(input: EventInput)
      modifies this`formData, this`error
      ensures formData == Apply(old(formData), input) && error == ""
    {
      formData := Apply(formData, input);
      error := "";
    }

    /** `handleSubmit`, with the user and the backend's answer to the write as parameters.
        `write` is the write asked of the backend, if any; `saved` says whether
        `onEventSaved` and `onClose` are called. The form itself is never changed. */
    method Submit(user: Option<User>, outcome: Backend) returns (write: Option<EventWrite>, saved: bool)
      modifies this`loading, this`error
      ensures Rejection(user, formData).Some? ==>
        && error == Rejection(user, formData).value && loading == old(loading)
        && write.None? && !saved
      ensures Rejection(user, formData).None? ==>
        && write == Some(WriteFor(event, user.value, formData))
        && !loading
        && (saved <==> outcome.Succeeded?)
        && (outcome.Succeeded? ==> error == "")
        && (outcome.Failed? ==> error == FailureMessage(event))
        && (outcome.Threw? ==> error == SaveThrew)
    {
      write, saved := None, false;
      var rejection := Rejection(user, formData);
      if rejection.Some? {
        error := rejection.value;
        return;
      }
      loading := true;
      error := "";
      if event.Some? {
        write := Some(UpdateEvent(event.value.id, formData));
      } else {
        write := Some(CreateEvent(formData, user.value.id));
      }
      match outcome {
        case Failed(_) =>
          error := if event.Some? then UpdateFailed else CreateFailed;
        case Threw(_) => error := SaveThrew;
        case Succeeded => saved := true;
      }
      loading := false;
    }
  }
}
