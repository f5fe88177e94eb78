/** The important-events page: the list of events and the add / edit
    modal with its form. */
module Events {
  import opened Wrappers

  /** An event as the server returns it. */
  datatype ImportantEvent = ImportantEvent(
    id: string,
    title: string,
    eventType: string,
    date: string,
    isRecurring: bool,
    note: Option<string>,
    relatedPerson: Option<string>,
    reminderDays: Option<int>)

  /** The modal's form. */
  datatype FormData = FormData(
    title: string,
    eventType: string,
    date: string,
    isRecurring: bool,
    note: string,
    relatedPerson: string,
    reminderDays: int)

  const DefaultForm: FormData := FormData("", "birthday", "", true, "", "", 1)

  datatype EventType = EventType(value: string, name: string, icon: string, color: string)

  const EventTypes: seq<EventType> := [
    EventType("birthday", "生日", "cake-variant", "#ec4899"),
    EventType("anniversary", "纪念日", "heart", "#ef4444"),
    EventType("reminder", "提醒", "bell", "#f59e0b"),
    EventType("goal", "目标", "target", "#10b981"),
    EventType("custom", "其他", "calendar", "#6b7280")
  ]

  /** `getEventType`: the first type with that value, or the "custom" type. */
  function GetEventType(value: string): (t: EventType)
    ensures t in EventTypes
    ensures (exists i :: 0 <= i < |EventTypes| && EventTypes[i].value == value) ==> t.value == value
    ensures (forall i :: 0 <= i < |EventTypes| ==> EventTypes[i].value != value) ==> t == EventTypes[4] && t.value == "custom"
  {
    if value == "birthday" then EventTypes[0]
    else if value == "anniversary" then EventTypes[1]
    else if value == "reminder" then EventTypes[2]
    else if value == "goal" then EventTypes[3]
    else EventTypes[4]
  }

  /** The form `handleOpenEdit` fills from an event: missing note and person
      become "", a missing or zero reminder becomes one day. */
  function FormOf(event: ImportantEvent): (form: FormData)
    ensures form.title == event.title && form.eventType == event.eventType && form.date == event.date
    ensures form.isRecurring == event.isRecurring
    ensures form.note == event.note.GetOr("") && form.relatedPerson == event.relatedPerson.GetOr("")
    ensures event.reminderDays.Some? && event.reminderDays.value != 0 ==> form.reminderDays == event.reminderDays.value
    ensures event.reminderDays.None? || event.reminderDays.value == 0 ==> form.reminderDays == 1
  {
    FormData(
      event.title, event.eventType, event.date, event.isRecurring,
      event.note.GetOr(""), event.relatedPerson.GetOr(""),
      if event.reminderDays.Some? && event.reminderDays.value != 0 then event.reminderDays.value else 1)
  }

  /** A form is sent only with a title and a date. */
  function Complete(form: FormData): (complete: bool)
    ensures complete <==> form.title != "" && form.date != ""
  {
    form.title != "" && form.date != ""
  }

  /** The call a save makes. */
  datatype Request = Update(eventId: string, form: FormData) | Create(form: FormData)

  datatype Alert = Alert(title: string, message: string)

  const MissingFieldsAlert: Alert := Alert("提示", "请填写事件名称和日期")
  const SaveFailedAlert: Alert := Alert("保存失败", "请稍后重试")

  class Page {
    var showAddModal: bool
    var editingEvent: Option<ImportantEvent>
    var formData: FormData

    constructor ()
      ensures !showAddModal && editingEvent.None? && formData == DefaultForm
    {
      showAddModal := false;
      editingEvent := None;
      formData := DefaultForm;
    }

    /** `resetForm`: the default form, and no event being edited. */
    method ResetForm()
      modifies this`formData, this`editingEvent
      ensures formData == DefaultForm && editingEvent.None?
    {
      formData := DefaultForm;
      editingEvent := None;
    }

    /** `handleOpenAdd`: reset, then show the modal. */
    method OpenAdd()
      modifies this
      ensures formData == DefaultForm && editingEvent.None? && showAddModal
    {
      ResetForm();
      showAddModal := true;
    }

    method OpenEdit(event: ImportantEvent)
      modifies this
      ensures formData == FormOf(event) && editingEvent == Some(event) && showAddModal
    {
      formData := FormOf(event);
      editingEvent := Some(event);
      showAddModal := true;
    }

    /** The type chips set only the type. */
    method SelectType(value: string)
      modifies this`formData
      ensures formData == old(formData).(eventType := value)
    {
      formData := formData.(eventType := value);
    }

    /** The recurring checkbox flips only `isRecurring`. */
    method ToggleRecurring()
      modifies this`formData
      ensures formData == old(formData).(isRecurring := !old(formData).isRecurring)
    {
      formData := formData.(isRecurring := !formData.isRecurring);
    }

    method SetTitle(text: string)
      modifies this`formData
      ensures formData == old(formData).(title := text)
    {
      formData := formData.(title := text);
    }

    method SetDate(text: string)
      modifies this`formData
      ensures formData == old(formData).(date := text)
    {
      formData := formData.(date := text);
    }

    /** The close button hides the modal and resets the form. */
    method CloseModal()
      modifies this
      ensures !showAddModal && formData == DefaultForm && editingEvent.None?
    {
      showAddModal := false;
      ResetForm();
    }

    /** `handleSave`: an incomplete form raises an alert and sends nothing;
        otherwise the form goes to `updateEvent` when an event is being
        edited and to `createEvent` when not. Success closes the modal and
        resets the form; failure raises an alert and keeps everything. */
    method Save(apiSucceeds: bool) returns (request: Option<Request>, alert: Option<Alert>)
      modifies this
      ensures !Complete(old(formData)) ==> request.None? && alert == Some(MissingFieldsAlert)
      ensures Complete(old(formData)) && old(editingEvent).Some? ==> request == Some(Update(old(editingEvent).value.id, old(formData)))
      ensures Complete(old(formData)) && old(editingEvent).None? ==> request == Some(Create(old(formData)))
      ensures request.Some? && apiSucceeds ==> alert.None? && !showAddModal && formData == DefaultForm && editingEvent.None?
      ensures request.Some? && !apiSucceeds ==> alert == Some(SaveFailedAlert)
      ensures request.None? || !apiSucceeds ==> unchanged(this)
    {
      if formData.title == "" || formData.date == "" {
        return None, Some(MissingFieldsAlert);
      }
      if editingEvent.Some? {
        request := Some(Update(editingEvent.value.id, formData));
      } else {
        request := Some(Create(formData));
      }
      if apiSucceeds {
        showAddModal := false;
        ResetForm();
        alert := None;
      } else {
        alert := Some(SaveFailedAlert);
      }
    }
  }

  /** Editing an event and saving it without changes sends the event's own
      fields back under its id, and leaves the modal closed and reset. */
  method EditThenSave(page: Page, event: ImportantEvent) returns (request: Option<Request>)
    requires event.title != "" && event.date != ""
    modifies page
    ensures request == Some(Update(event.id, FormOf(event)))
    ensures !page.showAddModal && page.formData == DefaultForm && page.editingEvent.None?
  {
    page.OpenEdit(event);
    var alert;
    request, alert := page.Save(true);
  }
}
