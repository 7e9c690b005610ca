/** The admin page: three views (events, eventDetail, eventEdit), the edit
    form with its coupled percentages, the per-gender slot arithmetic and
    the save guard that refuses dates in the past. */
module AdminPage {
  import opened Options
  import Entities
  import Clock
  import Events

  datatype View = EventsList | EventDetail | EventEdit

  /** An event as the page holds it; an empty date or time input is None. */
  datatype AdminEvent = AdminEvent(
    id: string,
    city: Entities.City,
    eventDate: Option<int>,
    eventTime: Option<Clock.MinuteOfDay>,
    maxParticipants: int,
    malePercentage: int,
    femalePercentage: int,
    roundDuration: int,
    isActive: bool)

  datatype EditForm = EditForm(
    eventDate: Option<int>,
    eventTime: Option<Clock.MinuteOfDay>,
    maxParticipants: int,
    malePercentage: int,
    femalePercentage: int,
    roundDuration: int)

  /** The request a save sends, if any. A creation also sends three fixed
      fields: the title "IT Speed Dating " followed by the date, the city
      SAINT_PETERSBURG and `isActive: true`. */
  datatype SaveRequest =
    | NoRequest
    | CreateEvent(form: EditForm)
    | UpdateEvent(id: string, form: EditForm)

  // ---- slots ----

  /** `Math.floor(max * pct / 100)`. */
  function Slots(maxParticipants: int, percentage: int): int {
    maxParticipants * percentage / 100
  }

  /** The slot count is the largest whole number of places within the share. */
  lemma SlotsSpec(maxParticipants: int, percentage: int)
    ensures Slots(maxParticipants, percentage) * 100 <= maxParticipants * percentage
    ensures maxParticipants * percentage < (Slots(maxParticipants, percentage) + 1) * 100
  {
  }

  /** With shares summing to 100, the two slot counts fill the event to
      within one place and never exceed it. */
  lemma SlotsShareTheMaximum(maxParticipants: int, male: int, female: int)
    requires male + female == 100
    ensures maxParticipants - 1 <= Slots(maxParticipants, male) + Slots(maxParticipants, female) <= maxParticipants
  {
    SlotsSpec(maxParticipants, male);
    SlotsSpec(maxParticipants, female);
    assert maxParticipants * male + maxParticipants * female == maxParticipants * 100;
  }

  // ---- validation ----

  /** `new Date(`${date}T${time}`) > now`: an empty date or time is an
      invalid date, and every comparison with it is false. */
  predicate Validate(form: EditForm, nowMs: int) {
    form.eventDate.Some? && form.eventTime.Some? &&
    Clock.MomentMs(form.eventDate.value, form.eventTime.value) > nowMs
  }

  /** The store item an accepted form becomes. */
  function StoredItem(form: EditForm, id: string, title: Option<string>, createdAt: string): Events.EventItem
    requires form.eventDate.Some? && form.eventTime.Some?
  {
    Events.EventItem(id, title, form.eventDate.value, form.eventTime.value, form.roundDuration, createdAt)
  }

  /** An event that passes the guard at `now` is upcoming: once stored, the
      event store's `next(now)` finds an event, no later than this one. */
  lemma AcceptedEventIsUpcoming(s: seq<Events.EventItem>, form: EditForm, nowMs: int,
                                id: string, title: Option<string>, createdAt: string)
    requires Validate(form, nowMs)
    ensures var item := StoredItem(form, id, title, createdAt);
      var r := Events.FirstUpcoming(Events.Listed(s + [item]), nowMs);
      r.Some? && Events.StartMs(r.value) <= Events.StartMs(item)
  {
    var item := StoredItem(form, id, title, createdAt);
    Events.NextIsEarliestUpcoming(s + [item], nowMs);
    assert item in s + [item];
  }

  /** What a save of `form` for `editing` sends. */
  function RequestFor(editing: AdminEvent, form: EditForm, nowMs: int): (r: SaveRequest)
    ensures r == NoRequest <==> !Validate(form, nowMs)
    ensures r.CreateEvent? <==> Validate(form, nowMs) && editing.id == "new"
    ensures r.UpdateEvent? ==> r.id == editing.id && r.id != "new"
    ensures r != NoRequest ==> r.form == form
  {
    if !Validate(form, nowMs) then NoRequest
    else if editing.id == "new" then CreateEvent(form)
    else UpdateEvent(editing.id, form)
  }

  function FormOf(e: AdminEvent): EditForm {
    EditForm(e.eventDate, e.eventTime, e.maxParticipants, e.malePercentage, e.femalePercentage, e.roundDuration)
  }

  /** `{ ...selectedEvent, ...editForm }`. */
  function MergeForm(e: AdminEvent, form: EditForm): (r: AdminEvent)
    ensures FormOf(r) == form
    ensures r.id == e.id && r.city == e.city && r.isActive == e.isActive
  {
    e.(eventDate := form.eventDate, eventTime := form.eventTime, maxParticipants := form.maxParticipants,
       malePercentage := form.malePercentage, femalePercentage := form.femalePercentage,
       roundDuration := form.roundDuration)
  }

  /** The event "Создать событие" opens: today at 19:00 in Saint Petersburg,
      20 places split 50/50, 7-minute rounds, active. */
  function NewEvent(today: int): AdminEvent {
    AdminEvent("new", Entities.SAINT_PETERSBURG, Some(today), Some(19 * 60), 20, 50, 50, 7, true)
  }

  /** What is rendered below the header: each view needs its event. */
  datatype Content = ListContent | DetailContent | EditContent | Blank

  /** A save in flight: the request it sent, and the selected event and the
      form as the click handler's closure captured them. */
  datatype PendingSave = PendingSave(request: SaveRequest, selected: Option<AdminEvent>, form: EditForm)

  class Page {
    var currentView: View
    var selectedEvent: Option<AdminEvent>
    var editingEvent: Option<AdminEvent>
    var editForm: EditForm
    /** `router.push('/')` has been called. */
    var wentHome: bool
    /** The view whose button opened the edit: the list for "Создать
        событие", the detail view for "Редактировать событие". Only the
        corrected cancel reads it. */
    var editOrigin: View

    constructor()
      ensures currentView == EventsList && selectedEvent == None && editingEvent == None && !wentHome
      ensures editForm == EditForm(None, None, 0, 50, 50, 7)
      ensures editOrigin == EventsList
      ensures Renders() && OriginRenders() && EditsSelection()
    {
      currentView := EventsList;
      selectedEvent := None;
      editingEvent := None;
      editForm := EditForm(None, None, 0, 50, 50, 7);
      wentHome := false;
      editOrigin := EventsList;
    }

    function Content(): Content
      reads this
    {
      match currentView
      case EventsList => ListContent
      case EventDetail => if selectedEvent.Some? then DetailContent else Blank
      case EventEdit => if editingEvent.Some? then EditContent else Blank
    }

    /** Every view has something to show. */
    predicate Renders()
      reads this
    {
      Content() != Blank
    }

    /** An existing event is edited only through "Редактировать событие",
        which copies the selection, and nothing clears the selection: so an
        event other than the new one is edited only while one is selected. */
    predicate EditsSelection()
      reads this
    {
      editingEvent.Some? && editingEvent.value.id != "new" ==> selectedEvent.Some?
    }

    /** The view the edit came from has something to show. */
    predicate OriginRenders()
      reads this
    {
      editOrigin == EventsList || (editOrigin == EventDetail && selectedEvent.Some?)
    }

    /** "Создать событие", in the list view: edit a fresh event with the defaults. */
    method OpenNewEvent(today: int)
      modifies this
      ensures editingEvent == Some(NewEvent(today)) && editForm == FormOf(NewEvent(today))
      ensures editForm.eventTime == Some(19 * 60) && editForm.maxParticipants == 20
      ensures editForm.malePercentage == 50 && editForm.femalePercentage == 50 && editForm.roundDuration == 7
      ensures currentView == EventEdit && selectedEvent == old(selectedEvent) && wentHome == old(wentHome)
      ensures editOrigin == EventsList
      ensures Renders() && OriginRenders()
      ensures old(EditsSelection()) ==> EditsSelection()
    {
      editingEvent := Some(NewEvent(today));
      editForm := FormOf(NewEvent(today));
      currentView := EventEdit;
      editOrigin := EventsList;
    }

    /** A click on an event of the list. */
    method SelectEvent(e: AdminEvent)
      modifies this
      ensures selectedEvent == Some(e) && currentView == EventDetail
      ensures editingEvent == old(editingEvent) && editForm == old(editForm) && wentHome == old(wentHome)
      ensures editOrigin == old(editOrigin)
      ensures Renders() && (old(OriginRenders()) ==> OriginRenders()) && EditsSelection()
    {
      selectedEvent := Some(e);
      currentView := EventDetail;
    }

    /** "Редактировать событие", shown only with a selected event. */
    method EditSelected()
      requires selectedEvent.Some?
      modifies this
      ensures editingEvent == old(selectedEvent) && editForm == FormOf(old(selectedEvent).value)
      ensures currentView == EventEdit && selectedEvent == old(selectedEvent) && wentHome == old(wentHome)
      ensures editOrigin == EventDetail
      ensures Renders() && OriginRenders() && EditsSelection()
    {
      editingEvent := selectedEvent;
      editForm := FormOf(selectedEvent.value);
      currentView := EventEdit;
      editOrigin := EventDetail;
    }

    /** The male-percentage input also sets the female share to the rest of 100. */
    method SetMalePercentage(value: int)
      modifies this`editForm
      ensures editForm == old(editForm).(malePercentage := value, femalePercentage := 100 - value)
      ensures editForm.malePercentage + editForm.femalePercentage == 100
    {
      editForm := editForm.(malePercentage := value, femalePercentage := 100 - value);
    }

    /** The save button is clicked, in the edit view: the request goes out
        (none for a refused form) and nothing changes until it is answered. */
    method SaveClicked(nowMs: int) returns (p: PendingSave)
      requires editingEvent.Some?
      ensures p.request == RequestFor(editingEvent.value, editForm, nowMs)
      ensures p.selected == selectedEvent && p.form == editForm
      ensures EditsSelection() && p.request.UpdateEvent? ==> p.selected.Some?
    {
      p := PendingSave(RequestFor(editingEvent.value, editForm, nowMs), selectedEvent, editForm);
    }

    /** The answer to a save arrives, after whatever happened since the
        click; `responseOk` is whether the server accepted the request. A
        created event returns to the list; an updated one to its detail view
        with the captured form merged into the captured selection. Nothing
        happens for a refused form or a failed request. */
    method SaveAnswered(p: PendingSave, responseOk: bool)
      requires p.request.UpdateEvent? ==> p.selected.Some?
      modifies this
      ensures p.request == NoRequest || !responseOk ==>
        currentView == old(currentView) && selectedEvent == old(selectedEvent)
      ensures p.request.CreateEvent? && responseOk ==>
        currentView == EventsList && selectedEvent == old(selectedEvent)
      ensures p.request.UpdateEvent? && responseOk ==>
        currentView == EventDetail && selectedEvent == Some(MergeForm(p.selected.value, p.form))
      ensures editingEvent == old(editingEvent) && editForm == old(editForm) && wentHome == old(wentHome)
      ensures editOrigin == old(editOrigin)
      ensures old(Renders()) ==> Renders()
      ensures old(OriginRenders()) ==> OriginRenders()
      ensures old(EditsSelection()) ==> EditsSelection()
    {
      if p.request.CreateEvent? && responseOk {
        currentView := EventsList;
      } else if p.request.UpdateEvent? && responseOk {
        currentView := EventDetail;
        selectedEvent := Some(MergeForm(p.selected.value, p.form));
      }
    }

    /** "Отмена": always to the detail view, as written. */
    method Cancel()
      modifies this`currentView
      ensures currentView == EventDetail
    {
      currentView := EventDetail;
    }

    /** Cancel back to the view whose button opened the edit. */
    method CancelToOrigin()
      modifies this`currentView
      ensures currentView == editOrigin
      ensures OriginRenders() ==> Renders()
    {
      currentView := editOrigin;
    }

    /** The header's back arrow: home from the list, the list from any other view. */
    method Back()
      modifies this
      ensures old(currentView) == EventsList ==> wentHome && currentView == EventsList
      ensures old(currentView) != EventsList ==> currentView == EventsList && wentHome == old(wentHome)
      ensures selectedEvent == old(selectedEvent) && editingEvent == old(editingEvent) && editForm == old(editForm)
      ensures editOrigin == old(editOrigin)
      ensures Renders()
    {
      if currentView == EventsList {
        wentHome := true;
      } else {
        currentView := EventsList;
      }
    }
  }

  /** Creating an event and then cancelling, with no event selected before,
      leaves the page on the detail view with nothing to show. */
  method CancelNewEventShowsNothing(today: int) returns (page: Page)
    ensures page.currentView == EventDetail && page.selectedEvent == None
    ensures page.Content() == Blank
  {
    page := new Page();
    page.OpenNewEvent(today);
    page.Cancel();
  }

  /** The same steps with the cancel that returns to the origin show the list. */
  method CancelNewEventToOrigin(today: int) returns (page: Page)
    ensures page.currentView == EventsList && page.Renders()
  {
    page := new Page();
    page.OpenNewEvent(today);
    page.CancelToOrigin();
  }

  /** With an event selected but the list showing, "Создать событие" and the
      corrected cancel return to the list; editing the selected event and
      cancelling returns to its detail view. */
  method CancelReturnsWhereEditBegan(e: AdminEvent, today: int) returns (page: Page)
    ensures page.currentView == EventDetail && page.selectedEvent == Some(e) && page.Renders()
  {
    page := new Page();
    page.SelectEvent(e);
    page.Back();
    page.OpenNewEvent(today);
    page.CancelToOrigin();
    assert page.currentView == EventsList;
    page.EditSelected();
    page.CancelToOrigin();
  }

  /** The answer to an update is applied whatever the admin did meanwhile:
      a cancel to the list while the request is out is undone by the answer. */
  method SaveAnswerOverridesCancel(e: AdminEvent, nowMs: int) returns (page: Page)
    requires e.id != "new" && e.eventDate.Some? && e.eventTime.Some?
    requires Clock.MomentMs(e.eventDate.value, e.eventTime.value) > nowMs
    ensures page.currentView == EventDetail && page.selectedEvent == Some(e)
  {
    page := new Page();
    page.SelectEvent(e);
    page.EditSelected();
    var p := page.SaveClicked(nowMs);
    page.Back();
    assert page.currentView == EventsList;
    page.SaveAnswered(p, true);
    assert MergeForm(e, FormOf(e)) == e;
  }
}
