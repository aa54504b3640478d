/** backend/routes/eventRoutes.js: events with a fixed number of seats. The
    image upload is a parameter: the multer file path (absent when no image
    was sent) and the hosted URL the cloud upload returns (absent when it
    fails). */
module EventRoutes {
  import opened Common
  import opened Documents
  import opened Notify

  /** The form fields of a new event, absent when not sent. */
  datatype EventForm = EventForm(title: Option<string>, description: Option<string>, date: Option<int>, seats: Option<int>)

  /** The schema's required fields: strings must be non-empty, the date and
      the seat count present (0 seats passes). */
  predicate ValidForm(f: EventForm) {
    Truthy(f.title) && Truthy(f.description) && f.date.Some? && f.seats.Some?
  }

  /** The reply when the schema rejects the form. */
  const ValidationFailed := "Event validation failed"

  /** A new event: no one has joined yet. */
  function NewEvent(f: EventForm, image: string, creator: Id): (e: Event)
    requires ValidForm(f)
    ensures e.title == f.title.value && e.description == f.description.value
    ensures e.date == f.date.value && e.seats == f.seats.value
    ensures e.image == image && e.createdBy == creator && e.participants == []
  {
    Event(f.title.value, f.description.value, f.date.value, image, f.seats.value, creator, [])
  }

  /** The notice text of a new event. */
  function EventText(title: string, username: string): string {
    "New event \"" + title + "\" has been created by " + username
  }

  /** One `createNotification` call per recipient. */
  function EventNotices(recipients: seq<Id>, sender: Id, eventId: Id, text: string): (r: seq<NotificationInput>)
    ensures |r| == |recipients|
    ensures forall j :: 0 <= j < |r| ==> r[j] == NotificationInput(recipients[j], sender, "event", None, None, Some(eventId), text)
  {
    seq(|recipients|, j requires 0 <= j < |recipients| => NotificationInput(recipients[j], sender, "event", None, None, Some(eventId), text))
  }

  /** The new-event fan-out: every other user gets exactly one unread
      "event" notice linking to the event, appended in order after the
      existing notifications, which stay as they were. */
  lemma EventFanOut(m: map<Id, Notification>, order: seq<Id>, recipients: seq<Id>, sender: Id, eventId: Id, text: string, ids: seq<Id>)
    requires Indexed(m, order) && FreshIds(ids, order) && |ids| == |recipients|
    requires sender !in recipients && text != ""
    ensures var r := DeliverAll(m, order, EventNotices(recipients, sender, eventId, text), ids);
            && r.1 == order + ids
            && (forall x :: x in m ==> x in r.0 && r.0[x] == m[x])
            && (forall j :: 0 <= j < |ids| ==>
                  && ids[j] in r.0
                  && r.0[ids[j]].recipient == recipients[j] && r.0[ids[j]].sender == sender
                  && r.0[ids[j]].kind == "event" && r.0[ids[j]].text == text
                  && r.0[ids[j]].link == "/event/" + eventId && !r.0[ids[j]].read)
  {
    var inputs := EventNotices(recipients, sender, eventId, text);
    forall j | 0 <= j < |inputs| ensures Stores(inputs[j]) {
      assert inputs[j].recipient == recipients[j];
    }
    DeliverAllCount(m, order, inputs, ids);
    DeliverAllContents(m, order, inputs, ids);
    forall j | 0 <= j < |ids| ensures LinkOf(inputs[j]) == "/event/" + eventId {
      var link := LinkOf(inputs[j]);
      assert link[..7] == "/event/" && link[7..] == eventId;
      assert link == link[..7] + link[7..];
    }
  }

  /** `POST /`: alumni and admins only; an image is required and must
      upload; the event is saved, then every other user is notified with a
      real-time push. `eventId` is the new event's id and `noteIds` the ids
      the notices get, one per other user. */
  method CreateEvent(st: Store, p: Principal, f: EventForm, file: Option<string>, hostedUrl: Option<string>,
                     eventId: Id, noteIds: seq<Id>) returns (r: Response<Id>, emitted: seq<Emit>)
    requires st.Valid() && eventId !in st.events
    requires FreshIds(noteIds, st.notificationOrder) && |noteIds| == |OtherUsers(st.users, st.userOrder, p.id)|
    modifies st`events, st`notifications, st`notificationOrder
    ensures st.Valid()
    ensures p.role == Student ==> r == Err(403, "Only alumni or admin can create events")
    ensures p.role != Student && file.None? ==> r == Err(400, "Image is required")
    ensures p.role != Student && file.Some? && hostedUrl.None? ==> r == Err(500, "Cloudinary upload failed")
    ensures p.role != Student && file.Some? && hostedUrl.Some? && !ValidForm(f) ==> r == Err(500, ValidationFailed)
    ensures r.Ok? <==> p.role != Student && file.Some? && hostedUrl.Some? && ValidForm(f)
    ensures r.Err? ==> st.events == old(st.events) && st.notifications == old(st.notifications)
                       && st.notificationOrder == old(st.notificationOrder) && emitted == []
    ensures r.Ok? ==>
              var notices := EventNotices(OtherUsers(old(st.users), old(st.userOrder), p.id), p.id, eventId,
                                          EventText(f.title.value, p.username));
              && r == Ok(200, eventId)
              && st.events == old(st.events)[eventId := NewEvent(f, hostedUrl.value, p.id)]
              && (st.notifications, st.notificationOrder) == DeliverAll(old(st.notifications), old(st.notificationOrder), notices, noteIds)
              && emitted == EmitsOf(notices, true)
  {
    emitted := [];
    if p.role != Alumni && p.role != Admin {
      return Err(403, "Only alumni or admin can create events"), emitted;
    }
    if file.None? {
      return Err(400, "Image is required"), emitted;
    }
    if hostedUrl.None? {
      return Err(500, "Cloudinary upload failed"), emitted;
    }
    if !ValidForm(f) {
      return Err(500, ValidationFailed), emitted;
    }
    st.events := st.events[eventId := NewEvent(f, hostedUrl.value, p.id)];
    var recipients := OtherUsers(st.users, st.userOrder, p.id);
    var notices := EventNotices(recipients, p.id, eventId, EventText(f.title.value, p.username));
    emitted := NotifyEach(st, notices, true, noteIds);
    r := Ok(200, eventId);
  }

  /** At most one seat per participant, and no more participants than seats. */
  predicate SeatsKept(e: Event) {
    NoDups(e.participants) && |e.participants| <= e.seats
  }

  /** Taking a seat: refused to someone already in, or when every seat is taken. */
  function JoinEvent(e: Event, u: Id): (r: Response<Event>)
    ensures u in e.participants ==> r == Err(400, "Already participating")
    ensures u !in e.participants && |e.participants| >= e.seats ==> r == Err(400, "No seats available")
    ensures r.Ok? <==> u !in e.participants && |e.participants| < e.seats
    ensures r.Ok? ==> r.status == 200 && r.value == e.(participants := e.participants + [u])
    ensures r.Ok? ==> |r.value.participants| <= r.value.seats
  {
    if u in e.participants then Err(400, "Already participating")
    else if |e.participants| >= e.seats then Err(400, "No seats available")
    else Ok(200, e.(participants := e.participants + [u]))
  }

  /** Giving a seat back: every entry of `u` goes, the others keep their order. */
  function LeaveEvent(e: Event, u: Id): (r: Event)
    ensures forall x :: x in r.participants <==> x in e.participants && x != u
    ensures r == e.(participants := r.participants)
  {
    RemoveAllMembers(e.participants, u);
    e.(participants := RemoveAll(e.participants, u))
  }

  /** Joining and leaving both keep the seat invariant. */
  lemma SeatsPreserved(e: Event, u: Id)
    requires SeatsKept(e)
    ensures JoinEvent(e, u).Ok? ==> SeatsKept(JoinEvent(e, u).value)
    ensures SeatsKept(LeaveEvent(e, u))
  {
    if u !in e.participants {
      AppendFresh(e.participants, u);
    }
    RemoveAllNoDups(e.participants, u);
    RemoveAllLength(e.participants, u);
  }

  lemma {:induction false} RemoveAllLength<T>(s: seq<T>, x: T)
    ensures |RemoveAll(s, x)| <= |s|
  {
    if s != [] {
      RemoveAllLength(s[1..], x);
    }
  }

  /** Leaving right after joining gives the event back unchanged. */
  lemma JoinThenLeave(e: Event, u: Id)
    requires JoinEvent(e, u).Ok?
    ensures LeaveEvent(JoinEvent(e, u).value, u) == e
  {
    RemoveAllAppended(e.participants, u);
  }

  /** `POST /:id/participate`: students and alumni only. */
  method Participate(st: Store, p: Principal, id: Id) returns (r: Response<Event>)
    modifies st`events
    ensures p.role == Admin ==> r == Err(403, "Only students or alumni can participate")
    ensures p.role != Admin && id !in old(st.events) ==> r == Err(404, "Event not found")
    ensures p.role != Admin && id in old(st.events) ==> r == JoinEvent(old(st.events)[id], p.id)
    ensures r.Ok? ==> st.events == old(st.events)[id := r.value]
    ensures r.Err? ==> st.events == old(st.events)
  {
    if p.role != Student && p.role != Alumni {
      return Err(403, "Only students or alumni can participate");
    }
    if id !in st.events {
      return Err(404, "Event not found");
    }
    r := JoinEvent(st.events[id], p.id);
    if r.Ok? {
      st.events := st.events[id := r.value];
    }
  }

  /** `POST /:id/cancel`: any caller; leaving an event one never joined changes nothing. */
  method Cancel(st: Store, p: Principal, id: Id) returns (r: Response<Event>)
    modifies st`events
    ensures id !in old(st.events) ==> r == Err(404, "Event not found") && st.events == old(st.events)
    ensures id in old(st.events) ==>
              r == Ok(200, LeaveEvent(old(st.events)[id], p.id)) && st.events == old(st.events)[id := r.value]
    ensures id in old(st.events) && p.id !in old(st.events)[id].participants ==> st.events == old(st.events)
  {
    if id !in st.events {
      return Err(404, "Event not found");
    }
    var e := LeaveEvent(st.events[id], p.id);
    if p.id !in st.events[id].participants {
      RemoveAllAbsent(st.events[id].participants, p.id);
    }
    st.events := st.events[id := e];
    r := Ok(200, e);
  }

  /** Admins and an event's creator may delete it or see who joined. */
  predicate MayManage(p: Principal, e: Event) {
    p.role == Admin || e.createdBy == p.id
  }

  /** `DELETE /:id`: existence is checked before permission. */
  method DeleteEvent(st: Store, p: Principal, id: Id) returns (r: Response<string>)
    modifies st`events
    ensures id !in old(st.events) ==> r == Err(404, "Event not found")
    ensures id in old(st.events) && !MayManage(p, old(st.events)[id]) ==> r == Err(403, "You are not authorized to delete this event")
    ensures r.Ok? <==> id in old(st.events) && MayManage(p, old(st.events)[id])
    ensures r.Ok? ==> r == Ok(200, "Event deleted successfully") && st.events == old(st.events) - {id}
    ensures r.Err? ==> st.events == old(st.events)
  {
    if id !in st.events {
      return Err(404, "Event not found");
    }
    if !MayManage(p, st.events[id]) {
      return Err(403, "You are not authorized to delete this event");
    }
    st.events := st.events - {id};
    r := Ok(200, "Event deleted successfully");
  }

  /** `GET /:id/participants`: population drops the participants whose
      user is gone. */
  function Participants(st: Store, p: Principal, id: Id): (r: Response<seq<Id>>)
    reads st
    ensures id !in st.events ==> r == Err(404, "Event not found")
    ensures id in st.events && !MayManage(p, st.events[id]) ==> r == Err(403, "You are not authorized to view participants")
    ensures r.Ok? <==> id in st.events && MayManage(p, st.events[id])
    ensures r.Ok? ==> r.status == 200 && forall u :: u in r.value <==> u in st.events[id].participants && u in st.users
    ensures r.Ok? && NoDups(st.events[id].participants) ==> NoDups(r.value)
  {
    if id !in st.events then Err(404, "Event not found")
    else if !MayManage(p, st.events[id]) then Err(403, "You are not authorized to view participants")
    else
      var users := st.users;
      var keep := (u: Id) => u in users;
      var ps := st.events[id].participants;
      FilterMembers(ps, keep);
      if NoDups(ps) then FilterNoDups(ps, keep); Ok(200, Filter(ps, keep))
      else Ok(200, Filter(ps, keep))
  }
}
