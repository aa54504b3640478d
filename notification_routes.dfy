/** backend/routes/notificationRoutes.js: a user's notifications, their
    unread count, and marking them read. Population of the sender and the
    post is display only and left out. */
module NotificationRoutes {
  import opened Common
  import opened Documents
  import opened Notify

  /** The notifications addressed to `me`. */
  function ForRecipient(m: map<Id, Notification>, me: Id): Id -> bool {
    id => id in m && m[id].recipient == me
  }

  /** `GET /`: the caller's notifications, read or not, newest first. */
  function Inbox(st: Store, p: Principal): (r: seq<Id>)
    reads st
    requires st.Valid()
    ensures forall id :: id in r <==> id in st.notifications && st.notifications[id].recipient == p.id
    ensures NoDups(r) && NewestFirstOf(r, st.notificationOrder)
  {
    var keep := ForRecipient(st.notifications, p.id);
    NewestFirstMembers(st.notificationOrder, keep);
    NewestFirstOrder(st.notificationOrder, keep);
    NewestFirst(st.notificationOrder, keep)
  }

  /** The caller's unread notifications. */
  function Unread(m: map<Id, Notification>, me: Id): set<Id> {
    set id | id in m && m[id].recipient == me && !m[id].read
  }

  /** `GET /count`: how many of the caller's notifications are unread. The
      count is 0 exactly when every notification addressed to the caller is
      read, and never exceeds the size of the collection. */
  function UnreadCount(st: Store, p: Principal): (c: nat)
    reads st
    ensures c == 0 <==> forall id :: id in st.notifications && st.notifications[id].recipient == p.id ==> st.notifications[id].read
    ensures c <= |st.notifications|
  {
    var u := Unread(st.notifications, p.id);
    SubsetCard(u, st.notifications.Keys);
    assert forall id :: id in st.notifications && st.notifications[id].recipient == p.id && !st.notifications[id].read ==> id in u;
    assert |u| == 0 ==> u == {};
    assert u != {} ==> |u| > 0;
    |u|
  }

  /** The collection after `updateMany({ recipient: me, read: false }, { read: true })`. */
  function MarkAllRead(m: map<Id, Notification>, me: Id): (r: map<Id, Notification>)
    ensures r.Keys == m.Keys
  {
    map id | id in m :: if m[id].recipient == me && !m[id].read then m[id].(read := true) else m[id]
  }

  /** Marking all read leaves the caller nothing unread, and touches no
      one else's notifications nor anything but the read flag. */
  lemma MarkAllReadEffect(m: map<Id, Notification>, me: Id)
    ensures Unread(MarkAllRead(m, me), me) == {}
    ensures forall id :: id in m && m[id].recipient != me ==> MarkAllRead(m, me)[id] == m[id]
    ensures forall id :: id in m ==> MarkAllRead(m, me)[id] == m[id].(read := MarkAllRead(m, me)[id].read)
    ensures forall id :: id in m && m[id].recipient == me ==> MarkAllRead(m, me)[id].read
  {
    var r := MarkAllRead(m, me);
    forall id | id in r ensures !(r[id].recipient == me && !r[id].read) {
    }
  }

  /** Marking all read twice is marking all read once. */
  lemma MarkAllReadIdempotent(m: map<Id, Notification>, me: Id)
    ensures MarkAllRead(MarkAllRead(m, me), me) == MarkAllRead(m, me)
  {
    var r := MarkAllRead(m, me);
    assert MarkAllRead(r, me).Keys == r.Keys;
    forall id | id in r ensures MarkAllRead(r, me)[id] == r[id] {
    }
  }

  /** A new record adds one to the unread count of its recipient when it is unread. */
  lemma UnreadInsert(m: map<Id, Notification>, id: Id, v: Notification, u: Id)
    requires id !in m
    ensures |Unread(m[id := v], u)| == |Unread(m, u)| + (if v.recipient == u && !v.read then 1 else 0)
  {
    if v.recipient == u && !v.read {
      assert Unread(m[id := v], u) == Unread(m, u) + {id};
    } else {
      assert Unread(m[id := v], u) == Unread(m, u);
    }
  }

  /** A stored notification adds one to its recipient's unread count and
      leaves every other user's count as it was. */
  lemma {:induction false} DeliverCount(m: map<Id, Notification>, order: seq<Id>, n: NotificationInput, id: Id, u: Id)
    requires id !in m && Stores(n)
    ensures |Unread(Deliver(m, order, n, id).0, u)| == |Unread(m, u)| + (if n.recipient == u then 1 else 0)
  {
    assert Deliver(m, order, n, id).0 == m[id := Record(n)];
    UnreadInsert(m, id, Record(n), u);
  }

  /** `PUT /:id/read`: any caller may mark any notification read by id. */
  method MarkOne(st: Store, id: Id) returns (r: Response<Notification>)
    requires st.Valid()
    modifies st`notifications
    ensures st.Valid()
    ensures id !in old(st.notifications) ==> r == Err(404, "Notification not found") && st.notifications == old(st.notifications)
    ensures id in old(st.notifications) ==>
              var updated := old(st.notifications)[id].(read := true);
              r == Ok(200, updated) && st.notifications == old(st.notifications)[id := updated]
  {
    if id !in st.notifications {
      return Err(404, "Notification not found");
    }
    var updated := st.notifications[id].(read := true);
    st.notifications := st.notifications[id := updated];
    r := Ok(200, updated);
  }

  /** Marking one notification read lowers its recipient's unread count by
      one when it was unread, and changes nothing otherwise. */
  lemma {:induction false} MarkOneCount(m: map<Id, Notification>, id: Id, u: Id)
    requires id in m
    ensures |Unread(m[id := m[id].(read := true)], u)| ==
            |Unread(m, u)| - (if m[id].recipient == u && !m[id].read then 1 else 0)
  {
    var r := m[id := m[id].(read := true)];
    if m[id].recipient == u && !m[id].read {
      assert Unread(r, u) == Unread(m, u) - {id};
    } else {
      assert Unread(r, u) == Unread(m, u);
    }
  }

  /** `PUT /read/all` and `PUT /mark-read`: the same update; only the
      second reply carries a message. */
  method MarkAll(st: Store, p: Principal, withMessage: bool) returns (r: Response<Option<string>>)
    requires st.Valid()
    modifies st`notifications
    ensures st.Valid()
    ensures st.notifications == MarkAllRead(old(st.notifications), p.id)
    ensures UnreadCount(st, p) == 0
    ensures r == Ok(200, if withMessage then Some("All notifications marked as read") else None)
  {
    MarkAllReadEffect(st.notifications, p.id);
    st.notifications := MarkAllRead(st.notifications, p.id);
    r := Ok(200, if withMessage then Some("All notifications marked as read") else None);
  }
}
