/** backend/utils/createNotification.js: the redirect link of a notification,
    and `createNotification`, which saves one notification record (unless
    the recipient is the sender or the record fails the schema's checks)
    and, when a Socket.IO server is passed, pushes it to the recipient's
    room. Errors are logged and never thrown, so a call either stores the
    record or changes nothing. The fan-out loops of the routes that notify
    many users at once are `NotifyEach`. */
module Notify {
  import opened Common
  import opened Documents

  /** The `type` values the Notification schema accepts. */
  const Kinds: seq<string> := ["follow", "post", "like", "comment", "reply", "chat", "event", "repost", "send_post"]

  /** The types whose link leads to a post. */
  const PostKinds: seq<string> := ["post", "like", "comment", "reply", "repost", "send_post"]

  /** `generateNotificationLink`: the link's first segment names the page
      the type leads to and the rest is the id of what to open there; an id
      that was not given renders as "null". */
  function GenerateNotificationLink(kind: string, postId: Option<Id>, sender: Id, chatId: Option<Id>, eventId: Option<Id>): (link: string)
    ensures |link| >= 1 && link[0] == '/'
    ensures StartsWith(link, "/post/") <==> kind in PostKinds
    ensures StartsWith(link, "/post/") ==> link[6..] == ShowNull(postId)
    ensures StartsWith(link, "/profile/") <==> kind == "follow"
    ensures StartsWith(link, "/profile/") ==> link[9..] == sender
    ensures StartsWith(link, "/messages/") <==> kind == "chat"
    ensures StartsWith(link, "/messages/") ==> link[10..] == OrElse(chatId, sender)
    ensures StartsWith(link, "/event/") <==> kind == "event"
    ensures StartsWith(link, "/event/") ==> link[7..] == ShowNull(eventId)
    ensures link == "/" <==> kind !in PostKinds && kind != "follow" && kind != "chat" && kind != "event"
  {
    var link :=
      if kind in PostKinds then "/post/" + ShowNull(postId)
      else if kind == "follow" then "/profile/" + sender
      else if kind == "chat" then "/messages/" + OrElse(chatId, sender)
      else if kind == "event" then "/event/" + ShowNull(eventId)
      else "/";
    assert |link| > 2 ==> link[1] == link[..3][1] && link[2] == link[..3][2];
    link
  }

  /** The arguments of `createNotification`. `eventId` is used only for the
      link: the Notification schema has no such field, so it is not stored. */
  datatype NotificationInput = NotificationInput(
    recipient: Id,
    sender: Id,
    kind: string,
    postId: Option<Id>,
    chatId: Option<Id>,
    eventId: Option<Id>,
    text: string)

  /** A call stores a record exactly when the recipient is someone else and
      the record passes validation: a known type and non-empty text. */
  predicate Stores(n: NotificationInput) {
    n.recipient != n.sender && n.kind in Kinds && n.text != ""
  }

  function LinkOf(n: NotificationInput): string {
    GenerateNotificationLink(n.kind, n.postId, n.sender, n.chatId, n.eventId)
  }

  /** The saved record: unread, carrying the computed link. */
  function Record(n: NotificationInput): (r: Notification)
    ensures r.recipient == n.recipient && r.sender == n.sender && r.kind == n.kind
    ensures r.postId == n.postId && r.chatId == n.chatId && r.text == n.text
    ensures r.link == LinkOf(n) && !r.read
  {
    Notification(n.recipient, n.sender, n.kind, n.postId, n.chatId, n.text, LinkOf(n), false)
  }

  /** The real-time push `{ message, type, link }` to the recipient's room. */
  datatype Emit = Emit(room: Id, message: string, kind: string, link: string)

  /** The notification collection after one call with the fresh id `id`. */
  function Deliver(m: map<Id, Notification>, order: seq<Id>, n: NotificationInput, id: Id): (map<Id, Notification>, seq<Id>) {
    if Stores(n) then (m[id := Record(n)], order + [id]) else (m, order)
  }

  /** The push one call makes. */
  function EmitOf(n: NotificationInput, io: bool): Option<Emit> {
    if Stores(n) && io then Some(Emit(n.recipient, n.text, n.kind, LinkOf(n))) else None
  }

  /** `createNotification`, given the id the new record will get. */
  method CreateNotification(st: Store, n: NotificationInput, io: bool, newId: Id) returns (emitted: Option<Emit>)
    requires st.Valid() && newId !in st.notificationOrder
    modifies st`notifications, st`notificationOrder
    ensures st.Valid()
    ensures (st.notifications, st.notificationOrder) == Deliver(old(st.notifications), old(st.notificationOrder), n, newId)
    ensures emitted == EmitOf(n, io)
  {
    emitted := None;
    if n.recipient == n.sender {
      return;
    }
    var link := GenerateNotificationLink(n.kind, n.postId, n.sender, n.chatId, n.eventId);
    if n.kind !in Kinds || n.text == "" {
      return;
    }
    AppendFresh(st.notificationOrder, newId);
    st.notifications := st.notifications[newId := Notification(n.recipient, n.sender, n.kind, n.postId, n.chatId, n.text, link, false)];
    st.notificationOrder := st.notificationOrder + [newId];
    if io {
      emitted := Some(Emit(n.recipient, n.text, n.kind, link));
    }
  }

  // ---------------------------------------------------------------------
  // Fan-out

  /** The collection after one call per input, in order, input `j` getting id `ids[j]`. */
  function DeliverAll(m: map<Id, Notification>, order: seq<Id>, inputs: seq<NotificationInput>, ids: seq<Id>): (map<Id, Notification>, seq<Id>)
    requires |ids| == |inputs|
  {
    if inputs == [] then (m, order)
    else
      var k := |inputs| - 1;
      var prev := DeliverAll(m, order, inputs[..k], ids[..k]);
      Deliver(prev.0, prev.1, inputs[k], ids[k])
  }

  /** The pushes of one call per input, in order. */
  function EmitsOf(inputs: seq<NotificationInput>, io: bool): seq<Emit> {
    if inputs == [] then []
    else
      var k := |inputs| - 1;
      EmitsOf(inputs[..k], io) + (if Stores(inputs[k]) && io then [Emit(inputs[k].recipient, inputs[k].text, inputs[k].kind, LinkOf(inputs[k]))] else [])
  }

  /** Ids not yet used by the collection, each used once. */
  predicate FreshIds(ids: seq<Id>, order: seq<Id>) {
    NoDups(ids) && forall j :: 0 <= j < |ids| ==> ids[j] !in order
  }

  /** The ids of the inputs that store a record, in input order. */
  function Kept(inputs: seq<NotificationInput>, ids: seq<Id>): seq<Id>
    requires |ids| == |inputs|
  {
    if inputs == [] then []
    else
      var k := |inputs| - 1;
      Kept(inputs[..k], ids[..k]) + (if Stores(inputs[k]) then [ids[k]] else [])
  }

  /** A fan-out appends the ids of the stored records to the log, in input order. */
  lemma {:induction false} DeliverAllOrder(m: map<Id, Notification>, order: seq<Id>, inputs: seq<NotificationInput>, ids: seq<Id>)
    requires |ids| == |inputs|
    ensures DeliverAll(m, order, inputs, ids).1 == order + Kept(inputs, ids)
  {
    if inputs != [] {
      var k := |inputs| - 1;
      DeliverAllOrder(m, order, inputs[..k], ids[..k]);
    }
  }

  /** Exactly the ids of storing inputs are kept, each once. */
  lemma {:induction false} KeptMembers(inputs: seq<NotificationInput>, ids: seq<Id>)
    requires |ids| == |inputs| && NoDups(ids)
    ensures NoDups(Kept(inputs, ids))
    ensures forall x :: x in Kept(inputs, ids) ==> x in ids
    ensures forall j :: 0 <= j < |inputs| ==> (ids[j] in Kept(inputs, ids) <==> Stores(inputs[j]))
  {
    if inputs != [] {
      var k := |inputs| - 1;
      var pre, pids := inputs[..k], ids[..k];
      NoDupsPrefix(ids, k);
      KeptMembers(pre, pids);
      assert ids[k] !in pids by {
        forall a | 0 <= a < k ensures pids[a] != ids[k] {
          assert pids[a] == ids[a];
        }
      }
      var rest := Kept(pre, pids);
      assert ids[k] !in rest;
      if Stores(inputs[k]) {
        AppendFresh(rest, ids[k]);
      }
      forall x | x in Kept(inputs, ids) ensures x in ids {
        if x in rest {
          var a :| 0 <= a < k && pids[a] == x;
          assert ids[a] == x;
        }
      }
      forall j | 0 <= j < k ensures ids[j] in Kept(inputs, ids) <==> Stores(inputs[j]) {
        assert pids[j] == ids[j] && pre[j] == inputs[j];
        assert ids[j] != ids[k];
      }
    }
  }

  /** The records of a fan-out: the old ones unchanged, plus one under
      `ids[j]` for every input `j` that stores, carrying that input's link. */
  lemma {:induction false} DeliverAllMap(m: map<Id, Notification>, order: seq<Id>, inputs: seq<NotificationInput>, ids: seq<Id>)
    requires |ids| == |inputs| && NoDups(ids)
    ensures var r := DeliverAll(m, order, inputs, ids).0;
            && (forall x :: x in r <==> x in m || x in Kept(inputs, ids))
            && (forall x :: x in m && x !in ids ==> r[x] == m[x])
            && (forall j :: 0 <= j < |inputs| && Stores(inputs[j]) ==> ids[j] in r && r[ids[j]] == Record(inputs[j]))
  {
    KeptMembers(inputs, ids);
    if inputs != [] {
      var k := |inputs| - 1;
      var pre, pids := inputs[..k], ids[..k];
      NoDupsPrefix(ids, k);
      DeliverAllMap(m, order, pre, pids);
      var r := DeliverAll(m, order, inputs, ids).0;
      KeptMembers(pre, pids);
      forall j | 0 <= j < k && Stores(inputs[j]) ensures ids[j] in r && r[ids[j]] == Record(inputs[j]) {
        assert pids[j] == ids[j] && pre[j] == inputs[j];
        assert ids[j] != ids[k];
      }
    }
  }

  /** What a fan-out stores: a record for exactly the inputs that pass
      `Stores`, each under its own id and carrying its own link, appended
      after the existing records, which are all kept unchanged. */
  lemma DeliverAllContents(m: map<Id, Notification>, order: seq<Id>, inputs: seq<NotificationInput>, ids: seq<Id>)
    requires |ids| == |inputs| && Indexed(m, order) && FreshIds(ids, order)
    ensures var r := DeliverAll(m, order, inputs, ids);
            && Indexed(r.0, r.1)
            && r.1 == order + Kept(inputs, ids)
            && (forall x :: x in m ==> x in r.0 && r.0[x] == m[x])
            && (forall j :: 0 <= j < |inputs| ==> (ids[j] in r.0 <==> Stores(inputs[j])))
            && (forall j :: 0 <= j < |inputs| && Stores(inputs[j]) ==> r.0[ids[j]] == Record(inputs[j]))
  {
    DeliverAllOrder(m, order, inputs, ids);
    KeptMembers(inputs, ids);
    DeliverAllMap(m, order, inputs, ids);
    var kept := Kept(inputs, ids);
    assert forall x :: x in m ==> x !in ids;
    assert NoDups(order + kept) by {
      forall a, b | 0 <= a < b < |order + kept| ensures (order + kept)[a] != (order + kept)[b] {
        if b >= |order| && a < |order| {
          var x := kept[b - |order|];
          assert x in ids;
          var j :| 0 <= j < |ids| && ids[j] == x;
          assert x !in order;
        } else if a >= |order| {
          assert (order + kept)[a] == kept[a - |order|] && (order + kept)[b] == kept[b - |order|];
        }
      }
    }
    forall j | 0 <= j < |inputs| ensures ids[j] in DeliverAll(m, order, inputs, ids).0 <==> Stores(inputs[j]) {
      assert ids[j] !in m;
    }
  }

  /** One `createNotification` per input, in order: what the routes that
      notify many users do with `Promise.all(list.map(...))`. */
  method NotifyEach(st: Store, inputs: seq<NotificationInput>, io: bool, ids: seq<Id>) returns (emitted: seq<Emit>)
    requires st.Valid() && |ids| == |inputs| && FreshIds(ids, st.notificationOrder)
    modifies st`notifications, st`notificationOrder
    ensures st.Valid()
    ensures (st.notifications, st.notificationOrder) == DeliverAll(old(st.notifications), old(st.notificationOrder), inputs, ids)
    ensures emitted == EmitsOf(inputs, io)
  {
    ghost var m0, o0 := st.notifications, st.notificationOrder;
    emitted := [];
    var i := 0;
    while i < |inputs|
      invariant 0 <= i <= |inputs|
      invariant (st.notifications, st.notificationOrder) == DeliverAll(m0, o0, inputs[..i], ids[..i])
      invariant st.Valid()
      invariant emitted == EmitsOf(inputs[..i], io)
    {
      assert inputs[..i + 1][..i] == inputs[..i] && ids[..i + 1][..i] == ids[..i];
      DeliverAllOrder(m0, o0, inputs[..i], ids[..i]);
      NoDupsPrefix(ids, i);
      KeptMembers(inputs[..i], ids[..i]);
      assert ids[i] !in ids[..i];
      var e := CreateNotification(st, inputs[i], io, ids[i]);
      if e.Some? {
        emitted := emitted + [e.value];
      }
      i := i + 1;
    }
    assert inputs[..i] == inputs && ids[..i] == ids;
  }

  /** When every input stores, every id is kept. */
  lemma {:induction false} KeptAll(inputs: seq<NotificationInput>, ids: seq<Id>)
    requires |ids| == |inputs|
    requires forall j :: 0 <= j < |inputs| ==> Stores(inputs[j])
    ensures Kept(inputs, ids) == ids
  {
    if inputs != [] {
      var k := |inputs| - 1;
      assert forall j :: 0 <= j < k ==> inputs[..k][j] == inputs[j];
      KeptAll(inputs[..k], ids[..k]);
      assert Stores(inputs[k]);
      assert ids == ids[..k] + [ids[k]];
    }
  }

  /** A fan-out to recipients who are all someone other than the sender,
      with a known type and text, stores one record per recipient and adds
      exactly that many records to the collection. */
  lemma {:induction false} DeliverAllCount(m: map<Id, Notification>, order: seq<Id>, inputs: seq<NotificationInput>, ids: seq<Id>)
    requires |ids| == |inputs|
    requires forall j :: 0 <= j < |inputs| ==> Stores(inputs[j])
    ensures DeliverAll(m, order, inputs, ids).1 == order + ids
  {
    DeliverAllOrder(m, order, inputs, ids);
    KeptAll(inputs, ids);
  }

}
