/** backend/routes/sendPostRoutes.js: sharing a post with chosen users, one
    notification each. */
module SendPostRoutes {
  import opened Common
  import opened Documents
  import opened Notify

  /** The notice text, naming the sender. */
  function SendText(username: string): string {
    username + " sent you a post."
  }

  /** One `createNotification` call per chosen recipient, in the order given. */
  function SendNotices(recipients: seq<Id>, sender: Id, postId: Id, username: string): (r: seq<NotificationInput>)
    ensures |r| == |recipients|
    ensures forall j :: 0 <= j < |r| ==> r[j] == NotificationInput(recipients[j], sender, "send_post", Some(postId), None, None, SendText(username))
  {
    seq(|recipients|, j requires 0 <= j < |recipients| => NotificationInput(recipients[j], sender, "send_post", Some(postId), None, None, SendText(username)))
  }

  /** What sharing stores: one unread "send_post" notice linking to the post
      for every chosen recipient other than the sender (a recipient listed
      twice gets two), none for the sender, and the existing notifications
      unchanged. */
  lemma SendFanOut(m: map<Id, Notification>, order: seq<Id>, recipients: seq<Id>, sender: Id, postId: Id, username: string, ids: seq<Id>)
    requires Indexed(m, order) && FreshIds(ids, order) && |ids| == |recipients|
    ensures var r := DeliverAll(m, order, SendNotices(recipients, sender, postId, username), ids);
            && (forall x :: x in m ==> x in r.0 && r.0[x] == m[x])
            && (forall j :: 0 <= j < |ids| ==> (ids[j] in r.0 <==> recipients[j] != sender))
            && (forall j :: 0 <= j < |ids| && recipients[j] != sender ==>
                  && r.0[ids[j]].recipient == recipients[j] && r.0[ids[j]].sender == sender
                  && r.0[ids[j]].kind == "send_post" && r.0[ids[j]].postId == Some(postId)
                  && r.0[ids[j]].text == SendText(username)
                  && r.0[ids[j]].link == "/post/" + postId && !r.0[ids[j]].read)
  {
    var inputs := SendNotices(recipients, sender, postId, username);
    assert "send_post" == Kinds[8];
    forall j | 0 <= j < |inputs| ensures Stores(inputs[j]) <==> recipients[j] != sender {
      assert SendText(username) != "" by {
        assert |SendText(username)| >= |" sent you a post."|;
      }
    }
    DeliverAllContents(m, order, inputs, ids);
    assert "send_post" == PostKinds[5];
    forall j | 0 <= j < |ids| ensures LinkOf(inputs[j]) == "/post/" + postId {
      var link := LinkOf(inputs[j]);
      assert link[..6] == "/post/" && link[6..] == postId;
      assert link == link[..6] + link[6..];
    }
  }

  /** Sending a post only to oneself stores nothing. */
  lemma SendToSelfOnly(m: map<Id, Notification>, order: seq<Id>, sender: Id, postId: Id, username: string, ids: seq<Id>)
    requires Indexed(m, order) && FreshIds(ids, order) && |ids| == 1
    ensures DeliverAll(m, order, SendNotices([sender], sender, postId, username), ids) == (m, order)
  {
    var inputs := SendNotices([sender], sender, postId, username);
    assert inputs[..0] == [];
    assert !Stores(inputs[0]);
  }

  /** `POST /send-post`. An absent recipient list is `[]`. A caller whose
      user record is gone makes the first notice's text throw before any
      notice is saved (500). Notices are pushed in real time. `ids` are the
      ids the notices get, one per recipient. */
  method SendPost(st: Store, p: Principal, postId: Option<Id>, recipients: seq<Id>, ids: seq<Id>)
    returns (r: Response<string>, emitted: seq<Emit>)
    requires st.Valid() && FreshIds(ids, st.notificationOrder) && |ids| == |recipients|
    modifies st`notifications, st`notificationOrder
    ensures st.Valid()
    ensures (!Truthy(postId) || recipients == []) ==> r == Err(400, "Post ID and recipients are required.")
    ensures Truthy(postId) && recipients != [] && postId.value !in old(st.posts) ==> r == Err(404, "Post not found.")
    ensures Truthy(postId) && recipients != [] && postId.value in old(st.posts) && p.id !in old(st.users) ==>
              r == Err(500, "Internal server error.")
    ensures r.Ok? <==> Truthy(postId) && recipients != [] && postId.value in old(st.posts) && p.id in old(st.users)
    ensures r.Err? ==> st.notifications == old(st.notifications) && st.notificationOrder == old(st.notificationOrder) && emitted == []
    ensures r.Ok? ==>
              var notices := SendNotices(recipients, p.id, postId.value, old(st.users)[p.id].username);
              && r == Ok(200, "Post sent successfully.")
              && (st.notifications, st.notificationOrder) == DeliverAll(old(st.notifications), old(st.notificationOrder), notices, ids)
              && emitted == EmitsOf(notices, true)
  {
    emitted := [];
    if !Truthy(postId) || recipients == [] {
      return Err(400, "Post ID and recipients are required."), emitted;
    }
    if postId.value !in st.posts {
      return Err(404, "Post not found."), emitted;
    }
    if p.id !in st.users {
      return Err(500, "Internal server error."), emitted;
    }
    var notices := SendNotices(recipients, p.id, postId.value, st.users[p.id].username);
    emitted := NotifyEach(st, notices, true, ids);
    r := Ok(200, "Post sent successfully.");
  }
}
