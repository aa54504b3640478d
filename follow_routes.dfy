/** backend/routes/followRoutes.js: the follow graph. Each user keeps the
    ids it follows and the ids following it; a follow or an unfollow updates
    both ends. */
module FollowRoutes {
  import opened Common
  import opened Documents
  import opened Notify

  /** Between any two users, "a follows b" is recorded on both ends or on
      neither, and no list holds an id twice. */
  predicate Consistent(users: map<Id, User>) {
    && (forall a, b :: a in users && b in users ==> (b in users[a].following <==> a in users[b].followers))
    && (forall a :: a in users ==> NoDups(users[a].following) && NoDups(users[a].followers))
  }

  /** The graph after `me` follows `target`: nothing changes when `me`
      already follows `target`; otherwise each end gets the other appended. */
  function FollowGraph(users: map<Id, User>, me: Id, target: Id): (r: map<Id, User>)
    requires me in users && target in users && me != target
    ensures r.Keys == users.Keys
    ensures forall u :: u in users && u != me && u != target ==> r[u] == users[u]
    ensures target in users[me].following ==> r == users
    ensures target !in users[me].following ==>
              && r[me] == users[me].(following := users[me].following + [target])
              && r[target] == users[target].(followers := users[target].followers + [me])
  {
    if target in users[me].following then users
    else
      var u := users[me := users[me].(following := users[me].following + [target])];
      u[target := users[target].(followers := users[target].followers + [me])]
  }

  /** The graph after `me` unfollows `target`: each end drops the other. */
  function UnfollowGraph(users: map<Id, User>, me: Id, target: Id): (r: map<Id, User>)
    requires me in users && target in users && me != target
    ensures r.Keys == users.Keys
    ensures forall u :: u in users && u != me && u != target ==> r[u] == users[u]
    ensures r[me] == users[me].(following := RemoveAll(users[me].following, target))
    ensures r[target] == users[target].(followers := RemoveAll(users[target].followers, me))
  {
    var u := users[me := users[me].(following := RemoveAll(users[me].following, target))];
    u[target := users[target].(followers := RemoveAll(users[target].followers, me))]
  }

  /** Following keeps the graph consistent, and afterwards `me` follows `target`. */
  lemma FollowKeepsConsistent(users: map<Id, User>, me: Id, target: Id)
    requires Consistent(users) && me in users && target in users && me != target
    ensures Consistent(FollowGraph(users, me, target))
    ensures target in FollowGraph(users, me, target)[me].following
    ensures me in FollowGraph(users, me, target)[target].followers
  {
    if target !in users[me].following {
      var r := FollowGraph(users, me, target);
      AppendFresh(users[me].following, target);
      assert me !in users[target].followers;
      AppendFresh(users[target].followers, me);
      forall a, b | a in r && b in r ensures b in r[a].following <==> a in r[b].followers {
        assert b in users[a].following <==> a in users[b].followers;
        if a == me && b == target {
          assert target in r[me].following && me in r[target].followers;
        }
      }
    }
  }

  /** Unfollowing keeps the graph consistent, and afterwards `me` does not follow `target`. */
  lemma UnfollowKeepsConsistent(users: map<Id, User>, me: Id, target: Id)
    requires Consistent(users) && me in users && target in users && me != target
    ensures Consistent(UnfollowGraph(users, me, target))
    ensures target !in UnfollowGraph(users, me, target)[me].following
    ensures me !in UnfollowGraph(users, me, target)[target].followers
  {
    var r := UnfollowGraph(users, me, target);
    RemoveAllMembers(users[me].following, target);
    RemoveAllMembers(users[target].followers, me);
    RemoveAllNoDups(users[me].following, target);
    RemoveAllNoDups(users[target].followers, me);
    forall a, b | a in r && b in r ensures b in r[a].following <==> a in r[b].followers {
      assert b in users[a].following <==> a in users[b].followers;
    }
  }

  /** Following twice is following once. */
  lemma FollowIdempotent(users: map<Id, User>, me: Id, target: Id)
    requires me in users && target in users && me != target
    ensures FollowGraph(FollowGraph(users, me, target), me, target) == FollowGraph(users, me, target)
  {
  }

  /** Unfollowing twice is unfollowing once. */
  lemma UnfollowIdempotent(users: map<Id, User>, me: Id, target: Id)
    requires me in users && target in users && me != target
    ensures UnfollowGraph(UnfollowGraph(users, me, target), me, target) == UnfollowGraph(users, me, target)
  {
    RemoveAllIdempotent(users[me].following, target);
    RemoveAllIdempotent(users[target].followers, me);
  }

  /** On a consistent graph, unfollowing right after a new follow restores the graph. */
  lemma FollowThenUnfollow(users: map<Id, User>, me: Id, target: Id)
    requires Consistent(users) && me in users && target in users && me != target
    requires target !in users[me].following
    ensures UnfollowGraph(FollowGraph(users, me, target), me, target) == users
  {
    assert me !in users[target].followers;
    RemoveAllAppended(users[me].following, target);
    RemoveAllAppended(users[target].followers, me);
    var r := UnfollowGraph(FollowGraph(users, me, target), me, target);
    assert r[me] == users[me] && r[target] == users[target];
  }

  /** A new follow written on the caller's end only, as when the second
      save throws, leaves the graph inconsistent. */
  lemma HalfFollowInconsistent(users: map<Id, User>, me: Id, target: Id)
    requires Consistent(users) && me in users && target in users && me != target
    requires target !in users[me].following
    ensures !Consistent(users[me := users[me].(following := users[me].following + [target])])
  {
    var half := users[me := users[me].(following := users[me].following + [target])];
    assert me !in users[target].followers;
    assert target in half[me].following && half[target] == users[target];
  }

  /** The notice a new follower sends. */
  function FollowNotice(p: Principal, target: Id): NotificationInput {
    NotificationInput(target, p.id, "follow", None, None, None, p.username + " started following you.")
  }

  /** `POST /follow/:id`: a caller whose own record is gone makes the
      handler throw (500). Only a new follow notifies, without a push. */
  method Follow(st: Store, p: Principal, target: Id, noteId: Id) returns (r: Response<seq<Id>>)
    requires st.Valid() && noteId !in st.notificationOrder
    modifies st`users, st`notifications, st`notificationOrder
    ensures st.Valid()
    ensures target == p.id ==> r == Err(400, "Can't follow yourself")
    ensures target != p.id && target !in old(st.users) ==> r == Err(404, "Target user not found")
    ensures target != p.id && target in old(st.users) && p.id !in old(st.users) ==> r == Err(500, "Server error")
    ensures r.Ok? <==> target != p.id && target in old(st.users) && p.id in old(st.users)
    ensures r.Err? ==> st.users == old(st.users) && st.notifications == old(st.notifications)
                       && st.notificationOrder == old(st.notificationOrder)
    ensures r.Ok? ==>
              && st.users == FollowGraph(old(st.users), p.id, target)
              && r == Ok(200, st.users[p.id].following)
              && (st.notifications, st.notificationOrder) ==
                   (if target in old(st.users)[p.id].following then (old(st.notifications), old(st.notificationOrder))
                    else Deliver(old(st.notifications), old(st.notificationOrder), FollowNotice(p, target), noteId))
    ensures old(Consistent(st.users)) ==> Consistent(st.users)
  {
    if target == p.id {
      return Err(400, "Can't follow yourself");
    }
    if target !in st.users {
      return Err(404, "Target user not found");
    }
    if p.id !in st.users {
      return Err(500, "Server error");
    }
    if Consistent(st.users) {
      FollowKeepsConsistent(st.users, p.id, target);
    }
    if target !in st.users[p.id].following {
      st.users := FollowGraph(st.users, p.id, target);
      var _ := CreateNotification(st, FollowNotice(p, target), false, noteId);
    }
    r := Ok(200, st.users[p.id].following);
  }

  /** `POST /unfollow/:id`. */
  method Unfollow(st: Store, p: Principal, target: Id) returns (r: Response<seq<Id>>)
    requires st.Valid()
    modifies st`users
    ensures st.Valid()
    ensures target == p.id ==> r == Err(400, "Can't unfollow yourself")
    ensures target != p.id && target !in old(st.users) ==> r == Err(404, "Target user not found")
    ensures target != p.id && target in old(st.users) && p.id !in old(st.users) ==> r == Err(500, "Server error")
    ensures r.Ok? <==> target != p.id && target in old(st.users) && p.id in old(st.users)
    ensures r.Err? ==> st.users == old(st.users)
    ensures r.Ok? ==> st.users == UnfollowGraph(old(st.users), p.id, target) && r == Ok(200, st.users[p.id].following)
    ensures old(Consistent(st.users)) ==> Consistent(st.users)
  {
    if target == p.id {
      return Err(400, "Can't unfollow yourself");
    }
    if target !in st.users {
      return Err(404, "Target user not found");
    }
    if p.id !in st.users {
      return Err(500, "Server error");
    }
    if Consistent(st.users) {
      UnfollowKeepsConsistent(st.users, p.id, target);
    }
    st.users := UnfollowGraph(st.users, p.id, target);
    r := Ok(200, st.users[p.id].following);
  }

  /** One row of `GET /all`. */
  datatype Row = Row(id: Id, isFollowing: bool)

  /** `GET /all`: every other user in insertion order, marked when the
      caller is among its followers. */
  function AllUsers(st: Store, p: Principal): (r: seq<Row>)
    reads st
    requires st.Valid()
    ensures forall u :: (exists j :: 0 <= j < |r| && r[j].id == u) <==> u in st.users && u != p.id
    ensures forall j :: 0 <= j < |r| ==> r[j].id in st.users && (r[j].isFollowing <==> p.id in st.users[r[j].id].followers)
  {
    var users := st.users;
    var others := OtherUsers(users, st.userOrder, p.id);
    var rows := seq(|others|, j requires 0 <= j < |others| => Row(others[j], p.id in users[others[j]].followers));
    assert forall j :: 0 <= j < |rows| ==> rows[j].id == others[j];
    assert forall u :: u in others ==> exists j :: 0 <= j < |rows| && rows[j].id == u;
    rows
  }

  /** On a consistent graph the mark agrees with the caller's own `following`. */
  lemma AllUsersMarksFollowing(st: Store, p: Principal, j: nat)
    requires st.Valid() && Consistent(st.users) && p.id in st.users
    requires j < |AllUsers(st, p)|
    ensures AllUsers(st, p)[j].isFollowing <==> AllUsers(st, p)[j].id in st.users[p.id].following
  {
  }

  /** `GET /following` and `GET /followers`: population drops ids whose user is gone. */
  function Following(st: Store, p: Principal): (r: Response<seq<Id>>)
    reads st
    ensures p.id !in st.users ==> r == Err(404, "User not found")
    ensures p.id in st.users ==> r.Ok? && forall u :: u in r.value <==> u in st.users[p.id].following && u in st.users
  {
    if p.id !in st.users then Err(404, "User not found")
    else
      var users := st.users;
      var keep := (u: Id) => u in users;
      FilterMembers(users[p.id].following, keep);
      Ok(200, Filter(users[p.id].following, keep))
  }

  function Followers(st: Store, p: Principal): (r: Response<seq<Id>>)
    reads st
    ensures p.id !in st.users ==> r == Err(404, "User not found")
    ensures p.id in st.users ==> r.Ok? && forall u :: u in r.value <==> u in st.users[p.id].followers && u in st.users
  {
    if p.id !in st.users then Err(404, "User not found")
    else
      var users := st.users;
      var keep := (u: Id) => u in users;
      FilterMembers(users[p.id].followers, keep);
      Ok(200, Filter(users[p.id].followers, keep))
  }
}
