/** backend/routes/postRoutes.js: the feed, likes, comments and replies,
    reposts and deleting a post. The handlers read `post.author` after
    population; when the author's user record is gone that reads `_id` of
    null and the handler answers 500, which the model keeps. */
module PostRoutes {
  import opened Common
  import opened Documents
  import opened Notify

  /** A direct Socket.IO push `{ message }` to one user's room. */
  datatype Push = Push(room: Id, message: string)

  /** `GET /`: every post, newest first. */
  function Feed(st: Store): (r: seq<Id>)
    reads st
    requires st.Valid()
    ensures forall id :: id in r <==> id in st.posts
    ensures NoDups(r) && NewestFirstOf(r, st.postOrder)
  {
    var posts := st.posts;
    var keep := (id: Id) => id in posts;
    NewestFirstMembers(st.postOrder, keep);
    NewestFirstOrder(st.postOrder, keep);
    NewestFirst(st.postOrder, keep)
  }

  // ---------------------------------------------------------------------
  // Likes

  /** The like toggle: append a caller who has not liked, otherwise drop
      the caller's first entry. */
  function ToggleLike(likes: seq<Id>, u: Id): (r: seq<Id>)
    ensures u !in likes ==> r == likes + [u]
    ensures u in likes ==> r == likes[..IndexOf(likes, u)] + likes[IndexOf(likes, u) + 1..]
  {
    if u !in likes then likes + [u]
    else
      RemoveFirstSplice(likes, u);
      RemoveFirst(likes, u)
  }

  /** Liking and then unliking restores the list exactly. */
  lemma LikeThenUnlike(likes: seq<Id>, u: Id)
    requires u !in likes
    ensures ToggleLike(ToggleLike(likes, u), u) == likes
  {
    RemoveFirstAppended(likes, u);
  }

  /** On a list without duplicates, unliking and then liking moves the caller to the end. */
  lemma UnlikeThenLike(likes: seq<Id>, u: Id)
    requires NoDups(likes) && u in likes
    ensures ToggleLike(ToggleLike(likes, u), u) == RemoveAll(likes, u) + [u]
  {
    RemoveFirstNoDups(likes, u);
    RemoveAllMembers(likes, u);
  }

  /** The toggle keeps a likes list free of duplicates. */
  lemma ToggleKeepsNoDups(likes: seq<Id>, u: Id)
    requires NoDups(likes)
    ensures NoDups(ToggleLike(likes, u))
  {
    if u !in likes {
      AppendFresh(likes, u);
    } else {
      RemoveFirstNoDups(likes, u);
      RemoveAllNoDups(likes, u);
    }
  }

  function LikeNotice(p: Principal, author: Id, postId: Id): NotificationInput {
    NotificationInput(author, p.id, "like", Some(postId), None, None, p.username + " liked your post.")
  }

  /** `PUT /like/:postId`: only a like notifies, and only someone else's post. */
  method Like(st: Store, p: Principal, postId: Id, noteId: Id) returns (r: Response<seq<Id>>)
    requires st.Valid() && noteId !in st.notificationOrder
    modifies st`posts, st`notifications, st`notificationOrder
    ensures st.Valid()
    ensures postId !in old(st.posts) ==> r == Err(404, "Post not found")
    ensures (postId in old(st.posts) && p.id !in old(st.posts)[postId].likes && old(st.posts)[postId].author !in old(st.users))
              ==> r == Err(500, "Server error")
    ensures r.Err? ==> st.posts == old(st.posts) && st.notifications == old(st.notifications)
                       && st.notificationOrder == old(st.notificationOrder)
    ensures r.Ok? ==>
              var post := old(st.posts)[postId];
              && postId in old(st.posts)
              && r == Ok(200, ToggleLike(post.likes, p.id))
              && st.posts == old(st.posts)[postId := post.(likes := r.value)]
              && (st.notifications, st.notificationOrder) ==
                   (if p.id !in post.likes && post.author != p.id
                    then Deliver(old(st.notifications), old(st.notificationOrder), LikeNotice(p, post.author, postId), noteId)
                    else (old(st.notifications), old(st.notificationOrder)))
    ensures r.Ok? <==> postId in old(st.posts) && (p.id in old(st.posts)[postId].likes || old(st.posts)[postId].author in old(st.users))
  {
    if postId !in st.posts {
      return Err(404, "Post not found");
    }
    var post := st.posts[postId];
    if p.id !in post.likes {
      if post.author !in st.users {
        return Err(500, "Server error");
      }
      if post.author != p.id {
        var _ := CreateNotification(st, LikeNotice(p, post.author, postId), false, noteId);
      }
    }
    var likes := ToggleLike(post.likes, p.id);
    st.posts := st.posts[postId := post.(likes := likes)];
    r := Ok(200, likes);
  }

  // ---------------------------------------------------------------------
  // Comments and replies

  /** `!text || !text.trim()`. */
  predicate Blank(text: Option<string>) {
    !Truthy(text) || Trim(text.value) == ""
  }

  /** The position of the first comment with id `cid`, if any (`comments.id(cid)`). */
  function FindComment(comments: seq<Comment>, cid: Id): (r: Option<nat>)
    ensures r.Some? ==> r.value < |comments| && comments[r.value].id == cid
    ensures r.Some? ==> forall i :: 0 <= i < r.value ==> comments[i].id != cid
    ensures r.None? ==> forall i :: 0 <= i < |comments| ==> comments[i].id != cid
  {
    if comments == [] then None
    else if comments[0].id == cid then Some(0)
    else
      match FindComment(comments[1..], cid)
      case None => None
      case Some(i) => Some(i + 1)
  }

  /** A new top-level comment: appended, trimmed, with no replies. */
  function AddComment(post: Post, commentId: Id, u: Id, text: string): (r: Post)
    ensures r == post.(comments := r.comments)
    ensures r.comments == post.comments + [Comment(commentId, u, Trim(text), [])]
  {
    post.(comments := post.comments + [Comment(commentId, u, Trim(text), [])])
  }

  /** A reply: appended, trimmed, to the replies of comment `i`; every other comment is untouched. */
  function AddReply(post: Post, i: nat, u: Id, text: string): (r: Post)
    requires i < |post.comments|
    ensures r == post.(comments := r.comments) && |r.comments| == |post.comments|
    ensures forall j :: 0 <= j < |post.comments| && j != i ==> r.comments[j] == post.comments[j]
    ensures r.comments[i] == post.comments[i].(replies := post.comments[i].replies + [Reply(u, Trim(text))])
  {
    var c := post.comments[i];
    post.(comments := post.comments[i := c.(replies := c.replies + [Reply(u, Trim(text))])])
  }

  /** Stored comment and reply text is never empty and has no surrounding white space. */
  lemma StoredTextTrimmed(text: Option<string>)
    requires !Blank(text)
    ensures Trim(text.value) != "" && Trimmed(Trim(text.value))
  {
    TrimIsTrimmed(text.value);
  }

  function CommentNotice(p: Principal, author: Id, postId: Id): NotificationInput {
    NotificationInput(author, p.id, "comment", Some(postId), None, None, p.username + " commented on your post.")
  }

  function ReplyNotice(p: Principal, commenter: Id, postId: Id): NotificationInput {
    NotificationInput(commenter, p.id, "reply", Some(postId), None, None, p.username + " replied to your comment on a post.")
  }

  /** The reply branch as the route is written. The Post schema declares no
      `replies` on a comment, so the pushed reply lives only on the loaded
      document: the save stores the post as it was and the answer lists the
      comments without it. The parent's author is read after the save; when
      that user is gone the handler answers 500 without a notice. Otherwise
      the author is the populated user document, whose `toString` is never
      an id: neither the route's check nor `createNotification`'s self check
      fires, so the notice is saved even on a reply to one's own comment. */
  method ReplyAsWritten(st: Store, p: Principal, postId: Id, i: nat, text: string, noteId: Id) returns (r: Response<seq<Comment>>)
    requires st.Valid() && noteId !in st.notificationOrder
    requires postId in st.posts && i < |st.posts[postId].comments|
    modifies st`notifications, st`notificationOrder
    ensures st.Valid()
    ensures var parent := st.posts[postId].comments[i];
            && (parent.user !in st.users ==>
                  r == Err(500, "Server error")
                  && st.notifications == old(st.notifications) && st.notificationOrder == old(st.notificationOrder))
            && (parent.user in st.users ==>
                  r == Ok(200, st.posts[postId].comments)
                  && st.notifications == old(st.notifications)[noteId := Record(ReplyNotice(p, parent.user, postId))]
                  && st.notificationOrder == old(st.notificationOrder) + [noteId])
  {
    var parent := st.posts[postId].comments[i];
    if parent.user !in st.users {
      return Err(500, "Server error");
    }
    AppendFresh(st.notificationOrder, noteId);
    st.notifications := st.notifications[noteId := Record(ReplyNotice(p, parent.user, postId))];
    st.notificationOrder := st.notificationOrder + [noteId];
    r := Ok(200, st.posts[postId].comments);
  }

  /** Compared by id, as intended, a reply notice is stored exactly when the
      parent comment is someone else's; a reply to one's own comment leaves
      the notifications as they were. */
  lemma ReplyNoticeStores(p: Principal, commenter: Id, postId: Id, m: map<Id, Notification>, order: seq<Id>, id: Id)
    ensures Stores(ReplyNotice(p, commenter, postId)) <==> commenter != p.id
    ensures commenter == p.id ==> Deliver(m, order, ReplyNotice(p, commenter, postId), id) == (m, order)
  {
    assert Kinds[4] == "reply";
    assert |ReplyNotice(p, commenter, postId).text| >= |" replied to your comment on a post."|;
  }

  /** What the route as written stores differs from what it means to store:
      the reply is missing from the saved comment. */
  lemma ReplyDropped(post: Post, i: nat, u: Id, text: string)
    requires i < |post.comments|
    ensures AddReply(post, i, u, text) != post
    ensures |AddReply(post, i, u, text).comments[i].replies| == |post.comments[i].replies| + 1
  {
    var r := AddReply(post, i, u, text);
    assert |r.comments[i].replies| == |post.comments[i].replies| + 1;
  }

  /** The reply branch as intended: the reply is stored on comment `i`, then
      the parent's author is notified; when that user is gone the handler
      answers 500 with the reply already stored. */
  method StoreReply(st: Store, p: Principal, postId: Id, i: nat, text: string, noteId: Id) returns (r: Response<seq<Comment>>)
    requires st.Valid() && noteId !in st.notificationOrder
    requires postId in st.posts && i < |st.posts[postId].comments|
    modifies st`posts, st`notifications, st`notificationOrder
    ensures st.Valid()
    ensures var parent := old(st.posts)[postId].comments[i];
            && st.posts == old(st.posts)[postId := AddReply(old(st.posts)[postId], i, p.id, text)]
            && (parent.user !in old(st.users) ==>
                  r == Err(500, "Server error")
                  && st.notifications == old(st.notifications) && st.notificationOrder == old(st.notificationOrder))
            && (parent.user in old(st.users) ==>
                  r == Ok(200, st.posts[postId].comments)
                  && (st.notifications, st.notificationOrder) ==
                       Deliver(old(st.notifications), old(st.notificationOrder), ReplyNotice(p, parent.user, postId), noteId))
  {
    var post := st.posts[postId];
    var updated := AddReply(post, i, p.id, text);
    st.posts := st.posts[postId := updated];
    if post.comments[i].user !in st.users {
      return Err(500, "Server error");
    }
    var _ := CreateNotification(st, ReplyNotice(p, post.comments[i].user, postId), false, noteId);
    r := Ok(200, updated.comments);
  }

  /** `POST /comment/:postId`: a reply when `parentCommentId` is truthy, a
      new comment otherwise. The post is saved before the notice; a missing
      author (of the post, or of the parent comment) then makes the handler
      answer 500 with the comment or reply already stored. */
  method AddCommentOrReply(st: Store, p: Principal, postId: Id, text: Option<string>, parent: Option<Id>,
                           commentId: Id, noteId: Id) returns (r: Response<seq<Comment>>)
    requires st.Valid() && noteId !in st.notificationOrder
    modifies st`posts, st`notifications, st`notificationOrder
    ensures st.Valid()
    ensures Blank(text) ==> r == Err(400, "Comment text required")
    ensures !Blank(text) && postId !in old(st.posts) ==> r == Err(404, "Post not found")
    ensures (!Blank(text) && postId in old(st.posts) && Truthy(parent) && FindComment(old(st.posts)[postId].comments, parent.value).None?)
              ==> r == Err(404, "Parent comment not found")
    ensures Blank(text) || postId !in old(st.posts) || r.status == 404 ==>
              st.posts == old(st.posts) && st.notifications == old(st.notifications) && st.notificationOrder == old(st.notificationOrder)
    ensures !Blank(text) && postId in old(st.posts) && Truthy(parent) && FindComment(old(st.posts)[postId].comments, parent.value).Some? ==>
              var post := old(st.posts)[postId];
              var i := FindComment(post.comments, parent.value).value;
              && st.posts == old(st.posts)[postId := AddReply(post, i, p.id, text.value)]
              && (post.comments[i].user in old(st.users) ==>
                    && r == Ok(200, st.posts[postId].comments)
                    && (st.notifications, st.notificationOrder) ==
                         Deliver(old(st.notifications), old(st.notificationOrder), ReplyNotice(p, post.comments[i].user, postId), noteId))
              && (post.comments[i].user !in old(st.users) ==>
                    r == Err(500, "Server error") && st.notifications == old(st.notifications)
                    && st.notificationOrder == old(st.notificationOrder))
    ensures !Blank(text) && postId in old(st.posts) && !Truthy(parent) ==>
              var post := old(st.posts)[postId];
              && st.posts == old(st.posts)[postId := AddComment(post, commentId, p.id, text.value)]
              && (post.author in old(st.users) ==>
                    && r == Ok(200, st.posts[postId].comments)
                    && (st.notifications, st.notificationOrder) ==
                         Deliver(old(st.notifications), old(st.notificationOrder), CommentNotice(p, post.author, postId), noteId))
              && (post.author !in old(st.users) ==>
                    r == Err(500, "Server error") && st.notifications == old(st.notifications)
                    && st.notificationOrder == old(st.notificationOrder))
  {
    if Blank(text) {
      return Err(400, "Comment text required");
    }
    if postId !in st.posts {
      return Err(404, "Post not found");
    }
    var post := st.posts[postId];
    if Truthy(parent) {
      var i := FindComment(post.comments, parent.value);
      if i.None? {
        return Err(404, "Parent comment not found");
      }
      r := StoreReply(st, p, postId, i.value, text.value, noteId);
    } else {
      var updated := AddComment(post, commentId, p.id, text.value);
      st.posts := st.posts[postId := updated];
      if post.author !in st.users {
        return Err(500, "Server error");
      }
      var _ := CreateNotification(st, CommentNotice(p, post.author, postId), false, noteId);
      r := Ok(200, updated.comments);
    }
  }

  // ---------------------------------------------------------------------
  // Reposts and deletion

  /** A repost: the original's title, content and image under the caller's
      name, pointing back at the original, with no likes or comments. */
  function RepostOf(original: Post, originalId: Id, u: Id): (r: Post)
    ensures r.author == u && r.repostFrom == Some(originalId)
    ensures r.title == original.title && r.content == original.content && r.imageUrl == original.imageUrl
    ensures r.likes == [] && r.comments == []
  {
    Post(u, original.title, original.content, original.imageUrl, Some(originalId), [], [])
  }

  function RepostNotice(p: Principal, author: Id, newId: Id): NotificationInput {
    NotificationInput(author, p.id, "repost", Some(newId), None, None, p.username + " reposted your post.")
  }

  /** `POST /repost/:id`. The copy is saved first (the schema refuses an
      empty title or content); the original's author, if someone else, is
      then notified and pushed. */
  method Repost(st: Store, p: Principal, originalId: Id, newId: Id, noteId: Id) returns (r: Response<Id>, pushed: Option<Push>)
    requires st.Valid() && newId !in st.postOrder && noteId !in st.notificationOrder
    modifies st`posts, st`postOrder, st`notifications, st`notificationOrder
    ensures st.Valid()
    ensures originalId !in old(st.posts) ==> r == Err(404, "Original post not found")
    ensures originalId !in old(st.posts) || old(st.posts)[originalId].title == "" || old(st.posts)[originalId].content == "" ==>
              r.Err? && st.posts == old(st.posts) && st.postOrder == old(st.postOrder)
              && st.notifications == old(st.notifications) && st.notificationOrder == old(st.notificationOrder) && pushed.None?
    ensures originalId in old(st.posts) && old(st.posts)[originalId].title != "" && old(st.posts)[originalId].content != "" ==>
              var original := old(st.posts)[originalId];
              && st.posts == old(st.posts)[newId := RepostOf(original, originalId, p.id)]
              && st.postOrder == old(st.postOrder) + [newId]
              && (original.author !in old(st.users) ==>
                    (r == Err(500, "Server error") && pushed.None?
                     && st.notifications == old(st.notifications) && st.notificationOrder == old(st.notificationOrder)))
              && (original.author in old(st.users) ==>
                    (r == Ok(201, newId)
                     && (st.notifications, st.notificationOrder) ==
                          (if original.author != p.id
                           then Deliver(old(st.notifications), old(st.notificationOrder), RepostNotice(p, original.author, newId), noteId)
                           else (old(st.notifications), old(st.notificationOrder)))
                     && pushed == (if original.author != p.id then Some(Push(original.author, p.username + " reposted your post.")) else None)))
  {
    pushed := None;
    if originalId !in st.posts {
      return Err(404, "Original post not found"), pushed;
    }
    var original := st.posts[originalId];
    if original.title == "" || original.content == "" {
      return Err(500, "Server error"), pushed;
    }
    AppendFresh(st.postOrder, newId);
    st.posts := st.posts[newId := RepostOf(original, originalId, p.id)];
    st.postOrder := st.postOrder + [newId];
    if original.author !in st.users {
      return Err(500, "Server error"), pushed;
    }
    if original.author != p.id {
      var _ := CreateNotification(st, RepostNotice(p, original.author, newId), false, noteId);
      pushed := Some(Push(original.author, p.username + " reposted your post."));
    }
    r := Ok(201, newId);
  }

  /** `DELETE /:id`: the author or an admin; existence is checked first. */
  method DeletePost(st: Store, p: Principal, id: Id) returns (r: Response<string>)
    requires st.Valid()
    modifies st`posts
    ensures st.Valid()
    ensures id !in old(st.posts) ==> r == Err(404, "Post not found")
    ensures id in old(st.posts) && old(st.posts)[id].author != p.id && p.role != Admin ==> r == Err(403, "Not authorized to delete this post")
    ensures r.Ok? <==> id in old(st.posts) && (old(st.posts)[id].author == p.id || p.role == Admin)
    ensures r.Ok? ==> r == Ok(200, "Post deleted successfully") && st.posts == old(st.posts) - {id}
    ensures r.Err? ==> st.posts == old(st.posts)
  {
    if id !in st.posts {
      return Err(404, "Post not found");
    }
    if st.posts[id].author != p.id && p.role != Admin {
      return Err(403, "Not authorized to delete this post");
    }
    st.posts := st.posts - {id};
    r := Ok(200, "Post deleted successfully");
  }
}
