/** The document store behind the routes: one record type per Mongoose model
    (the files under backend/models) and a `Store` object holding each collection as a
    map from id to record, plus the order in which ids were inserted, which
    stands for the `createdAt` time stamps the listings sort by. */
module Documents {
  import opened Common

  datatype Role = Student | Alumni | Admin

  /** The 403 message of the admin gate (`adminAuthMiddleware`). */
  const AdminsOnly := "Access denied: Admins only"

  /** The authenticated caller (`req.user`). The optional fields are the ones
      the handlers read with `||` fallbacks. The verify handlers also read
      `name`, `contact_no` and `phone`, which the User schema does not
      declare: a caller as the auth middleware loads it (`Authenticated`)
      has none of them, while a `Principal` that carries them stands for
      the handlers as evidently intended. */
  datatype Principal = Principal(
    id: Id,
    role: Role,
    email: string,
    username: string,
    firstname: Option<string>,
    lastname: Option<string>,
    name: Option<string>,
    contactNo: Option<string>,
    phone: Option<string>)

  datatype User = User(
    username: string,
    firstname: Option<string>,
    lastname: Option<string>,
    email: string,
    role: Role,
    graduationYear: Option<int>,
    course: Option<string>,
    department: Option<string>,
    following: seq<Id>,
    followers: seq<Id>)

  /** `req.user` as `verifyToken` sets it (backend/middleware/authMiddleware.js):
      the caller's User document without its password. Reading a path the
      schema does not declare gives undefined. */
  function Authenticated(id: Id, u: User): (p: Principal)
    ensures p.id == id && p.role == u.role && p.email == u.email && p.username == u.username
    ensures p.firstname == u.firstname && p.lastname == u.lastname
    ensures p.name.None? && p.contactNo.None? && p.phone.None?
  {
    Principal(id, u.role, u.email, u.username, u.firstname, u.lastname, None, None, None)
  }

  datatype CampaignStatus = Active | Closed

  /** A donation request (campaign), DonationRequest.js. */
  datatype Campaign = Campaign(
    title: string,
    description: string,
    targetAmount: int,
    deadline: Option<int>,
    images: seq<string>,
    collectedAmount: int,
    status: CampaignStatus)

  /** A ledger entry, Donation.js; the gateway ids keep the schema's `razorpay` names. */
  datatype Donation = Donation(
    donorId: Id,
    requestId: Id,
    amount: int,
    razorpayPaymentId: Option<string>,
    razorpayOrderId: Option<string>,
    razorpaySignature: Option<string>,
    receiptPath: Option<string>)

  datatype Event = Event(
    title: string,
    description: string,
    date: int,
    image: string,
    seats: int,
    createdBy: Id,
    participants: seq<Id>)

  datatype Reply = Reply(user: Id, text: string)

  datatype Comment = Comment(id: Id, user: Id, text: string, replies: seq<Reply>)

  datatype Post = Post(
    author: Id,
    title: string,
    content: string,
    imageUrl: Option<string>,
    repostFrom: Option<Id>,
    likes: seq<Id>,
    comments: seq<Comment>)

  datatype Notification = Notification(
    recipient: Id,
    sender: Id,
    kind: string,
    postId: Option<Id>,
    chatId: Option<Id>,
    text: string,
    link: string,
    read: bool)

  datatype RequestStatus = Pending | Approved | Denied

  datatype EmailChangeRequest = EmailChangeRequest(
    userId: Id,
    currentEmail: string,
    newEmail: string,
    reason: string,
    status: RequestStatus)

  /** Every stored id was inserted once, in `order`. */
  ghost predicate Indexed<R>(m: map<Id, R>, order: seq<Id>) {
    NoDups(order) && forall id :: id in m ==> id in order
  }

  class Store {
    var users: map<Id, User>
    var userOrder: seq<Id>
    var campaigns: map<Id, Campaign>
    var campaignOrder: seq<Id>
    var donations: map<Id, Donation>
    var donationOrder: seq<Id>
    var events: map<Id, Event>
    var posts: map<Id, Post>
    var postOrder: seq<Id>
    var notifications: map<Id, Notification>
    var notificationOrder: seq<Id>
    var emailRequests: map<Id, EmailChangeRequest>

    ghost predicate Valid()
      reads this
    {
      && Indexed(users, userOrder)
      && Indexed(campaigns, campaignOrder)
      && Indexed(donations, donationOrder)
      && Indexed(posts, postOrder)
      && Indexed(notifications, notificationOrder)
    }

    constructor ()
      ensures Valid()
      ensures users == map[] && campaigns == map[] && donations == map[] && events == map[]
      ensures posts == map[] && notifications == map[] && emailRequests == map[]
    {
      users, userOrder := map[], [];
      campaigns, campaignOrder := map[], [];
      donations, donationOrder := map[], [];
      events := map[];
      posts, postOrder := map[], [];
      notifications, notificationOrder := map[], [];
      emailRequests := map[];
    }
  }

  /** Appending an id never inserted before keeps the log duplicate-free. */
  lemma AppendFresh(order: seq<Id>, id: Id)
    requires NoDups(order) && id !in order
    ensures NoDups(order + [id])
  {
    var o := order + [id];
    forall i, j | 0 <= i < j < |o| ensures o[i] != o[j] {
      if j == |order| {
        assert o[i] == order[i];
      } else {
        assert o[i] == order[i] && o[j] == order[j];
      }
    }
  }

  /** `User.find({ _id: { $ne: me } })`: every other user, in insertion order. */
  function OtherUsers(users: map<Id, User>, order: seq<Id>, me: Id): (r: seq<Id>)
    requires Indexed(users, order)
    ensures forall u :: u in r <==> u in users && u != me
    ensures NoDups(r)
  {
    var keep := (u: Id) => u in users && u != me;
    FilterMembers(order, keep);
    FilterNoDups(order, keep);
    Filter(order, keep)
  }
}
