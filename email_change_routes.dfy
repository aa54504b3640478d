/** backend/routes/emailChangeRoutes.js: a user asks for a new e-mail
    address; an admin approves or denies. A request starts pending and
    ends approved or denied, and only a pending request can be decided. */
module EmailChangeRoutes {
  import opened Common
  import opened Documents

  /** At most one pending request per user. */
  predicate OnePendingPerUser(reqs: map<Id, EmailChangeRequest>) {
    forall a, b :: (a in reqs && b in reqs && reqs[a].status == Pending && reqs[b].status == Pending
                    && reqs[a].userId == reqs[b].userId) ==> a == b
  }

  /** No two users share an address. */
  predicate UniqueEmails(users: map<Id, User>) {
    forall a, b :: a in users && b in users && users[a].email == users[b].email ==> a == b
  }

  /** Whether `u` has a pending request. */
  predicate HasPending(reqs: map<Id, EmailChangeRequest>, u: Id) {
    exists id :: id in reqs && reqs[id].userId == u && reqs[id].status == Pending
  }

  /** The stored request: the caller's current address, the new one and the
      reason trimmed (a missing reason becomes ""), pending. */
  function NewRequest(p: Principal, newEmail: string, reason: Option<string>): (r: EmailChangeRequest)
    ensures r.userId == p.id && r.currentEmail == p.email && r.newEmail == Trim(newEmail)
    ensures r.reason == (if reason.Some? then Trim(reason.value) else "")
    ensures r.status == Pending
  {
    EmailChangeRequest(p.id, p.email, Trim(newEmail), if reason.Some? then Trim(reason.value) else "", Pending)
  }

  /** `POST /`. The schema requires a non-empty current address. */
  method CreateRequest(st: Store, p: Principal, newEmail: Option<string>, reason: Option<string>, reqId: Id)
    returns (r: Response<Id>)
    requires reqId !in st.emailRequests
    modifies st`emailRequests
    ensures !Truthy(newEmail) || Trim(newEmail.value) == "" ==> r == Err(400, "New email is required.")
    ensures Truthy(newEmail) && Trim(newEmail.value) != "" && HasPending(old(st.emailRequests), p.id) ==>
              r == Err(400, "You already have a pending request.")
    ensures Truthy(newEmail) && Trim(newEmail.value) != "" && !HasPending(old(st.emailRequests), p.id) && p.email == "" ==>
              r == Err(500, "Server error.")
    ensures r.Ok? <==> Truthy(newEmail) && Trim(newEmail.value) != "" && !HasPending(old(st.emailRequests), p.id) && p.email != ""
    ensures r.Ok? ==> r == Ok(201, reqId) && st.emailRequests == old(st.emailRequests)[reqId := NewRequest(p, newEmail.value, reason)]
    ensures r.Err? ==> st.emailRequests == old(st.emailRequests)
    ensures old(OnePendingPerUser(st.emailRequests)) ==> OnePendingPerUser(st.emailRequests)
  {
    if !Truthy(newEmail) || Trim(newEmail.value) == "" {
      return Err(400, "New email is required.");
    }
    if HasPending(st.emailRequests, p.id) {
      return Err(400, "You already have a pending request.");
    }
    if p.email == "" {
      return Err(500, "Server error.");
    }
    st.emailRequests := st.emailRequests[reqId := NewRequest(p, newEmail.value, reason)];
    r := Ok(201, reqId);
  }

  /** Whether some user already has the address. */
  predicate EmailTaken(users: map<Id, User>, email: string) {
    exists u :: u in users && users[u].email == email
  }

  /** `PUT /:id`, admins only; the reply carries its message and the
      request as saved. Deny only marks the request; approve moves
      the address to the user first, unless the user is gone or some user
      already has it. */
  method Decide(st: Store, p: Principal, reqId: Id, action: Option<string>) returns (r: Response<(string, EmailChangeRequest)>)
    modifies st`emailRequests, st`users
    ensures p.role != Admin ==> r == Err(403, AdminsOnly)
    ensures p.role == Admin && action != Some("approve") && action != Some("deny") ==> r == Err(400, "Invalid action.")
    ensures p.role == Admin && (action == Some("approve") || action == Some("deny")) && reqId !in old(st.emailRequests) ==>
              r == Err(404, "Request not found.")
    ensures (p.role == Admin && (action == Some("approve") || action == Some("deny")) && reqId in old(st.emailRequests)
             && old(st.emailRequests)[reqId].status != Pending) ==> r == Err(400, "Request already processed.")
    ensures r.Err? ==> st.emailRequests == old(st.emailRequests) && st.users == old(st.users)
    ensures p.role == Admin && action == Some("deny") && reqId in old(st.emailRequests) && old(st.emailRequests)[reqId].status == Pending ==>
              && st.emailRequests == old(st.emailRequests)[reqId := old(st.emailRequests)[reqId].(status := Denied)]
              && st.users == old(st.users)
              && r == Ok(200, ("Email change denied.", st.emailRequests[reqId]))
    ensures p.role == Admin && action == Some("approve") && reqId in old(st.emailRequests) && old(st.emailRequests)[reqId].status == Pending ==>
              var req := old(st.emailRequests)[reqId];
              && (req.userId !in old(st.users) ==> r == Err(404, "User not found."))
              && (req.userId in old(st.users) && EmailTaken(old(st.users), req.newEmail) ==> r == Err(400, "Email already in use."))
              && (req.userId in old(st.users) && !EmailTaken(old(st.users), req.newEmail) ==>
                    && st.users == old(st.users)[req.userId := old(st.users)[req.userId].(email := req.newEmail)]
                    && st.emailRequests == old(st.emailRequests)[reqId := req.(status := Approved)]
                    && r == Ok(200, ("Email change approved.", st.emailRequests[reqId])))
    ensures old(OnePendingPerUser(st.emailRequests)) ==> OnePendingPerUser(st.emailRequests)
    ensures old(UniqueEmails(st.users)) ==> UniqueEmails(st.users)
  {
    if p.role != Admin {
      return Err(403, AdminsOnly);
    }
    if action != Some("approve") && action != Some("deny") {
      return Err(400, "Invalid action.");
    }
    if reqId !in st.emailRequests {
      return Err(404, "Request not found.");
    }
    var req := st.emailRequests[reqId];
    if req.status != Pending {
      return Err(400, "Request already processed.");
    }
    if action == Some("deny") {
      st.emailRequests := st.emailRequests[reqId := req.(status := Denied)];
      return Ok(200, ("Email change denied.", st.emailRequests[reqId]));
    }
    if req.userId !in st.users {
      return Err(404, "User not found.");
    }
    if EmailTaken(st.users, req.newEmail) {
      return Err(400, "Email already in use.");
    }
    st.users := st.users[req.userId := st.users[req.userId].(email := req.newEmail)];
    st.emailRequests := st.emailRequests[reqId := req.(status := Approved)];
    r := Ok(200, ("Email change approved.", st.emailRequests[reqId]));
  }
}
