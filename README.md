# Alumni network backend: donations, events, follows, posts, notifications

This project models the core of an alumni-network backend (Express over
MongoDB) and proves properties of the model.

- **Donations.** Admins open donation campaigns ("donation requests"). Donors
  pay through a mock payment gateway. Each verified payment is recorded as a
  donation, added to its campaign's `collectedAmount`, and followed by a PDF
  receipt and an e-mail. An SMS is sent only to a caller with a contact
  number or phone, fields the user schema does not have (see Findings).
- **Events.** Events have a fixed number of seats.
- **Social features.** Users follow each other, like, comment on, reply to and
  repost posts, and share posts with chosen users.
- **Notifications.** Every such action can leave an in-app notification with a
  link.
- **E-mail changes.** A user asks for an address change and an admin approves
  or denies it.
- **Admin export.** Any signed-in user can export filtered user lists as
  JSON or as a spreadsheet (the routes check no role).

The database is a `Documents.Store` object: one map from id to record per
collection, plus the order in which ids were inserted. That order stands for
the `createdAt` stamps the listings sort by. Each route handler is a method
that takes the authenticated caller (a `Principal`) and returns a
`Response`: a status with a payload, or a status with a message.

Things the handlers cannot see become parameters:
- the clock and the random draws the mock gateway reads;
- the ids new records get;
- whether the cloud upload returned a URL;
- which files exist on disk;
- whether a mail or SMS transport is configured and accepts the message;
- which store call throws.

The model proves several properties:
- **Ledger invariant.** Every campaign's `collectedAmount` equals the sum of
  its donations. This holds across any run of settled payments.
- **Both verify handlers.** Their effects are stated step by step, including
  what a failure half-way leaves behind. Given the same campaign and amount,
  they move the ledger alike.
- **Strings.** The identifier cleaning rules (and a quirk of one of them), the
  donor-name fallback, SMS truncation and notification links.
- **State machines.** Seat booking, the follow graph, like toggling, e-mail
  change approval and notification read state.
- **Admin export.** The query filter matches exactly the users the query
  describes.

Modules follow the source files: `Common` (JavaScript value semantics: truthiness, `||`, `trim`, decimal rendering), `Documents`, `MockPhonepe`, `ReceiptService`, `NotificationService`, `Notify` (createNotification.js), `DonationRoutes`, `PaymentRoutes`, `EventRoutes`, `FollowRoutes`, `PostRoutes`, `EmailChangeRoutes`, `NotificationRoutes`, `SendPostRoutes`, `AdminRoutes`.

## Model

| member | source | states |
|---|---|---|
| MockPhonepe.CreateMockOrder | backend/utils/mockPhonepe.js:4-11 | the order echoes the amount, in "INR", status "CREATED", id "MOCK_ORDER_" followed by the clock in decimal |
| MockPhonepe.CreateMockPayment | backend/utils/mockPhonepe.js:14-21 | the payment echoes the order id, status "SUCCESS", payment id "MOCK_PAY_" and signature "MOCK_SIGNATURE_" each followed by a random draw below 9999999 |
| MockPhonepe.VerifyMockPayment | backend/utils/mockPhonepe.js:24-31 | verification succeeds for every order id, echoes it, and carries a "MOCK_PAY_" payment id; the result type has no signature |
| MockPhonepe.OrderIdsDistinct | backend/utils/mockPhonepe.js:6 | two order ids are equal exactly when they were made at the same millisecond |
| MockPhonepe.VerifiedPaymentIdsDistinct | backend/utils/mockPhonepe.js:29 | two verification payment ids are equal exactly when they were made at the same millisecond |
| MockPhonepe.OrderIdIsNoPaymentId | backend/utils/mockPhonepe.js:6-16 | an order id never equals a payment id |
| Documents.Authenticated | backend/middleware/authMiddleware.js:36-43 | the caller the middleware loads is a user document: its id, role, address and names come from the user, and `name`, `contact_no` and `phone`, which the user schema lacks, are undefined |
| Common.DecimalRoundTrip | backend/routes/adminRoutes.js:22 | a year written in decimal casts back to the same number |
| ReceiptService.FirstAlt | backend/utils/receiptService.js:40 | the regular expression's alternation picks the first alternative, in pattern order, that the text starts with (ignoring case), or none |
| ReceiptService.StartsWithCIConcat | backend/utils/receiptService.js:40 | a text matches a concatenated prefix ignoring case exactly when it matches both parts in turn |
| ReceiptService.CleanPaymentIdRule | backend/utils/receiptService.js:40 | payment-id cleaning removes a leading "MOCK_PAY" in any case plus one optional "_", and returns every other id unchanged |
| ReceiptService.CleanPaymentIdQuirk | backend/utils/receiptService.js:40 | "MOCK_PAYMENT_7" cleans to "MENT_7", because the alternative PAY is tried before PAYMENT |
| ReceiptService.CleanOrderIdRule | backend/utils/receiptService.js:41 | order-id cleaning removes a leading "MOCK_ORDER" in any case plus one optional "_", and returns every other id unchanged |
| ReceiptService.CleanGeneratedPaymentId | backend/utils/receiptService.js:40 | every payment id the mock gateway generates cleans to exactly its numeric suffix |
| ReceiptService.CleanGeneratedOrderId | backend/utils/receiptService.js:41 | every order id the mock gateway generates cleans to exactly its numeric suffix |
| ReceiptService.DonorNameChoice | backend/utils/receiptService.js:26-30 | the donor name is both trimmed name parts joined by one space, or the one present, or else the e-mail, the user name or "Anonymous"; it is never empty |
| ReceiptService.StoredRefs | backend/utils/receiptService.js:36-37 | for a stored donation the payment and order references fall back through the alternative field names to the razorpay field, or "N/A" |
| ReceiptService.ReceiptId | backend/utils/receiptService.js:44 | the receipt number is the last eight characters of the donation id (all of a shorter id), upper-cased one by one |
| ReceiptService.SavePathInjective | backend/utils/receiptService.js:47-48 | different donations get different receipt files |
| ReceiptService.FieldsOf | backend/utils/receiptService.js:17-118 | the receipt shows the donation's own amount under its receipt number, and the donor's e-mail or "N/A" when the donor or the address is missing |
| ReceiptService.GenerateReceiptPdf | backend/utils/receiptService.js:14-48 | a missing id and an unknown donation reject with their messages; otherwise the promise resolves with the receipt file's path and the receipt's fields when the stream finishes, and rejects with the stream's error |
| NotificationService.Attachments | backend/utils/notificationService.js:158-177 | the logo is attached exactly when its file exists; the receipt is attached exactly when a path was given and that file exists; the logo comes first |
| NotificationService.FailureOutcome | backend/utils/notificationService.js:189-192 | a transport failure is reported as an unsuccessful outcome with a non-empty error |
| NotificationService.SendDonationEmail | backend/utils/notificationService.js:54-193 | no transport gives "Email transporter not configured"; no recipient gives "Missing recipient"; an absent payment id rejects the promise; otherwise the mail goes to the recipient with the cleaned reference and the chosen attachments, and it succeeds exactly when the transport accepts it |
| NotificationService.TakeUnits | backend/utils/notificationService.js:219 | the longest prefix whose UTF-16 length fits the budget: within the budget, the whole text when it fits, and the next character would not fit |
| NotificationService.Truncate | backend/utils/notificationService.js:219 | the body sent is a prefix of at most 160 UTF-16 units, the whole text when it fits, and at least 159 units when it does not |
| NotificationService.TruncateBmp | backend/utils/notificationService.js:219 | for text without characters beyond the Basic Multilingual Plane, truncation is exactly the first 160 characters |
| NotificationService.SmsBody | backend/utils/notificationService.js:212-215 | with a non-empty cleaned reference the body is the message (or "undefined"), " \| Ref: " and the reference; otherwise it is the message itself, possibly undefined |
| NotificationService.SendSms | backend/utils/notificationService.js:201-228 | no client gives "Twilio not configured"; no number gives "Missing toNumber"; an undefined message with no reference fails with the TypeError of `slice` and sends nothing; otherwise the truncated body is sent to the number; it succeeds exactly when the transport accepts, and a failure carries a non-empty error |
| NotificationService.SmsBodyGeneratedRef | backend/utils/notificationService.js:212-215 | for a generated payment id the body is the message, then the "Ref:" marker, then exactly the id's numeric suffix |
| Notify.GenerateNotificationLink | backend/utils/createNotification.js:7-26 | post, like, comment, reply, repost and send_post link to "/post/" plus the post id; follow links to the sender's profile; chat links to the chat id or else the sender; event links to the event; any other type links to "/" |
| Notify.Record | backend/utils/createNotification.js:45-56 | the saved record carries the call's fields and the computed link, and is unread |
| Notify.CreateNotification | backend/utils/createNotification.js:31-71 | a record is stored only when the recipient is not the sender and the schema accepts the type and text; a push goes out only then and only when a socket server is passed; nothing is thrown |
| Notify.DeliverAllOrder | backend/utils/createNotification.js:42-58 | a run of calls appends the ids of the stored records to the log, in call order |
| Notify.KeptMembers | backend/utils/createNotification.js:42-58 | a run of calls stores a record for exactly those calls that pass the self and schema checks, each under its own id |
| Notify.DeliverAllMap | backend/utils/createNotification.js:45-58 | after a run of calls, existing records are unchanged and each stored call's record carries its own fields and link |
| Notify.DeliverAllContents | backend/utils/createNotification.js:42-58 | a run of calls keeps the collection well indexed and existing records intact, and stores exactly the calls that pass, each with its own record |
| Notify.NotifyEach | backend/routes/eventRoutes.js:53-64 | one createNotification per input, in order; the collection and the pushes are those of the calls made one after another |
| Notify.DeliverAllCount | backend/utils/createNotification.js:42 | when every call addresses someone other than the sender with a valid type and text, every call stores a record |
| DonationRoutes.Settle | backend/routes/donationRoutes.js:211-213 | the $inc adds the amount to that campaign's collectedAmount alone, and changes nothing when the campaign does not exist |
| DonationRoutes.TotalFrame | backend/routes/donationRoutes.js:187-196 | storing a record under an id the log does not hold yet leaves every campaign total as it was |
| DonationRoutes.TotalAppend | backend/routes/donationRoutes.js:187-196 | recording a new donation adds its amount to its own campaign's total and to no other |
| DonationRoutes.SettleKeepsBalance | backend/routes/donationRoutes.js:187-213 | saving a donation and applying its $inc keeps every collectedAmount equal to the sum of its campaign's donations |
| DonationRoutes.UnsettledGap | backend/routes/donationRoutes.js:211-213 | when the $inc does not happen, the campaign falls short of its donations by exactly the donation's amount |
| DonationRoutes.SettleAllKeepsBalance | backend/routes/donationRoutes.js:187-213 | over any run of completed verifies with fresh donation ids, the ledger stays balanced |
| DonationRoutes.NewCampaign | backend/routes/donationRoutes.js:50-60 | a new campaign has collectedAmount 0, status active, the form's fields, and one "/uploads/" plus file name per uploaded file, in upload order |
| DonationRoutes.CreateCampaign | backend/routes/donationRoutes.js:42-72 | non-admins get 403; more than five files fail the upload; a missing title or target fails the schema; otherwise 201 and the campaign is stored; the ledger stays balanced |
| DonationRoutes.ListCampaigns | backend/routes/donationRoutes.js:77-91 | admins see every campaign and others only active ones, each once, newest first |
| DonationRoutes.CloseCampaign | backend/routes/donationRoutes.js:96-108 | non-admins get 403; an unknown id gets 404; otherwise the status becomes closed whatever it was, so closing twice also succeeds; balance is unaffected |
| DonationRoutes.DeleteCampaign | backend/routes/donationRoutes.js:113-130 | non-admins get 403; an unknown id gets 404; otherwise the campaign goes and its donations stay; the ledger stays balanced |
| DonationRoutes.CreateOrder | backend/routes/donationRoutes.js:135-160 | a falsy amount or campaign id gives 400; an unknown campaign gives 404; otherwise the order echoes the amount in INR with a "MOCK_ORDER_" id and the configured key or "MOCK_KEY" |
| DonationRoutes.LivePaymentId | backend/routes/donationRoutes.js:191 | the recorded payment id is the one sent when truthy, else the stub's "MOCK_PAY_" id; never empty |
| DonationRoutes.LiveDonation | backend/routes/donationRoutes.js:187-194 | the donation names the caller as donor and records the campaign, the amount, the payment and order ids, and the sent signature or none, since the stub returns no signature |
| DonationRoutes.ReceiptPathAfter | backend/routes/donationRoutes.js:199-208 | the receipt path is set exactly when generation finished, and is then the receipt's save path |
| DonationRoutes.StoredReceiptPath | backend/routes/donationRoutes.js:199-208 | the stored donation keeps the receipt path when the second save succeeds, and has none when that save throws |
| DonationRoutes.TryReceipt | backend/routes/donationRoutes.js:199-208 | a receipt failure is caught and leaves no path |
| DonationRoutes.LiveDonorName | backend/routes/donationRoutes.js:219 | the name in the e-mail is never empty |
| DonationRoutes.LiveEmail | backend/routes/donationRoutes.js:217-224 | the e-mail goes to the caller with the recorded payment id, the receipt path and a non-empty campaign title |
| DonationRoutes.LiveSms | backend/routes/donationRoutes.js:227-237 | the SMS goes to the caller's contact number and passes the recorded payment id along; as written the branch never runs (see Findings) |
| DonationRoutes.LiveSmsRepeatsRef | backend/routes/donationRoutes.js:230-236 | the SMS body names the payment reference twice: once in the handler's message and once where the sender appends it; as written the branch never runs (see Findings) |
| DonationRoutes.VerifyPayment | backend/routes/donationRoutes.js:166-260 | missing fields give 400 and write nothing; otherwise the donation is saved, with the receipt path unless the second save throws (which is caught), then the $inc runs without checking the campaign; a later failure gives 500 but keeps what was written; the e-mail carries the receipt path even when it was not stored; the ledger stays balanced unless the $inc fails |
| DonationRoutes.LiveNotify | backend/routes/donationRoutes.js:215-244 | as intended: a failed campaign read gives 500 and sends nothing; otherwise the e-mail names the campaign and carries the receipt path, and the SMS goes out exactly when the caller has a contact number |
| DonationRoutes.LiveNotifyAsWritten | backend/routes/donationRoutes.js:215-244 | for a caller loaded as a user document the SMS is never sent, and the e-mail greets the trimmed first and last name or else "Donor" |
| DonationRoutes.LiveEmailResolves | backend/routes/donationRoutes.js:222 | the e-mail of a completed verify never makes the sender reject, since its payment id is always present |
| DonationRoutes.MyDonations | backend/routes/donationRoutes.js:266-277 | exactly the caller's donations, each once, newest first |
| DonationRoutes.ListingSum | backend/routes/donationRoutes.js:336-345 | summing the amounts of a campaign's newest-first listing gives the campaign's donation total |
| DonationRoutes.AdminDonations | backend/routes/donationRoutes.js:332-351 | non-admins get 403; admins get exactly the campaign's donations, each once, newest first, their number, and the sum of their amounts |
| DonationRoutes.ListingCount | backend/routes/donationRoutes.js:336-344 | the listing's length is the number of donations paid into the campaign |
| DonationRoutes.AdminTotalIsCollected | backend/routes/donationRoutes.js:336-346 | on a balanced ledger the admin total equals the campaign's collectedAmount |
| DonationRoutes.StripTrailingSlashes | backend/routes/donationRoutes.js:307 | a prefix of the text that does not end in "/", with only "/" removed |
| DonationRoutes.LastSegment | backend/routes/donationRoutes.js:307 | the longest suffix without "/" |
| DonationRoutes.Basename | backend/routes/donationRoutes.js:307 | as `path.basename`: trailing "/" are ignored and the base name is the last segment, without "/", empty only for a text of slashes |
| DonationRoutes.BasenameIgnoresTrailingSlash | backend/routes/donationRoutes.js:307 | a trailing "/" does not change the base name |
| DonationRoutes.ServedPath | backend/routes/donationRoutes.js:307 | the served file is the base name inside the receipts directory, with `path.join`'s handling of "", "." and ".." |
| DonationRoutes.ServedPathIsSavePath | backend/routes/donationRoutes.js:307 | for a receipt the service wrote, the receipt routes look up the same file |
| DonationRoutes.BasenameAfterSlash | backend/routes/donationRoutes.js:307 | the base name of a directory, "/" and a name without "/" is that name |
| DonationRoutes.DonorReceiptAsWritten | backend/routes/donationRoutes.js:282-327 | as written: someone else's or an unknown donation gives 404; an unset receipt path gives 200 with success false; no branch ever sends the PDF |
| DonationRoutes.DonorReceipt | backend/routes/donationRoutes.js:282-327 | as intended: the same 404 and 200 answers, and the PDF is streamed exactly when the caller's receipt file exists |
| DonationRoutes.DonorReceiptNeverSendsFile | backend/routes/donationRoutes.js:310-322 | a donor whose receipt file exists gets headers only from the route as written, and the file from the corrected route |
| DonationRoutes.AdminReceipt | backend/routes/donationRoutes.js:356-402 | non-admins get 403; an unknown donation or an unset path gives 404; the file is downloaded as "admin-receipt-" plus the id exactly when it exists |
| DonationRoutes.AdminReceiptView | backend/routes/donationRoutes.js:407-432 | non-admins get 403; an unknown donation or an unset path gives 404; the file is shown inline exactly when it exists |
| PaymentRoutes.CredentialsOf | backend/routes/paymentRoutes.js:69-86 | both sent values (plain names first, then razorpay aliases) are kept when both are truthy; otherwise both are replaced by one fresh mock pair |
| PaymentRoutes.AltDonation | backend/routes/paymentRoutes.js:89-96 | the donation records the caller, the campaign, the amount and the chosen payment id, order id and signature |
| PaymentRoutes.TitleOf | backend/routes/paymentRoutes.js:120 | the campaign title, or "Donation"; never empty |
| PaymentRoutes.AltEmail | backend/routes/paymentRoutes.js:116-123 | the e-mail goes to the caller under the caller's name, with the chosen payment id and the receipt path; as written the name is undefined (see Findings) |
| PaymentRoutes.AltSms | backend/routes/paymentRoutes.js:132-133 | the SMS goes to the caller's phone, with the payment id written into the message and none passed separately; as written the branch never runs (see Findings) |
| PaymentRoutes.AltSmsBodyIsMessage | backend/routes/paymentRoutes.js:133 | the SMS body is the handler's message unchanged; as written the branch never runs (see Findings) |
| PaymentRoutes.VerifyPaymentAlt | backend/routes/paymentRoutes.js:56-154 | missing fields give 400 and write nothing; the donation and the $inc both come before the receipt; a failure of either gives 500; a throwing second save leaves no stored path; the reply echoes the stored payment id, order id and signature with status "SUCCESS"; the ledger stays balanced |
| PaymentRoutes.AltNotify | backend/routes/paymentRoutes.js:113-139 | as intended: a failed campaign read skips both sends; otherwise the e-mail is handed over, and the SMS exactly when the caller has a phone |
| PaymentRoutes.AltNotifyAsWritten | backend/routes/paymentRoutes.js:113-139 | for a caller loaded as a user document the SMS is never sent and the e-mail goes to the user's address with no name |
| PaymentRoutes.SameLedgerEffect | backend/routes/paymentRoutes.js:89-101 | for the same campaign and amount, the two verify handlers change every campaign total alike |
| EventRoutes.NewEvent | backend/routes/eventRoutes.js:35-44 | a new event carries the form's fields, the hosted image and the creator, and has no participants |
| EventRoutes.EventNotices | backend/routes/eventRoutes.js:53-64 | one "event" notice per recipient, in order |
| EventRoutes.EventFanOut | backend/routes/eventRoutes.js:48-64 | every other user gets exactly one unread "event" notice linking to the event, appended after the existing notifications, which stay as they were |
| EventRoutes.CreateEvent | backend/routes/eventRoutes.js:14-71 | students get 403; no image gives 400; a failed upload gives 500; an invalid form gives 500; otherwise the event is stored and every other user is notified and pushed |
| EventRoutes.JoinEvent | backend/routes/eventRoutes.js:97-106 | a participant gets 400; a full event gets 400; otherwise the caller is appended once and the count stays within the seats |
| EventRoutes.LeaveEvent | backend/routes/eventRoutes.js:120-122 | every entry of the caller goes and the others stay |
| EventRoutes.SeatsPreserved | backend/routes/eventRoutes.js:97-122 | joining and leaving both keep "no one twice, no more participants than seats" |
| EventRoutes.JoinThenLeave | backend/routes/eventRoutes.js:105-122 | leaving right after joining gives the event back unchanged |
| EventRoutes.Participate | backend/routes/eventRoutes.js:86-112 | admins get 403; an unknown event gets 404; otherwise the answer and the new event are those of JoinEvent |
| EventRoutes.Cancel | backend/routes/eventRoutes.js:115-129 | any caller may cancel; an unknown event gets 404; a non-participant succeeds with the event unchanged |
| EventRoutes.DeleteEvent | backend/routes/eventRoutes.js:132-154 | an unknown event gets 404; anyone but an admin or the creator gets 403; otherwise the event goes |
| EventRoutes.Participants | backend/routes/eventRoutes.js:157-181 | an unknown event gets 404; anyone but an admin or the creator gets 403; otherwise exactly the participants whose user still exists, as population drops the others, each once when stored once |
| Documents.OtherUsers | backend/routes/eventRoutes.js:49 | every user but the caller, each once |
| FollowRoutes.FollowGraph | backend/routes/followRoutes.js:87-90 | when the caller does not follow the target yet, each end gets the other appended; otherwise nothing changes |
| FollowRoutes.UnfollowGraph | backend/routes/followRoutes.js:128-133 | each end drops every entry of the other; no other user changes |
| FollowRoutes.FollowKeepsConsistent | backend/routes/followRoutes.js:87-89 | following keeps "a in b.followers exactly when b in a.following" and lists free of duplicates, and afterwards the caller follows the target |
| FollowRoutes.UnfollowKeepsConsistent | backend/routes/followRoutes.js:128-133 | unfollowing keeps the graph consistent, and afterwards the caller does not follow the target |
| FollowRoutes.HalfFollowInconsistent | backend/routes/followRoutes.js:86-91 | a new follow stored on the caller's end only breaks the two-sided graph invariant |
| FollowRoutes.FollowIdempotent | backend/routes/followRoutes.js:87 | following twice is following once |
| FollowRoutes.UnfollowIdempotent | backend/routes/followRoutes.js:128-133 | unfollowing twice is unfollowing once |
| FollowRoutes.FollowThenUnfollow | backend/routes/followRoutes.js:87-89 | on a consistent graph, unfollowing right after a new follow restores the graph |
| FollowRoutes.Follow | backend/routes/followRoutes.js:72-108 | self gives 400; an unknown target gives 404; otherwise the graph is FollowGraph, and only a new follow stores a notice; consistency is kept |
| FollowRoutes.Unfollow | backend/routes/followRoutes.js:113-143 | self gives 400; an unknown target gives 404; otherwise the graph is UnfollowGraph; consistency is kept |
| FollowRoutes.AllUsers | backend/routes/followRoutes.js:11-31 | every user but the caller, marked exactly when the caller is among that user's followers |
| FollowRoutes.AllUsersMarksFollowing | backend/routes/followRoutes.js:19-24 | on a consistent graph the mark agrees with the caller's own following list |
| FollowRoutes.Following | backend/routes/followRoutes.js:36-49 | an unknown caller gets 404; otherwise the followed users that still exist |
| FollowRoutes.Followers | backend/routes/followRoutes.js:54-67 | an unknown caller gets 404; otherwise the followers that still exist |
| PostRoutes.Feed | backend/routes/postRoutes.js:15-31 | every post once, newest first |
| PostRoutes.ToggleLike | backend/routes/postRoutes.js:100-117 | a caller who has not liked is appended; otherwise the caller's first entry is removed |
| PostRoutes.LikeThenUnlike | backend/routes/postRoutes.js:100-117 | liking and then unliking restores the likes exactly |
| PostRoutes.UnlikeThenLike | backend/routes/postRoutes.js:100-117 | on a list without duplicates, unliking and then liking moves the caller to the end |
| PostRoutes.ToggleKeepsNoDups | backend/routes/postRoutes.js:100-117 | the toggle keeps the likes free of duplicates |
| PostRoutes.Like | backend/routes/postRoutes.js:95-125 | an unknown post gets 404; otherwise the likes are toggled and returned, and only a like of someone else's post stores a notice |
| PostRoutes.FindComment | backend/routes/postRoutes.js:144 | the position of the first comment with the id, or none when no comment has it |
| PostRoutes.AddComment | backend/routes/postRoutes.js:166-169 | a new comment with the trimmed text is appended and nothing else changes |
| PostRoutes.AddReply | backend/routes/postRoutes.js:147-151 | a reply with the trimmed text is appended to that comment's replies, and every other comment is untouched |
| PostRoutes.StoredTextTrimmed | backend/routes/postRoutes.js:133-135 | stored comment and reply text is never empty and has no surrounding white space |
| PostRoutes.ReplyAsWritten | backend/routes/postRoutes.js:139-164 | as written: the post is left as it was, the answer lists the comments without the reply, and a "reply" notice to the parent's author is stored even when that author is the replier, since the populated author's `toString` is never an id; a parent author who is gone gives 500 and no notice |
| PostRoutes.ReplyNoticeStores | backend/routes/postRoutes.js:156-164 | compared by id, a reply notice is stored exactly when the parent comment is someone else's; a reply to one's own comment stores nothing |
| PostRoutes.ReplyDropped | backend/models/Post.js:10-16 | the reply the route means to store changes the post, adding one reply to the parent comment |
| PostRoutes.StoreReply | backend/routes/postRoutes.js:143-164 | as intended: the reply is stored on the parent comment; then the parent's author is notified, or, when that user is gone, the answer is 500 with the reply kept |
| PostRoutes.AddCommentOrReply | backend/routes/postRoutes.js:130-190 | blank text gives 400; an unknown post gives 404; an unknown parent gives 404; otherwise the comment, as written, or the reply, as the corrected `StoreReply` of the Findings, is stored, then the parent's author or the post's author is notified unless that is the caller, or the answer is 500 when that user is gone |
| PostRoutes.RepostOf | backend/routes/postRoutes.js:200-207 | a repost copies the title, content and image, names the caller as author and points back at the original |
| PostRoutes.Repost | backend/routes/postRoutes.js:195-232 | an unknown original gets 404; otherwise the copy is stored with 201, and the original's author, if someone else, is notified and pushed |
| PostRoutes.DeletePost | backend/routes/postRoutes.js:294-331 | an unknown post gets 404; anyone but the author or an admin gets 403; otherwise the post goes |
| EmailChangeRoutes.NewRequest | backend/routes/emailChangeRoutes.js:27-33 | a request stores the caller's current address, the trimmed new address, the trimmed reason or "", and status pending |
| EmailChangeRoutes.CreateRequest | backend/routes/emailChangeRoutes.js:10-40 | a blank new address gives 400; a pending request gives 400; otherwise the request is stored with 201; "at most one pending request per user" is kept |
| EmailChangeRoutes.Decide | backend/routes/emailChangeRoutes.js:55-98 | non-admins get 403; an unknown action gives 400; an unknown request gives 404; a decided request gives 400, so approved and denied are final; deny only marks the request; approve fails when the user is gone or the address is taken, otherwise it moves the address and marks the request; one-pending-per-user and unique addresses are kept |
| NotificationRoutes.Inbox | backend/routes/notificationRoutes.js:10-22 | exactly the caller's notifications, each once, newest first |
| NotificationRoutes.MarkAllRead | backend/routes/notificationRoutes.js:64-67 | marking all read keeps every notification id |
| NotificationRoutes.MarkAllReadEffect | backend/routes/notificationRoutes.js:64-67 | afterwards the caller has nothing unread; other users' notifications and every field but the read flag are untouched |
| NotificationRoutes.MarkAllReadIdempotent | backend/routes/notificationRoutes.js:64-67 | marking all read twice is marking all read once |
| NotificationRoutes.UnreadCount | backend/routes/notificationRoutes.js:27-38 | the count is 0 exactly when every notification addressed to the caller is read, and never exceeds the number of notifications |
| NotificationRoutes.DeliverCount | backend/routes/notificationRoutes.js:29-32 | a stored notification adds one to its recipient's unread count and leaves every other count as it was |
| NotificationRoutes.MarkOne | backend/routes/notificationRoutes.js:43-57 | any caller may mark any notification read by id; an unknown id gets 404 |
| NotificationRoutes.MarkOneCount | backend/routes/notificationRoutes.js:45-49 | marking one read lowers its recipient's unread count by one when it was unread, and changes nothing otherwise |
| NotificationRoutes.MarkAll | backend/routes/notificationRoutes.js:62-89 | both routes apply the same update, after which the caller's unread count is 0 |
| SendPostRoutes.SendNotices | backend/routes/sendPostRoutes.js:32-43 | one "send_post" notice for the post per recipient, in order |
| SendPostRoutes.SendFanOut | backend/routes/sendPostRoutes.js:32-43 | a notice is stored for a recipient exactly when they are not the sender, unread and linking to the post; existing notifications are untouched |
| SendPostRoutes.SendToSelfOnly | backend/routes/sendPostRoutes.js:36-45 | sharing only with oneself stores nothing |
| SendPostRoutes.SendPost | backend/routes/sendPostRoutes.js:10-50 | a missing post id or no recipients gives 400; an unknown post gives 404; otherwise one notice per recipient and 200 |
| AdminRoutes.EscapeRegex | backend/routes/adminRoutes.js:9 | escaping never shortens the text, and the escaped text never starts with an anchor |
| AdminRoutes.LiteralOfEscape | backend/routes/adminRoutes.js:9 | the pattern built from any text matches that text literally |
| AdminRoutes.EscapeUnchanged | backend/routes/adminRoutes.js:9 | text without special characters is left unchanged |
| AdminRoutes.EscapeSpecial | backend/routes/adminRoutes.js:9 | every special character comes out preceded by a backslash |
| AdminRoutes.WholePattern | backend/routes/adminRoutes.js:19 | the role pattern matches exactly the texts equal to the query, ignoring case |
| AdminRoutes.SubstringPattern | backend/routes/adminRoutes.js:20-21 | the course and department patterns match exactly the texts containing the query, ignoring case |
| AdminRoutes.BuildFilter | backend/routes/adminRoutes.js:16-22 | the filter has a field exactly for each non-empty parameter, and it matches exactly the users the query describes |
| AdminRoutes.RowOf | backend/routes/adminRoutes.js:31-40 | the row has serial number index plus 1, the trimmed "first last" name, and "-" for a missing course, department or year |
| AdminRoutes.RowName | backend/routes/adminRoutes.js:34 | the name cell has no surrounding white space and joins the parts present with one space |
| AdminRoutes.ExportRows | backend/routes/adminRoutes.js:31-40 | one row per selected user, in order |
| AdminRoutes.SerialNumbers | backend/routes/adminRoutes.js:32 | serial numbers run 1, 2, 3 and so on without gaps, each row carrying its user's id |
| AdminRoutes.Selection | backend/routes/adminRoutes.js:27-29 | each user the query describes, once |
| AdminRoutes.Select | backend/routes/adminRoutes.js:27-29 | the users the filter matches are exactly the query's selection |
| AdminRoutes.ExportData | backend/routes/adminRoutes.js:14-47 | no role is checked; a year that is not a number gives 500; otherwise 200 with one row per selected user |
| AdminRoutes.AddRows | backend/routes/adminRoutes.js:79-89 | the loop adds exactly the rows of the JSON export |
| AdminRoutes.ExportExcel | backend/routes/adminRoutes.js:52-106 | no role is checked; the same selection and rows as the JSON export, in sheet "Users Data" with the seven column headers and file name "exported_data.xlsx" |

## Left out

- **Libraries and I/O.** HTTP, JWT and the middleware are not modelled. The caller is a given `Principal`, and a missing token (401) is not modelled.
- **Files, uploads and hosting.** The multer storage, `fs` calls, Cloudinary and the deletion of hosted images are parameters or left out: an uploaded file is a name, the hosted URL is an optional parameter, and existing files are a set of paths.
- **PDF, HTML and transports.** The PDF layout, the e-mail HTML, and the nodemailer and Twilio setup are left out. The model records what would be handed to each transport.
- **Sockets.** Socket.IO pushes are returned as values. Chat is not part of this model.
- **Concurrency.** Each handler runs atomically. `Promise.all` fan-outs run one call after another. The `$inc` is one step.
- **Ordering.** Newest first is the reverse of insertion order. A `find` without a sort is taken to return insertion order.
- **Populate.** `populate` and `select` projections are left out: ids stand for the populated documents. Populating an array drops the ids whose user is gone, which the participant and follow listings model. A populated reference whose user is gone is null, and reading through it throws; the model answers 500 there.
- **Mongoose validation and casting.** Validation messages are one constant. ObjectId cast errors are not modelled. Non-numeric amounts are not modelled: amounts are integers, and `Number(amount)` is the amount.
- **Strings.** Strings are sequences of Unicode scalar values. The SMS length limit counts UTF-16 units, as `slice` does: a character beyond the Basic Multilingual Plane counts two. Case-insensitive matching folds ASCII letters only.
- NotificationService.Truncate: when `slice(0, 160)` would split a surrogate pair, the source sends 160 units ending in a lone high surrogate; a lone surrogate is not a Dafny character, so the model drops the whole character and sends 159 units.
- **The year cast.** Only plain digit strings cast to numbers. Other spellings that `Number()` accepts (spaces, signs, exponents, hex) are treated as failing the cast.
- **Faults.** `SaveThrows`, `IncrementThrows` and `ReceiptSaveThrows` stand for the first save, the `$inc` and the save of the receipt path throwing; the last is caught with the receipt. A single `CampaignReadThrows` fault stands for both campaign reads of a verify handler. For the live handler it is the e-mail read (donationRoutes.js:216), which is not caught; the SMS read (donationRoutes.js:229) is caught and is not modelled separately. For the unmounted handler the fault skips both the e-mail and the SMS.
- **Dead branch.** The `!mockResult.success` branch (donationRoutes.js:182-184) cannot run, since the stub always succeeds, and is not modelled.
- **Fire-and-forget sends.** In paymentRoutes.js the e-mail and SMS sends are not awaited. The model records the requests handed over; their outcomes are `NotificationService` results.
- **Routes left out:**
  - the admin list of e-mail change requests (emailChangeRoutes.js:43-52) and the event list (eventRoutes.js:74-83), which are plain reads;
  - the single-post read (postRoutes.js:272-289);
  - creating a post with its follower fan-out (postRoutes.js:36-90);
  - sending a post by user name (postRoutes.js:237-267);
  - the unmounted order route of paymentRoutes.js (17-38), which is `DonationRoutes.CreateOrder` line for line.
- **Repost flag.** The `isRepost` flag of a repost is not stored. `repostFrom` carries the same information.
- **Post feed contents.** `PostRoutes.Feed` returns post ids, not the populated documents.
- DonationRoutes.CampaignTotal: amounts are unbounded integers, so the floating-point sums of `Number(amount)` are not modelled.
- FollowRoutes.Follow, FollowRoutes.Unfollow, EmailChangeRoutes.Decide: store calls outside the verify handlers are taken to succeed. Each of these saves two documents in a row (followRoutes.js:90-91 and 135-136, emailChangeRoutes.js:87-91); when the second save throws, the source answers 500 with the first document already updated. For a follow, only the caller's end of the edge is then stored, which breaks the two-sided graph invariant (`FollowRoutes.HalfFollowInconsistent`). For an approval, the address has moved but the request stays pending, so a retry gets 400 "Email already in use." and the user can file no new request.
- DonationRoutes.CreateCampaign: more than five files make multer fail before the handler runs; no error middleware is installed, so Express's default handler answers 500 with an HTML error page. The model gives that answer as `Err(500, "Unexpected field")`, the multer error's message, not the page.
- EventRoutes.CreateEvent: a schema failure answers 500 with one fixed message, standing for Mongoose's validation message.

## Findings

| source | as written | input that shows it | evidently intended | confidence | as-written member | corrected member |
|---|---|---|---|---|---|---|
| backend/models/Post.js:10-16, backend/routes/postRoutes.js:147-164, backend/utils/createNotification.js:42 | the comment schema has no `replies` path, so the pushed reply is never saved and the answer lists the comments without it, while the parent's author is still notified; that author is the populated user document, whose `toString` (postRoutes.js:156, createNotification.js:42) never equals the caller's id, so a reply to one's own comment stores a notice to oneself | any reply to an existing comment; for the notice, a reply to one's own comment | store the reply on the parent comment and return it, notifying only someone else | not executed | PostRoutes.ReplyAsWritten, PostRoutes.ReplyDropped | PostRoutes.StoreReply, PostRoutes.ReplyNoticeStores |
| backend/models/User.js:3-58, backend/routes/donationRoutes.js:219-232, backend/routes/paymentRoutes.js:119-131 | the handlers read `contact_no`, `phone` and `name` from the caller, but the user schema has none of these paths, so they are always undefined: no SMS is ever sent, and the unmounted handler's e-mail has no name | any authenticated caller | read the caller's stored contact number and name | not executed | Documents.Authenticated, DonationRoutes.LiveNotifyAsWritten, PaymentRoutes.AltNotifyAsWritten | DonationRoutes.LiveNotify, PaymentRoutes.AltNotify |
| backend/routes/donationRoutes.js:310-322 | when the receipt file exists, the route sets the PDF headers but never pipes the file, so the donor gets no body; when the file is missing, it answers 404 and then pipes the missing file anyway; that read stream fails with ENOENT, no listener handles the error and no process-level handler is installed, so the error is likely uncaught and ends the server | a donation of the caller whose receipt file exists in the receipts directory | stream the file when it exists, and answer a plain 404 when it does not | not executed | DonationRoutes.DonorReceiptAsWritten | DonationRoutes.DonorReceipt |
