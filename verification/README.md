# Pousada booking backend — a Dafny model of its core

The backend runs a small guest house ("pousada"): guests book rooms, pay
through a payment provider whose notifications confirm the booking, sign in
with a password or with Google, and talk to a chatbot that enriches their
messages with recent context and knowledge-base entries. Every piece of
state lives in a document store. This project models that store and the
services that read and write it.

The model is functional. Each collection is a `map<string, T>` keyed by
document id, or a sequence where listing order matters. A store is threaded
through pure functions that return the answer together with the new store.
Failures are `Result` values carrying the error text the service raises.
Where that text embeds a message of the document store, a fixed stand-in
takes the store's message's place.

Some inputs come from outside the services. The model takes each of them as
a parameter:
- the clock (`now`, integer milliseconds);
- the ids the store hands out (`freshId`, which must be non-empty and
  unused);
- the authentication provider's answers;
- the bcrypt comparison (`compare`);
- the payment provider's answer;
- the vector store's lookups;
- the few store failures that change behaviour (`readFails`,
  `indexMissing`, `Faults`).

Modules follow the source files:

| module | file | models |
|---|---|---|
| `Wrappers` | wrappers.dfy | `Option` and `Result` |
| `Text` | text.dfy | `toLowerCase` (ASCII), `includes`, `trim`, `join` and decimal printing |
| `DocumentIds` | document_ids.dfy | fresh ids, stand-ins for two store error messages, and the default order by document id |
| `BookingEntity` | booking_entity.dfy | the booking record, statuses, partial updates, and the two store invariants |
| `BookingRepository` | booking_repository.dfy | the bookings collection |
| `Availability` | availability.dfy | the availability engine and the room catalogue |
| `BookingService` | booking_service.dfy | the booking lifecycle |
| `PaymentWebhook` | payment_webhook.dfy | payment notification reconciliation |
| `Lifecycle` | lifecycle.dfy | arbitrary request sequences against the booking store |
| `FirebaseService` | firebase_service.dfy | refresh and password-reset tokens, and the user lookup fallback |
| `AuthService` | auth_service.dfy | register, login, password reset, token rotation and Google sign-in |
| `RateLimit` | rate_limit.dfy | the fixed-window rate limiter and its decorator |
| `ConversationService` | conversation_service.dfy | conversations and their messages |
| `VectorSearch` | vector_search.dfy | category extraction and prompt assembly |

Three things the code does are easy to get wrong, and the model proves each
of them.

- **Payment references.** Every booking that carries a payment reference is
  confirmed. This holds across any sequence of requests
  (`Lifecycle.RunPreservesPaidIsConfirmed`). As a result, the webhook's
  confirm branch can never run on a store built by the application's own
  requests (`Lifecycle.WebhookNeverConfirms`).
- **Overlapping stays.** "No two confirmed bookings of one room overlap" is
  not preserved. Both `updateBooking` and `confirmBookingPayment` can break
  it, and the model exhibits a witness for each
  (`BookingService.UpdateCanConfirmOverlappingStays`,
  `BookingService.ConfirmCanConfirmOverlappingStays`).
- **Recent messages.** The two paths of `getRecentMessages` give answers
  with the same timestamps for every positive limit. They give the same
  messages when timestamps are distinct
  (`ConversationService.FallbackAgreesWithIndexedQuery`).

## Model

| member | source | states |
|---|---|---|
| Availability.CheckAvailability | src/booking/services/availability.service.ts:19-61 | A range with checkIn >= checkOut is an error, whatever the store holds, and the error text carries the "Failed to check availability: " prefix. Otherwise the answer is true exactly when no confirmed booking of the room overlaps the half-open stay (the reference predicate `Available`). |
| Availability.NonConfirmedNeverBlock | src/booking/services/availability.service.ts:35-36 | Only confirmed bookings are consulted. Adding a created, pending, cancelled or unlisted booking, or changing one, never changes any availability answer. |
| Availability.BackToBackStaysDoNotConflict | src/booking/services/availability.service.ts:39-53 | A stay that starts when another ends, or ends when another starts, is available. |
| Availability.CheckAvailabilityForMultipleRooms | src/booking/services/availability.service.ts:70-104 | The answer has exactly one entry per requested room, in request order. Each entry equals the single-room answer. An empty request never fails; otherwise a reversed range fails with the doubly prefixed message. |
| Availability.PricePerNight | src/booking/services/availability.service.ts:236-243 | Standard 200, Deluxe 350, Suite 500, and 200 for any other type. |
| Availability.Amenities | src/booking/services/availability.service.ts:250-273 | Standard gets its four amenities. Deluxe gets six, ending with breakfast. Suite gets eight, the hot tub among them. Any other type gets the three-item default. |
| Availability.CatalogueIsOrdered | src/booking/services/availability.service.ts:124-129 | The four catalogue rooms are listed in a fixed strict order. |
| Availability.RoomsToCheck | src/booking/services/availability.service.ts:132-135 | A room is checked exactly when it is in the catalogue and either no type list was given, the list is empty, or the list names its type. |
| Availability.RoomsToCheckKeepsOrder | src/booking/services/availability.service.ts:132-135 | Filtering by type keeps the catalogue order. |
| Availability.Offers | src/booking/services/availability.service.ts:139-155 | The loop fails exactly when a room is checked and the range is reversed. Otherwise its offers are exactly the available rooms checked. |
| Availability.OffersKeepCatalogueOrder | src/booking/services/availability.service.ts:139-155 | Offers come out in the order of the rooms checked. |
| Availability.GetAvailableRoomsForPeriod | src/booking/services/availability.service.ts:113-166 | The result is exactly the available catalogue rooms of a wanted type, each once, in catalogue order, with price and amenities. When no room is wanted, no range check runs and the answer is empty. |
| Availability.CalculateNights | src/booking/services/availability.service.ts:226-229 | The number of nights is the ceiling of the absolute distance in days: (n-1) days < distance <= n days. It is at least 1 for a forward range. |
| Availability.NightsSymmetric | src/booking/services/availability.service.ts:226-229 | The night count does not depend on argument order. |
| BookingEntity.ParseStatus | src/auth/dto/update-booking.dto.ts:46-48 | The status text "confirmed" is read as Confirmed and "created" as Created. Any text outside the four declared names is kept as an unlisted status. |
| BookingEntity.StatusNameRoundTrip | src/booking/entities/booking.entity.ts:8 | Reading back a stored status name gives the status again. |
| BookingEntity.MergeLaws | src/booking/repositories/booking.repository.ts:82-91 | A partial update is idempotent. The empty update changes nothing. Owner and creation time are never changed. |
| BookingEntity.RequestPatch | src/booking/services/booking.service.ts:153 | The update request becomes a patch that always stamps updatedAt. It never sets paymentId or confirmationCode. It carries the request's status text, parsed. |
| BookingRepository.Create | src/booking/repositories/booking.repository.ts:13-29 | Exactly one fresh key is added, holding the booking. Every other document is unchanged. The booking is returned with its new id. |
| BookingRepository.FindById | src/booking/repositories/booking.repository.ts:31-40 | The result is null exactly when the id is absent; otherwise it is the stored booking. |
| BookingRepository.CreateThenFind | src/booking/repositories/booking.repository.ts:13-40 | A created booking reads back under its id, and lookups of other ids are unaffected. |
| BookingRepository.FindByUserId | src/booking/repositories/booking.repository.ts:42-60 | The result is exactly the bookings whose owner is the given user, unchanged. |
| BookingRepository.FindByRoomIdAndStatus | src/booking/repositories/booking.repository.ts:62-80 | The result is exactly the bookings matching both room and status. |
| BookingRepository.Update | src/booking/repositories/booking.repository.ts:82-91 | A missing id is an error carrying the stand-in for the store's message. Otherwise only the given fields of that one document change, and the re-read document is returned. |
| BookingRepository.FindByPaymentId | src/booking/repositories/booking.repository.ts:93-115 | The result is null exactly when no booking carries the payment id. Otherwise it is the carrying booking with the least document id. |
| DocumentIds.LeastId | src/booking/repositories/booking.repository.ts:98-106 | Every non-empty set of ids has a least element in the store's default order. |
| BookingService.NewBooking | src/booking/services/booking.service.ts:38-52 | A new booking has status created, no payment and no code, is owned by the caller, and is stamped now. |
| BookingService.CreateBooking | src/booking/services/booking.service.ts:21-103 | Creation fails, writing nothing, exactly when the range is reversed or the room is taken. It fails with the availability message or "Room not available for selected dates". On success it stores one booking with status created and no paymentId, carrying the confirmation code, and returns that booking. A failed payment preference is returned as null. Both store invariants are kept. |
| BookingService.CreateThenStamp | src/booking/services/booking.service.ts:54-61 | Storing the booking and then writing its confirmation code leaves exactly the booking with that code. |
| BookingService.UnconfirmedKeepsInvariants | src/booking/services/booking.service.ts:38-61 | Writing an unconfirmed, unpaid booking keeps "paid implies confirmed" and "confirmed stays are disjoint". |
| BookingService.ValidateUserId | src/booking/services/booking.service.ts:127-131 | Only the empty user id is refused, with "Invalid user ID provided". |
| BookingService.GetUserBookings | src/booking/services/booking.service.ts:133-136 | An empty user id is refused. Otherwise the result is exactly the caller's bookings. |
| BookingService.GetBookingById | src/booking/services/booking.service.ts:138-145 | A booking is returned exactly when it exists and the caller owns it. Otherwise the error is "Booking not found", or the invalid-user message for an empty id. |
| BookingService.NotFoundIsIndistinguishable | src/booking/services/booking.service.ts:140-145 | A missing booking and someone else's booking give the same error. |
| BookingService.UpdateBooking | src/booking/services/booking.service.ts:147-155 | An update succeeds exactly on the caller's own created booking. It then merges the request and stamps updatedAt. Otherwise the error is the not-updatable or not-found message and nothing is written. Paid bookings stay confirmed. |
| BookingService.CancelBooking | src/booking/services/booking.service.ts:157-168 | Cancellation succeeds exactly on the caller's own booking that is neither cancelled nor confirmed. It then sets cancelled and stamps the time. Both invariants are kept. |
| BookingService.ConfirmBookingPayment | src/booking/services/booking.service.ts:182-211 | A missing id is "Booking not found". An already confirmed booking comes back with no write. Any other booking, a cancelled one included, gets status confirmed and the payment id. |
| BookingService.ConfirmIsIdempotent | src/booking/services/booking.service.ts:192-194 | A second confirmation writes nothing and returns the first one's booking. |
| BookingService.UpdateCanConfirmOverlappingStays | src/booking/services/booking.service.ts:147-155 | There is a store with disjoint confirmed stays where a guest's own status update confirms an overlapping stay. |
| BookingService.ConfirmCanConfirmOverlappingStays | src/booking/services/booking.service.ts:192-201 | There is a store where confirming payments revives a cancelled booking and leaves two overlapping confirmed stays. |
| PaymentWebhook.HandlePaymentUpdate | src/booking/payment/payment-webhook.controller.ts:93-141 | Every outcome is received and carries a processed flag. A failed or empty lookup gives "Booking not found" with no write. A confirmed booking gives "Booking already confirmed" with no write. A failing confirmation gives its error message with no write. Only an unconfirmed booking found by its payment id is confirmed, and its id is reported. Conversely, with no store failure such a booking is always confirmed: the answer is processed with its id, and the store differs only in that booking's status and update time. |
| PaymentWebhook.HandleWebhook | src/booking/payment/payment-webhook.controller.ts:34-91 | Only payment.created and payment.updated with a data id reach reconciliation. Anything else is acknowledged with received alone and the store unchanged. A payment event behaves exactly as reconciling its data id. |
| PaymentWebhook.ConfirmBranchNeedsUnconfirmedPaidBooking | src/booking/payment/payment-webhook.controller.ts:119-131 | When every booking with a payment id is confirmed, no notification writes or reports a booking id. |
| PaymentWebhook.RedeliveryIsIdempotent | src/booking/payment/payment-webhook.controller.ts:132-135 | Redelivering a notification that confirmed a booking writes nothing and reports it already confirmed. |
| Lifecycle.Apply | src/booking/services/booking.service.ts:197-201 | Every create, update, cancel or webhook request keeps "every booking with a payment id is confirmed". |
| Lifecycle.RunPreservesPaidIsConfirmed | src/booking/services/booking.service.ts:197-201 | The invariant survives any sequence of requests. |
| Lifecycle.WebhookNeverConfirms | src/booking/payment/payment-webhook.controller.ts:120-131 | After any sequence of requests from an empty store, no notification confirms a booking. |
| FirebaseService.CreateRefreshToken | src/shared/firebase/firebase.service.ts:270-298 | The token is stored under its own id, for its user, not revoked, expiring now plus expiresIn (7 days by default). No other token changes. |
| FirebaseService.ValidateRefreshToken | src/shared/firebase/firebase.service.ts:300-329 | A token is valid exactly when it exists, is not revoked, has a readable timestamp and is not expired. The answer carries the stored user. |
| FirebaseService.RevokeRefreshToken | src/shared/firebase/firebase.service.ts:331-343 | A missing or empty id is an error with the prefixed store message. Otherwise only that token is marked revoked, with the time. |
| FirebaseService.RefreshTokenLifetimeIsInclusive | src/shared/firebase/firebase.service.ts:321 | A fresh token is valid up to and including its expiry instant and invalid after it. |
| FirebaseService.RevokedTokenIsInvalid | src/shared/firebase/firebase.service.ts:331-339 | A revoked token never validates again, and other tokens keep their answers. |
| FirebaseService.CreatePasswordResetToken | src/shared/firebase/firebase.service.ts:345-371 | The token is stored unused, for its user, expiring one hour from now. |
| FirebaseService.ExpiryInstant | src/shared/firebase/firebase.service.ts:401-409 | Both stored forms of an instant can be read; anything else cannot. |
| FirebaseService.ValidatePasswordResetToken | src/shared/firebase/firebase.service.ts:373-425 | A token is valid exactly when the id is non-empty, the token exists, is not used, has a readable expiry and is not expired. |
| FirebaseService.UsePasswordResetToken | src/shared/firebase/firebase.service.ts:427-444 | A missing or empty id is an error with the prefixed store message. Otherwise only that token is marked used. |
| FirebaseService.ResetTokenLifetimeIsInclusive | src/shared/firebase/firebase.service.ts:411-415 | A fresh reset token is valid for exactly one hour, its last instant included. |
| FirebaseService.UsedResetTokenIsInvalid | src/shared/firebase/firebase.service.ts:427-437 | A used reset token never validates again, and other tokens keep their answers. |
| FirebaseService.NonEmpty | src/shared/firebase/firebase.service.ts:205-206 | `x \|\| null` keeps exactly the non-empty strings. |
| FirebaseService.GetUserById | src/shared/firebase/firebase.service.ts:162-236 | The provider's user is returned when found. Only user-not-found and insufficient-permission fall back to the users document: that yields disabled false, or null when the document is missing or the read fails. Every other code is rethrown. |
| AuthService.IssueTokens | src/auth/auth.service.ts:65-71 | The access token names the user. The new refresh token validates for that user at once, and only the refresh collection grows. |
| AuthService.RegisterError | src/auth/auth.service.ts:148-157 | The three provider codes map to their fixed messages; everything else becomes "Registration failed: " plus the message. |
| AuthService.Register | src/auth/auth.service.ts:73-159 | A password shorter than 6 UTF-16 code units (JavaScript's `length`) fails through the method's own catch, before any account exists. A failure to create the account, or to read it back afterwards, is mapped by the catch and writes no users document. Success adds exactly the new user's document (role user, unverified), leaves the other users, the reset tokens and the existing refresh tokens alone, and returns tokens that validate. |
| AuthService.AstralPasswordIsLongEnough | src/auth/auth.service.ts:79-83 | A password of three characters outside the Basic Multilingual Plane has six code units and passes the length check, so registration goes ahead. |
| AuthService.PasswordCheck | src/auth/auth.service.ts:189-246 | A stored hash must match, or the error is "Invalid credentials". Without a hash and without a password provider the error is "User registered with external provider". With a password provider but no hash, the refetch decides: any failure there, a wrong password included, is "Authentication error", and still no hash lets the user in. |
| AuthService.LoginError | src/auth/auth.service.ts:277-289 | The catch block maps user-not-found and wrong-password to "Invalid credentials" and invalid-email to a bad request. Anything else becomes "Login failed: " plus the message. |
| AuthService.Login | src/auth/auth.service.ts:161-291 | Login succeeds exactly when the lookup succeeds, the password check passes and the users document exists. It then stamps lastLogin, adds one refresh token that validates, and leaves the existing refresh tokens and the reset tokens alone. A missing users document gives "Login failed: " with the stand-in for the store's message. |
| AuthService.WrongPasswordNeverLogsIn | src/auth/auth.service.ts:204-238 | A password that does not match the hash that is checked never logs in. |
| AuthService.ForgotPassword | src/auth/auth.service.ts:333-377 | The answer is the same whether the email is known, unknown, or the lookup fails. Only a known email gets a reset token, and it validates for that user. |
| AuthService.ResetPassword | src/auth/auth.service.ts:379-419 | An unusable token gives "Invalid or expired reset token". A provider failure gives "Password reset failed". Success answers "Password reset successfully" and marks exactly that token used. |
| AuthService.ResetTokenIsSingleUse | src/auth/auth.service.ts:388-402 | A second reset with the same token is refused. |
| AuthService.RefreshToken | src/auth/auth.service.ts:442-475 | Rotation succeeds exactly for a usable token. It then revokes that token, issues a new one that validates, and leaves every other refresh token, the users and the reset tokens as they were. Every failure is "Invalid refresh token". |
| AuthService.RefreshReplayFails | src/auth/auth.service.ts:449-462 | Replaying a rotated refresh token fails, while its successor works. |
| AuthService.GoogleDisplayName | src/auth/auth.service.ts:505-507 | A non-empty name is used. Otherwise the name is "given family" trimmed: that text with only its leading and trailing whitespace cut, and no whitespace left at either end. |
| AuthService.GoogleEmailVerified | src/auth/auth.service.ts:509 | The verified flag is always true. |
| AuthService.GoogleLogin | src/auth/auth.service.ts:477-593 | A payload without sub or email is "Invalid Google ID token". A new user gets a users document with the payload's email and picture, the display name, verified, role user and provider google. A known user has only provider and lastLogin changed. No other user, reset token or existing refresh token changes, and the tokens returned validate. |
| Text.Utf16Length | src/auth/auth.service.ts:79 | The code-unit count lies between the character count and twice it, and equals the character count exactly when every character is in the Basic Multilingual Plane. |
| Text.Utf16LengthAppend | src/auth/auth.service.ts:79 | Code units add up over concatenation. |
| Text.Trim | src/auth/auth.service.ts:507 | The result is the input with only leading and trailing JavaScript whitespace cut off, and it has no whitespace at either end. |
| Text.TrimIsTheUnpaddedCut | src/auth/auth.service.ts:507 | Any cut of the input that removes only outer whitespace and leaves none at either end is the trimmed text, so the trim is uniquely determined. |
| Text.LowerIsIdempotent | src/chatbot/services/vector-search.service.ts:92 | Lowercasing twice is lowercasing once. |
| RateLimit.RateLimitAsWritten | src/auth/decorators/rate-limit.decorator.ts:3-6 | As written, the decorator attaches the window and no limit. |
| RateLimit.RateLimitCorrected | src/auth/decorators/rate-limit.decorator.ts:3-6 | The corrected decorator attaches both values. |
| RateLimit.EffectiveLimit | src/auth/guards/rate-limit.guard.ts:18-19 | An absent or zero limit is 5. |
| RateLimit.EffectiveWindow | src/auth/guards/rate-limit.guard.ts:20-21 | An absent or zero window is 60000 ms. |
| RateLimit.ClientIp | src/auth/guards/rate-limit.guard.ts:24-28 | The client address is the first non-empty of ip, remote address and forwarded-for; otherwise it is "unknown". It is never empty. |
| RateLimit.Endpoint | src/auth/guards/rate-limit.guard.ts:29 | The route path, or the URL when there is none. |
| RateLimit.Key | src/auth/guards/rate-limit.guard.ts:35 | The counter id is "rate_limit:", the endpoint, ":" and the address, in that order. |
| RateLimit.CeilSeconds | src/auth/guards/rate-limit.guard.ts:75 | The reported wait is the time left rounded up to whole seconds. |
| RateLimit.NextCounter | src/auth/guards/rate-limit.guard.ts:44-59 | With no counter, or a window that ran out strictly, the count restarts at 1 from now. Otherwise it increments and keeps the window start. |
| RateLimit.CanActivate | src/auth/guards/rate-limit.guard.ts:17-89 | A store failure, or an empty endpoint, lets the request through with nothing written. Otherwise the counter is written before the check, and the request is refused exactly when attempts exceed the limit and time is left. The refusal message gives the rounded-up wait. |
| RateLimit.WindowEdgeIsAllowed | src/auth/guards/rate-limit.guard.ts:53-73 | At exactly one window after the first attempt the request passes and the count still increments. |
| RateLimit.BurstIsCapped | src/auth/guards/rate-limit.guard.ts:44-78 | In a burst inside one window from no counter, request i passes exactly when i is below the effective limit. |
| RateLimit.DeclaredLimitIsIgnored | src/auth/decorators/rate-limit.decorator.ts:4 | As written, a route declared with limit 3 passes a fourth and a fifth request, and one declared with 10 refuses the sixth. |
| RateLimit.DeclaredLimitIsEnforced | src/auth/decorators/rate-limit.decorator.ts:3-6 | With the corrected decorator a burst passes exactly the declared number of requests. |
| ConversationService.Where | src/chatbot/services/conversation.service.ts:155-157 | The query keeps exactly the messages of the conversation, or exactly the others. |
| ConversationService.SortBy | src/chatbot/services/conversation.service.ts:163-165 | The comparator sort returns a permutation that is ordered by timestamp. |
| ConversationService.IndexedQuery | src/chatbot/services/conversation.service.ts:155-165 | Newest first, cut at the limit, then oldest first: an ascending sub-multiset of the limit's size. |
| ConversationService.FallbackQuery | src/chatbot/services/conversation.service.ts:174-184 | Sorted ascending, then `slice(-limit)`: an ascending sub-multiset. A limit of 0 keeps every message. |
| ConversationService.GetRecentMessages | src/chatbot/services/conversation.service.ts:149-193 | The answer is ascending and holds only that conversation's messages. For a positive limit it holds min(limit, count) of them. For limit 0 the indexed path returns nothing and the fallback returns all. |
| ConversationService.RecentMessagesAreTheNewest | src/chatbot/services/conversation.service.ts:155-184 | On either path, no message left out is newer than a message returned. |
| ConversationService.QueryTimestampsAgree | src/chatbot/services/conversation.service.ts:163-184 | For a positive limit both paths return the same timestamp sequence. |
| ConversationService.DistinctQueriesAgree | src/chatbot/services/conversation.service.ts:163-184 | With distinct timestamps both paths return the same messages. |
| ConversationService.FallbackAgreesWithIndexedQuery | src/chatbot/services/conversation.service.ts:155-185 | The fallback agrees with the indexed query on timestamps for any positive limit, and on messages when timestamps are distinct. |
| ConversationService.CreateConversation | src/chatbot/services/conversation.service.ts:26-59 | The new conversation has the default title when none or an empty one is given. It is active, has no last message, carries the given or empty context with pt-BR and version 1.0, and is stored under the fresh id alone. |
| ConversationService.GetConversation | src/chatbot/services/conversation.service.ts:61-90 | An empty id is a database error. A missing conversation is null. A stored one comes with its 10 recent messages. |
| ConversationService.CreateThenGet | src/chatbot/services/conversation.service.ts:26-90 | A new conversation reads back as created, with no messages. |
| ConversationService.GetOrCreateConversation | src/chatbot/services/conversation.service.ts:92-114 | A stored id returns that conversation with nothing written. Otherwise a new conversation for the caller is created and returned with no messages. |
| ConversationService.StoredConversationIgnoresAsker | src/chatbot/services/conversation.service.ts:97-101 | No ownership check: any user asking for a stored conversation gets it. |
| ConversationService.AddMessage | src/chatbot/services/conversation.service.ts:116-147 | The message is appended in every case. The conversation's lastMessageAt and updatedAt are set to its timestamp. When the conversation is missing the error is rethrown but the message stays written. |
| ConversationService.AddedMessageJoins | src/chatbot/services/conversation.service.ts:118-131 | The new message joins its conversation's messages, and it is new. |
| ConversationService.NewestIsReadBackLast | src/chatbot/services/conversation.service.ts:149-185 | A message strictly newer than the rest of its conversation is read back last, on either path. |
| ConversationService.AddedMessageIsReadBackLast | src/chatbot/services/conversation.service.ts:116-185 | A message added later than the others is read back last, whether or not the conversation update succeeded. |
| ConversationService.CheckOwner | src/chatbot/services/conversation.service.ts:219-223 | Only the owner of a stored conversation passes and gets it back. A missing or foreign conversation gives "Conversa não encontrada" behind the catch's database-error prefix. An empty id gives the stand-in for the store's message under that prefix twice. |
| ConversationService.ResetConversation | src/chatbot/services/conversation.service.ts:214-253 | The owner's conversation loses all its messages and gets its initial metadata back. The document, other conversations and other messages stay. |
| ConversationService.DeleteConversation | src/chatbot/services/conversation.service.ts:255-284 | The owner's conversation and all its messages are removed, and nothing else. |
| ConversationService.ResetAndDeleteReadBack | src/chatbot/services/conversation.service.ts:214-284 | After a reset the conversation reads back empty. After a delete it is gone, and a second delete is refused. |
| VectorSearch.FoundIsMentioned | src/chatbot/services/vector-search.service.ts:91-117 | A topic's category is collected exactly when one of its two keywords occurs in the lowercased message. Categories come in the fixed order, each once. |
| VectorSearch.ExtractCategories | src/chatbot/services/vector-search.service.ts:87-125 | The list is never empty. "general" appears exactly when no keyword matched, and then alone. The categories are unique and in order. |
| VectorSearch.CategoriesIgnoreCase | src/chatbot/services/vector-search.service.ts:92-114 | Messages equal up to ASCII case get the same categories. |
| VectorSearch.CategoriesOfLowercased | src/chatbot/services/vector-search.service.ts:92-114 | Lowercasing the message first changes nothing. |
| VectorSearch.NumberedLinesAppend | src/chatbot/services/vector-search.service.ts:137-139 | Numbering continues across a split of the entries. |
| VectorSearch.ItemIsNumbered | src/chatbot/services/vector-search.service.ts:137-139 | The k-th entry is printed as line from+k, right after the lines before it. |
| VectorSearch.SectionListsEveryItem | src/chatbot/services/vector-search.service.ts:143-147 | Inside a section, entry k (from zero) is line k+1. |
| VectorSearch.Section | src/chatbot/services/vector-search.service.ts:135-141 | A section is present exactly when it has entries. |
| VectorSearch.OrDefault | src/chatbot/services/vector-search.service.ts:153-154 | An absent or empty value is replaced by the default. |
| VectorSearch.ScoreText | src/chatbot/services/vector-search.service.ts:155 | An absent score, or one that prints as empty, 0 or NaN (the falsy values), prints as 0.5; any other score is printed as it is. |
| VectorSearch.ProfileSection | src/chatbot/services/vector-search.service.ts:151-156 | The profile section is present exactly when there is a profile. |
| VectorSearch.Middle | src/chatbot/services/vector-search.service.ts:135-156 | Nothing lies between header and closing exactly when context and knowledge are empty and there is no profile. |
| VectorSearch.AssembledOpening | src/chatbot/services/vector-search.service.ts:133-156 | The first section present follows the header directly, numbered from 1. |
| VectorSearch.BuildEnrichedMessage | src/chatbot/services/vector-search.service.ts:127-162 | The prompt starts with "User Message: <msg>" and a blank line, and ends with the fixed closing sentence. It is exactly those two when nothing else is present. Otherwise the first present section opens right after the header with line 1. |
| VectorSearch.EnrichWithContext | src/chatbot/services/vector-search.service.ts:18-63 | It asks for 3 context entries and 5 knowledge entries for the extracted categories. Any failure yields empty context and knowledge, no profile and the bare message. Otherwise it returns what was found and the prompt built from it. |
| VectorSearch.EnrichmentFrames | src/chatbot/services/vector-search.service.ts:54-62 | With nothing found the prompt is the framed message; on failure it is the message itself. |

## Left out

- Failures of the document store, the authentication provider and the vector store. Only the failures that change an answer are parameters: `readFails`, `indexMissing`, `Faults`, and the provider's `Result` answers. Any other failure is not modelled.
- Concurrency. The model is sequential, so the race between checking availability and creating a booking is not represented.
- The logging in every service.
- Floating point and locale formatting: `formatAvailabilityForChatbot`, money text and `toLocaleDateString`. Prices and `totalPrice` are whole numbers.
- The text of confirmation codes. They are built from `Date.now` and `Math.random`, and the model takes the code as a parameter.
- JWT signing and verification. An access token is its payload.
- bcrypt. It is the `compare` parameter.
- The ISO-string round trip of dates. Instants are milliseconds, and sub-millisecond precision is not modelled.
- The clock. All `new Date()` calls within one request read the same instant `now`.
- BookingService.CreateBooking: the payment preference call is not modelled beyond its answer. Its items and the night count it prints are left out.
- AuthService.Register: the one-second wait, and the check on the read-back account's password hash, which only logs. When the read-back (`getUser`) fails, the account stays behind at the provider; provider accounts are not part of the model.
- Register's failure to write the users document.
- AuthService.GoogleLogin: failures of the users collection ("Failed to process user data") are not modelled. Neither is the "Google login failed" wrapper.
- Decoding of the Google ID token. The payload comes in already decoded, or as `None` when it cannot be decoded.
- AuthService.Register: the short-password branch is modelled as written, counting UTF-16 code units. Requests over HTTP cannot reach it: the request DTO's minimum of 6 characters already rules out every password shorter than 6 code units.
- `logout`, `getProfile`, `updateConversationMetadata` and `searchSpecificKnowledge`. They are single store or vector-store calls with no logic of their own.
- `findByPaymentId` and `checkAvailability` in the booking service. They only delegate to `BookingRepository.FindByPaymentId` and `Availability.CheckAvailability`.
- Keys that JavaScript objects inherit, such as a room type named `constructor`. These are not modelled.
- Text.Lower lowercases ASCII letters only. Other characters are kept, unlike `toLowerCase`.
- VectorSearch.ScoreText: the satisfaction score is kept as the text it prints as. The falsy values are those whose text is empty, `0` or `NaN`.
- Conversation context and metadata are maps from string to string.
- ConversationService.GetRecentMessages: the store's order among messages with equal timestamps is not modelled. Neither is the document-name tie-break of `orderBy`. So for tied timestamps only the timestamp sequence of the two paths is proved equal, not the messages.
- ConversationService.GetRecentMessages: `limit(0)` is taken to return nothing.
- PaymentWebhook.HandleWebhook: a request with no body is not modelled.
- PaymentWebhook.HandleWebhook: a non-string `data.id` is not modelled.
- BookingRepository.Update and BookingRepository.FindById: an empty id is treated as an absent one. The store throws on an empty document path, so `findById("")` fails in the source, while the model returns null. Identifiers the store hands out are never empty.
- ConversationService.GetOrCreateConversation: ids containing `/` are not modelled. The store reads such an id as a nested path, so `getConversation("a/b")` throws and `getOrCreateConversation` answers with a database error. The model treats the id as absent and creates a new conversation. The same holds for every other member that takes a document id.
- DocumentIds.NoDocumentToUpdate and DocumentIds.EmptyPathMessage stand in for the store's messages. The real "not found" message also names the document's path. Members whose error text embeds one of them give the stand-in, not the store's exact words: FirebaseService.RevokeRefreshToken, FirebaseService.UsePasswordResetToken, AuthService.Login, BookingRepository.Update, ConversationService.GetConversation, ConversationService.AddMessage and ConversationService.CheckOwner.
- The vector repository itself: semantic search, embeddings and profiles. Its answers are parameters.
- FirebaseService.ValidateRefreshToken: a stored expiry given as a date rather than a store timestamp is not read. The source calls `toDate()` on it, which throws, so the token counts as invalid.

## Findings

| source | as written | input that shows it | evidently intended | confidence | as-written member | corrected member |
|---|---|---|---|---|---|---|
| src/auth/decorators/rate-limit.decorator.ts:4 | `@RateLimit(limit, window)` builds the `rate-limit` metadata decorator and discards it, returning only the `rate-window` one, so the guard always falls back to a limit of 5 | forgot-password is declared with a limit of 3 in 300000 ms; a fourth and a fifth request inside the window both pass. Login is declared with 10 in 60000 ms; its sixth request is refused | both values are attached, and the guard enforces the declared limit | high, not executed | RateLimit.RateLimitAsWritten, RateLimit.DeclaredLimitIsIgnored | RateLimit.RateLimitCorrected, RateLimit.DeclaredLimitIsEnforced |
