/**
 * The backend's `/clerk/webhook` HTTP handler: it checks that a signing
 * secret is configured and that the three Svix headers are present, has the
 * signature verified, and turns user and session events into at most one
 * call of `upsertFromClerkWebhook`. The response and the mutation call are
 * its outputs.
 *
 * Signature verification is the Svix library's: the request carries its
 * outcome, the decoded event or a refusal. The environment variable and the
 * headers are optional strings; JavaScript treats a missing value and the
 * empty string alike as absent.
 */
module Webhook {
  import opened Wrappers
  import opened Users

  /** The `data` of a webhook event, with the fields either payload kind reads. */
  datatype Payload = Payload(
    id: string,                            // user payloads
    emailAddresses: Option<seq<string>>,   // user payloads
    firstName: Option<string>,             // user payloads; `null` reads as absent
    lastName: Option<string>,              // user payloads; `null` reads as absent
    imageUrl: Option<string>,              // user payloads
    userId: string)                        // session payloads

  datatype ClerkEvent = ClerkEvent(eventType: string, data: Payload)

  datatype Request = Request(
    signingSecret: Option<string>,
    svixId: Option<string>,
    svixTimestamp: Option<string>,
    svixSignature: Option<string>,
    verified: Option<ClerkEvent>)  // `None`: verification threw

  /** The response and the mutation the handler ran, if any. */
  datatype Response = Response(status: int, body: string, upsert: Option<UpsertArgs>)

  /** JavaScript truthiness of an optional string. */
  predicate Truthy(s: Option<string>) {
    s.Some? && s.value != ""
  }

  predicate HeadersPresent(req: Request) {
    Truthy(req.svixId) && Truthy(req.svixTimestamp) && Truthy(req.svixSignature)
  }

  predicate IsUserEvent(t: string) {
    t == "user.created" || t == "user.updated"
  }

  /** `data.email_addresses?.[0]?.email_address`. */
  function FirstEmail(data: Payload): Option<string> {
    if data.emailAddresses.Some? && |data.emailAddresses.value| > 0 then Some(data.emailAddresses.value[0]) else None
  }

  /** The upsert a user event asks for: the user's id, first address, names and picture. */
  function UserUpsert(data: Payload): UpsertArgs {
    UpsertArgs(data.id, FirstEmail(data), data.firstName, data.lastName, data.imageUrl)
  }

  /** The upsert a session event asks for: only the user's id, so nothing else is overwritten. */
  function SessionUpsert(data: Payload): (r: UpsertArgs)
    ensures r.clerkId == data.userId
    ensures r.email.None? && r.firstName.None? && r.lastName.None? && r.imageUrl.None?
  {
    UpsertArgs(data.userId, None, None, None, None)
  }

  /** The handler. Every response that ran a mutation is a 200 "ok". */
  function HandleWebhook(req: Request): (r: Response)
    ensures r.upsert.Some? ==> r.status == 200 && r.body == "ok"
  {
    if !Truthy(req.signingSecret) then Response(500, "Missing CLERK_WEBHOOK_SIGNING_SECRET", None)
    else if !HeadersPresent(req) then Response(400, "Missing Svix headers", None)
    else if req.verified.None? then Response(400, "Invalid signature", None)
    else
      var event := req.verified.value;
      if IsUserEvent(event.eventType) then Response(200, "ok", Some(UserUpsert(event.data)))
      else if event.eventType == "session.created" then Response(200, "ok", Some(SessionUpsert(event.data)))
      else Response(200, "ignored", None)
  }

  /** Without a signing secret the answer is a 500, whatever the headers and the body are. */
  lemma MissingSecretFirst(req: Request, other: Request)
    requires !Truthy(req.signingSecret) && other.signingSecret == req.signingSecret
    ensures HandleWebhook(req) == HandleWebhook(other)
    ensures HandleWebhook(req) == Response(500, "Missing CLERK_WEBHOOK_SIGNING_SECRET", None)
  {
  }

  /** With a secret but any Svix header missing or empty, the answer is a 400 and nothing is verified. */
  lemma MissingHeadersRejected(req: Request)
    requires Truthy(req.signingSecret) && !HeadersPresent(req)
    ensures HandleWebhook(req) == Response(400, "Missing Svix headers", None)
    ensures HandleWebhook(req) == HandleWebhook(req.(verified := None))
  {
  }

  /** A request that fails verification runs no mutation. */
  lemma InvalidSignatureRejected(req: Request)
    requires Truthy(req.signingSecret) && HeadersPresent(req) && req.verified.None?
    ensures HandleWebhook(req) == Response(400, "Invalid signature", None)
  {
  }

  /**
   * A mutation runs exactly when the request passed every check and the
   * event is a user creation, user update or session creation; a user event
   * writes the payload's user, a session event only names the session's user.
   */
  lemma UpsertExactlyForKnownEvents(req: Request)
    ensures HandleWebhook(req).upsert.Some? <==>
      && Truthy(req.signingSecret) && HeadersPresent(req) && req.verified.Some?
      && (IsUserEvent(req.verified.value.eventType) || req.verified.value.eventType == "session.created")
    ensures HandleWebhook(req).upsert.Some? ==>
      var event := req.verified.value;
      HandleWebhook(req).upsert.value ==
        if IsUserEvent(event.eventType) then UserUpsert(event.data) else SessionUpsert(event.data)
    ensures (Truthy(req.signingSecret) && HeadersPresent(req) && req.verified.Some? && HandleWebhook(req).upsert.None?)
      ==> HandleWebhook(req) == Response(200, "ignored", None)
  {
  }

  /**
   * A session event for a known user only marks the user as seen: the
   * profile, the approval flags and the creation time stay as they were.
   */
  lemma SessionEventOnlyTouchesTimes(u: User, data: Payload, now: int)
    requires u.clerkId == data.userId
    ensures Merged(u, SessionUpsert(data), now) == u.(updatedAt := now, lastSeenAt := now)
  {
    assert BuildDisplayName(None, None) == None by {
      assert Text.AllWhitespace(Text.EcmaScript, "" + " " + "");
    }
  }
}
