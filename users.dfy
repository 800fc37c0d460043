/**
 * The backend's `users` and `apiUsageLog` tables and the mutations that
 * keep them: creating or refreshing the caller's user record, the access
 * check the session and translation actions run first, the per-endpoint
 * sliding-window rate limiter, and the upsert driven by identity-provider
 * webhooks.
 *
 * A table is a sequence of documents. Lookups by `clerkId` stand for the
 * `by_clerkId` index with `.unique()`; the tables' invariant is that no two
 * users share a `clerkId`, so `.unique()` never throws. A mutation that
 * throws is rolled back as a whole by the database (its writes are never
 * visible), so every error path below leaves both tables unchanged. The
 * caller's identity and the clock are parameters.
 */
module Users {
  import opened Wrappers
  import opened Text

  const NotAuthenticated: string := "Not authenticated"
  const NotApproved: string := "Account not approved"

  /** A document of the `users` table. */
  datatype User = User(
    clerkId: string,
    email: Option<string>,
    name: Option<string>,
    imageUrl: Option<string>,
    isManuallyApproved: bool,
    hasActiveSubscription: bool,
    createdAt: int,
    updatedAt: int,
    lastSeenAt: int)

  /** The endpoints whose use is logged. */
  datatype Endpoint = SessionEndpoint | TranslateEndpoint

  function EndpointName(e: Endpoint): string {
    match e
    case SessionEndpoint => "session"
    case TranslateEndpoint => "translate"
  }

  /** A document of the `apiUsageLog` table. */
  datatype UsageLog = UsageLog(clerkId: string, endpoint: Endpoint, accessedAt: int)

  /** The authenticated caller, as the identity provider describes them. */
  datatype Identity = Identity(subject: string, email: Option<string>, name: Option<string>, pictureUrl: Option<string>)

  /** The arguments of `upsertFromClerkWebhook`. */
  datatype UpsertArgs = UpsertArgs(
    clerkId: string,
    email: Option<string>,
    firstName: Option<string>,
    lastName: Option<string>,
    imageUrl: Option<string>)

  /** A user may call the paid endpoints once approved by hand or subscribed. */
  predicate IsApproved(u: User) {
    u.isManuallyApproved || u.hasActiveSubscription
  }

  /**
   * `buildDisplayName`: first and last name joined by a space, missing parts
   * read as empty, trimmed; no name at all when nothing is left.
   */
  function BuildDisplayName(firstName: Option<string>, lastName: Option<string>): (r: Option<string>)
    ensures r.None? <==> AllWhitespace(EcmaScript, firstName.GetOr("") + " " + lastName.GetOr(""))
    ensures r.Some? ==>
      && r.value != ""
      && !IsWhitespace(EcmaScript, r.value[0]) && !IsWhitespace(EcmaScript, r.value[|r.value| - 1])
      && Contains(firstName.GetOr("") + " " + lastName.GetOr(""), r.value)
    ensures r.Some? ==> r.value == Trim(EcmaScript, firstName.GetOr("") + " " + lastName.GetOr(""))
  {
    var full := firstName.GetOr("") + " " + lastName.GetOr("");
    var fullName := Trim(EcmaScript, full);
    TrimEmptyIffAllWhitespace(EcmaScript, full);
    TrimIsInfix(EcmaScript, full);
    if |fullName| > 0 then Some(fullName) else None
  }

  /** A single name part that needs no trimming is the display name as it is. */
  lemma DisplayNameOfFirstNameOnly(firstName: string)
    requires firstName != [] && !IsWhitespace(EcmaScript, firstName[|firstName| - 1])
    requires !IsWhitespace(EcmaScript, firstName[0])
    ensures BuildDisplayName(Some(firstName), None) == Some(firstName)
  {
    var full := firstName + " " + "";
    assert full[..|full| - 1] == firstName;
    assert Trim(EcmaScript, full) == Trim(EcmaScript, firstName);
  }

  /**
   * The display name is the whole of "first last" less the whitespace at its
   * ends: a non-empty run of it that starts and ends outside the whitespace
   * set, with only whitespace around it, is the name, not any shorter part.
   */
  lemma DisplayNameIsWholeName(firstName: Option<string>, lastName: Option<string>, name: string, i: int)
    requires TrimmedAt(EcmaScript, firstName.GetOr("") + " " + lastName.GetOr(""), name, i)
    requires name != [] && !IsWhitespace(EcmaScript, name[0]) && !IsWhitespace(EcmaScript, name[|name| - 1])
    ensures BuildDisplayName(firstName, lastName) == Some(name)
  {
    TrimUnique(EcmaScript, firstName.GetOr("") + " " + lastName.GetOr(""), name, i);
  }

  /** Both parts present: the name is "first last", with the space kept. */
  lemma DisplayNameOfBothParts(firstName: string, lastName: string)
    requires firstName != [] && !IsWhitespace(EcmaScript, firstName[0])
    requires lastName != [] && !IsWhitespace(EcmaScript, lastName[|lastName| - 1])
    ensures BuildDisplayName(Some(firstName), Some(lastName)) == Some(firstName + " " + lastName)
  {
    var full := firstName + " " + lastName;
    assert full[..0] == [] && full[|full|..] == [];
    assert full[0] == firstName[0] && full[|full| - 1] == lastName[|lastName| - 1];
    DisplayNameIsWholeName(Some(firstName), Some(lastName), full, 0);
  }

  /** A fresh user: awaiting approval, with every time stamp at `now`. */
  function NewUser(clerkId: string, email: Option<string>, name: Option<string>, imageUrl: Option<string>, now: int): (u: User)
    ensures u.clerkId == clerkId && !IsApproved(u)
    ensures u.createdAt == now && u.updatedAt == now && u.lastSeenAt == now
  {
    User(clerkId, email, name, imageUrl, false, false, now, now, now)
  }

  /**
   * The patch `ensureUser` and `assertApiAccess` apply to an existing user:
   * the profile fields are replaced by the identity's (an absent one is
   * removed) and the user is seen now. Approval and creation time stay.
   */
  function Refreshed(u: User, identity: Identity, now: int): (r: User)
    ensures r.clerkId == u.clerkId && r.createdAt == u.createdAt
    ensures r.isManuallyApproved == u.isManuallyApproved && r.hasActiveSubscription == u.hasActiveSubscription
    ensures r.email == identity.email && r.name == identity.name && r.imageUrl == identity.pictureUrl
    ensures r.updatedAt == now && r.lastSeenAt == now
  {
    u.(email := identity.email, name := identity.name, imageUrl := identity.pictureUrl,
       updatedAt := now, lastSeenAt := now)
  }

  /**
   * The patch a webhook applies to an existing user: each profile field the
   * webhook carries replaces the stored one, each it lacks is kept.
   */
  function Merged(u: User, args: UpsertArgs, now: int): (r: User)
    ensures r.clerkId == u.clerkId && r.createdAt == u.createdAt
    ensures r.isManuallyApproved == u.isManuallyApproved && r.hasActiveSubscription == u.hasActiveSubscription
    ensures args.email.None? ==> r.email == u.email
    ensures args.email.Some? ==> r.email == args.email
    ensures args.imageUrl.None? ==> r.imageUrl == u.imageUrl
    ensures args.imageUrl.Some? ==> r.imageUrl == args.imageUrl
    ensures BuildDisplayName(args.firstName, args.lastName).None? ==> r.name == u.name
    ensures BuildDisplayName(args.firstName, args.lastName).Some? ==> r.name == BuildDisplayName(args.firstName, args.lastName)
    ensures r.updatedAt == now && r.lastSeenAt == now
  {
    var name := BuildDisplayName(args.firstName, args.lastName);
    u.(email := if args.email.Some? then args.email else u.email,
       name := if name.Some? then name else u.name,
       imageUrl := if args.imageUrl.Some? then args.imageUrl else u.imageUrl,
       updatedAt := now, lastSeenAt := now)
  }

  /** No two users share a `clerkId`. */
  ghost predicate UniqueClerkIds(users: seq<User>) {
    forall i, j :: 0 <= i < |users| && 0 <= j < |users| && users[i].clerkId == users[j].clerkId ==> i == j
  }

  /** The `by_clerkId` index: the position of the user with this id, if any. */
  function Find(users: seq<User>, clerkId: string): (r: Option<nat>)
    ensures r.Some? ==> r.value < |users| && users[r.value].clerkId == clerkId
    ensures r.None? ==> forall i :: 0 <= i < |users| ==> users[i].clerkId != clerkId
  {
    if users == [] then None
    else if users[|users| - 1].clerkId == clerkId then Some(|users| - 1)
    else Find(users[..|users| - 1], clerkId)
  }

  /** Adding a user whose id is not taken keeps the ids unique. */
  lemma InsertKeepsUnique(users: seq<User>, u: User)
    requires UniqueClerkIds(users) && Find(users, u.clerkId).None?
    ensures UniqueClerkIds(users + [u])
  {
  }

  /** Replacing a user by one with the same id keeps the ids unique. */
  lemma PatchKeepsUnique(users: seq<User>, i: nat, u: User)
    requires UniqueClerkIds(users) && i < |users| && u.clerkId == users[i].clerkId
    ensures UniqueClerkIds(users[i := u])
  {
  }

  /** Under unique ids the index finds the one user with the id, wherever it is. */
  lemma FindUnique(users: seq<User>, i: nat)
    requires UniqueClerkIds(users) && i < |users|
    ensures Find(users, users[i].clerkId) == Some(i)
  {
  }

  /** The log entries of one caller and endpoint at or after `since`. */
  function CountRecent(log: seq<UsageLog>, clerkId: string, endpoint: Endpoint, since: int): nat {
    if log == [] then 0
    else
      var l := log[|log| - 1];
      CountRecent(log[..|log| - 1], clerkId, endpoint, since)
      + (if l.clerkId == clerkId && l.endpoint == endpoint && l.accessedAt >= since then 1 else 0)
  }

  /** Logging one call adds one to its own window's count and leaves every other caller's and endpoint's count alone. */
  lemma CountRecentAppend(log: seq<UsageLog>, entry: UsageLog, clerkId: string, endpoint: Endpoint, since: int)
    ensures CountRecent(log + [entry], clerkId, endpoint, since)
         == CountRecent(log, clerkId, endpoint, since)
            + (if entry.clerkId == clerkId && entry.endpoint == endpoint && entry.accessedAt >= since then 1 else 0)
  {
    assert (log + [entry])[..|log|] == log;
  }

  /** The count never exceeds the number of entries. */
  lemma {:induction false} CountRecentBound(log: seq<UsageLog>, clerkId: string, endpoint: Endpoint, since: int)
    ensures CountRecent(log, clerkId, endpoint, since) <= |log|
  {
    if log != [] {
      CountRecentBound(log[..|log| - 1], clerkId, endpoint, since);
    }
  }

  function RateLimitMessage(endpoint: Endpoint): string {
    "Rate limit exceeded for " + EndpointName(endpoint) + ". Please wait before retrying."
  }

  class Backend {
    var users: seq<User>
    var usageLog: seq<UsageLog>

    ghost predicate Valid()
      reads this
    {
      UniqueClerkIds(users)
    }

    constructor ()
      ensures Valid() && users == [] && usageLog == []
    {
      users, usageLog := [], [];
    }

    /** `getMe`: the caller's user record, or nothing without an identity or a record. */
    function GetMe(identity: Option<Identity>): (r: Option<User>)
      reads this
      ensures identity.None? ==> r.None?
      ensures identity.Some? ==>
        (r.Some? <==> exists i :: 0 <= i < |users| && users[i].clerkId == identity.value.subject)
      ensures r.Some? ==> r.value in users && r.value.clerkId == identity.value.subject
    {
      if identity.None? then None
      else
        var found := Find(users, identity.value.subject);
        if found.Some? then Some(users[found.value]) else None
    }

    /**
     * `ensureUser`: records a first-time caller as a new user awaiting
     * approval, or refreshes a known caller's profile; answers whether the
     * caller is approved.
     */
    method EnsureUser(identity: Option<Identity>, now: int) returns (r: Result<bool, string>)
      requires Valid()
      modifies this
      ensures Valid() && usageLog == old(usageLog)
      ensures identity.None? ==> r == Failure(NotAuthenticated) && users == old(users)
      ensures identity.Some? ==>
        var id := identity.value;
        match Find(old(users), id.subject)
        case None =>
          && users == old(users) + [NewUser(id.subject, id.email, id.name, id.pictureUrl, now)]
          && r == Success(false)
        case Some(i) =>
          && users == old(users)[i := Refreshed(old(users)[i], id, now)]
          && r == Success(IsApproved(old(users)[i]))
    {
      if identity.None? {
        return Failure(NotAuthenticated);
      }
      var id := identity.value;
      var existing := Find(users, id.subject);
      if existing.None? {
        var u := NewUser(id.subject, id.email, id.name, id.pictureUrl, now);
        InsertKeepsUnique(users, u);
        users := users + [u];
        return Success(false);
      }
      var i := existing.value;
      var wasApproved := IsApproved(users[i]);
      PatchKeepsUnique(users, i, Refreshed(users[i], id, now));
      users := users[i := Refreshed(users[i], id, now)];
      r := Success(wasApproved);
    }

    /**
     * `assertApiAccess`: succeeds only for a known, approved caller, whose
     * profile it refreshes. A first-time caller is inserted and then
     * refused; the refusal rolls the insert back.
     */
    method AssertApiAccess(identity: Option<Identity>, now: int) returns (r: Result<bool, string>)
      requires Valid()
      modifies this
      ensures Valid() && usageLog == old(usageLog)
      ensures identity.None? ==> r == Failure(NotAuthenticated) && users == old(users)
      ensures identity.Some? ==>
        var id := identity.value;
        var found := Find(old(users), id.subject);
        if found.Some? && IsApproved(old(users)[found.value]) then
          && r == Success(true)
          && users == old(users)[found.value := Refreshed(old(users)[found.value], id, now)]
        else
          r == Failure(NotApproved) && users == old(users)
    {
      if identity.None? {
        return Failure(NotAuthenticated);
      }
      var id := identity.value;
      var existing := Find(users, id.subject);
      if existing.None? {
        // The insert of a new user made here is rolled back by the throw.
        return Failure(NotApproved);
      }
      var i := existing.value;
      if !IsApproved(users[i]) {
        // So is the refresh of the profile.
        return Failure(NotApproved);
      }
      PatchKeepsUnique(users, i, Refreshed(users[i], id, now));
      users := users[i := Refreshed(users[i], id, now)];
      r := Success(true);
    }

    /**
     * `assertAndLogUsage`: refuses a call when the caller already made
     * `maxRequests` or more calls to the endpoint within the last `windowMs`;
     * otherwise logs this call.
     */
    method AssertAndLogUsage(identity: Option<Identity>, endpoint: Endpoint, windowMs: int, maxRequests: int, now: int)
      returns (r: Result<(), string>)
      requires Valid()
      modifies this
      ensures Valid() && users == old(users)
      ensures identity.None? ==> r == Failure(NotAuthenticated) && usageLog == old(usageLog)
      ensures identity.Some? ==>
        var id := identity.value;
        if CountRecent(old(usageLog), id.subject, endpoint, now - windowMs) >= maxRequests then
          r == Failure(RateLimitMessage(endpoint)) && usageLog == old(usageLog)
        else
          && r == Success(())
          && usageLog == old(usageLog) + [UsageLog(id.subject, endpoint, now)]
          && CountRecent(usageLog, id.subject, endpoint, now - windowMs) <= maxRequests
    {
      if identity.None? {
        return Failure(NotAuthenticated);
      }
      var id := identity.value;
      var since := now - windowMs;
      var recent := CountRecent(usageLog, id.subject, endpoint, since);
      if recent >= maxRequests {
        return Failure(RateLimitMessage(endpoint));
      }
      var entry := UsageLog(id.subject, endpoint, now);
      CountRecentAppend(usageLog, entry, id.subject, endpoint, since);
      usageLog := usageLog + [entry];
      r := Success(());
    }

    /**
     * `upsertFromClerkWebhook`: inserts an unknown user awaiting approval,
     * or merges the webhook's profile fields into the known one.
     */
    method UpsertFromClerkWebhook(args: UpsertArgs, now: int)
      requires Valid()
      modifies this
      ensures Valid() && usageLog == old(usageLog)
      ensures match Find(old(users), args.clerkId)
        case None =>
          users == old(users) + [NewUser(args.clerkId, args.email, BuildDisplayName(args.firstName, args.lastName), args.imageUrl, now)]
        case Some(i) =>
          users == old(users)[i := Merged(old(users)[i], args, now)]
    {
      var name := BuildDisplayName(args.firstName, args.lastName);
      var existing := Find(users, args.clerkId);
      if existing.None? {
        var u := NewUser(args.clerkId, args.email, name, args.imageUrl, now);
        InsertKeepsUnique(users, u);
        users := users + [u];
        return;
      }
      var i := existing.value;
      PatchKeepsUnique(users, i, Merged(users[i], args, now));
      users := users[i := Merged(users[i], args, now)];
    }
  }

  /**
   * Under the rate limiter, however many calls were refused before, a
   * granted call never leaves more than `maxRequests` calls of its caller to
   * its endpoint in the window ending at that call.
   */
  lemma GrantedCallStaysWithinLimit(log: seq<UsageLog>, clerkId: string, endpoint: Endpoint, windowMs: int, maxRequests: int, now: int)
    requires CountRecent(log, clerkId, endpoint, now - windowMs) < maxRequests
    ensures CountRecent(log + [UsageLog(clerkId, endpoint, now)], clerkId, endpoint, now - windowMs) <= maxRequests
  {
    CountRecentAppend(log, UsageLog(clerkId, endpoint, now), clerkId, endpoint, now - windowMs);
  }
}
