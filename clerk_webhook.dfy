/** The account webhook (`src/app/api/webhooks/clerk/route.ts`): a guard on the three svix
    headers, then an upsert for created or updated users and a delete for deleted ones.
    Signature verification is an input (the event, or `None` when it throws); `fault`
    stands for the failure of the one database call a request makes. */
module ClerkWebhook {
  import opened Wrappers
  import opened Users

  /** The three svix headers; `None` is a header that is absent. */
  datatype SvixHeaders = SvixHeaders(id: Option<string>, timestamp: Option<string>, signature: Option<string>)

  /** The fields of the verified event the handler reads: `type`, `data.id`,
      `data.email_addresses?.[0]?.email_address`, `data.username` and
      `data.external_accounts?.[0]?.google_id` (`None` where nullish). */
  datatype ClerkEvent = ClerkEvent(
    eventType: string,
    id: string,
    email: Option<string>,
    username: Option<string>,
    googleId: Option<string>)

  datatype ClerkResponse =
    | NoSvixHeaders       // 400 "Error occured -- no svix headers"
    | VerificationFailed  // 400 "Error occured"
    | NoEmail             // 400 {message: "No email found"}
    | Synced              // 200 {ok: true}
    | UpsertThrew         // the upsert's error escapes the handler: 500

  function HttpStatus(r: ClerkResponse): (code: int)
    ensures code == 200 <==> r.Synced?
    ensures code == 400 <==> r.NoSvixHeaders? || r.VerificationFailed? || r.NoEmail?
  {
    match r
    case NoSvixHeaders => 400
    case VerificationFailed => 400
    case NoEmail => 400
    case Synced => 200
    case UpsertThrew => 500
  }

  predicate Falsy(h: Option<string>) {
    h.None? || h.value == ""
  }

  predicate HeadersPresent(h: SvixHeaders) {
    !Falsy(h.id) && !Falsy(h.timestamp) && !Falsy(h.signature)
  }

  predicate IsSync(eventType: string) {
    eventType == "user.created" || eventType == "user.updated"
  }

  /** The answer and the new table for one request. */
  function ClerkOutcome(t: Table, h: SvixHeaders, verified: Option<ClerkEvent>, fault: bool)
    : (ClerkResponse, Table)
  {
    if !HeadersPresent(h) then (NoSvixHeaders, t)
    else if verified.None? then (VerificationFailed, t)
    else
      var e := verified.value;
      if IsSync(e.eventType) then
        if Falsy(e.email) then (NoEmail, t)
        else
          var r := Upsert(t, e.id, e.email.value, e.username, e.googleId, fault);
          if r.None? then (UpsertThrew, t) else (Synced, r.value)
      else if e.eventType == "user.deleted" then
        var r := Delete(t, e.id, fault);
        (Synced, if r.Some? then r.value else t)
      else (Synced, t)
  }

  /** `POST`. */
  method HandleClerkPost(db: UserDb, h: SvixHeaders, verified: Option<ClerkEvent>, fault: bool)
    returns (resp: ClerkResponse)
    requires db.Valid()
    modifies db
    ensures db.Valid()
    ensures (resp, db.users) == ClerkOutcome(old(db.users), h, verified, fault)
  {
    if Falsy(h.id) || Falsy(h.timestamp) || Falsy(h.signature) {
      return NoSvixHeaders;
    }
    if verified.None? {
      return VerificationFailed;
    }
    var evt := verified.value;
    if evt.eventType == "user.created" || evt.eventType == "user.updated" {
      var email := evt.email;
      if email.None? || email.value == "" {
        return NoEmail;
      }
      var ok := db.UpsertUser(evt.id, email.value, evt.username, evt.googleId, fault);
      if !ok {
        return UpsertThrew;
      }
    }
    if evt.eventType == "user.deleted" {
      // a failed delete (typically: the row is already gone) is logged and ignored
      var _ := db.DeleteUser(evt.id, fault);
    }
    return Synced;
  }

  // ---------------------------------------------------------------- properties

  /** A missing or empty svix header, or a payload that does not verify, is refused with
      400 and changes nothing. */
  lemma GuardsChangeNothing(t: Table, h: SvixHeaders, verified: Option<ClerkEvent>, fault: bool)
    requires !HeadersPresent(h) || verified.None?
    ensures HttpStatus(ClerkOutcome(t, h, verified, fault).0) == 400
    ensures ClerkOutcome(t, h, verified, fault).1 == t
  {
  }

  /** A created or updated user without an email address is refused with 400 and nothing
      is written. */
  lemma NoEmailNoWrite(t: Table, h: SvixHeaders, e: ClerkEvent, fault: bool)
    requires HeadersPresent(h) && IsSync(e.eventType) && Falsy(e.email)
    ensures ClerkOutcome(t, h, Some(e), fault) == (NoEmail, t)
  {
  }

  /** A created or updated user is upserted by Clerk id: a known row takes the new email
      and username (absent username: null) and keeps everything else; an unknown one is
      created with its Google id and no role or billing data. Other rows are untouched. */
  lemma SyncUpserts(t: Table, h: SvixHeaders, e: ClerkEvent)
    requires ValidTable(t) && HeadersPresent(h) && IsSync(e.eventType) && !Falsy(e.email)
    ensures var (resp, u) := ClerkOutcome(t, h, Some(e), false);
      && resp == Synced && ValidTable(u) && e.id in u
      && (e.id in t ==> u[e.id] == t[e.id].(email := e.email.value, username := e.username))
      && (e.id !in t ==> u[e.id] == User(e.id, e.email.value, e.username, e.googleId, None, None, None))
      && (forall k :: k in t && k != e.id ==> u[k] == t[k])
  {
    UpsertEffect(t, e.id, e.email.value, e.username, e.googleId);
  }

  /** A deleted user's row is removed, and only that row; when the delete fails (the row
      is already gone, or a database fault) the answer is still 200 and the table is
      unchanged. */
  lemma DeletionRemoves(t: Table, h: SvixHeaders, e: ClerkEvent, fault: bool)
    requires ValidTable(t) && HeadersPresent(h) && e.eventType == "user.deleted"
    ensures var (resp, u) := ClerkOutcome(t, h, Some(e), fault);
      && resp == Synced && ValidTable(u)
      && (!fault ==> e.id !in u)
      && (forall k :: k in t && k != e.id ==> k in u && u[k] == t[k])
      && (fault ==> u == t)
  {
    if e.id in t && !fault {
      DeleteEffect(t, e.id);
    }
  }

  /** Any other event type is acknowledged and changes nothing. */
  lemma OtherEventsAcknowledged(t: Table, h: SvixHeaders, e: ClerkEvent, fault: bool)
    requires HeadersPresent(h) && !IsSync(e.eventType) && e.eventType != "user.deleted"
    ensures ClerkOutcome(t, h, Some(e), fault) == (Synced, t)
  {
  }

  /** Receiving the same user event twice leaves the same table as receiving it once. */
  lemma SyncIsIdempotent(t: Table, h: SvixHeaders, e: ClerkEvent)
    requires ValidTable(t) && HeadersPresent(h) && IsSync(e.eventType) && !Falsy(e.email)
    ensures var u := ClerkOutcome(t, h, Some(e), false).1;
      ClerkOutcome(u, h, Some(e), false).1 == u
  {
    UpsertEffect(t, e.id, e.email.value, e.username, e.googleId);
  }
}
