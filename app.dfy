/**
 * The request handlers of the service that carry rules: submitting
 * credentials, the scheduled batch scrape, one scrape of one user, and the
 * status query. Each handler is a method on the `Store`; the effect it must
 * have is given first as a function on a `Db` value.
 *
 * Collaborators are parameters (`Services`): the configuration, the cipher
 * and the serialisation of credential dictionaries, the identity-token
 * verifier, and the scraper service, whose answer to one request is a
 * `ScrapeOutcome`.
 */
module App {
  import opened Wrappers
  import opened FirebaseStore
  import Encryption
  import Base64
  import Validation
  import Text
  import AppConfig

  /** The JSON payload posted to the scraper service. */
  datatype ScrapeRequest = ScrapeRequest(companyId: string, credentials: Encryption.Credentials, startDate: Option<string>)

  /**
   * How the call to the scraper service ended: an HTTP reply (its JSON body is
   * read only when the status is 200), the five-minute timeout, or any other
   * exception, including a 200 reply whose body is not JSON.
   */
  datatype ScrapeOutcome =
    | Responded(statusCode: int, reply: ScraperReply)
    | TimedOut
    | Raised(message: string)

  /** What one scrape reports to its caller: success, or failure with the `error` member (null is None). */
  datatype ScrapeResult = ScrapeSucceeded | ScrapeFailed(error: Option<string>)

  datatype Services = Services(
    config: AppConfig.Config,
    aead: Encryption.Aead,
    codec: Encryption.Codec,
    verify: string -> Result<UserId, string>,
    scraper: (UserId, ScrapeRequest) -> ScrapeOutcome)

  const TimeoutMessage := "Scraping request timed out"
  const UnknownScrapeError := "Unknown scraping error"

  function HttpErrorMessage(code: int): string {
    "Scraper service returned " + Text.Decimal(code)
  }

  /** `errorMessage` of a failed reply, with its default when the member is missing. */
  function ReplyError(m: ReplyMessage): Option<string> {
    match m
    case Absent => Some(UnknownScrapeError)
    case Null => None
    case Text(s) => Some(s)
  }

  // ---------------------------------------------------------------- one scrape

  /** What a scrape reports, for each way the scraper call can end. */
  function Resolve(o: ScrapeOutcome): (r: ScrapeResult)
    ensures r.ScrapeSucceeded? <==> o.Responded? && o.statusCode == 200 && o.reply.success
    ensures o.Responded? && o.statusCode != 200 ==> r.error == Some(HttpErrorMessage(o.statusCode))
    ensures o.Responded? && o.statusCode == 200 && !o.reply.success ==> r.error == ReplyError(o.reply.errorMessage)
    ensures o.TimedOut? ==> r.error == Some(TimeoutMessage)
    ensures o.Raised? ==> r.error == Some(o.message)
  {
    match o
    case Responded(code, reply) =>
      if code != 200 then ScrapeFailed(Some(HttpErrorMessage(code)))
      else if reply.success then ScrapeSucceeded
      else ScrapeFailed(ReplyError(reply.errorMessage))
    case TimedOut => ScrapeFailed(Some(TimeoutMessage))
    case Raised(m) => ScrapeFailed(Some(m))
  }

  /** The status document a scrape with this result leaves behind. */
  function FinalStatus(r: ScrapeResult, now: Timestamp): StatusRecord {
    match r
    case ScrapeSucceeded => StatusRecord(Success, now, None, true)
    case ScrapeFailed(e) => StatusRecord(Error, now, e, true)
  }

  /** The three database values of one user. */
  function At(db: Db, u: UserId): (Option<CredentialRecord>, Option<ExpensesRecord>, Option<StatusRecord>) {
    (Lookup(db.credentials, u), Lookup(db.expenses, u), Lookup(db.status, u))
  }

  /**
   * The writes of one scrape. Its status document is written once, as
   * 'success' exactly when the scrape succeeded; only a success saves the
   * reply as the user's expenses and sets `last_scraped`.
   */
  function ScrapeEffect(db: Db, uid: UserId, o: ScrapeOutcome, now: Timestamp): (d: Db)
    ensures Lookup(d.status, uid) == Some(FinalStatus(Resolve(o), now))
    ensures Lookup(d.status, uid).value.status == Success <==> Resolve(o).ScrapeSucceeded?
    ensures Resolve(o).ScrapeSucceeded? ==>
      && Lookup(d.expenses, uid) == Some(ExpensesRecord(now, o.reply))
      && Lookup(d.credentials, uid) == Some(Lookup(db.credentials, uid).GetOr(NoFields).(lastScraped := Some(now)))
    ensures Resolve(o).ScrapeFailed? ==> d.expenses == db.expenses && d.credentials == db.credentials
    ensures forall u :: u != uid ==> At(d, u) == At(db, u)
  {
    match o
    case Responded(code, reply) =>
      if code != 200 then PutStatus(db, uid, Error, Some(HttpErrorMessage(code)), now)
      else if reply.success then PutStatus(SetLastScraped(PutExpenses(db, uid, reply, now), uid, now), uid, Success, None, now)
      else PutStatus(db, uid, Error, ReplyError(reply.errorMessage), now)
    case TimedOut => PutStatus(db, uid, Error, Some(TimeoutMessage), now)
    case Raised(m) => PutStatus(db, uid, Error, Some(m), now)
  }

  /** The scraper call and the writes of one scrape, in order. */
  function ScrapeEvents(uid: UserId, o: ScrapeOutcome): (es: seq<Event>)
    ensures |es| >= 2 && es[0] == ScraperCalled(uid)
    ensures es[|es| - 1] == StatusWritten(uid, if Resolve(o).ScrapeSucceeded? then Success else Error)
    ensures forall i :: 0 <= i < |es| - 1 ==> !es[i].StatusWritten?
    ensures ExpensesSaved(uid) in es <==> Resolve(o).ScrapeSucceeded?
  {
    [ScraperCalled(uid)] +
    if Resolve(o).ScrapeSucceeded? then [ExpensesSaved(uid), LastScrapedSet(uid), StatusWritten(uid, Success)]
    else [StatusWritten(uid, Error)]
  }

  /** Call the scraper service for one user and record how it went. */
  method TriggerScrape(store: Store, scraper: (UserId, ScrapeRequest) -> ScrapeOutcome, uid: UserId,
                       companyId: string, creds: Encryption.Credentials, startDate: Option<string>, now: Timestamp)
    returns (r: ScrapeResult)
    modifies store
    ensures r == Resolve(scraper(uid, ScrapeRequest(companyId, creds, startDate)))
    ensures store.Snapshot() == ScrapeEffect(old(store.Snapshot()), uid, scraper(uid, ScrapeRequest(companyId, creds, startDate)), now)
    ensures store.log == old(store.log) + ScrapeEvents(uid, scraper(uid, ScrapeRequest(companyId, creds, startDate)))
  {
    var response := scraper(uid, ScrapeRequest(companyId, creds, startDate));
    store.RecordScraperCall(uid);
    match response
    case Responded(code, reply) =>
      if code != 200 {
        var message := HttpErrorMessage(code);
        store.UpdateScraperStatus(uid, Error, Some(message), now);
        return ScrapeFailed(Some(message));
      }
      if reply.success {
        store.SaveScrapedExpenses(uid, reply, now);
        store.UpdateLastScraped(uid, now);
        store.UpdateScraperStatus(uid, Success, None, now);
        return ScrapeSucceeded;
      } else {
        var message := ReplyError(reply.errorMessage);
        store.UpdateScraperStatus(uid, Error, message, now);
        return ScrapeFailed(message);
      }
    case TimedOut =>
      store.UpdateScraperStatus(uid, Error, Some(TimeoutMessage), now);
      return ScrapeFailed(Some(TimeoutMessage));
    case Raised(message) =>
      store.UpdateScraperStatus(uid, Error, Some(message), now);
      return ScrapeFailed(Some(message));
  }

  // ---------------------------------------------------- submitting credentials

  datatype SubmitResponse =
    | Rejected(rejection: Validation.Rejection)
    | InternalError
    | Accepted(scrape: ScrapeResult)

  /**
   * The HTTP answer to a submission: status code, the `success` member, the
   * `error` or `message` text, and the `scrapeError` member when present.
   */
  datatype HttpReply = HttpReply(code: nat, success: bool, text: string, scrapeError: Option<Option<string>>)

  /** The `message` of an accepted submission. */
  function AcceptedMessage(r: ScrapeResult): string {
    if r.ScrapeSucceeded? then "Credentials saved and initial scrape completed successfully"
    else "Credentials saved. Scraping encountered an issue but will retry."
  }

  function Reply(resp: SubmitResponse): HttpReply {
    match resp
    case Rejected(rej) => HttpReply(Validation.Code(rej), false, Validation.Message(rej), None)
    case InternalError => HttpReply(500, false, "Internal server error", None)
    case Accepted(r) =>
      HttpReply(200, true, AcceptedMessage(r), if r.ScrapeSucceeded? then None else Some(r.error))
  }

  /** The scrape request a validated submission makes. */
  function InitialRequest(sub: Validation.Submission): ScrapeRequest {
    ScrapeRequest(sub.companyId, sub.credentials, sub.startDate)
  }

  /** The new database and the response of one submission. */
  function SubmitEffect(db: Db, services: Services, body: Option<Validation.SubmitBody>, nonce: Base64.Bytes, now: Timestamp)
    : (Db, SubmitResponse)
    requires |nonce| == Encryption.NonceSize
  {
    match Validation.ValidateSubmission(body, services.verify)
    case Err(rej) => (db, Rejected(rej))
    case Ok(sub) =>
      match Encryption.EncryptCredentials(services.config.encryptionKey, services.aead, services.codec, nonce, sub.credentials)
      case Err(_) => (db, InternalError)
      case Ok(enc) =>
        var o := services.scraper(sub.userId, InitialRequest(sub));
        var saved := PutStatus(PutCredentials(db, sub.userId, sub.companyId, enc, now), sub.userId, Pending, None, now);
        (ScrapeEffect(saved, sub.userId, o, now), Accepted(Resolve(o)))
  }

  /** The writes of one submission, in order. */
  function SubmitEvents(services: Services, body: Option<Validation.SubmitBody>, nonce: Base64.Bytes): seq<Event>
    requires |nonce| == Encryption.NonceSize
  {
    match Validation.ValidateSubmission(body, services.verify)
    case Err(_) => []
    case Ok(sub) =>
      if Encryption.EncryptCredentials(services.config.encryptionKey, services.aead, services.codec, nonce, sub.credentials).Err? then []
      else
        [CredentialsSaved(sub.userId), StatusWritten(sub.userId, Pending)]
        + ScrapeEvents(sub.userId, services.scraper(sub.userId, InitialRequest(sub)))
  }

  /**
   * Validate, encrypt, save, mark pending, scrape. A submission that fails
   * a check or cannot be encrypted changes nothing.
   */
  method SubmitCredentials(store: Store, services: Services, body: Option<Validation.SubmitBody>,
                           nonce: Base64.Bytes, now: Timestamp)
    returns (resp: SubmitResponse)
    requires |nonce| == Encryption.NonceSize
    modifies store
    ensures (store.Snapshot(), resp) == SubmitEffect(old(store.Snapshot()), services, body, nonce, now)
    ensures store.log == old(store.log) + SubmitEvents(services, body, nonce)
  {
    var validated := Validation.ValidateSubmission(body, services.verify);
    if validated.Err? {
      return Rejected(validated.error);
    }
    var sub := validated.value;
    var encrypted := Encryption.EncryptCredentials(services.config.encryptionKey, services.aead, services.codec, nonce, sub.credentials);
    if encrypted.Err? {
      return InternalError;
    }
    store.SaveUserCredentials(sub.userId, sub.companyId, encrypted.value, now);
    store.UpdateScraperStatus(sub.userId, Pending, None, now);
    ghost var saved := [CredentialsSaved(sub.userId), StatusWritten(sub.userId, Pending)];
    ghost var scraped := ScrapeEvents(sub.userId, services.scraper(sub.userId, InitialRequest(sub)));
    assert store.log == old(store.log) + saved;
    ghost var beforeScrape := store.log;
    var scrape := TriggerScrape(store, services.scraper, sub.userId, sub.companyId, sub.credentials, sub.startDate, now);
    resp := Accepted(scrape);
    assert store.log == beforeScrape + scraped;
    assert SubmitEvents(services, body, nonce) == saved + scraped;
    AppendAssoc(old(store.log), saved, scraped);
  }

  /** A submission is rejected, with its first failing check, exactly when validation fails, and then nothing is written. */
  lemma SubmitRejected(db: Db, services: Services, body: Option<Validation.SubmitBody>, nonce: Base64.Bytes, now: Timestamp)
    requires |nonce| == Encryption.NonceSize
    ensures var (d, resp) := SubmitEffect(db, services, body, nonce, now);
      && (resp.Rejected? <==> Validation.ValidateSubmission(body, services.verify).Err?)
      && (resp.Rejected? ==> resp.rejection == Validation.ValidateSubmission(body, services.verify).error)
      && (!resp.Accepted? ==> d == db && SubmitEvents(services, body, nonce) == [])
  {
  }

  /**
   * A submission that passes validation and can be encrypted is accepted
   * whatever the scrape does; the user's record holds the company, the
   * encrypted credentials, the enabled flag and the creation time, and
   * `last_scraped` is set exactly when the scrape succeeded. With a sound
   * cipher and serialisation the stored credentials decrypt to those submitted.
   */
  lemma SubmitAccepted(db: Db, services: Services, body: Option<Validation.SubmitBody>, nonce: Base64.Bytes, now: Timestamp)
    requires |nonce| == Encryption.NonceSize
    requires Encryption.SoundAead(services.aead) && Encryption.SoundCodec(services.codec)
    requires Validation.ValidateSubmission(body, services.verify).Ok?
    requires Encryption.CipherKey(services.config.encryptionKey).Ok?
    ensures var sub := Validation.ValidateSubmission(body, services.verify).value;
      var (d, resp) := SubmitEffect(db, services, body, nonce, now);
      var o := services.scraper(sub.userId, InitialRequest(sub));
      && resp == Accepted(Resolve(o))
      && Lookup(d.credentials, sub.userId).Some?
      && var rec := Lookup(d.credentials, sub.userId).value;
      && rec.companyId == Some(sub.companyId)
      && rec.scrapingEnabled == Some(true)
      && rec.createdAt == Some(now)
      && rec.lastScraped == (if Resolve(o).ScrapeSucceeded? then Some(now) else None)
      && rec.credentials.Some?
      && Encryption.DecryptCredentials(services.config.encryptionKey, services.aead, services.codec, rec.credentials.value)
         == Ok(sub.credentials)
      && Lookup(d.status, sub.userId) == Some(FinalStatus(Resolve(o), now))
  {
    var sub := Validation.ValidateSubmission(body, services.verify).value;
    Encryption.DecryptEncrypt(services.config.encryptionKey, services.aead, services.codec, nonce, sub.credentials);
  }

  /**
   * How each submission is answered: 200 with `success` exactly when it is
   * accepted; 401 exactly when body, fields and consent pass and the token
   * does not verify; 500 exactly when it passes validation but cannot be
   * encrypted; 400 for every other
   * rejection, with the rejection's text. An accepted answer carries a
   * `scrapeError` exactly when the initial scrape failed.
   */
  lemma SubmitReply(db: Db, services: Services, body: Option<Validation.SubmitBody>, nonce: Base64.Bytes, now: Timestamp)
    requires |nonce| == Encryption.NonceSize
    ensures var reply := Reply(SubmitEffect(db, services, body, nonce, now).1);
      var v := Validation.ValidateSubmission(body, services.verify);
      && (reply.success <==> reply.code == 200)
      && (reply.code == 200 <==> v.Ok? && Encryption.CipherKey(services.config.encryptionKey).Ok?)
      && (reply.code == 401 <==> v.Err? && Validation.Stage(v.error) == 3)
      && (reply.code == 500 <==> v.Ok? && Encryption.CipherKey(services.config.encryptionKey).Err?)
      && (reply.code == 400 <==> v.Err? && Validation.Stage(v.error) != 3)
      && (v.Err? ==> reply.text == Validation.Message(v.error))
      && (reply.code == 200 ==>
            reply.text == AcceptedMessage(Resolve(services.scraper(v.value.userId, InitialRequest(v.value)))))
      && (reply.code == 200 ==>
            (reply.scrapeError.None? <==> Resolve(services.scraper(v.value.userId, InitialRequest(v.value))).ScrapeSucceeded?))
  {
    var v := Validation.ValidateSubmission(body, services.verify);
    if v.Err? {
      assert SubmitEffect(db, services, body, nonce, now).1 == Rejected(v.error);
      assert Validation.Code(v.error) == 401 <==> Validation.Stage(v.error) == 3;
    } else if Encryption.CipherKey(services.config.encryptionKey).Err? {
      assert SubmitEffect(db, services, body, nonce, now).1 == InternalError;
    } else {
      var o := services.scraper(v.value.userId, InitialRequest(v.value));
      assert SubmitEffect(db, services, body, nonce, now).1 == Accepted(Resolve(o));
    }
  }

  /**
   * Under the default configuration the encryption key is empty, so every
   * submission that passes validation is answered 500 and nothing is stored.
   */
  lemma DefaultKeyRefusesSubmissions(db: Db, services: Services, body: Option<Validation.SubmitBody>,
                                     nonce: Base64.Bytes, now: Timestamp)
    requires |nonce| == Encryption.NonceSize
    requires services.config == AppConfig.Defaults
    requires Validation.ValidateSubmission(body, services.verify).Ok?
    ensures SubmitEffect(db, services, body, nonce, now) == (db, InternalError)
  {
    assert Encryption.CipherKey(services.config.encryptionKey) == Err(Encryption.MissingKey);
  }

  // ------------------------------------------------------------ the batch job

  datatype Summary = Summary(processed: nat, success: nat, failed: nat, errors: seq<string>)

  datatype JobReply = Unauthorized | Completed(summary: Summary)

  /** The scheduler must present exactly this Authorization header. */
  predicate Authorized(config: AppConfig.Config, header: Option<string>) {
    header == Some("Bearer " + config.schedulerSecret)
  }

  /** How the batch job deals with one enabled entry. */
  datatype EntryOutcome =
    | Incomplete                     // no credentials or no company id: skipped
    | Undecryptable(message: string) // decryption raised this exception text
    | Scraped(outcome: ScrapeOutcome)

  function Classify(services: Services, startDate: string, uid: UserId, rec: CredentialRecord): EntryOutcome {
    if rec.credentials.None? || !Validation.HasText(rec.companyId) then Incomplete
    else
      match Encryption.DecryptCredentials(services.config.encryptionKey, services.aead, services.codec, rec.credentials.value)
      case Err(e) => Undecryptable(Encryption.Describe(e))
      case Ok(creds) => Scraped(services.scraper(uid, ScrapeRequest(rec.companyId.value, creds, Some(startDate))))
  }

  /**
   * Under the default configuration no stored credentials can be decrypted:
   * every complete entry of a batch fails with the missing-key text.
   */
  lemma DefaultKeyFailsEntries(services: Services, startDate: string, uid: UserId, rec: CredentialRecord)
    requires services.config == AppConfig.Defaults
    requires rec.credentials.Some? && Validation.HasText(rec.companyId)
    ensures Classify(services, startDate, uid, rec) == Undecryptable(Encryption.MissingKeyMessage)
  {
    assert Encryption.CipherKey(services.config.encryptionKey) == Err(Encryption.MissingKey);
  }

  /** A null error shows as "None" in an error line. */
  function Show(e: Option<string>): string {
    match e
    case None => "None"
    case Some(s) => s
  }

  /** The summary after one more entry. */
  function Count(s: Summary, uid: UserId, outcome: EntryOutcome): Summary {
    var s' := s.(processed := s.processed + 1);
    match outcome
    case Incomplete => s'.(failed := s'.failed + 1, errors := s'.errors + [uid + ": Missing credentials or company_id"])
    case Undecryptable(m) => s'.(failed := s'.failed + 1, errors := s'.errors + [uid + ": " + m])
    case Scraped(o) =>
      match Resolve(o)
      case ScrapeSucceeded => s'.(success := s'.success + 1)
      case ScrapeFailed(e) => s'.(failed := s'.failed + 1, errors := s'.errors + [uid + ": " + Show(e)])
  }

  /** The summary of a batch over these entries, taken in order. */
  function Tally(services: Services, startDate: string, entries: seq<Entry>): Summary {
    if entries == [] then Summary(0, 0, 0, [])
    else
      var n := |entries| - 1;
      Count(Tally(services, startDate, entries[..n]), entries[n].0, Classify(services, startDate, entries[n].0, entries[n].1))
  }

  /** Every entry is counted once, as a success or a failure, and each failure leaves one error line. */
  lemma {:induction false} TallyCounts(services: Services, startDate: string, entries: seq<Entry>)
    ensures var s := Tally(services, startDate, entries);
      && s.processed == |entries|
      && s.success + s.failed == s.processed
      && |s.errors| == s.failed
  {
    if entries != [] {
      TallyCounts(services, startDate, entries[..|entries| - 1]);
    }
  }

  /** The writes the batch job makes for one entry: none for an incomplete one. */
  function EntryEffect(db: Db, uid: UserId, outcome: EntryOutcome, now: Timestamp): (d: Db)
    ensures outcome.Incomplete? ==> d == db
    ensures forall u :: u != uid ==> At(d, u) == At(db, u)
  {
    match outcome
    case Incomplete => db
    case Undecryptable(m) => PutStatus(db, uid, Error, Some(m), now)
    case Scraped(o) => ScrapeEffect(PutStatus(db, uid, Pending, None, now), uid, o, now)
  }

  function EntryEvents(uid: UserId, outcome: EntryOutcome): seq<Event> {
    match outcome
    case Incomplete => []
    case Undecryptable(_) => [StatusWritten(uid, Error)]
    case Scraped(o) => [StatusWritten(uid, Pending)] + ScrapeEvents(uid, o)
  }

  function BatchEffect(db: Db, services: Services, startDate: string, now: Timestamp, entries: seq<Entry>): Db {
    if entries == [] then db
    else
      var n := |entries| - 1;
      EntryEffect(BatchEffect(db, services, startDate, now, entries[..n]), entries[n].0,
                  Classify(services, startDate, entries[n].0, entries[n].1), now)
  }

  function BatchEvents(services: Services, startDate: string, entries: seq<Entry>): seq<Event> {
    if entries == [] then []
    else
      var n := |entries| - 1;
      BatchEvents(services, startDate, entries[..n])
      + EntryEvents(entries[n].0, Classify(services, startDate, entries[n].0, entries[n].1))
  }

  /** What one entry does to its own user depends only on that user's values. */
  lemma EntryEffectLocal(db1: Db, db2: Db, uid: UserId, outcome: EntryOutcome, now: Timestamp)
    requires At(db1, uid) == At(db2, uid)
    ensures At(EntryEffect(db1, uid, outcome, now), uid) == At(EntryEffect(db2, uid, outcome, now), uid)
  {
  }

  /**
   * Entries do not interfere: after a batch over entries with distinct user
   * ids, a user's values are what its own entry alone would have made of
   * them, and a user without an entry is untouched.
   */
  lemma {:induction false} BatchIsolation(db: Db, services: Services, startDate: string, now: Timestamp,
                                          entries: seq<Entry>, u: UserId)
    requires DistinctIds(entries)
    ensures u !in Ids(entries) ==> At(BatchEffect(db, services, startDate, now, entries), u) == At(db, u)
    ensures forall i :: 0 <= i < |entries| && entries[i].0 == u ==>
      At(BatchEffect(db, services, startDate, now, entries), u)
      == At(EntryEffect(db, u, Classify(services, startDate, u, entries[i].1), now), u)
  {
    if entries != [] {
      var n := |entries| - 1;
      var front := entries[..n];
      assert DistinctIds(front);
      BatchIsolation(db, services, startDate, now, front, u);
      var before := BatchEffect(db, services, startDate, now, front);
      assert Ids(entries) == Ids(front) + {entries[n].0} by {
        assert entries == front + [entries[n]];
        IdsAppend(front, entries[n]);
      }
      if entries[n].0 == u {
        forall i | 0 <= i < n ensures front[i].0 != u && entries[i].0 != u {
          assert front[i] == entries[i];
        }
        EntryEffectLocal(before, db, u, Classify(services, startDate, u, entries[n].1), now);
      } else {
        forall i | 0 <= i < |entries| && entries[i].0 == u ensures i < n && front[i] == entries[i] {
        }
      }
    }
  }

  lemma AppendAssoc<T>(a: seq<T>, b: seq<T>, c: seq<T>)
    ensures (a + b) + c == a + (b + c)
  {
  }

  /** The batch over one more entry. */
  lemma BatchStep(db: Db, services: Services, startDate: string, now: Timestamp, entries: seq<Entry>, i: nat)
    requires i < |entries|
    ensures var outcome := Classify(services, startDate, entries[i].0, entries[i].1);
      && Tally(services, startDate, entries[..i + 1])
         == Count(Tally(services, startDate, entries[..i]), entries[i].0, outcome)
      && BatchEffect(db, services, startDate, now, entries[..i + 1])
         == EntryEffect(BatchEffect(db, services, startDate, now, entries[..i]), entries[i].0, outcome, now)
      && BatchEvents(services, startDate, entries[..i + 1])
         == BatchEvents(services, startDate, entries[..i]) + EntryEvents(entries[i].0, outcome)
  {
    assert entries[..i + 1][..i] == entries[..i];
  }

  /**
   * One pass of the batch loop: count the entry, and unless it is incomplete
   * write its status and, when its credentials decrypt, scrape it.
   */
  method ScrapeEntry(store: Store, services: Services, uid: UserId, userData: CredentialRecord,
                     startDate: string, now: Timestamp, results: Summary)
    returns (results': Summary)
    modifies store
    ensures results' == Count(results, uid, Classify(services, startDate, uid, userData))
    ensures store.Snapshot() == EntryEffect(old(store.Snapshot()), uid, Classify(services, startDate, uid, userData), now)
    ensures store.log == old(store.log) + EntryEvents(uid, Classify(services, startDate, uid, userData))
  {
    ghost var outcome := Classify(services, startDate, uid, userData);
    results' := results.(processed := results.processed + 1);
    var encrypted := userData.credentials;
    var companyId := userData.companyId;
    if encrypted.None? || !Validation.HasText(companyId) {
      results' := results'.(failed := results'.failed + 1, errors := results'.errors + [uid + ": Missing credentials or company_id"]);
      assert outcome == Incomplete;
      return;
    }
    var decrypted := Encryption.DecryptCredentials(services.config.encryptionKey, services.aead, services.codec, encrypted.value);
    if decrypted.Err? {
      var message := Encryption.Describe(decrypted.error);
      results' := results'.(failed := results'.failed + 1, errors := results'.errors + [uid + ": " + message]);
      store.UpdateScraperStatus(uid, Error, Some(message), now);
      assert outcome == Undecryptable(message);
      return;
    }
    ghost var request := ScrapeRequest(companyId.value, decrypted.value, Some(startDate));
    assert outcome == Scraped(services.scraper(uid, request));
    store.UpdateScraperStatus(uid, Pending, None, now);
    var scrape := TriggerScrape(store, services.scraper, uid, companyId.value, decrypted.value, Some(startDate), now);
    AppendAssoc(old(store.log), [StatusWritten(uid, Pending)], ScrapeEvents(uid, services.scraper(uid, request)));
    if scrape.ScrapeSucceeded? {
      results' := results'.(success := results'.success + 1);
    } else {
      results' := results'.(failed := results'.failed + 1, errors := results'.errors + [uid + ": " + Show(scrape.error)]);
    }
  }

  /**
   * The scheduled batch: refuse a caller without the scheduler secret;
   * otherwise scrape every enabled user once, counting successes and
   * failures, and go on after each failure.
   */
  method ScrapeJob(store: Store, services: Services, authHeader: Option<string>, startDate: string, now: Timestamp)
    returns (reply: JobReply, ghost entries: seq<Entry>)
    modifies store
    ensures !Authorized(services.config, authHeader) ==>
      reply == Unauthorized && store.Snapshot() == old(store.Snapshot()) && store.log == old(store.log)
    ensures Authorized(services.config, authHeader) ==>
      && DistinctIds(entries)
      && Ids(entries) == EnabledIds(old(store.credentials))
      && (forall i :: 0 <= i < |entries| ==> Lookup(old(store.credentials), entries[i].0) == Some(entries[i].1))
      && reply == Completed(Tally(services, startDate, entries))
      && store.Snapshot() == BatchEffect(old(store.Snapshot()), services, startDate, now, entries)
      && store.log == old(store.log) + BatchEvents(services, startDate, entries)
    ensures reply.Completed? ==>
      && reply.summary.processed == |EnabledIds(old(store.credentials))|
      && reply.summary.success + reply.summary.failed == reply.summary.processed
      && |reply.summary.errors| == reply.summary.failed
  {
    if authHeader != Some("Bearer " + services.config.schedulerSecret) {
      return Unauthorized, [];
    }
    var enabledUsers := store.GetAllEnabledUsers();
    entries := enabledUsers;
    ghost var db0 := store.Snapshot();
    ghost var log0 := store.log;
    var results := Summary(0, 0, 0, []);
    for i := 0 to |enabledUsers|
      invariant results == Tally(services, startDate, enabledUsers[..i])
      invariant store.Snapshot() == BatchEffect(db0, services, startDate, now, enabledUsers[..i])
      invariant store.log == log0 + BatchEvents(services, startDate, enabledUsers[..i])
    {
      BatchStep(db0, services, startDate, now, enabledUsers, i);
      ghost var done := BatchEvents(services, startDate, enabledUsers[..i]);
      ghost var added := EntryEvents(enabledUsers[i].0, Classify(services, startDate, enabledUsers[i].0, enabledUsers[i].1));
      assert BatchEvents(services, startDate, enabledUsers[..i + 1]) == done + added;
      results := ScrapeEntry(store, services, enabledUsers[i].0, enabledUsers[i].1, startDate, now, results);
      assert store.log == (log0 + done) + added;
      AppendAssoc(log0, done, added);
    }
    assert enabledUsers[..|enabledUsers|] == enabledUsers;
    TallyCounts(services, startDate, enabledUsers);
    reply := Completed(results);
  }

  // ------------------------------------------------------------ status query

  /** The status response: the fields of the user's credential record, or their defaults. */
  datatype StatusView = StatusView(hasCredentials: bool, companyId: Option<string>, scrapingEnabled: bool,
                                   lastScraped: Option<Timestamp>)

  function View(r: Option<CredentialRecord>): StatusView {
    match r
    case None => StatusView(false, None, false, None)
    case Some(rec) => StatusView(true, rec.companyId, rec.scrapingEnabled.GetOr(false), rec.lastScraped)
  }

  datatype StatusReply = StatusRefused(code: nat, error: string) | StatusShown(view: StatusView)

  /** The token of an Authorization header: the header with every "Bearer " removed. */
  function BearerToken(header: Option<string>): string {
    Text.RemoveAll(header.GetOr(""), "Bearer ")
  }

  /** A header "Bearer <t>", where t holds no "Bearer ", carries the token t. */
  lemma BearerHeaderToken(t: string)
    requires !Text.Occurs("Bearer ", t)
    ensures BearerToken(Some("Bearer " + t)) == t
  {
    Text.RemoveAllPrefix("Bearer ", t);
  }

  /** Only the user the token identifies may read the status, and sees exactly their record's fields. */
  method GetStatus(store: Store, verify: string -> Result<UserId, string>, uid: UserId, authHeader: Option<string>)
    returns (reply: StatusReply)
    ensures BearerToken(authHeader) == "" ==> reply == StatusRefused(401, "Missing authentication token")
    ensures BearerToken(authHeader) != "" && verify(BearerToken(authHeader)).Err? ==>
      reply == StatusRefused(401, "Invalid Firebase token: " + verify(BearerToken(authHeader)).error)
    ensures BearerToken(authHeader) != "" && verify(BearerToken(authHeader)).Ok? && verify(BearerToken(authHeader)).value != uid ==>
      reply == StatusRefused(403, "Unauthorized")
    ensures reply.StatusShown? <==> BearerToken(authHeader) != "" && verify(BearerToken(authHeader)) == Ok(uid)
    ensures reply.StatusShown? ==> reply.view == View(Lookup(store.credentials, uid))
  {
    var token := BearerToken(authHeader);
    if token == "" {
      return StatusRefused(401, "Missing authentication token");
    }
    var decoded := verify(token);
    if decoded.Err? {
      return StatusRefused(401, "Invalid Firebase token: " + decoded.error);
    }
    if decoded.value != uid {
      return StatusRefused(403, "Unauthorized");
    }
    var record := store.GetUserCredentials(uid);
    reply := StatusShown(View(record));
  }

  /**
   * What the status shows after each write: a saved record, enabled and never
   * scraped; after a successful scrape its time; after deletion, nothing.
   */
  lemma ViewAfterWrites(db: Db, uid: UserId, companyId: string, enc: Encryption.EncryptedCredentials,
                        o: ScrapeOutcome, now: Timestamp, later: Timestamp)
    ensures View(Lookup(PutCredentials(db, uid, companyId, enc, now).credentials, uid))
            == StatusView(true, Some(companyId), true, None)
    ensures Resolve(o).ScrapeSucceeded? ==>
      View(Lookup(ScrapeEffect(PutCredentials(db, uid, companyId, enc, now), uid, o, later).credentials, uid))
      == StatusView(true, Some(companyId), true, Some(later))
    ensures View(Lookup(RemoveCredentials(db, uid).credentials, uid)) == StatusView(false, None, false, None)
  {
  }
}
