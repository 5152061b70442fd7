/**
 * The realtime database as the service uses it: three paths, each a map
 * from user id to one record.
 *
 *   user_credentials/<uid>  the user's company, encrypted credentials and flags
 *   scraped_expenses/<uid>  the last scraper reply, with the time it was saved
 *   scraper_status/<uid>    the status of the last scrape
 *
 * A record field that was never written, or was written as null, is absent;
 * the `Option` fields of `CredentialRecord` say so. The effect of each write
 * is first given as a function on a `Db` value; the methods of `Store`
 * perform the writes on its fields and promise exactly that effect.
 */
module FirebaseStore {
  import opened Wrappers
  import Encryption

  type UserId = string
  type Timestamp = string

  datatype CredentialRecord = CredentialRecord(
    companyId: Option<string>,
    credentials: Option<Encryption.EncryptedCredentials>,
    scrapingEnabled: Option<bool>,
    createdAt: Option<Timestamp>,
    lastScraped: Option<Timestamp>)

  /** A record none of whose fields is present. */
  const NoFields := CredentialRecord(None, None, None, None, None)

  /** A user is scraped by the batch job when the flag is present and true. */
  predicate IsEnabled(r: CredentialRecord) {
    r.scrapingEnabled == Some(true)
  }

  /** The `errorMessage` member of a scraper reply: missing, null, or a text. */
  datatype ReplyMessage = Absent | Null | Text(text: string)

  /** The JSON body of a scraper reply; `document` stands for the rest of it. */
  datatype ScraperReply = ScraperReply(success: bool, errorMessage: ReplyMessage, document: string)

  datatype ExpensesRecord = ExpensesRecord(lastUpdated: Timestamp, data: ScraperReply)

  datatype ScrapeStatus = Pending | Success | Error

  datatype StatusRecord = StatusRecord(
    status: ScrapeStatus,
    lastRun: Timestamp,
    errorMessage: Option<string>,
    hasCredentials: bool)

  /** The three paths of the database. */
  datatype Db = Db(
    credentials: map<UserId, CredentialRecord>,
    expenses: map<UserId, ExpensesRecord>,
    status: map<UserId, StatusRecord>)

  /** Reading one user's record: None when there is none. */
  function Lookup<V>(m: map<UserId, V>, u: UserId): Option<V> {
    if u in m then Some(m[u]) else None
  }

  /** The record every save writes, whatever was there before. */
  function NewRecord(companyId: string, enc: Encryption.EncryptedCredentials, now: Timestamp): CredentialRecord {
    CredentialRecord(Some(companyId), Some(enc), Some(true), Some(now), None)
  }

  /** Replace the user's whole credential record. */
  function PutCredentials(db: Db, uid: UserId, companyId: string, enc: Encryption.EncryptedCredentials, now: Timestamp)
    : (d: Db)
    ensures Lookup(d.credentials, uid) == Some(CredentialRecord(Some(companyId), Some(enc), Some(true), Some(now), None))
    ensures forall u :: u != uid ==> Lookup(d.credentials, u) == Lookup(db.credentials, u)
    ensures d.credentials.Keys == db.credentials.Keys + {uid}
    ensures d.expenses == db.expenses && d.status == db.status
  {
    db.(credentials := db.credentials[uid := NewRecord(companyId, enc, now)])
  }

  /**
   * Write the single field `last_scraped` of the user's record. Writing a
   * child of a missing record creates a record holding only that field.
   */
  function SetLastScraped(db: Db, uid: UserId, now: Timestamp): (d: Db)
    ensures Lookup(d.credentials, uid) == Some(Lookup(db.credentials, uid).GetOr(NoFields).(lastScraped := Some(now)))
    ensures forall u :: u != uid ==> Lookup(d.credentials, u) == Lookup(db.credentials, u)
    ensures d.expenses == db.expenses && d.status == db.status
  {
    var r := if uid in db.credentials then db.credentials[uid] else NoFields;
    db.(credentials := db.credentials[uid := r.(lastScraped := Some(now))])
  }

  /** Delete the user's credential record. */
  function RemoveCredentials(db: Db, uid: UserId): (d: Db)
    ensures Lookup(d.credentials, uid) == None
    ensures forall u :: u != uid ==> Lookup(d.credentials, u) == Lookup(db.credentials, u)
    ensures d.credentials.Keys == db.credentials.Keys - {uid}
    ensures d.expenses == db.expenses && d.status == db.status
  {
    db.(credentials := db.credentials - {uid})
  }

  /** Replace the user's saved expenses by this reply, with no merge with what was there. */
  function PutExpenses(db: Db, uid: UserId, data: ScraperReply, now: Timestamp): (d: Db)
    ensures Lookup(d.expenses, uid) == Some(ExpensesRecord(now, data))
    ensures forall u :: u != uid ==> Lookup(d.expenses, u) == Lookup(db.expenses, u)
    ensures d.credentials == db.credentials && d.status == db.status
  {
    db.(expenses := db.expenses[uid := ExpensesRecord(now, data)])
  }

  /** Replace the user's whole status document. */
  function PutStatus(db: Db, uid: UserId, status: ScrapeStatus, message: Option<string>, now: Timestamp): (d: Db)
    ensures Lookup(d.status, uid) == Some(StatusRecord(status, now, message, true))
    ensures forall u :: u != uid ==> Lookup(d.status, u) == Lookup(db.status, u)
    ensures d.credentials == db.credentials && d.expenses == db.expenses
  {
    db.(status := db.status[uid := StatusRecord(status, now, message, true)])
  }

  /** The users the batch job scrapes. */
  function EnabledIds(m: map<UserId, CredentialRecord>): set<UserId> {
    set u | u in m && IsEnabled(m[u])
  }

  /** Saving enables the user; a later `last_scraped` write keeps it enabled; deleting disables it. */
  lemma EnabledAfterWrites(db: Db, uid: UserId, companyId: string, enc: Encryption.EncryptedCredentials, now: Timestamp)
    ensures uid in EnabledIds(PutCredentials(db, uid, companyId, enc, now).credentials)
    ensures uid in EnabledIds(SetLastScraped(PutCredentials(db, uid, companyId, enc, now), uid, now).credentials)
    ensures uid !in EnabledIds(RemoveCredentials(db, uid).credentials)
  {
  }

  /** Writing `last_scraped` never changes who is enabled. */
  lemma SetLastScrapedKeepsEnabled(db: Db, uid: UserId, now: Timestamp)
    ensures EnabledIds(SetLastScraped(db, uid, now).credentials) == EnabledIds(db.credentials)
  {
    var d := SetLastScraped(db, uid, now);
    forall u | u in EnabledIds(d.credentials) ensures u in EnabledIds(db.credentials) {
      assert Lookup(d.credentials, u).Some?;
    }
  }

  /** Taking one more user out of the unscanned set adds it to the scanned enabled users if it is enabled. */
  lemma EnabledIdsStep(m: map<UserId, CredentialRecord>, rest: set<UserId>, u: UserId)
    requires u in rest && u in m
    ensures EnabledIds(m) - (rest - {u}) == (EnabledIds(m) - rest) + (if IsEnabled(m[u]) then {u} else {})
  {
  }

  type Entry = (UserId, CredentialRecord)

  function Ids(entries: seq<Entry>): set<UserId> {
    set i | 0 <= i < |entries| :: entries[i].0
  }

  lemma IdsAppend(entries: seq<Entry>, e: Entry)
    ensures Ids(entries + [e]) == Ids(entries) + {e.0}
  {
    var s := entries + [e];
    assert s[|entries|] == e;
    forall u | u in Ids(entries) ensures u in Ids(s) {
      var i :| 0 <= i < |entries| && entries[i].0 == u;
      assert s[i] == entries[i];
    }
  }

  predicate DistinctIds(entries: seq<Entry>) {
    forall i, j :: 0 <= i < j < |entries| ==> entries[i].0 != entries[j].0
  }

  lemma DistinctAppend(entries: seq<Entry>, e: Entry)
    requires DistinctIds(entries) && e.0 !in Ids(entries)
    ensures DistinctIds(entries + [e])
  {
    var s := entries + [e];
    forall i, j | 0 <= i < j < |s| ensures s[i].0 != s[j].0 {
      if j == |entries| {
        assert s[i] == entries[i];
      }
    }
  }

  /** A list without repeated user ids has as many ids as entries. */
  lemma {:induction false} DistinctIdsCount(entries: seq<Entry>)
    requires DistinctIds(entries)
    ensures |Ids(entries)| == |entries|
  {
    if entries != [] {
      var n := |entries| - 1;
      var front := entries[..n];
      DistinctIdsCount(front);
      assert entries == front + [entries[n]];
      IdsAppend(front, entries[n]);
      assert entries[n].0 !in Ids(front);
    }
  }

  /** What happened to the database, in order; the scraper call is recorded too. */
  datatype Event =
    | CredentialsSaved(uid: UserId)
    | LastScrapedSet(uid: UserId)
    | CredentialsDeleted(uid: UserId)
    | ExpensesSaved(uid: UserId)
    | StatusWritten(uid: UserId, status: ScrapeStatus)
    | ScraperCalled(uid: UserId)

  /**
   * Scanning state of `GetAllEnabledUsers`: the users found so far are the
   * enabled ones among the keys already scanned, each once, with its record.
   */
  predicate Scanned(m: map<UserId, CredentialRecord>, rest: set<UserId>, users: seq<Entry>) {
    && rest <= m.Keys
    && (forall i :: 0 <= i < |users| ==> users[i].0 !in rest && Lookup(m, users[i].0) == Some(users[i].1))
    && Ids(users) == EnabledIds(m) - rest
    && DistinctIds(users)
  }

  /** Scanning one more key keeps the scanning state. */
  lemma ScanStep(m: map<UserId, CredentialRecord>, rest: set<UserId>, users: seq<Entry>, u: UserId)
    requires Scanned(m, rest, users) && u in rest
    ensures Scanned(m, rest - {u}, if IsEnabled(m[u]) then users + [(u, m[u])] else users)
  {
    EnabledIdsStep(m, rest, u);
    if IsEnabled(m[u]) {
      IdsAppend(users, (u, m[u]));
      DistinctAppend(users, (u, m[u]));
      var users' := users + [(u, m[u])];
      forall i | 0 <= i < |users'| ensures users'[i].0 !in rest - {u} && Lookup(m, users'[i].0) == Some(users'[i].1) {
        if i < |users| {
          assert users'[i] == users[i];
        }
      }
    }
  }

  class Store {
    var credentials: map<UserId, CredentialRecord>
    var expenses: map<UserId, ExpensesRecord>
    var status: map<UserId, StatusRecord>
    /** Every write and scraper call so far, oldest first. */
    ghost var log: seq<Event>

    function Snapshot(): Db
      reads this
    {
      Db(credentials, expenses, status)
    }

    constructor ()
      ensures Snapshot() == Db(map[], map[], map[]) && log == []
    {
      credentials, expenses, status := map[], map[], map[];
      log := [];
    }

    method SaveUserCredentials(uid: UserId, companyId: string, enc: Encryption.EncryptedCredentials, now: Timestamp)
      modifies this
      ensures Snapshot() == PutCredentials(old(Snapshot()), uid, companyId, enc, now)
      ensures log == old(log) + [CredentialsSaved(uid)]
    {
      credentials := credentials[uid := CredentialRecord(Some(companyId), Some(enc), Some(true), Some(now), None)];
      log := log + [CredentialsSaved(uid)];
    }

    method GetUserCredentials(uid: UserId) returns (r: Option<CredentialRecord>)
      ensures r == Lookup(credentials, uid)
    {
      if uid in credentials {
        r := Some(credentials[uid]);
      } else {
        r := None;
      }
    }

    /** Scan every credential record and keep the enabled ones, each once. */
    method GetAllEnabledUsers() returns (users: seq<Entry>)
      ensures DistinctIds(users)
      ensures Ids(users) == EnabledIds(credentials)
      ensures forall i :: 0 <= i < |users| ==> Lookup(credentials, users[i].0) == Some(users[i].1)
      ensures |users| == |EnabledIds(credentials)|
    {
      var allUsers := credentials;
      users := [];
      var rest := allUsers.Keys;
      while rest != {}
        invariant Scanned(allUsers, rest, users)
        decreases rest
      {
        var u :| u in rest;
        ScanStep(allUsers, rest, users, u);
        if IsEnabled(allUsers[u]) {
          users := users + [(u, allUsers[u])];
        }
        rest := rest - {u};
      }
      DistinctIdsCount(users);
    }

    method UpdateLastScraped(uid: UserId, now: Timestamp)
      modifies this
      ensures Snapshot() == SetLastScraped(old(Snapshot()), uid, now)
      ensures log == old(log) + [LastScrapedSet(uid)]
    {
      var r := if uid in credentials then credentials[uid] else NoFields;
      credentials := credentials[uid := r.(lastScraped := Some(now))];
      log := log + [LastScrapedSet(uid)];
    }

    method DeleteUserCredentials(uid: UserId)
      modifies this
      ensures Snapshot() == RemoveCredentials(old(Snapshot()), uid)
      ensures log == old(log) + [CredentialsDeleted(uid)]
    {
      credentials := credentials - {uid};
      log := log + [CredentialsDeleted(uid)];
    }

    method SaveScrapedExpenses(uid: UserId, data: ScraperReply, now: Timestamp)
      modifies this
      ensures Snapshot() == PutExpenses(old(Snapshot()), uid, data, now)
      ensures log == old(log) + [ExpensesSaved(uid)]
    {
      expenses := expenses[uid := ExpensesRecord(now, data)];
      log := log + [ExpensesSaved(uid)];
    }

    method UpdateScraperStatus(uid: UserId, st: ScrapeStatus, message: Option<string>, now: Timestamp)
      modifies this
      ensures Snapshot() == PutStatus(old(Snapshot()), uid, st, message, now)
      ensures log == old(log) + [StatusWritten(uid, st)]
    {
      status := status[uid := StatusRecord(st, now, message, true)];
      log := log + [StatusWritten(uid, st)];
    }

    /** Note in the log that the scraper service was called for `uid`; no data changes. */
    ghost method RecordScraperCall(uid: UserId)
      modifies this
      ensures Snapshot() == old(Snapshot())
      ensures log == old(log) + [ScraperCalled(uid)]
    {
      log := log + [ScraperCalled(uid)];
    }
  }
}
