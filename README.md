# Open banking backend: a verified model of the credential service

The service lets a user of a budgeting app hand over the login
credentials of a bank or card company once. The service then pulls that user's
transactions from a separate scraper service, right away and then on a daily
schedule. It has four parts:

- **Credential encryption** (`encryption.py`):
  - credentials are serialised to JSON and sealed with AES-GCM under a 12-byte
    random nonce;
  - both the ciphertext and the nonce are stored as standard Base64 (section 4
    of RFC 4648);
  - the key comes from `ENCRYPTION_KEY`. It is Base64-decoded when the text is
    valid Base64; otherwise the UTF-8 bytes of the text are cut or zero-padded
    to 32 bytes, as a development fallback.
- **The realtime database** (`firebase_client.py`), which holds three trees
  keyed by user id:
  - `user_credentials`: company, encrypted credentials, enabled flag, creation
    time and last scrape;
  - `scraped_expenses`: the scraper's last successful reply;
  - `scraper_status`: status, time, error message.
- **Request handlers** (`app.py`):
  - `submit_credentials` runs an ordered cascade of checks, then encrypts,
    saves, marks the user pending and scrapes once. It reports success even
    when that scrape fails.
  - `scrape_job`, the scheduler-only batch, scrapes every enabled user and
    returns a summary with counters.
  - `trigger_scrape` turns the scraper's answer into database writes and a
    result.
  - `get_status` lets a user read their own record.
- **Configuration** (`config.py`): the encryption key and the scheduler secret.

The model is one Dafny module per concern:

| module | file | what it holds |
|---|---|---|
| `Wrappers` | `wrappers.dfy` | `Option` and `Result` |
| `Base64` | `base64.dfy` | RFC 4648 section 4 encoding and strict decoding, with the round trip |
| `Text` | `text.dfy` | UTF-8 encoding of strings, decimal rendering, `str.replace(pat, '')` |
| `AppConfig` | `config.dfy` | the configuration values and their defaults |
| `Encryption` | `encryption.dfy` | key derivation, encrypt, decrypt, key generation: pure functions over an abstract cipher and serialiser |
| `FirebaseStore` | `store.dfy` | the three trees as a `Db` value with pure transition functions, and the `Store` class whose methods update its three map fields in place |
| `Validation` | `validation.dfy` | the company field table and the submission checks |
| `App` | `app.dfy` | the handlers as methods on a `Store`, each proved against a function giving its effect on the `Db` |

### Collaborators are parameters

These are passed in as a `Services` value:

- **AES-GCM**: `Aead`, a pair of `seal` and `open`.
  - Its only assumption is `SoundAead`: with a 16, 24 or 32-byte key and a
    12-byte nonce, `open` inverts `seal`.
- **JSON**: `Codec`, a pair of `dump` and `load`.
  - Its only assumption is `SoundCodec`: `load` inverts `dump`.
- **Token verification**: a function from token to user id or error text.
- **The scraper service**: a function from user id and request to a
  `ScrapeOutcome`, which is one of:
  - an HTTP status and reply;
  - a timeout;
  - any other exception, with its text.

### Other inputs are parameters too

- the random nonce and the random key bytes;
- the current time (one timestamp per request);
- the 30-day start date of the batch job.

### The ghost write log

The `Store` keeps a ghost `log` of the writes and scraper calls in the order
they happen, so the methods also pin down the order of writes.

### Properties proved

- **Base64:** `Decode(Encode(b)) == Some(b)` for every byte string.
- **Key generation:** a generated key is read back as exactly the 32 random
  bytes.
- **Encryption round trip:** credentials that were encrypted decrypt back
  unchanged, given only the two soundness assumptions.
- **Key errors:**
  - the key is an error exactly when it is empty;
  - a key that is the Base64 encoding of a byte string that is not 16, 24
    or 32 bytes long is used as decoded, not padded to 32 bytes, and every
    encryption then fails with `UnsupportedKeySize`. `password1234`, for
    example, decodes to 9 bytes.
- **Validation:**
  - a submission passes exactly when all six checks pass;
  - a rejection names the first check that fails;
  - a missing-field rejection names the first missing field in the table's
    order.
- **Submitting credentials:**
  - a rejected or unencryptable submission writes nothing;
  - an accepted one stores a record whose credentials decrypt to what was
    submitted;
  - it is answered with success whatever the scrape outcome;
  - it is answered 401 exactly when body, fields and consent pass and the
    token does not verify, with the verifier's text; 500 exactly when it is
    valid but cannot be encrypted; and 400 for every other rejection;
  - under the default configuration, whose key is empty, no submission is
    ever stored and no stored credentials can be decrypted.
- **One scrape:**
  - it writes its status exactly once;
  - `success` is written exactly when the scraper answered 200 with a true
    `success` member;
  - only a successful scrape writes expenses and `last_scraped`.
- **The batch job:**
  - it refuses callers without the scheduler secret and leaves the database
    untouched;
  - otherwise it visits each enabled user exactly once;
  - the counters satisfy `processed == number of enabled users`,
    `success + failed == processed` and `len(errors) == failed`;
  - no user's entry affects another user's data.
- **Status query:**
  - it answers only for the token's own user;
  - it shows exactly that user's record fields, with their defaults.

## Model

| member | source | states |
|---|---|---|
| Base64.Decode | encryption.py:19 | strict decoding yields bytes only for text whose length is a multiple of four; the empty text decodes to no bytes |
| Base64.DecodeStrict | encryption.py:19 | text that decodes has every character other than `=` in the alphabet, and `=` only among its last two characters |
| Base64.EncodeLength | encryption.py:48-49 | the encoding has four characters per started group of three bytes |
| Base64.DecodeEncode | encryption.py:67-68 | decoding what was encoded gives back exactly the original bytes |
| Text.Utf8Length | encryption.py:22 | a string's UTF-8 encoding has between one and four bytes per character |
| Text.Utf8Ascii | encryption.py:22 | an ASCII key encodes to one byte per character, equal to the character's code |
| Text.Decimal | app.py:343 | the rendering is a string of digits without a leading zero that denotes the status code, preceded by a minus sign exactly when the code is negative |
| Text.NatDigitsValue | app.py:343 | the rendered digits denote the status code again |
| Text.RemoveAllAbsent | app.py:247 | removing a pattern from a string that does not contain it changes nothing |
| Text.RemoveAllPrefix | app.py:247 | removing "Bearer " from "Bearer " followed by a token free of it leaves just the token |
| Encryption.DevKey | encryption.py:22 | the fallback key is exactly 32 bytes: the UTF-8 bytes of the text as far as they go, then zero bytes |
| Encryption.DevKeyOfText | encryption.py:22 | an ASCII text of at most 32 characters gives its character codes followed by zero bytes; a text of at least 32 characters gives the first 32 bytes of its UTF-8 form, unpadded |
| Encryption.GetEncryptionKey | encryption.py:12-22 | an error exactly when the configured key is empty; a key that is valid Base64 gives its decoded bytes, any other key gives the 32-byte fallback |
| Encryption.CipherKey | encryption.py:35-36 | the key is usable exactly when it is derived and has 16, 24 or 32 bytes; otherwise the error is the missing-key error for an empty key, and the size error carrying the byte count for a derived key of another length |
| Encryption.EncryptCredentials | encryption.py:25-50 | succeeds exactly when the key is usable, else carries the key error; the nonce field is the Base64 of the 12-byte nonce and the data field is the Base64 of the ciphertext sealed under that key and nonce |
| Encryption.DecryptCredentials | encryption.py:53-73 | a key error is reported as such; a field that is not Base64 gives the padding error; a ciphertext that does not authenticate under the decoded nonce gives the authentication error; a plaintext that does not load gives the JSON error; otherwise the result is the loaded dictionary |
| Encryption.DecryptEncrypt | encryption.py:25-73 | with a cipher and serialiser that invert themselves, decrypting the encryption of any credentials gives back exactly those credentials |
| Encryption.GenerateEncryptionKey | encryption.py:76-79 | a key generated from 32 random bytes is read back by the key derivation as exactly those bytes, and is usable |
| Encryption.Base64KeyIsNotPadded | encryption.py:18-22 | a key that is the Base64 encoding of a non-empty byte string whose length is not 16, 24 or 32 is taken as decoded, not padded to 32 bytes, so every encryption under it fails with the key-size error |
| FirebaseStore.PutCredentials | firebase_client.py:55-72 | the user's record becomes company, encrypted credentials, enabled, created now, never scraped; every other record and both other trees are unchanged |
| FirebaseStore.SetLastScraped | firebase_client.py:110-114 | only the user's `last_scraped` is set (a record is created if none exists); everything else is unchanged |
| FirebaseStore.RemoveCredentials | firebase_client.py:117-122 | the user no longer has a record; all else is unchanged |
| FirebaseStore.PutExpenses | firebase_client.py:125-139 | the user's expenses become the reply with the time of the write; all else is unchanged |
| FirebaseStore.PutStatus | firebase_client.py:142-158 | the user's status document becomes the status, time, message and has_credentials true; all else is unchanged |
| FirebaseStore.EnabledAfterWrites | firebase_client.py:66-71 | a saved user is enabled and stays enabled after `last_scraped` is written; a deleted user is not enabled |
| FirebaseStore.SetLastScrapedKeepsEnabled | firebase_client.py:110-114 | writing `last_scraped` never changes which users are enabled |
| FirebaseStore.Store.SaveUserCredentials | firebase_client.py:55-72 | the database becomes `PutCredentials` of the old one and the write is logged |
| FirebaseStore.Store.GetUserCredentials | firebase_client.py:76-88 | returns the user's record, or none when there is none |
| FirebaseStore.Store.GetAllEnabledUsers | firebase_client.py:91-107 | returns each enabled user exactly once, with its stored record, and no other user |
| FirebaseStore.Store.UpdateLastScraped | firebase_client.py:110-114 | the database becomes `SetLastScraped` of the old one and the write is logged |
| FirebaseStore.Store.DeleteUserCredentials | firebase_client.py:117-122 | the database becomes `RemoveCredentials` of the old one and the write is logged |
| FirebaseStore.Store.SaveScrapedExpenses | firebase_client.py:125-139 | the database becomes `PutExpenses` of the old one and the write is logged |
| FirebaseStore.Store.UpdateScraperStatus | firebase_client.py:142-158 | the database becomes `PutStatus` of the old one and the write is logged with its status |
| Validation.FirstMissing | app.py:141-144 | no position exactly when every field is given; otherwise the position of a missing field before which every field is given |
| Validation.ValidateSubmission | app.py:113-144 | accepted exactly when all six checks pass, yielding the verified user, company, credentials and start date; a rejection is raised by a failing check, all of whose predecessors pass; a token rejection carries the verifier's own error text and a company rejection the submitted company id |
| Validation.MissingFieldIsFirst | app.py:141-144 | a missing-field rejection names the first field of the company's list that is absent or empty |
| App.Resolve | app.py:342-369 | a scrape succeeds exactly when the scraper answered 200 with a true `success`; each failure carries the message of its branch |
| App.ScrapeEffect | app.py:342-369 | the status is written once, as success exactly when the scrape succeeded; only a success saves the reply and sets `last_scraped`; other users are untouched |
| App.ScrapeEvents | app.py:342-369 | a scrape calls the scraper first and writes exactly one status, last, as success exactly when it succeeded; it saves expenses exactly when it succeeded |
| App.TriggerScrape | app.py:312-369 | the result and the new database are those of the scraper's outcome; the scraper is called first and the status write comes last |
| App.SubmitCredentials | app.py:92-173 | the new database and the response are those of `SubmitEffect`: nothing written on a rejection or encryption error, else save, pending, scrape in that order |
| App.SubmitRejected | app.py:110-144 | a submission is rejected exactly when validation fails, with validation's rejection, and a submission that is not accepted changes nothing |
| App.SubmitAccepted | app.py:146-169 | a valid submission with a usable key is accepted whatever the scrape does; the stored record is enabled, created now, scraped now exactly when the scrape succeeded, and its credentials decrypt to those submitted |
| App.SubmitReply | app.py:113-173 | a submission is answered 200 with success exactly when it is accepted; 401 exactly when body, fields and consent pass and the token does not verify; 500 exactly when it is valid but the key is unusable; 400 for every other rejection, with that rejection's text. An accepted answer carries the success or retry message of its scrape's result, and a scrape error exactly when the scrape failed |
| App.DefaultKeyRefusesSubmissions | encryption.py:14-16 | under the default configuration, whose key is empty, every valid submission is answered with the internal error and stores nothing |
| App.EntryEffect | app.py:203-233 | an entry without credentials or company writes nothing, and an entry touches only its own user |
| App.DefaultKeyFailsEntries | app.py:230-233 | under the default configuration every complete batch entry fails with the missing-key text |
| App.ScrapeEntry | app.py:200-233 | one pass of the batch loop counts the entry as in `Count` and makes exactly the writes of `EntryEffect` |
| App.TallyCounts | app.py:193-232 | every entry is processed once and counted as either a success or a failure, and each failure adds one error line |
| App.BatchIsolation | app.py:200-233 | after a batch over distinct users, each user's data is what that user's own entry alone makes of it; users without an entry are untouched |
| App.ScrapeJob | app.py:176-240 | refuses a caller without the scheduler secret and changes nothing; otherwise visits each enabled user exactly once, answers the tally of the entries, and its counters satisfy processed = enabled users, success + failed = processed, errors = failed |
| App.BearerHeaderToken | app.py:247 | a header "Bearer t", where t does not contain "Bearer ", carries the token t |
| App.GetStatus | app.py:243-268 | missing token 401, invalid token 401 with the verifier's text, another user's token 403; the fields are shown exactly when the token verifies to the requested user, and they are that user's record fields |
| App.ViewAfterWrites | app.py:263-268 | after saving, the status shows the company, enabled and never scraped; after a successful scrape, the scrape time; after deleting, no credentials |

## Left out

- The `delete_credentials` route (app.py:275-309) is not modelled. The store
  operation it uses, `delete_user_credentials`, is modelled.
- Not modelled: `index`, `health`, and the page templates;
  `COMPANY_DISPLAY_NAMES`, which is only displayed; Flask, CORS and logging.
  None of them holds rules.
- `init_firebase` and its `_initialized` flag are not modelled: connection
  set-up is I/O.
- Not modelled: reading the environment, the random nonce and key bytes, the
  clock, the HTTP call to the scraper and the token check. They are parameters.
  Each request uses a single timestamp for all of its writes.
- AES-GCM and JSON are abstract (`Aead`, `Codec`). The only facts known about
  them are that they invert themselves.
- Texts of library exceptions are approximated by `Encryption.Describe`.
  Examples are "Incorrect padding" for bad Base64 and "Invalid JSON" for a
  plaintext that is not JSON. A failed authentication has an empty text,
  as `InvalidTag` has.
- Failures of database writes are not modelled. Neither are the catch-all 500
  answers of `scrape_job` and `get_status` that they would cause, nor a
  `trigger_scrape` that fails part-way through its writes. The store always
  succeeds.
- JSON members are modelled only with the types the service expects:
  - a string token and company;
  - a string-to-string credential dictionary;
  - a boolean `consent`;
  - a stored record whose `credentials` member, when present, has both fields.

  Other types, and Python's truthiness on them, are not modelled.
- Base64.Decode: decoding is strict, per RFC 4648 section 4, and Python's
  default `b64decode` is lenient in ways the model does not follow:
  - it discards characters outside the alphabet. The key `my-dev-key-1234`
    gets the 32-byte fallback in the model, but Python decodes it to 9 bytes,
    which the cipher then refuses;
  - it stops at the first complete padded group and ignores what follows.
    The model rejects `QQ==QUJD`, which Python decodes to one byte;
  - it ignores a `=` that comes too early.

  Keys and stored fields with such text are therefore read differently.
  Like Python, the model does not check the unused bits before padding.
- FirebaseStore.Store.GetAllEnabledUsers: the order of the returned list is
  left unspecified. The source returns dictionary order.
- Text.Utf8Length: Dafny strings cannot hold lone surrogates, so the case in
  which Python's `encode()` raises cannot occur.
- A `scrape_job` start date is a parameter. The model does not derive it as
  today minus 30 days.
- Concurrency is not modelled. Requests are taken one at a time.
