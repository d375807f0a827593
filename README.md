# Bluefone AI phone: a Dafny model of the IVR core

Bluefone AI phone is the voice front desk of a small retail chain. Each store is a tenant. A
spreadsheet with four worksheets configures a tenant:

- `settings`, key/value;
- `schedule`, one row per weekday rule;
- `prompts`, key/text;
- `repair_scope`, key/value.

When a customer calls a store's number, the service works in four steps:

1. It resolves the tenant and reads its configuration through a three-minute cache.
2. It decides from manual mode or the weekly schedule whether the store is open.
3. It answers with TwiML:
   - open: a main menu (1 = repairs, 2 = accessories, 3 = hours);
   - closed: a voicemail or hang-up message.
4. It remembers what it learnt about the call in a one-hour session cache.

When a voicemail recording is complete, a background job runs four steps:

1. It parses the tenant's recipients.
2. It transcribes and summarises the recording when an OpenAI key is configured.
3. It composes a report e-mail.
4. It delivers the report through SendGrid, or appends it to `emails.log`.

Operations endpoints warm and clear the configuration cache and report uptime, call counters and
backend health.

The model is split into one module per source file, plus three runtime modules:

- `Common`: Python strings: `strip`, `split`, `join`, `upper`, `str(None)` and truthiness.
- `Dicts`: insertion-ordered Python dicts.
- `Ttl`: the TTL cache both module-level caches are built on.

The source files map to these modules:

- `Sheets` and `TenantCache`: `app/services/sheet_service.py`.
- `Voice`: `app/services/voice_service.py`.
- `Calls`: `app/api/routes.py`. The server is a class. Its fields are the two caches and the call
  counters; its methods are the webhooks.
- `Internal`: `app/api/internal.py`.
- `Processing`: `app/services/processing_service.py`.
- `Email`: `app/services/email_service.py`. The log file is a class whose record list only grows.

The source's state changes become methods over these classes: the caches, the counters and the log
file. The pure logic becomes functions, with lemmas about them. Loops that the code runs step by
step become `while`/`for` loops with invariants, each proved equal to a specification function:

- the normalisation loops;
- the context aliasing;
- the warm-up loop;
- the AI stage's reassignments.

Everything outside the process is an input:

- the spreadsheet and CSV backends;
- the credentials outcome;
- the OpenAI and SendGrid calls;
- `str.format`;
- the clock, the weekday and the time of day;
- whether `emails.log` can be opened.

Every memoised configuration read states its effect on the configuration cache through one
predicate, `TenantCache.ReadThrough`: the cache is unchanged on a live entry or a raise, and
otherwise takes one insertion of the loaded configuration. The call handlers, the background job
and the warm-up use it.

## Model

| member | source | states |
|---|---|---|
| Common.IsTrueTextIff | app/services/sheet_service.py:157-159 | a cell passes `str(c).upper() == "TRUE"` exactly when it is "true" in some letter case; None and "" never pass |
| Dicts.PutAll | app/services/sheet_service.py:124-125 | assigning pairs in order: the last pair for a key wins, and a key no pair names keeps its value |
| Dicts.Update | app/services/voice_service.py:21-22 | `d.update(e)`: every key of e takes e's value, every other key keeps d's |
| Dicts.Put | app/services/voice_service.py:24-25 | `d[k] = v` sets k, leaves every other key alone, and appends k to the order only when it is new |
| Ttl.ReadBackWithinTtl | app/services/sheet_service.py:15 | an entry just written is read back until its time to live ends, and is gone from then on |
| Ttl.OtherKeysKept | app/api/routes.py:12 | writing one key leaves every other key readable as before, unless writing a new key into a full cache evicted it |
| Ttl.TtlCache.constructor | app/api/routes.py:12 | a new cache is empty and has the given, positive, capacity and time to live |
| Ttl.TtlCache.Size | app/api/internal.py:76 | `len(cache)` at a time is the number of entries still live then, and never exceeds the capacity |
| Ttl.TtlCache.Insert | app/api/routes.py:24 | the write purges expired entries, evicts one live entry only when a new key meets a full cache, and stores the key for `ttl` seconds |
| Ttl.TtlCache.Clear | app/api/internal.py:106 | the cache is empty afterwards |
| Sheets.ResolveTenant | app/services/sheet_service.py:54-66 | the tenant is the mapped tenant of the stripped number when that tenant is non-empty; otherwise it is the default tenant; it is never "" |
| Sheets.ResolveIgnoresSurroundingSpace | app/services/sheet_service.py:57 | whitespace around the dialled number never changes the tenant |
| Sheets.Fold | app/services/sheet_service.py:123-125 | every key of the folded table is the key column of some row |
| Sheets.FoldLastWriteWins | app/services/sheet_service.py:123-125 | the value under a key is the value column of the last row carrying that key |
| Sheets.FoldHasKey | app/services/sheet_service.py:123-125 | a key is present exactly when some row carries it; a row without a key column contributes the key None |
| Sheets.FoldRows | app/services/sheet_service.py:123-125 | the row-by-row assignment loop builds exactly the folded table |
| Sheets.Normalized | app/services/sheet_service.py:128 | the schedule is the row list unchanged |
| Sheets.NormalizeConfig | app/services/sheet_service.py:119-145 | the three loops and the schedule give the normalised configuration: settings and repair scope from `value`, prompts from `text` |
| Sheets.FlagDefaults | app/services/sheet_service.py:157-159 | an absent flag takes its default; a present one is TRUE exactly when its text reads "true", so a malformed value is false whatever the default |
| Sheets.FirstRule | app/services/sheet_service.py:184 | the index found is a rule for the day, and no earlier row is one; None means no row is one |
| Sheets.ParseHourMinute | app/services/sheet_service.py:201-202 | a parsed `%H:%M` is a whole minute within the day |
| Sheets.ParseHourMinuteRoundTrip | app/services/sheet_service.py:201-202 | every zero-padded HH:MM parses back to its hour and minute |
| Sheets.EmptyTimeDoesNotParse | app/services/sheet_service.py:201-202 | "", None, "24:00", "9:60" and a trailing space do not parse |
| Sheets.WithinWindow | app/services/sheet_service.py:195-209 | a present start or end that does not parse gives the fallback; with both present and parsed, open exactly from start to end inclusive; each absent field takes its own default, so an absent start opens at midnight and an absent end closes at 23:59:00 whatever the other field holds |
| Sheets.IsStoreOpen | app/services/sheet_service.py:147-209 | in manual mode the answer is `manual_enabled`; outside it the store is open only with no rule for the day or with a first rule that is enabled |
| Sheets.ManualOverride | app/services/sheet_service.py:157-162 | in manual mode the answer is `manual_enabled`, whatever the schedule |
| Sheets.FirstRuleDecides | app/services/sheet_service.py:183-206 | outside manual mode the first rule for the day decides: a disabled rule means closed, otherwise the window test applies |
| Sheets.NoRuleGivesDefault | app/services/sheet_service.py:186-187 | with no rule for the day the answer is `default_enabled` |
| Sheets.LaterRulesIgnored | app/services/sheet_service.py:184 | rules for the day after the first one never change the answer |
| Sheets.WindowInclusive | app/services/sheet_service.py:204-206 | open exactly from start to end inclusive; a start after the end closes the day; half a minute past the end is closed |
| Sheets.UnparsableWindowFallsBack | app/services/sheet_service.py:207-209 | a start or end that is present but does not parse gives `default_enabled` |
| Sheets.DefaultWindow | app/services/sheet_service.py:195-196 | one-sided defaults: a rule from "09:00" with no end is open at 20:00 and at 23:59:00, closed at 23:59:01 and 08:00; a rule up to "12:00" with no start is open at midnight |
| TenantCache.SpreadsheetId | app/services/sheet_service.py:79-80 | the spreadsheet id is used exactly when the tenant map gives a non-empty one |
| TenantCache.LoadTenantConfig | app/services/sheet_service.py:74-99 | a load raises only outside mock mode, with the client's exception; a configuration other than the CSV one needs an authorised client and a spreadsheet id |
| TenantCache.OnlyCredentialErrorsEscape | app/services/sheet_service.py:74-99 | a load raises exactly when the client raises outside mock mode, with the client's message; a tenant without a spreadsheet is no exception |
| TenantCache.ConfigComesFromOneSource | app/services/sheet_service.py:74-99 | a loaded configuration comes from the CSV, or from the tenant's fetched spreadsheet when there is an authorised client and an id |
| TenantCache.FallbacksGiveCsv | app/services/sheet_service.py:74-99 | mock mode, a missing client and a failed fetch each give the CSV configuration |
| TenantCache.ConfigAt | app/services/sheet_service.py:68-69 | a read with a live entry never raises; without one the read is one uncached load |
| TenantCache.GetTenantConfig | app/services/sheet_service.py:68-69 | a live entry is returned without loading and the cache is left as it was; otherwise the load's result is returned and stored only when it did not raise; the new cache is `ReadThrough` of the old |
| TenantCache.ReadThroughLive | app/services/sheet_service.py:68-69 | right after a read that did not raise, the tenant's live entry holds what was returned; a raising read left the cache as it was |
| TenantCache.ReadThroughRepeat | app/services/sheet_service.py:15 | after a read without a live entry, every read of the tenant within the time to live gives the same result: the stored configuration, or the same exception |
| TenantCache.RepeatWithinTtl | app/services/sheet_service.py:15 | a second read within the time to live of a fresh load loads nothing and returns the same configuration; after a raise the second read loads again |
| Voice.LayeredEntries | app/services/voice_service.py:20-22 | in the merged dict, repair scope overrides settings on a shared key |
| Voice.MergedEntries | app/services/voice_service.py:18-25 | every key other than the two aliases holds its repair-scope or settings value; STORE_NAME and ADDRESS_LINE copy store_name and address_line, with "" when absent |
| Voice.MergedOthers | app/services/voice_service.py:20-25 | adding the two aliases leaves every other key as layered |
| Voice.MergedStoreName | app/services/voice_service.py:24 | STORE_NAME is store_name's layered value, or "" |
| Voice.MergedAddressLine | app/services/voice_service.py:25 | ADDRESS_LINE is address_line's layered value, or "" |
| Voice.AliasedEntries | app/services/voice_service.py:29-31 | aliasing raises exactly when a key is None; otherwise every key is present both as it is and upper-cased, and a colliding upper-case alias wins with the value of the last entry that upper-cases to it |
| Voice.AliasedDict | app/services/voice_service.py:29-31 | for the items of any dict, aliasing raises exactly when None is a key, and otherwise holds every key under both names |
| Voice.ContextOf | app/services/voice_service.py:18-31 | the context is None exactly when the merged dict has a None key; otherwise it holds STORE_NAME and ADDRESS_LINE |
| Voice.ContextEntries | app/services/voice_service.py:18-31 | building the context raises exactly when the merged dict has a None key; otherwise each of its keys is present under both names |
| Voice.AddAliases | app/services/voice_service.py:29-31 | the aliasing loop computes exactly the aliased context, None when a key is None |
| Voice.BuildContext | app/services/voice_service.py:18-31 | the step-by-step build gives exactly the context of the configuration |
| Voice.Prompt | app/services/voice_service.py:6-16 | a missing prompt is ""; the answer is None only when the stored prompt cell is None |
| Voice.PromptFallbacks | app/services/voice_service.py:6-16 | a missing prompt is ""; without a non-empty context or text the raw text is returned; a failed format returns the raw text; a format that succeeds on a non-empty context and text gives exactly the formatted text |
| Voice.IncomingAnswer | app/services/voice_service.py:33-68 | the incoming-call answer hands the call on, and is a server error exactly when the context raises |
| Voice.MenuAnswer | app/services/voice_service.py:70-102 | the menu answer hands the call on, and is a server error exactly when the context raises |
| Voice.NoInputAnswer | app/services/voice_service.py:104-110 | the no-input answer hands the call on, and is a server error exactly when the context raises |
| Voice.ThankYouAnswer | app/services/voice_service.py:112-121 | the thank-you answer is a TwiML document that hands the call on |
| Voice.IncomingResponse | app/services/voice_service.py:33-68 | the answer is Voice.IncomingAnswer; it raises exactly when the context does; closed with off_mode "voicemail": the prompt and a 60 s recording; closed otherwise: the prompt and a hang-up; open: intro and scope, a one-digit gather to /voice/menu, and a redirect to /voice/no-input |
| Voice.MenuResponse | app/services/voice_service.py:70-102 | the answer is Voice.MenuAnswer; "1": a 120 s recording; "2": a 90 s recording; "3": the hours prompt with HOURS, then a hang-up; anything else: the invalid prompt, then a hang-up; it raises exactly when the context does |
| Voice.NoInputResponse | app/services/voice_service.py:104-110 | the answer is Voice.NoInputAnswer: the no-input prompt and a hang-up; it raises exactly when the context does |
| Voice.ThankYouResponse | app/services/voice_service.py:112-121 | the answer is Voice.ThankYouAnswer: the configured thanks when it is non-empty, else the fixed text; then a hang-up; it never raises |
| Email.Rule | app/services/email_service.py:61 | the delimiter is 50 '=' characters |
| Email.RecordText | app/services/email_service.py:57-65 | a log record starts with a line break and the delimiter and ends with the delimiter and a line break |
| Email.RecordLines | app/services/email_service.py:57-65 | read line by line, a log record is an empty line, the delimiter, TO, SUBJECT, BODY:, the body's lines, the delimiter, and an empty last line |
| Email.Appended | app/services/email_service.py:6-55 | no record without recipients or when the file cannot be opened; without a SendGrid key always one; with a key, one exactly when SendGrid raised or answered 400 or more |
| Email.MailLog.Write | app/services/email_service.py:57-68 | a record is appended when the file opens, and nothing changes otherwise |
| Email.TextsAppend | app/services/email_service.py:60 | appending records appends their text: the file only grows at its end |
| Email.SendReport | app/services/email_service.py:6-22 | the log grows by exactly the records of `Appended`; the delivery is NoRecipients exactly without recipients, SendGrid exactly when it accepted, and the log exactly when a record was written |
| Processing.Cleaned | app/services/processing_service.py:31 | filtering blank parts never adds parts |
| Processing.CleanedStripped | app/services/processing_service.py:31 | every kept part is non-empty and stripped |
| Processing.CleanedKeepsOut | app/services/processing_service.py:31 | a character absent from all parts is absent from every kept part |
| Processing.StripKeepsOut | app/services/processing_service.py:31 | stripping never introduces a character |
| Processing.ParseRecipients | app/services/processing_service.py:31 | every recipient is non-empty, stripped and comma-free |
| Processing.ParseJoined | app/services/processing_service.py:31 | recipients written as ", ".join(rs) parse back to rs; "" gives no recipients |
| Processing.Stages | app/services/processing_service.py:46-67 | placeholders without a key; a raised call gives the error texts; an empty transcript or one starting with "Error" is not summarised; otherwise the summary is GPT's |
| Processing.ServiceErrorsNotSummarised | app/services/processing_service.py:56 | the transcription service's "Error downloading audio" and "Error during transcription" texts, and "", keep the placeholder summary |
| Processing.Analyse | app/services/processing_service.py:46-67 | the reassigning code computes exactly the degradation rules |
| Processing.ReportSubject | app/services/processing_service.py:70 | the subject starts with the store, " Call \| Menu " and the menu, and ends with " \| ", the caller and " \| recording" |
| Processing.SubjectJoined | app/services/processing_service.py:70 | the subject is the store, the menu, the caller and "recording" joined by '\|' |
| Processing.SubjectFields | app/services/processing_service.py:70 | split at '\|', the subject gives back its four fields when none of them holds a '\|' |
| Processing.Bar | app/services/processing_service.py:75 | a section bar is 40 '=' characters |
| Processing.ReportBody | app/services/processing_service.py:73-99 | the body opens with the notice line and closes with the recording link, each ending in a line break |
| Processing.BodySections | app/services/processing_service.py:73-99 | read line by line, the body is the details with the time zone next to the time, then the summary's lines, the transcript's lines and the recording link, in that order |
| Processing.ProcessRecording | app/services/processing_service.py:9-103 | the job ends at a raising config, a None recipients setting or no recipients, and then sends nothing; otherwise one report goes to the parsed recipients, with the composed subject and body and the AI-stage results; the configuration cache takes one memoised read |
| Calls.Merge | app/api/routes.py:22-23 | the update's keys take its values and the session's other keys keep theirs |
| Calls.MenuName | app/api/routes.py:70-71 | "1", "2" and "3" map to repair, accessory and hours, each exactly; any other input maps to invalid(digits) |
| Calls.MenuNameInjective | app/api/routes.py:70-71 | the stored name identifies the digit |
| Calls.MenuSelection | app/api/routes.py:120-121 | the stored menu selection, None included, and "unknown" only when none was stored |
| Calls.Server.constructor | app/api/routes.py:12 | the caches start empty with one hour / 1000 sessions and 180 s / 100 configurations; the counters start at zero |
| Calls.Server.CallContext | app/api/routes.py:14-16 | the live session of the call, or an empty one |
| Calls.Server.UpdateCallContext | app/api/routes.py:18-25 | without a call id nothing changes; otherwise the live session, merged with the update, is written back for another hour |
| Calls.Server.Config | app/api/routes.py:66-67 | the configuration is the cached one for the resolved tenant while it is live, a fresh load otherwise; the configuration cache takes exactly that one memoised read (`ReadThrough`) |
| Calls.Server.Incoming | app/api/routes.py:27-57 | the call is counted first; a raise stores nothing and answers with a server error; otherwise tenant, numbers, open state and menu selection ("off" when closed, None when open) are stored, and the answer is Voice.IncomingAnswer for the configuration and its open state: a server error exactly when the context raises, otherwise the TwiML that hands the call on; the configuration cache takes one memoised read |
| Calls.Server.Menu | app/api/routes.py:59-78 | a configuration that raises stores nothing and answers with a server error; otherwise the menu name and the digit are merged into the session and the answer is Voice.MenuAnswer for the digit: a server error exactly when the context raises, otherwise the TwiML that hands the call on; the configuration cache takes one memoised read |
| Calls.Server.NoInput | app/api/routes.py:80-92 | a configuration that raises stores nothing and answers with a server error; otherwise menu selection "no-input" is merged into the session and the answer is Voice.NoInputAnswer: a server error exactly when the context raises, otherwise the TwiML that hands the call on; the configuration cache takes one memoised read |
| Calls.Server.ThankYou | app/api/routes.py:94-103 | a configuration that raises gives a server error; otherwise the answer is Voice.ThankYouAnswer for the configuration; no session is written; the configuration cache takes one memoised read |
| Calls.Server.RecordingStatus | app/api/routes.py:105-133 | the background job carries the resolved tenant, the form fields and the session's menu selection |
| Calls.Server.CallStatus | app/api/routes.py:135-151 | only the call status and duration are merged into the session |
| Calls.UpdateThenRead | app/api/routes.py:18-25 | for an hour after an update, the session holds the update's values and every other field it had |
| Internal.UptimeParts | app/api/internal.py:112-114 | hours below 24, minutes below 60, and days, hours and minutes together within one minute of the uptime |
| Internal.UptimeBelowHour | app/api/internal.py:120-121 | below an hour the text is "Mm" |
| Internal.UptimeBelowDay | app/api/internal.py:118-119 | from an hour up to a day the text is "Hh Mm" |
| Internal.FormatUptime | app/api/internal.py:110-121 | the text always ends with the minutes: a digit, then "m" |
| Internal.UptimeFromDay | app/api/internal.py:116-117 | from a day on the text is "Dd Hh Mm": the days, the hours of the last day and the minutes of the last hour |
| Internal.Selected | app/api/internal.py:25-34 | a selection is never longer than the tenant list |
| Internal.SelectedPartition | app/api/internal.py:25-34 | every tenant ends up in exactly one of the two lists |
| Internal.SelectedExclusive | app/api/internal.py:25-34 | a tenant is warmed exactly when it is not among the errors |
| Internal.ConfigAtRaises | app/api/internal.py:28 | a cached read raises exactly when there is no live entry and the client raises outside mock mode, and it raises with the client's message |
| Internal.RaisedFlagsAt | app/api/internal.py:25-34 | flag i says whether reading tenant i raises |
| Internal.WarmOne | app/api/internal.py:26-34 | one read of the loop: it raises as stated, with the client's message; the cache takes one memoised read, a raising client leaves it alone, and a read that did not raise leaves the tenant live with what it returned |
| Internal.ReadsStep | app/api/internal.py:25-28 | one more memoised read extends the sequence of caches the loop goes through |
| Internal.LeftLiveStep | app/api/internal.py:25-28 | one more read that left its tenant live, unless it raised, extends the live reads |
| Internal.WarmTenants | app/api/internal.py:25-34 | warmed are the tenants whose read did not raise and errors the ones whose read did, in order, each with the client's message; the caches after each read are one memoised read apart, the last is the final cache, and each read that did not raise left its tenant live |
| Internal.WarmNext | app/api/internal.py:26-34 | one turn of the loop keeps the lists, the flags and the sequence of caches in step with one more tenant |
| Internal.Warmup | app/api/internal.py:14-43 | warmed and errors as above, over the tenant map in its order; the status is "ok" exactly when there is no error, "partial" otherwise; the cache goes through one memoised read per tenant, and each tenant read without a raise is live right after its read |
| Internal.NoErrorsExactly | app/api/internal.py:39 | the errors list is empty exactly when no read raised |
| Internal.AllWarmedWithoutErrors | app/api/internal.py:25-30 | with no raise, every tenant is warmed |
| Internal.WarmupOkExactly | app/api/internal.py:38-39 | "ok" exactly when no tenant's read raises; in mock mode, or with a client that does not raise, every tenant is warmed |
| Internal.ClearCache | app/api/internal.py:103-108 | the cache is empty, its length is 0 at every time, and the answer is ok / "Cache cleared" |
| Internal.CacheReport | app/api/internal.py:74-78 | the configured time to live, the capacity, and as current size the number of entries live at the time of the request, never more than the capacity |
| Internal.SheetsStatus | app/api/internal.py:63-71 | "mock_mode" exactly in mock mode; otherwise "connected", "no_credentials" or "error: " plus the client's message, each exactly for its client outcome |
| Internal.StatusAgreesWithWarmup | app/api/internal.py:63-71 | the status shows an error exactly when an uncached configuration read raises |
| Internal.DetailedStatus | app/api/internal.py:45-101 | "healthy", the request's timestamp, the uptime in seconds and as text, the call counters, the sheets block, the cache block with the live entries at the request's time, and each key configured exactly when it is non-empty |

## Left out

- I/O and foreign calls are inputs of the model:
  - the Google Sheets client, `open_by_key` and the worksheet reads;
  - the CSV templates on disk;
  - the OpenAI transcription and summary calls;
  - the SendGrid client;
  - the `emails.log` file beyond "can it be opened".

  The credentials logic of `get_gspread_client` (JSON versus file) is reduced to its three
  outcomes: a client, none, or a raise.
- Worksheet cells are modelled as text, or None for a short CSV row. gspread's
  `get_all_records` turns numeric-looking cells into numbers, and that conversion is not
  modelled. So three outcomes of the source cannot be expressed: a numeric prompt `key` makes
  `k.upper()` raise in `_build_context`, so the call gets a server error; a numeric
  `email_recipients` makes `.split` raise in `process_recording`; and a number such as "0712…"
  loses its leading zero in a prompt.
- `str.format` is a partial function given as a parameter; the TwiML XML, the `voice="alice"`
  attribute, and the beep and trim attributes of `record` are not modelled.
- Time zones, `pytz`, `datetime.now` and `strftime` are not modelled. The store's weekday and its
  time of day in whole seconds are inputs. The report's timestamp string is an input. The status
  report takes the clock reading, its `isoformat()` text as `timestamp`, and the text of
  `last_call_at` as inputs.
- Sheets.WithinWindow compares whole seconds. The source compares `datetime.time` values with
  microseconds, so with end "17:00" the source is closed at 17:00:00.5 while the model, given the
  floored second 17:00:00, is open. The source's `strptime` also accepts non-ASCII Unicode
  digits for `%H` and `%M`; the model accepts only ASCII digits.
- Internal.FormatUptime works on whole seconds: the source's float uptime and its fractional
  seconds are not modelled, and `int(uptime_seconds)` is the input itself.
- Internal.Warmup: every read happens at the same `now`, so a cache entry that expires while the
  loop runs is not modelled, and `elapsed_seconds` is left out. The cache after each read is
  given as a ghost sequence, because the loop itself does not keep it.
- Ttl.TtlCache.Insert: which live entry a full cache evicts is chosen freely, not by cachetools'
  expiry order. Ttl.OtherKeysKept is stated only modulo that eviction.
- Logging, the FastAPI routing and form parsing, HTTP status codes other than a server error, the
  background-task scheduling, concurrency, and `scripts/watchdog.py` are not modelled.
- Upper-casing is ASCII only: `str.upper()` changes only `a`–`z`. `str.strip()` removes the
  characters `str.isspace()` accepts, listed by code point. No other Unicode behaviour is
  modelled.
- Processing.ProcessRecording: the parameter defaults "N/A" and "unknown" are not modelled,
  because the recording callback always passes every argument. A transcript or summary that is
  None is not modelled: the AI calls return text or raise.
- Email.MailLog.Write: a write that fails half-way through the record is not modelled; the file
  gets the whole record or nothing.
- Email.SendReport: states the new record list; the file's text follows through
  Email.TextsAppend rather than in the method's own contract.
- TenantCache.RepeatWithinTtl: states the case where the first read loaded. When the first read
  was a cache hit, the second read within the time to live is not stated, because the entry's
  remaining life is not known.
