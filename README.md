# els-cli core, modelled in Dafny

els-cli is the command-line client of the Elastic Licensing (ELS) REST API.
This project models the parts of it that make decisions. It proves what they
do for every input.

- **Request retry** (`tryRequest`, `doRequest`). A request is attempted at
  most `MaxAPITries` times. The loop stops at the first attempt that gets a
  response whose status is not 429. A transport failure becomes
  `ErrAPIUnreachable` and is retried like a 429.
- **Calls** (`getInputData`, `doCall`, `doCallAndRep`). POST and PUT need a
  body source and PATCH can do without one. Other methods never look for
  one. An empty file name means the piped input.
- **Response output** (`writeResponse`). The output mode, the status code
  and the body decide which lines are written (the status line, the
  indented body, or both) and in what order. A read or indentation failure
  writes nothing.
- **Command routes** (`putVendor` … `doCommand`). Each command becomes one
  call with a method, a URL relative to the API root and a body file.
- **Infringement export** (`doGetEULALicenseInfringements`,
  `getInfringementPage`). The export follows page cursors until a page has
  an empty cursor. It gathers a header and one 10-field record per
  infringement, and writes them as one CSV document at the end. A failed
  page writes nothing.
- **Profiles** (config.go). `SetDefaults` fills zero-valued fields,
  `NewProfile` builds the defaulted zero profile, `Config.Profile` looks a
  profile up and falls back to such a new profile for an unknown ID, and
  `ReadTOML` defaults every decoded profile. `initProfile`
  selects the app's profile and applies the output override.
- **Legacy profiles** (config/config.go). The same lookup, over a map of
  profile values with a zero fallback.

The app (`ELSCLI`) is the class `ElsCli.App`. Its profile, output stream,
error stream and fatal error are fields that its methods update. Profiles in
config.go are objects (`Profiles.Profile`), because Go shares them through
pointers: the output override of `initProfile` changes the profile stored in
the configuration. Collaborators the code cannot see are parameters:

- the transport's answer to each attempt (`RequestRetry.Transport`);
- the piped input, the file system, `http.NewRequest`'s verdict,
  `json.Indent` and `json.Unmarshal` (`Calls.Env`);
- the TOML decoder's map and error (`Profiles.ReadTOML`).

A Go nil-pointer dereference (a panic) is the value `NilDereference`. It
happens in two places. When `MaxAPITries <= 0`, `doCall` returns a nil
response with a nil error, which `writeResponse` and `getInfringementPage`
then read. And `getInfringementPage` reads the body of a 200 response even
when that body is nil. A command handler that meets a panic does not call
`fatalError`: the app's `panicked` flag is set instead, and nothing reaches
the error stream. The collaborators fail only with a `GoError`, an error
that is never the panic value, so every other failure reaches `fatalError`.

Behaviour of the code that its comments and tests do not state:

- A transport failure does not end the retry loop, because
  `els_cli.go:141` stops only when `err == nil`. The failed attempt is
  retried like a 429.
- A negative `MaxAPITries` survives `SetDefaults`, because only 0 is
  replaced (`config.go:54`). Such a profile allows no attempt, so every
  call that reaches the retry loop panics.
  `Profiles.NegativeTriesSurviveDefaults` states it.
- The export writes nothing until its last page has arrived
  (`els_cli.go:461`), so an error on a later page leaves no partial CSV.

The tests in config_test.go disagree with config.go in three places. They
build the profile map from values where config.go stores pointers; they
expect `NewProfile` without `APITimeoutSecs = 30`, and they expect
`ReadTOML` to return profiles without defaults. config.go sets both
(`config.go:62-64`, `config.go:99-101`), and the model follows config.go.

## Model

| member | source | states |
|---|---|---|
| RequestRetry.TryRequest | els_cli.go:127-134 | An attempt yields exactly one of a response and an error; a transport failure becomes ErrAPIUnreachable, and a response is passed on unchanged. |
| RequestRetry.Answers | els_cli.go:138 | A request is allowed max(MaxAPITries, 0) attempts, and attempt t gets the transport's answer t. |
| RequestRetry.Retry | els_cli.go:137-147 | At most one attempt per allowed answer; no attempt exactly when none is allowed, and then a nil response with a nil error; otherwise the reply is the last attempt's; no attempt before the last got a non-429 response; the loop ends early only at a non-429 response. |
| RequestRetry.RetryStopsAtFirstResponse | els_cli.go:139-143 | The first non-429 response ends the loop after exactly that many attempts and is returned with a nil error. |
| RequestRetry.RetryExhausted | els_cli.go:127-146 | With no stopping answer every allowed attempt is made; a last transport failure gives ErrAPIUnreachable, a last 429 is returned with a nil error. |
| RequestRetry.RetryReplyShape | els_cli.go:127-146 | The only error the loop returns is ErrAPIUnreachable; a 429 is returned only after all attempts; after at least one attempt exactly one of response and error is set. |
| ElsCli.App.DoRequest | els_cli.go:137-147 | The loop over the app profile's MaxAPITries gives exactly Retry's outcome on the transport's answers. |
| Calls.InputData | els_cli.go:152-158 | An empty file name reads the pipe; any other name opens that file. |
| Calls.CallSpec | els_cli.go:175-202 | A request is built exactly when the body source allows it and http.NewRequest accepts it, with the method, URL and body read; only a built request goes through the retry loop; otherwise no attempt is made and the body source's or NewRequest's error is returned with a nil response. |
| Calls.BodyRequired | els_cli.go:178-182 | For POST and PUT an unavailable body source is returned as the error with no request built; an available one becomes the request body. |
| Calls.PatchBodyOptional | els_cli.go:184-189 | For PATCH an unavailable body source is ignored and the request is sent with no body. |
| Calls.NoBodyIgnoresSource | els_cli.go:175-202 | For every other method the outcome is independent of the file name, the pipe and the files, and the request has no body. |
| Calls.NilReplyIffNoAttempt | els_cli.go:175-202 | doCall returns a nil response with a nil error exactly when it built a request and MaxAPITries allowed no attempt. |
| ElsCli.App.DoCall | els_cli.go:175-202 | The method's body handling, request building and retry give exactly the outcome `Calls.CallSpec` gives. |
| ResponseFormat.PrettyBody | els_cli.go:225-238 | The body is not read (and counts as empty) under statusCodeOnly, with no body, or for status 204; otherwise a read error is returned as is, and a body that is read gives exactly what indentation of its data gives (the indented text or indentation's error). |
| ResponseFormat.ResponseLines | els_cli.go:219-249 | Fails exactly when reading or indenting the body fails, with that error; otherwise at most two lines; the status line appears iff the mode is not bodyOnly and comes first; a body line is the indented body, comes last, needs a read body and is non-empty; outside statusCodeOnly a non-empty indented body is written. |
| ResponseFormat.StatusCodeOnlyWritesStatus | els_cli.go:225-246 | Under statusCodeOnly only the status line is written, for every response, and writing never fails. |
| ResponseFormat.BodyOnlyWritesNoStatus | els_cli.go:240-242 | Under bodyOnly no status line is written. |
| ResponseFormat.UnknownModeIsWhole | els_cli.go:225-246 | Any mode other than bodyOnly and statusCodeOnly writes what wholeResponse writes. |
| ResponseFormat.NoContentWritesNoBody | els_cli.go:225-246 | A 204 response never has its body read: it writes the status line (nothing under bodyOnly) and cannot fail. |
| ElsCli.App.WriteResponse | els_cli.go:219-249 | On success the output stream grows by exactly the lines ResponseLines gives; on failure it is unchanged and that error is returned. |
| ElsCli.Report | els_cli.go:208-216 | A call error is returned as is; a nil response with no error is dereferenced; any other response is formatted exactly as ResponseLines gives; success needs a response. |
| ElsCli.App.DoCallAndRep | els_cli.go:208-216 | The output grows by the lines of the call's reply, or stays unchanged and the error is returned. |
| ElsCli.CallPanicsOnlyOnNilReply | els_cli.go:175-221 | A command call panics exactly when doCall returned a nil response with a nil error; every other failure is an ordinary error. |
| ElsCli.App.FatalError | els_cli.go:120-124 | The error becomes the fatal error and is written to the error stream. |
| Commands.Route | els_cli.go:252-517 | Each command is one call whose URL starts with "/"; the put commands use PUT, the get and list commands and doGetCommand use GET, activateRuleset uses PATCH, deleteAccessKey and doDeleteCommand use DELETE, and doCommand keeps its method; the put commands and doCommand pass their body file on and every other command passes "" (no file); the generic commands prefix their path with "/". |
| Commands.PutAndGetShareURL | els_cli.go:252-306 | Vendors, cloud providers and rulesets are written and read at the same URL. |
| Commands.NestedResources | els_cli.go:290-378 | A ruleset's URL extends its vendor's ruleset list, activation extends the ruleset's URL, and an access key's URL extends its user's key list. |
| Commands.RoutesNameTheirResource | els_cli.go:258-378 | Distinct vendor, cloud provider or user IDs are sent to distinct URLs. |
| ElsCli.App.Execute | els_cli.go:252-517 | A command's call is written out on success; on a nil dereference the app has panicked and neither the output, the fatal error nor the error stream changes; on any other failure the output is unchanged and the error becomes the fatal error and is written to the error stream. |
| Decimal.Itoa | els_cli.go:445-451 | The decimal spelling strconv.Itoa gives is never empty, starts with a minus sign exactly when the integer is negative, and is otherwise made of digits. |
| Decimal.ItoaRoundTrip | els_cli.go:445-451 | The decimal spelling of an integer reads back as the same integer. |
| Decimal.ItoaInjective | els_cli.go:445-451 | Distinct integers have distinct spellings. |
| Infringements.Record | els_cli.go:440-451 | A record has as many fields as the header. |
| Infringements.RecordRoundTrip | els_cli.go:440-451 | A record carries the customer IDs and every infringement field except the vendor ID, which is not emitted. |
| Infringements.CustomerRecords | els_cli.go:439-452 | One record per infringement of a customer, in infringement order. |
| Infringements.CustomerRecordsNext | els_cli.go:439-452 | The record of the next infringement of a customer is appended after the records already gathered. |
| Infringements.CustomersRecords | els_cli.go:438-453 | A run of customers gives exactly one record per infringement it holds. |
| Infringements.CustomersRecordsNext | els_cli.go:438-453 | The records of the next customer are appended after those of the customers before it. |
| Infringements.CustomersRecordsAppend | els_cli.go:438-453 | Records follow customer order: the records of two runs of customers are those of the first, then those of the second. |
| Infringements.PagesRecords | els_cli.go:427-459 | A run of pages gives exactly one record per infringement it holds. |
| Infringements.PagesRecordsAppend | els_cli.go:427-459 | Records follow page order: the records of two runs of pages are those of the first, then those of the second. |
| Infringements.PageURL | els_cli.go:470-472 | The cursor is appended as "?cursor=" only when it is not empty. |
| Infringements.InfringementsPath | els_cli.go:410 | The listing path is relative to the API root (it starts with "/"). |
| Infringements.InfringementsPathNamesPeriod | els_cli.go:410 | A vendor's listing path determines the year and the month: two periods with the same path are the same period. |
| Infringements.PageFrom | els_cli.go:474-495 | A call error passes through; a nil response is dereferenced; a status other than 200 is ErrUnexpectedResponse; for a 200 response a nil body is dereferenced, a read error is returned, and readable content gives exactly what json.Unmarshal makes of it. |
| Infringements.Export | els_cli.go:408-463 | An export fails exactly when its last fetch failed, with that error; otherwise the document starts with the header. |
| Infringements.ExportWithoutInfringements | els_cli.go:413-461 | Pages listing no infringement give the header alone. |
| Infringements.TwoPageExport | els_cli.go:408-463 | A page with one infringement followed by an empty last page gives the header and one record with the integers in decimal. |
| ElsCli.AppendPageRecords | els_cli.go:438-454 | The nested loops append exactly the page's records, customer by customer. |
| ExportRun.RecordsOfPages | els_cli.go:427-459 | When every fetch succeeded, the records gathered along a run are the records of its pages. |
| ExportRun.RunGrows | els_cli.go:427-436 | Each further fetch is requested at the URL the last cursor names, is what that request returned, and follows only fetches that did not end the run. |
| ExportRun.RunStep | els_cli.go:427-459 | A fetched page is requested at the URL its predecessor's cursor names, its records follow the earlier ones, and an empty cursor ends the run with the document Export describes. |
| ExportRun.RunFails | els_cli.go:427-433 | A failed page ends the run with only that error. |
| ExportRun.FetchPageOutcome | els_cli.go:468-496 | A page URL that http.NewRequest rejects fails with its error; with no attempt allowed the nil response is dereferenced; a page is returned only after some attempt got a 200 response. |
| ExportRun.FetchPanicsOnlyOnNil | els_cli.go:468-496 | A page fetch panics exactly when doCall returned a nil response with a nil error, or a 200 response with a nil body. |
| ElsCli.App.GetInfringementPage | els_cli.go:468-496 | The page fetch equals `ExportRun.FetchPage` (a GET with no body, then the page checks of the reply) at the page URL; FetchPage's outcomes are stated by ExportRun.FetchPageOutcome and ExportRun.FetchPanicsOnlyOnNil. |
| ElsCli.App.ExportInfringements | els_cli.go:408-463 | The run fetches pages until the first final one (exactly that many requests); the first URL is the listing path and each later one carries the previous cursor; each page is what its request returned; on success one CSV document (header and all records) is written, on failure nothing and the error is returned. |
| ElsCli.App.GetEULALicenseInfringements | els_cli.go:521-525 | The pages are those the export requested, from the listing path and following each cursor; their document is written, a nil dereference leaves the app panicked with nothing reported, and any other error becomes the fatal error and is written to the error stream. |
| ElsCli.App.InitProfile | els_cli.go:686-702 | A stored profile is selected and shared, and a non-empty override changes its output mode; a missing profile other than "default" gives ErrProfileNotFound and a default profile without the override; a missing "default" gives a default profile with the override and no error; no other stored profile changes. |
| ElsCli.App.constructor | els_cli.go:93-116 | A new app holds the configuration and collaborators, with no profile, empty streams, no fatal error and no panic. |
| Profiles.WithDefaults | config.go:53-65 | Every zero-valued field gets its default (2 tries, wholeResponse, 30 seconds); non-zero fields and the access key are kept; the result is defaulted, and a defaulted profile is left as is. |
| Profiles.WithDefaultsIdempotent | config.go:53-65 | Defaulting twice is defaulting once. |
| Profiles.NegativeTriesSurviveDefaults | config.go:54-56 | A negative MaxAPITries stays negative, so a defaulted profile can allow no attempt. |
| Profiles.DefaultProfileSettings | config.go:68-72 | The defaults of the zero profile are 2 tries, wholeResponse, 30 seconds and an empty access key. |
| Profiles.Profile.constructor | config.go:26-40 | A profile holds the given settings. |
| Profiles.Profile.SetDefaults | config.go:53-65 | The profile's new value is its old value with defaults applied. |
| Profiles.NewProfile | config.go:68-72 | A new profile holds 2 tries, wholeResponse, 30 seconds and an empty access key. |
| Profiles.Config.constructor | config.go:76-80 | A configuration holds the given profile map. |
| Profiles.Config.Profile | config.go:84-90 | A known ID gives the stored profile object and no error; an unknown one a new default profile and ErrProfileNotFound; the map is unchanged. |
| Profiles.ReadTOML | config.go:94-104 | The configuration holds the decoded map, the decoder's error is returned, and every decoded profile is defaulted, even when two IDs share one profile. |
| LegacyProfiles.Config.Profile | config/config.go:49-55 | A known ID gives a copy of the stored profile and no error; an unknown one the zero profile and ErrProfileNotFound. |
| LegacyProfiles.LookupAfterStore | config/config.go:49-55 | A profile stored under an ID is what a lookup of that ID returns, and lookups of other IDs are unaffected. |
| LegacyProfiles.MissLooksLikeStoredZero | config/config.go:49-55 | A miss returns the same profile as a stored zero profile; only the error tells them apart. |

## Left out

- infringement.go is not part of this model. It is an unfinished draft that does not compile, and it duplicates `doGetEULALicenseInfringements` and `getInfringementPage`.
- HTTP transport and request signing (`apiCaller.Do`, `Profile.Sign`, `els.NewAPISigner`): foreign SDK code. Each attempt's answer is a parameter.
- `createAccessKey` and `CreateAccessKey`: they read a password from the terminal, call the SDK under a context timeout and format a clock time. These are all I/O.
- `APITimeoutSecs` is only stored and defaulted. Its one use is the context timeout of `createAccessKey`.
- `APIRetryInterval` is declared but never used, so there is no wait between attempts.
- JSON indentation and decoding, CSV encoding and TOML decoding are library code. They are parameters, and the output is lines and CSV records rather than bytes. `WriteAll`'s error is ignored by the code and is not modelled.
- `http.NewRequest` is reduced to its verdict on a method and URL; the request body is the string read, not a reader.
- Command-line wiring (`cloudProviderCommands`, `genericCommands`, `vendorCommands`, `userCommands`, `init`, `Run`, the `gApp` global): framework code. The model starts at the handler each command calls. This includes the startup hook, which calls `initProfile` and discards its error. A missing non-default profile therefore does not stop the command, which then runs with a default profile.
- `initLog` and the debug logging: I/O with no effect on results.
- main.go (config file discovery), pipe.go (terminal check), password.go (password prompt) and doc.go (documentation): I/O only.
- The `LegacyProfiles` package's `ReadTOML` is a single call to the TOML decoder, so it has no logic to model.
- ElsCli.App.ExportInfringements, ElsCli.App.GetEULALicenseInfringements: require that some page request ends the pagination for every URL. A server that never returns an empty cursor makes the Go loop run forever, and that run is not modelled.
- A Go panic ends the process (the CLI framework re-raises it). The model records it in the app's `panicked` flag and stops that operation; it does not model the process ending, so a later call on the same app still runs.
