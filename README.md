# dcr-tippin invoice faucet: admission logic in Dafny

dcr-tippin is a small web front-end to a Decred Lightning (dcrlnd) node. A visitor
fills in a form with a node URL, an amount in DCR and a description. They also
upload a TLS certificate and an admin macaroon. The handler `generateInvoice`
then connects to that node and asks it to create an invoice. The page is
re-rendered with the payment request or with an error code.

This project models the parts of `faucet.go` that hold logic:

- **Error codes and their messages** (`error_codes.dfy`, module `ErrorCodes`).
  `chanCreationError` is a byte-sized enumeration. Its `String()` method maps
  codes 0 to 12 to fixed texts and renders every other byte in decimal.
  The lemmas prove what the type's doc comment promises: every byte gets a
  different string. Only `NoError` gets the empty string.
- **The admission sequence of `generateInvoice`** (`invoice_admission.dfy`, module
  `InvoiceAdmission`). It is a pure function from the faucet's state, one
  submission and the answers of the outside world to a new state, the HTTP
  response and the calls made to the node. The state is:
  - the cooldown timestamp;
  - the faucet's client handle;
  - the shared page context (error code, form fields, payment request).

  The checks run in the source's order and stop at the first failure:
  1. uploads;
  2. form fields recorded;
  3. 60-second cooldown;
  4. timestamp written;
  5. `ParseForm`;
  6. amount is a number;
  7. amount is within the 0.2 DCR ceiling;
  8. `newLightningClient`;
  9. `AddInvoice`.

  Lemmas state what each path writes and what it leaves alone. `Run` folds the
  function over a sequence of submissions. The cooldown invariant is proved over
  such runs: with a clock that never runs backwards, any two submissions that pass
  the cooldown check are at least `GenerateInvoiceTimeout` apart.
- **The mutable objects** (`faucet.dfy`, module `Faucet`). `HomePageContext` and
  `LightningFaucet` are classes. `LightningFaucet`'s methods update its own fields
  and the shared `HomePageContext` in place, as the Go code does:
  - `NewLightningClient` assigns the client only when the macaroon decodes and the
    dial succeeds.
  - `GenerateInvoice` makes the same step-by-step updates with early returns.

  `NewLightningClient` is proved to set the client exactly as the function
  `InvoiceAdmission.ConnectClient` says and to return its error. `GenerateInvoice`
  is proved to produce exactly the state, response and calls given by the
  function `InvoiceAdmission.GenerateInvoice`. Neither touches anything else.

Time is an integer count of nanoseconds, as in Go's `time.Duration`.
`GenerateInvoiceTimeout` is 60·10⁹. The timestamp starts at Go's zero time.
`time.Since` of the zero time saturates, so the first check always passes. The
model writes this starting value as `None` ("never").

The handler reads the clock three times:
- `sinceNow`: the reading behind `time.Since` (faucet.go:274);
- `stampNow`: the new timestamp (faucet.go:316);
- `creationNow`: the invoice's `CreationDate` (faucet.go:348).

Each is a separate input. `CreationDate` is `creationNow` in whole seconds, using
floor division, as `Unix()` does. The cooldown invariant is stated on the
admissions, which the source measures by the stamp. The invoice's own creation
time is read later, so the model does not promise that two `AddInvoice` calls
have creation dates 60 s apart.

Four points of faucet.go's behaviour that the model keeps:
- The uploads are read, and the form fields recorded, before the cooldown check.
- A failed `ParseForm` after the timestamp is a plain 500 with no error code.
- A successful invoice sets `InvoicePaymentRequest` but does not reset
  `SubmissionError`. An error code from an earlier submission stays on the shared
  page.
- The client is always rebuilt from the uploaded credentials. There is no
  default-node mode.

## Model

| member | source | states |
|---|---|---|
| `ErrorCodes.ErrorString` | faucet.go:109-140 | `String()`: the twelve literal messages, the ChannelTooSmall message built from minChannelSize, "" for NoError and decimal digits for every other byte; its properties are the lemmas below |
| `ErrorCodes.FormatDecimal` | faucet.go:137-138 | the default branch's decimal rendering of a byte is non-empty, made only of digits, and has no leading zero unless the value is 0 |
| `ErrorCodes.ParseFormatDecimal` | faucet.go:138 | reading the printed digits back gives the byte's value, so the decimal rendering loses nothing |
| `ErrorCodes.UnnamedMessageIsDecimal` | faucet.go:137-138 | every code above 12 is shown as its own decimal value |
| `ErrorCodes.ChannelTooSmallMessage` | faucet.go:121-122 | the ChannelTooSmall message spells minChannelSize (50000) into its text |
| `ErrorCodes.NamedMessagesDistinct` | faucet.go:110-136 | the thirteen named codes have pairwise different messages |
| `ErrorCodes.ErrorStringEmptyIffNoError` | faucet.go:110-112 | String() is empty for NoError and for no other byte |
| `ErrorCodes.ErrorStringInjective` | faucet.go:33-37 | String() gives a different string for every one of the 256 byte values, as the enumeration's doc comment promises |
| `InvoiceAdmission.FormValue` | faucet.go:275-277 | `r.FormValue(key)`: the submitted value of the field, or "" when the field is missing |
| `InvoiceAdmission.CooldownElapsed` | faucet.go:274-311 | `!(time.Since(lastGeneratedInvoiceTime) < GenerateInvoiceTimeout)`: true for the zero time, otherwise true exactly when at least 60 s have passed since the timestamp |
| `InvoiceAdmission.Initial` | faucet.go:159-166 | at start-up the timestamp is the zero time, there is no client, no error code, no payment request and an empty form-field map |
| `InvoiceAdmission.RecordFormFields` | faucet.go:306-308 | LndNode, Amt and Description are set from the nodeurl, amt and description form values; every other key keeps its value |
| `InvoiceAdmission.ConnectClient` | faucet.go:171-199 | a client exists exactly when the macaroon decodes and the dial succeeds; a bad macaroon fails before dialling; the client is bound to the submitted node and credentials |
| `InvoiceAdmission.GenerateInvoice` | faucet.go:271-368 | one handler call: uploads, form fields, cooldown, stamp, ParseForm, amount, ceiling, client, AddInvoice, stopping at the first failure; the path lemmas below state what each path writes and `ResponseByPath` what it answers |
| `InvoiceAdmission.MissingUploadChangesNothing` | faucet.go:278-304 | a missing or unreadable tlscert or adminmacaroon upload returns with no response, no call, and the whole state unchanged |
| `InvoiceAdmission.FormFieldsRecorded` | faucet.go:306-308 | every submission past the uploads overwrites LndNode, Amt and Description, including a rate-limited one; the map is exactly `RecordFormFields` of the old one, so every other key keeps its value |
| `InvoiceAdmission.TimestampWrittenOnAdmission` | faucet.go:311-316 | the timestamp becomes the stamp time exactly when the uploads are read and the cooldown has elapsed, whatever fails later; otherwise it is unchanged |
| `InvoiceAdmission.RateLimitedPath` | faucet.go:311-315 | with less than 60 s elapsed, SubmissionError becomes InvoiceTimeNotElapsed; the timestamp, client and payment request are unchanged; the node is not called; the page is rendered |
| `InvoiceAdmission.ParseFormFailurePath` | faucet.go:316-320 | a failed ParseForm after admission answers 500 "unable to parse form", keeps the new timestamp, records no error code and calls nothing |
| `InvoiceAdmission.CheckOrder` | faucet.go:311-352 | the client is built if and only if the cooldown passed, the form parsed, the amount is a number and not above the ceiling; AddInvoice follows if and only if the client was built; at most these two calls |
| `InvoiceAdmission.AmountRejections` | faucet.go:322-334 | a non-number sets ChanAmountNotNumber and a too-high amount sets InvoiceAmountTooHigh, both without building a client or creating an invoice, and both render the page |
| `InvoiceAdmission.ResponseByPath` | faucet.go:278-366 | nothing is written exactly when an upload is missing; a 500 exactly when ParseForm fails after admission; every other path, success included, renders the page |
| `InvoiceAdmission.InvoiceRequestContents` | faucet.go:337-352 | AddInvoice goes to the client just built from the submitted node and credentials, with the creation time in seconds, the converted atoms and the description as memo; that client becomes the faucet's |
| `InvoiceAdmission.ClientOrRpcFailurePath` | faucet.go:337-357 | when newLightningClient or AddInvoice fails, SubmissionError becomes ErrorGeneratingInvoice, the page is rendered, the payment request is kept and the new timestamp stays, so the attempt uses up the cooldown; a failed connection also keeps the old client and makes only the one call |
| `InvoiceAdmission.ClientReplacedOnlyOnSuccess` | faucet.go:338-344 | the faucet's client changes only when newLightningClient succeeded, and then to the client AddInvoice is sent to |
| `InvoiceAdmission.OutcomeFieldsWrittenSeparately` | faucet.go:311-363 | only full success writes InvoicePaymentRequest, and it keeps SubmissionError and renders the page; every other path keeps InvoicePaymentRequest and writes at most one of the four invoice error codes |
| `InvoiceAdmission.Run` | faucet.go:102-104 | a sequence of submissions runs through the states one handler call at a time, with the timestamp and page carried from one to the next |
| `InvoiceAdmission.FirstSubmissionAdmitted` | faucet.go:274-311 | from the start-up state, a submission passes the cooldown if and only if its uploads are read |
| `InvoiceAdmission.StampPersists` | faucet.go:316 | after an admitted submission, the recorded timestamp never falls below its stamp while the clock does not run backwards |
| `InvoiceAdmission.AdmittedSubmissionsSpaced` | faucet.go:311-316 | with a non-decreasing clock, two admitted submissions are at least 60 s apart, both stamp to stamp and stamp to the later check |
| `InvoiceAdmission.NodeCallsSpaced` | faucet.go:311-352 | with a non-decreasing clock, two submissions that reach newLightningClient or AddInvoice were stamped at least 60 s apart |
| `InvoiceAdmission.RepeatWithinCooldownRateLimited` | faucet.go:311-316 | an admitted submission repeated less than 60 s after its stamp is rate-limited, calls nothing and keeps the first stamp |
| `Faucet.HomePageContext.constructor` | faucet.go:162-165 | the shared context starts with an empty FormFields map, the generate-invoice action, no error and no payment request |
| `Faucet.LightningFaucet.NewTemplate` | faucet.go:104-167 | a new faucet has a fresh shared context and no client; its timestamp is the zero value of the package variable `lastGeneratedInvoiceTime` (faucet.go:104), held by the faucet; together this is the initial state above |
| `Faucet.LightningFaucet.NewLightningClient` | faucet.go:171-199 | assigns the client only when macaroon decoding and dialling both succeed; on either error it returns that error and leaves the client unchanged |
| `Faucet.LightningFaucet.GenerateInvoice` | faucet.go:271-368 | updates the timestamp, client and shared page in place, step by step with early returns, to exactly the state of the admission function; returns its response and calls; leaves the other page fields alone |

## Left out

- HTTP routing in `faucetHome` (faucet.go:233-266) is left out: GET rendering, the 405 answer and dispatch on the `action` query parameter. The model does not capture that `action[0]` panics when the parameter is missing (faucet.go:255).
- Template execution and `http.Error` are I/O. Their effect is the `Response` value: nothing written, page rendered, or a 500 with its body.
- The uploaded files are opaque inputs. `FormFile` or `ReadAll` failing on an upload is an absent upload. Building the x509 pool ignores bad PEM data and cannot fail, so it is not modelled.
- The `parseFormOk` input covers a path that practically never happens. `r.FormValue` at faucet.go:275 already parses the form, and net/http then makes the second `r.ParseForm()` (faucet.go:317) return nil. The model keeps the branch because the source has it.
- Amount parsing is not modelled: `strconv.ParseFloat`, the float64 `> 0.2` comparison and `int64(amtDcr * 1e8)` are IEEE-754 operations. Their outcome is an input: not a number, or a number with its ceiling result and its atoms. The model makes no claim that atoms equal the amount times 10⁸. It also does not say how NaN or negative amounts are treated.
- Macaroon decoding, `grpc.Dial` and the `AddInvoice` RPC are foreign network and crypto calls. Each is a success-or-failure input. The TLS credentials and dial options are not modelled.
- Logging (the `log.*` calls at faucet.go:329, 340, 354, 360) and the `fmt.Println(err)` on each upload failure (faucet.go:280, 287, 296, 301) have no effect on state and are left out. The invoice's `AddIndex` and `RHash` are read only for logging.
- Concurrency is left out: the model covers sequential calls only. The timestamp and the shared context are accessed by concurrent handlers without a lock, and `openChanMtx` is never used.
- Go's split between wall-clock and monotonic readings is not modelled; each clock reading is a single integer. The saturation of `time.Since` is modelled only for the zero time.
- `Faucet.LightningFaucet.NewTemplate`: the package-level `lastGeneratedInvoiceTime` (faucet.go:104) is held as a field of the faucet. In Go, a second faucet would share one timestamp; `main` creates only one faucet (dcrtippin.go:64), so the model does not capture that sharing.
- `GitCommitHash` and `NodeAddr` are never written by this core. They are kept only to show that `GenerateInvoice` leaves them alone.
- `maxChannelSize` drives no logic. `minChannelSize` appears only in a message.
- dcrtippin.go is not part of this model: start-up, Let's Encrypt certificates, TLS settings, signal handling and the template helper `equal` are all I/O or wrappers.
- config.go is not part of this model: flag and INI parsing, directories and log rotation are I/O.
