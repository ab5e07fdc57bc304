/**
 * The admission sequence of faucet.go's `generateInvoice`, as a function from
 * the faucet's state, one form submission and what the outside world answers
 * to the new state, the HTTP response and the calls made to the remote node.
 *
 * Clock readings, the float parsing of the amount, macaroon decoding, dialling
 * and the AddInvoice RPC are not computed here: their outcomes are fields of an
 * `Environment` value supplied by the caller.
 */
module InvoiceAdmission {
  import opened Wrappers
  import opened ErrorCodes

  /** One second as a `time.Duration` (nanoseconds). */
  const Second: int := 1_000_000_000

  /** `GenerateInvoiceTimeout`: the minimum spacing between admitted attempts. */
  const GenerateInvoiceTimeout: int := 60 * Second

  /** The query action that routes a POST to generateInvoice. */
  const GenerateInvoiceAction: string := "generateinvoice"

  /** A connected `lnrpc.LightningClient`: the node dialled, the credentials used, and the connection. */
  datatype LndClient = LndClient(node: string, tlsCert: seq<bv8>, macaroon: seq<bv8>, conn: nat)

  /** The two ways `newLightningClient` fails. */
  datatype ClientError = MacaroonInvalid | DialFailed

  /** The `lnrpc.Invoice` request sent to the node. */
  datatype Invoice = Invoice(creationDate: int, value: int, memo: string)

  /** The part of the node's AddInvoice reply that the handler reads. */
  datatype AddInvoiceReply = AddInvoiceReply(paymentRequest: string, addIndex: nat)

  /**
   * What `strconv.ParseFloat`, the `> 0.2` comparison and `int64(amtDcr * 1e8)`
   * made of the submitted amount.
   */
  datatype AmountParse = NotANumber | Number(aboveCeiling: bool, atoms: int)

  /** Everything the handler learns from outside during one submission. */
  datatype Environment = Environment(
    sinceNow: int,                    // the clock reading behind time.Since, in nanoseconds
    stampNow: int,                    // the time.Now() stored as the new timestamp
    creationNow: int,                 // the time.Now() that dates the invoice
    parseFormOk: bool,                // r.ParseForm() returned no error
    amount: AmountParse,
    macaroonDecodes: bool,            // mac.UnmarshalBinary succeeded
    dialConn: Option<nat>,            // grpc.Dial's connection, or its failure
    addInvoice: Option<AddInvoiceReply>)  // the RPC's reply, or its failure

  /**
   * A POSTed form: its text values, and the two uploaded files, each absent
   * when `FormFile` or `ReadAll` failed on it.
   */
  datatype Submission = Submission(form: map<string, string>, tlsCert: Option<seq<bv8>>, adminMacaroon: Option<seq<bv8>>)

  /** `r.FormValue(key)`: the submitted value, or "" when the field is missing. */
  function FormValue(form: map<string, string>, key: string): string {
    if key in form then form[key] else ""
  }

  /** What the handler writes back. */
  datatype Response =
    | NoResponse                        // returned before writing anything
    | RenderedPage                      // the home template executed with the shared context
    | ServerError(status: int, body: string)

  /** The calls the handler makes, in order: `newLightningClient` and the node's `AddInvoice`. */
  datatype ExternalCall =
    | ConnectCall(node: string)
    | AddInvoice(client: LndClient, invoice: Invoice)

  /** The fields of the shared `homePageContext` that the handler writes. */
  datatype Page = Page(submissionError: ChanCreationError, formFields: map<string, string>, invoicePaymentRequest: string)

  /**
   * The state that outlives one request: the package-level timestamp (None is
   * Go's zero time, "never"), the faucet's client handle and the shared page.
   */
  datatype FaucetState = FaucetState(lastGeneratedInvoiceTime: Option<int>, lnd: Option<LndClient>, page: Page)

  /** The result of handling one submission. */
  datatype Step = Step(state: FaucetState, response: Response, calls: seq<ExternalCall>)

  /** A submission together with the answers of its environment. */
  datatype Request = Request(sub: Submission, env: Environment)

  /** The state right after start-up: zero timestamp, nil client, empty form fields. */
  function Initial(): (s: FaucetState)
    ensures s.lastGeneratedInvoiceTime.None? && s.lnd.None?
    ensures s.page.submissionError == NoError && s.page.formFields == map[] && s.page.invoicePaymentRequest == ""
  {
    FaucetState(None, None, Page(NoError, map[], ""))
  }

  /** Both uploads were read. */
  predicate UploadsRead(sub: Submission) {
    sub.tlsCert.Some? && sub.adminMacaroon.Some?
  }

  /**
   * `!(time.Since(last) < GenerateInvoiceTimeout)`. Since the zero time is
   * centuries back, time.Since saturates and the check always passes.
   */
  predicate CooldownElapsed(last: Option<int>, now: int) {
    last.None? || now - last.value >= GenerateInvoiceTimeout
  }

  /** The submission gets past the uploads and the cooldown, and so stamps the clock. */
  predicate Admitted(s: FaucetState, sub: Submission, env: Environment) {
    UploadsRead(sub) && CooldownElapsed(s.lastGeneratedInvoiceTime, env.sinceNow)
  }

  /** The three form values copied into the shared FormFields map. */
  function RecordFormFields(fields: map<string, string>, form: map<string, string>): (r: map<string, string>)
    ensures r.Keys == fields.Keys + {"LndNode", "Amt", "Description"}
    ensures r["LndNode"] == FormValue(form, "nodeurl")
    ensures r["Amt"] == FormValue(form, "amt")
    ensures r["Description"] == FormValue(form, "description")
    ensures forall k :: k in fields && k !in {"LndNode", "Amt", "Description"} ==> r[k] == fields[k]
  {
    fields["LndNode" := FormValue(form, "nodeurl")]["Amt" := FormValue(form, "amt")]["Description" := FormValue(form, "description")]
  }

  /**
   * What `newLightningClient` produces: the macaroon is decoded first, then the
   * node is dialled; a client exists only when both succeed.
   */
  function ConnectClient(node: string, tlsCert: seq<bv8>, macaroon: seq<bv8>, env: Environment): (r: Result<LndClient, ClientError>)
    ensures r.Success? <==> env.macaroonDecodes && env.dialConn.Some?
    ensures !env.macaroonDecodes ==> r == Failure(MacaroonInvalid)
    ensures r.Success? ==> r.value.node == node && r.value.tlsCert == tlsCert && r.value.macaroon == macaroon
  {
    if !env.macaroonDecodes then Failure(MacaroonInvalid)
    else if env.dialConn.None? then Failure(DialFailed)
    else Success(LndClient(node, tlsCert, macaroon, env.dialConn.value))
  }

  /** Record an error code on the page and render it. */
  function Reject(s: FaucetState, e: ChanCreationError, calls: seq<ExternalCall>): Step {
    Step(s.(page := s.page.(submissionError := e)), RenderedPage, calls)
  }

  /** The submission ran through every check and the node returned an invoice. */
  predicate Invoiced(s: FaucetState, sub: Submission, env: Environment) {
    && Admitted(s, sub, env)
    && env.parseFormOk
    && env.amount.Number? && !env.amount.aboveCeiling
    && env.macaroonDecodes && env.dialConn.Some?
    && env.addInvoice.Some?
  }

  /**
   * One run of `generateInvoice`. The checks stop at the first failure, in the
   * source's order: uploads, cooldown, ParseForm, amount, ceiling, client, RPC.
   */
  function GenerateInvoice(s: FaucetState, sub: Submission, env: Environment): Step
  {
    if !UploadsRead(sub) then Step(s, NoResponse, [])
    else
      var node := FormValue(sub.form, "nodeurl");
      var recorded := s.(page := s.page.(formFields := RecordFormFields(s.page.formFields, sub.form)));
      if !CooldownElapsed(s.lastGeneratedInvoiceTime, env.sinceNow) then
        Reject(recorded, InvoiceTimeNotElapsed, [])
      else
        var stamped := recorded.(lastGeneratedInvoiceTime := Some(env.stampNow));
        if !env.parseFormOk then Step(stamped, ServerError(500, "unable to parse form"), [])
        else
          match env.amount
          case NotANumber => Reject(stamped, ChanAmountNotNumber, [])
          case Number(aboveCeiling, atoms) =>
            if aboveCeiling then Reject(stamped, InvoiceAmountTooHigh, [])
            else
              var connecting := [ConnectCall(node)];
              match ConnectClient(node, sub.tlsCert.value, sub.adminMacaroon.value, env)
              case Failure(_) => Reject(stamped, ErrorGeneratingInvoice, connecting)
              case Success(client) =>
                var connected := stamped.(lnd := Some(client));
                var invoice := Invoice(env.creationNow / Second, atoms, FormValue(sub.form, "description"));
                var calls := connecting + [AddInvoice(client, invoice)];
                match env.addInvoice
                case None => Reject(connected, ErrorGeneratingInvoice, calls)
                case Some(reply) =>
                  Step(connected.(page := connected.page.(invoicePaymentRequest := reply.paymentRequest)), RenderedPage, calls)
  }

  // Properties of one submission. Each lemma is one promise of the handler.

  /** A missing or unreadable upload returns before the form fields, the error or the timestamp are touched. */
  lemma MissingUploadChangesNothing(s: FaucetState, sub: Submission, env: Environment)
    requires !UploadsRead(sub)
    ensures GenerateInvoice(s, sub, env) == Step(s, NoResponse, [])
  {
  }

  /** Every submission past the uploads overwrites the three form fields, even a rate-limited one. */
  lemma FormFieldsRecorded(s: FaucetState, sub: Submission, env: Environment)
    requires UploadsRead(sub)
    ensures var fields := GenerateInvoice(s, sub, env).state.page.formFields;
            && fields["LndNode"] == FormValue(sub.form, "nodeurl")
            && fields["Amt"] == FormValue(sub.form, "amt")
            && fields["Description"] == FormValue(sub.form, "description")
            && fields == RecordFormFields(s.page.formFields, sub.form)
  {
  }

  /**
   * The timestamp moves exactly when the cooldown check is passed, and then
   * whatever fails afterwards: a failed ParseForm, a bad or too high amount,
   * a failed client or a failed RPC all use up the window.
   */
  lemma TimestampWrittenOnAdmission(s: FaucetState, sub: Submission, env: Environment)
    ensures GenerateInvoice(s, sub, env).state.lastGeneratedInvoiceTime
            == if Admitted(s, sub, env) then Some(env.stampNow) else s.lastGeneratedInvoiceTime
  {
  }

  /** The rate-limited path: the error is set and nothing else of the outcome changes; the node is not called. */
  lemma RateLimitedPath(s: FaucetState, sub: Submission, env: Environment)
    requires UploadsRead(sub) && !CooldownElapsed(s.lastGeneratedInvoiceTime, env.sinceNow)
    ensures var r := GenerateInvoice(s, sub, env);
            && r.state.page.submissionError == InvoiceTimeNotElapsed
            && r.state.lastGeneratedInvoiceTime == s.lastGeneratedInvoiceTime
            && r.state.lnd == s.lnd
            && r.state.page.invoicePaymentRequest == s.page.invoicePaymentRequest
            && r.calls == [] && r.response == RenderedPage
  {
  }

  /** A failed ParseForm answers 500 after the window is consumed, and records no error code. */
  lemma ParseFormFailurePath(s: FaucetState, sub: Submission, env: Environment)
    requires Admitted(s, sub, env) && !env.parseFormOk
    ensures var r := GenerateInvoice(s, sub, env);
            && r.response == ServerError(500, "unable to parse form")
            && r.state.lastGeneratedInvoiceTime == Some(env.stampNow)
            && r.state.page.submissionError == s.page.submissionError
            && r.calls == []
  {
  }

  /**
   * The order of the checks: a client is built only when the cooldown has
   * passed, the form parsed, the amount is a number and not above the ceiling;
   * AddInvoice follows only when the client was built.
   */
  lemma CheckOrder(s: FaucetState, sub: Submission, env: Environment)
    ensures var r := GenerateInvoice(s, sub, env);
            && (r.calls != [] <==> Admitted(s, sub, env) && env.parseFormOk && env.amount.Number? && !env.amount.aboveCeiling)
            && (r.calls != [] ==> r.calls[0] == ConnectCall(FormValue(sub.form, "nodeurl")))
            && |r.calls| <= 2
            && (|r.calls| == 2 <==> r.calls != [] && ConnectClient(FormValue(sub.form, "nodeurl"), sub.tlsCert.value, sub.adminMacaroon.value, env).Success?)
  {
  }

  /** An amount that is not a number or is above the ceiling is rejected with its own code and never reaches the node. */
  lemma AmountRejections(s: FaucetState, sub: Submission, env: Environment)
    requires Admitted(s, sub, env) && env.parseFormOk
    ensures env.amount.NotANumber? ==>
              && GenerateInvoice(s, sub, env).state.page.submissionError == ChanAmountNotNumber
              && GenerateInvoice(s, sub, env).calls == [] && GenerateInvoice(s, sub, env).response == RenderedPage
    ensures env.amount.Number? && env.amount.aboveCeiling ==>
              && GenerateInvoice(s, sub, env).state.page.submissionError == InvoiceAmountTooHigh
              && GenerateInvoice(s, sub, env).calls == [] && GenerateInvoice(s, sub, env).response == RenderedPage
  {
  }

  /**
   * The response of every path: nothing is written when an upload is missing,
   * a 500 only when ParseForm fails after admission, and the page is rendered
   * on every other path, success included.
   */
  lemma ResponseByPath(s: FaucetState, sub: Submission, env: Environment)
    ensures var r := GenerateInvoice(s, sub, env);
            && (r.response == NoResponse <==> !UploadsRead(sub))
            && (r.response.ServerError? <==> Admitted(s, sub, env) && !env.parseFormOk)
            && (UploadsRead(sub) && !(Admitted(s, sub, env) && !env.parseFormOk) ==> r.response == RenderedPage)
  {
  }

  /**
   * AddInvoice goes to the client just built from the submitted node and
   * credentials, with the creation time in seconds, the converted atoms and
   * the description as memo; that client becomes the faucet's.
   */
  lemma InvoiceRequestContents(s: FaucetState, sub: Submission, env: Environment)
    requires |GenerateInvoice(s, sub, env).calls| == 2
    ensures var r := GenerateInvoice(s, sub, env);
            && r.calls[1].AddInvoice?
            && r.state.lnd == Some(r.calls[1].client)
            && r.calls[1].client == ConnectClient(FormValue(sub.form, "nodeurl"), sub.tlsCert.value, sub.adminMacaroon.value, env).value
            && r.calls[1].invoice == Invoice(env.creationNow / Second, env.amount.atoms, FormValue(sub.form, "description"))
  {
  }

  /** The faucet's client changes only when newLightningClient succeeded. */
  lemma ClientReplacedOnlyOnSuccess(s: FaucetState, sub: Submission, env: Environment)
    ensures var r := GenerateInvoice(s, sub, env);
            r.state.lnd != s.lnd ==> |r.calls| == 2 && r.state.lnd == Some(r.calls[1].client)
  {
  }

  /**
   * The outcome fields are written separately: only full success writes the
   * payment request, and it leaves the error code as it was; every other path
   * leaves the payment request as it was and writes at most the error code.
   */
  lemma OutcomeFieldsWrittenSeparately(s: FaucetState, sub: Submission, env: Environment)
    ensures var r := GenerateInvoice(s, sub, env);
            && (Invoiced(s, sub, env) ==>
                  && r.state.page.invoicePaymentRequest == env.addInvoice.value.paymentRequest
                  && r.response == RenderedPage
                  && r.state.page.submissionError == s.page.submissionError)
            && (!Invoiced(s, sub, env) ==> r.state.page.invoicePaymentRequest == s.page.invoicePaymentRequest)
            && r.state.page.submissionError in {s.page.submissionError, InvoiceTimeNotElapsed, ChanAmountNotNumber,
                                                InvoiceAmountTooHigh, ErrorGeneratingInvoice}
  {
  }

  /**
   * A failed `newLightningClient` or a failed `AddInvoice` records
   * ErrorGeneratingInvoice and renders the page; the stamp stays written, so
   * the attempt uses up the cooldown, and the client is kept when connecting failed.
   */
  lemma ClientOrRpcFailurePath(s: FaucetState, sub: Submission, env: Environment)
    requires Admitted(s, sub, env) && env.parseFormOk
    requires env.amount.Number? && !env.amount.aboveCeiling
    requires !(env.macaroonDecodes && env.dialConn.Some? && env.addInvoice.Some?)
    ensures var r := GenerateInvoice(s, sub, env);
            && r.state.page.submissionError == ErrorGeneratingInvoice
            && r.response == RenderedPage
            && r.state.page.invoicePaymentRequest == s.page.invoicePaymentRequest
            && r.state.lastGeneratedInvoiceTime == Some(env.stampNow)
            && (ConnectClient(FormValue(sub.form, "nodeurl"), sub.tlsCert.value, sub.adminMacaroon.value, env).Failure? ==>
                  r.state.lnd == s.lnd && |r.calls| == 1)
  {
  }

  /** The states a sequence of submissions passes through, starting with `s`. */
  function Run(s: FaucetState, reqs: seq<Request>): (states: seq<FaucetState>)
    ensures |states| == |reqs| + 1 && states[0] == s
    ensures forall k :: 0 <= k < |reqs| ==> states[k + 1] == GenerateInvoice(states[k], reqs[k].sub, reqs[k].env).state
    decreases |reqs|
  {
    if reqs == [] then [s]
    else [s] + Run(GenerateInvoice(s, reqs[0].sub, reqs[0].env).state, reqs[1..])
  }

  /**
   * The clock never runs backwards: within one submission the stamp is read
   * after the cooldown check, and every reading of a later submission comes
   * after every reading of an earlier one.
   */
  predicate ClockMonotone(reqs: seq<Request>) {
    && (forall k :: 0 <= k < |reqs| ==> reqs[k].env.sinceNow <= reqs[k].env.stampNow)
    && (forall i, j :: 0 <= i < j < |reqs| ==> reqs[i].env.stampNow <= reqs[j].env.sinceNow)
  }

  /** The first submission after start-up passes the cooldown whenever its uploads are read. */
  lemma FirstSubmissionAdmitted(sub: Submission, env: Environment)
    ensures Admitted(Initial(), sub, env) <==> UploadsRead(sub)
  {
  }

  /** After an admitted submission the recorded timestamp is at least its stamp. */
  lemma {:induction false} StampPersists(s: FaucetState, reqs: seq<Request>, i: nat, k: nat)
    requires ClockMonotone(reqs)
    requires i < k <= |reqs|
    requires Admitted(Run(s, reqs)[i], reqs[i].sub, reqs[i].env)
    ensures Run(s, reqs)[k].lastGeneratedInvoiceTime.Some?
    ensures Run(s, reqs)[k].lastGeneratedInvoiceTime.value >= reqs[i].env.stampNow
    decreases k
  {
    var states := Run(s, reqs);
    TimestampWrittenOnAdmission(states[k - 1], reqs[k - 1].sub, reqs[k - 1].env);
    if k > i + 1 {
      StampPersists(s, reqs, i, k - 1);
      assert reqs[k - 1].env.stampNow >= reqs[k - 1].env.sinceNow >= reqs[i].env.stampNow;
    }
  }

  /**
   * The cooldown invariant: with a clock that does not run backwards, two
   * admitted submissions are at least GenerateInvoiceTimeout apart, both in
   * their stamps and between the earlier stamp and the later check.
   */
  lemma AdmittedSubmissionsSpaced(s: FaucetState, reqs: seq<Request>, i: nat, j: nat)
    requires ClockMonotone(reqs)
    requires i < j < |reqs|
    requires Admitted(Run(s, reqs)[i], reqs[i].sub, reqs[i].env)
    requires Admitted(Run(s, reqs)[j], reqs[j].sub, reqs[j].env)
    ensures reqs[j].env.sinceNow - reqs[i].env.stampNow >= GenerateInvoiceTimeout
    ensures reqs[j].env.stampNow - reqs[i].env.stampNow >= GenerateInvoiceTimeout
  {
    StampPersists(s, reqs, i, j);
  }

  /**
   * Two submissions that reach the node (build a client, and perhaps call
   * AddInvoice) are at least GenerateInvoiceTimeout apart.
   */
  lemma NodeCallsSpaced(s: FaucetState, reqs: seq<Request>, i: nat, j: nat)
    requires ClockMonotone(reqs)
    requires i < j < |reqs|
    requires GenerateInvoice(Run(s, reqs)[i], reqs[i].sub, reqs[i].env).calls != []
    requires GenerateInvoice(Run(s, reqs)[j], reqs[j].sub, reqs[j].env).calls != []
    ensures reqs[j].env.stampNow - reqs[i].env.stampNow >= GenerateInvoiceTimeout
  {
    CheckOrder(Run(s, reqs)[i], reqs[i].sub, reqs[i].env);
    CheckOrder(Run(s, reqs)[j], reqs[j].sub, reqs[j].env);
    AdmittedSubmissionsSpaced(s, reqs, i, j);
  }

  /**
   * A submission repeated before the cooldown is over is rate-limited: of two
   * identical submissions in quick succession at most the first gets through.
   */
  lemma RepeatWithinCooldownRateLimited(s: FaucetState, sub: Submission, env1: Environment, env2: Environment)
    requires Admitted(s, sub, env1)
    requires env2.sinceNow - env1.stampNow < GenerateInvoiceTimeout
    ensures var second := GenerateInvoice(GenerateInvoice(s, sub, env1).state, sub, env2);
            && second.state.page.submissionError == InvoiceTimeNotElapsed
            && second.calls == []
            && second.state.lastGeneratedInvoiceTime == Some(env1.stampNow)
  {
  }
}
