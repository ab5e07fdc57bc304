/**
 * The faucet's mutable objects from faucet.go: the shared `homePageContext`
 * and the `lightningFaucet` with its client handle, together with the
 * package-level `lastGeneratedInvoiceTime`. The methods change these in place,
 * step by step as the source does, and each is proved to leave exactly the
 * state that the functions of InvoiceAdmission describe.
 */
module Faucet {
  import opened Wrappers
  import opened ErrorCodes
  import opened InvoiceAdmission

  /** The context the home template is rendered with; one instance is shared by all requests. */
  class HomePageContext {
    var gitCommitHash: string
    var nodeAddr: string
    var submissionError: ChanCreationError
    var formFields: map<string, string>
    var invoicePaymentRequest: string
    var generateInvoiceAction: string

    /** The fields generateInvoice writes, as a value. */
    function Page(): (p: InvoiceAdmission.Page)
      reads this
      ensures p.submissionError == submissionError && p.formFields == formFields
      ensures p.invoicePaymentRequest == invoicePaymentRequest
    {
      InvoiceAdmission.Page(submissionError, formFields, invoicePaymentRequest)
    }

    /** The context built by `newTemplate`: an empty form map and the invoice action. */
    constructor (action: string)
      ensures formFields == map[] && generateInvoiceAction == action
      ensures submissionError == NoError && invoicePaymentRequest == ""
      ensures gitCommitHash == "" && nodeAddr == ""
    {
      gitCommitHash := "";
      nodeAddr := "";
      submissionError := NoError;
      formFields := map[];
      invoicePaymentRequest := "";
      generateInvoiceAction := action;
    }
  }

  /**
   * The faucet. `lastGeneratedInvoiceTime` is a package-level variable in the
   * source; the process creates exactly one faucet, so it is kept here.
   */
  class LightningFaucet {
    var lnd: Option<LndClient>
    var homePageContext: HomePageContext
    var lastGeneratedInvoiceTime: Option<int>

    /** The faucet's state, with `homeState` as the page it renders. */
    function State(homeState: HomePageContext): (s: FaucetState)
      reads this, homeState
      ensures s.lastGeneratedInvoiceTime == lastGeneratedInvoiceTime && s.lnd == lnd
      ensures s.page == homeState.Page()
    {
      FaucetState(lastGeneratedInvoiceTime, lnd, homeState.Page())
    }

    /**
     * `newTemplate`: a faucet with no client yet, a fresh shared context, and
     * the timestamp at Go's zero time.
     */
    constructor NewTemplate()
      ensures fresh(homePageContext)
      ensures State(homePageContext) == Initial()
      ensures homePageContext.generateInvoiceAction == GenerateInvoiceAction
    {
      lnd := None;
      lastGeneratedInvoiceTime := None;
      homePageContext := new HomePageContext(GenerateInvoiceAction);
    }

    /**
     * `newLightningClient`: decode the macaroon, dial the node, and only when
     * both succeed replace the faucet's client.
     */
    method NewLightningClient(lndNode: string, tlsCert: seq<bv8>, macBytes: seq<bv8>, env: Environment)
      returns (err: Option<ClientError>)
      modifies this`lnd
      ensures match ConnectClient(lndNode, tlsCert, macBytes, env)
              case Success(client) => err.None? && lnd == Some(client)
              case Failure(e) => err == Some(e) && lnd == old(lnd)
    {
      if !env.macaroonDecodes {
        return Some(MacaroonInvalid);
      }
      if env.dialConn.None? {
        return Some(DialFailed);
      }
      lnd := Some(LndClient(lndNode, tlsCert, macBytes, env.dialConn.value));
      return None;
    }

    /**
     * `generateInvoice`: handle one submitted invoice form. It updates the
     * timestamp, the client and `homeState` as InvoiceAdmission.GenerateInvoice
     * describes, returns the response and the calls made to the node, and
     * touches nothing else.
     */
    method GenerateInvoice(homeState: HomePageContext, sub: Submission, env: Environment)
      returns (response: Response, calls: seq<ExternalCall>)
      modifies this, homeState
      ensures var step := InvoiceAdmission.GenerateInvoice(old(State(homeState)), sub, env);
              State(homeState) == step.state && response == step.response && calls == step.calls
      ensures homePageContext == old(homePageContext)
      ensures homeState.gitCommitHash == old(homeState.gitCommitHash) && homeState.nodeAddr == old(homeState.nodeAddr)
      ensures homeState.generateInvoiceAction == old(homeState.generateInvoiceAction)
    {
      var cooldownElapsed := CooldownElapsed(lastGeneratedInvoiceTime, env.sinceNow);
      var lndNode := FormValue(sub.form, "nodeurl");
      var amt := FormValue(sub.form, "amt");
      var description := FormValue(sub.form, "description");
      if sub.tlsCert.None? {
        return NoResponse, [];
      }
      if sub.adminMacaroon.None? {
        return NoResponse, [];
      }

      homeState.formFields := homeState.formFields["LndNode" := lndNode]["Amt" := amt]["Description" := description];

      if !cooldownElapsed {
        homeState.submissionError := InvoiceTimeNotElapsed;
        return RenderedPage, [];
      }
      lastGeneratedInvoiceTime := Some(env.stampNow);
      if !env.parseFormOk {
        return ServerError(500, "unable to parse form"), [];
      }

      if env.amount.NotANumber? {
        homeState.submissionError := ChanAmountNotNumber;
        return RenderedPage, [];
      }
      if env.amount.aboveCeiling {
        homeState.submissionError := InvoiceAmountTooHigh;
        return RenderedPage, [];
      }
      var amtAtoms := env.amount.atoms;

      calls := [ConnectCall(lndNode)];
      var err := NewLightningClient(lndNode, sub.tlsCert.value, sub.adminMacaroon.value, env);
      if err.Some? {
        homeState.submissionError := ErrorGeneratingInvoice;
        return RenderedPage, calls;
      }

      var invoiceReq := Invoice(env.creationNow / Second, amtAtoms, description);
      calls := calls + [AddInvoice(lnd.value, invoiceReq)];
      if env.addInvoice.None? {
        homeState.submissionError := ErrorGeneratingInvoice;
        return RenderedPage, calls;
      }
      homeState.invoicePaymentRequest := env.addInvoice.value.paymentRequest;
      response := RenderedPage;
    }
  }
}
