/**
 * The Vindicia payment gateway: risk configuration, authorization with its
 * client-side AVS/CVN screening, capture, purchase (authorize then capture),
 * and the normalisation of a processor record into a gateway response.
 *
 * The processor is not called: what `Transaction.auth`, `capture` and `find`
 * return is given to the operations as values, and every call the gateway
 * issues is appended to the gateway's `calls` log.
 */
module Vindicia {
  import opened Wrappers
  import opened Text
  import opened Risk

  // ---------------------------------------------------------------------------
  // Inputs

  /** A billing or shipping address; every field may be nil. */
  datatype Address = Address(
    address1: Option<string>,
    city: Option<string>,
    state: Option<string>,
    country: Option<string>,
    zip: Option<string>)

  /** The card fields the gateway reads. */
  datatype CreditCard = CreditCard(
    firstName: Option<string>,
    lastName: Option<string>,
    number: string,
    year: int,
    month: int)

  /** The options hash; a nil entry is `None`. */
  datatype Options = Options(
    billingAddress: Option<Address>,
    shippingAddress: Option<Address>,
    address: Option<Address>,
    riskFail: Option<int>,
    riskModerate: Option<int>,
    cvnFail: Option<seq<string>>,
    cvnModerate: Option<seq<string>>,
    avsFail: Option<seq<string>>,
    avsModerate: Option<seq<string>>)

  /** The `request_status` of a processor record: its status code and response text. */
  datatype RequestStatus = RequestStatus(code: int, response: string)

  /** A processor transaction record: its request status and its `to_hash` fields. */
  datatype RemoteRecord = RemoteRecord(status: RequestStatus, fields: map<string, string>)

  /** What `Transaction.auth` returns: the transaction's ref, its record and its status log. */
  datatype AuthReply = AuthReply(ref: string, record: RemoteRecord, statusLog: seq<LogEntry>)

  /** What `Transaction.capture` returns: the success and failure counts and the ids of the results. */
  datatype CaptureReply = CaptureReply(successful: int, failed: int, resultIds: seq<string>)

  // ---------------------------------------------------------------------------
  // Outputs

  /** The billing address sent to the processor, with nil fields normalised to "". */
  datatype AddressHash = AddressHash(
    name: string,
    addr1: string,
    city: string,
    district: string,
    country: string,
    postalCode: string)

  /** A call the gateway issues to the processor. */
  datatype RemoteCall =
    | AuthCall(amount: int, name: string, account: string, expirationDate: string,
               billingAddress: AddressHash, riskFail: int)
    | CancelCall(ref: string)
    | CaptureCall(authorization: Option<string>)
    | FindCall(merchantTransactionId: string)

  /** The gateway response: success, message, raw fields, test flag, fraud review flag, token. */
  datatype Response = Response(
    success: bool,
    message: string,
    params: map<string, string>,
    test: bool,
    fraudReview: bool,
    authorization: Option<string>)

  const InternalMarker: string := "(Internal)"
  const CaptureFailedMessage: string := "Capture failed"
  const TokenField: string := "merchantTransactionId"

  const NoOptions: Options := Options(None, None, None, None, None, None, None, None, None)

  // ---------------------------------------------------------------------------
  // Formatting helpers

  /** The cardholder name: first and last name joined by a blank. */
  function NameOn(card: CreditCard): (n: string)
    ensures |n| == |ToS(card.firstName)| + 1 + |ToS(card.lastName)|
  {
    JoinWithSpace(card.firstName, card.lastName)
  }

  /** A first name without blanks is recovered from the joined name, and so is the last name. */
  lemma NameOnRoundTrip(card: CreditCard)
    requires ' ' !in ToS(card.firstName)
    ensures SplitAtFirstSpace(NameOn(card)) == Some((ToS(card.firstName), ToS(card.lastName)))
  {
    JoinSplitRoundTrip(ToS(card.firstName), ToS(card.lastName));
  }

  /** The expiration date: the year at width 4, then the month zero-padded to 2 digits. */
  function Expdate(card: CreditCard): (e: string)
    ensures |e| == |FormatWidth(card.year, 4)| + |FormatZeroPad(card.month, 2)| >= 6
  {
    FormatWidth(card.year, 4) + FormatZeroPad(card.month, 2)
  }

  /** For a four-digit year and a month below 100 the date is six digits: the year, then the month. */
  lemma ExpdateLayout(card: CreditCard)
    requires 1000 <= card.year <= 9999 && 0 <= card.month <= 99
    ensures |Expdate(card)| == 6 && AllDigits(Expdate(card))
    ensures ParseDecimal(Expdate(card)[..4]) == card.year
    ensures ParseDecimal(Expdate(card)[4..]) == card.month
  {
    var y, m := FormatWidth(card.year, 4), FormatZeroPad(card.month, 2);
    assert Expdate(card) == y + m;
    FourDigitYear(card.year);
    TwoDigitMonth(card.month);
    DigitFields(y, m);
  }

  lemma FourDigitYear(year: int)
    requires 1000 <= year <= 9999
    ensures var y := FormatWidth(year, 4); |y| == 4 && AllDigits(y) && ParseDecimal(y) == year
  {
    assert Pow10(3) == 1000 && Pow10(4) == 10000;
    DigitsLength(year, 4);
    DigitsRoundTrip(year);
  }

  lemma TwoDigitMonth(month: int)
    requires 0 <= month <= 99
    ensures var m := FormatZeroPad(month, 2); |m| == 2 && AllDigits(m) && ParseDecimal(m) == month
  {
    assert Pow10(1) == 10 && Pow10(2) == 100;
    if month < 10 {
      DigitsLength(month, 1);
    } else {
      DigitsLength(month, 2);
    }
    ZeroPadRoundTrip(month, 2);
  }

  lemma DigitFields(a: string, b: string)
    requires AllDigits(a) && AllDigits(b)
    ensures AllDigits(a + b) && (a + b)[..|a|] == a && (a + b)[|a|..] == b
  {
  }

  /** The address `do_auth` uses: the billing address if given, else the shipping address, else the plain address. */
  function PickAddress(options: Options): (a: Option<Address>)
    ensures a.None? <==> options.billingAddress.None? && options.shippingAddress.None? && options.address.None?
    ensures options.billingAddress.Some? ==> a == options.billingAddress
    ensures options.billingAddress.None? && options.shippingAddress.Some? ==> a == options.shippingAddress
    ensures options.billingAddress.None? && options.shippingAddress.None? ==> a == options.address
  {
    if options.billingAddress.Some? then options.billingAddress
    else if options.shippingAddress.Some? then options.shippingAddress
    else options.address
  }

  /** The address hash sent with the authorization. */
  function NormalizeAddress(name: string, a: Address): (h: AddressHash)
    ensures h.name == name
    ensures a == Address(None, None, None, None, None) ==> h == AddressHash(name, "", "", "", "", "")
  {
    AddressHash(name, ToS(a.address1), ToS(a.city), ToS(a.state), ToS(a.country), ToS(a.zip))
  }

  /** A present address field is sent verbatim and an absent one as "". */
  lemma NormalizeAddressFields(name: string, a: Address)
    ensures var h := NormalizeAddress(name, a);
      h.name == name &&
      (a.address1.Some? ==> h.addr1 == a.address1.value) && (a.address1.None? ==> h.addr1 == "") &&
      (a.city.Some? ==> h.city == a.city.value) && (a.city.None? ==> h.city == "") &&
      (a.state.Some? ==> h.district == a.state.value) && (a.state.None? ==> h.district == "") &&
      (a.country.Some? ==> h.country == a.country.value) && (a.country.None? ==> h.country == "") &&
      (a.zip.Some? ==> h.postalCode == a.zip.value) && (a.zip.None? ==> h.postalCode == "")
  {
  }

  // ---------------------------------------------------------------------------
  // Risk configuration

  /** The thresholds `configure_risk` sets from the options: each option replaces its own default. */
  function RiskConfig(options: Options): (t: Thresholds)
    ensures options == NoOptions ==> t == DefaultThresholds
    ensures options.cvnFail.Some? ==> t.cvnFail == options.cvnFail.value
    ensures options.avsFail.Some? ==> t.avsFail == options.avsFail.value
  {
    Thresholds(
      options.riskFail.GetOr(DefaultRiskFail),
      options.riskModerate.GetOr(DefaultRiskModerate),
      options.cvnFail.GetOr(DefaultCvnFail),
      options.cvnModerate.GetOr(DefaultCvnModerate),
      options.avsFail.GetOr(DefaultAvsFail),
      options.avsModerate.GetOr(DefaultAvsModerate))
  }

  /** With no options the thresholds are the defaults. */
  lemma RiskConfigDefaults()
    ensures RiskConfig(NoOptions) == DefaultThresholds
    ensures RiskConfig(NoOptions).cvnFail == ["N", "P", "S"]
    ensures RiskConfig(NoOptions).cvnModerate == ["U", ""]
    ensures RiskConfig(NoOptions).avsFail == ["N", "C", "E"]
    ensures RiskConfig(NoOptions).avsModerate == ["A", "B", "W", "Z", "P", "U", "I"]
    ensures RiskConfig(NoOptions).riskFail == 100 && RiskConfig(NoOptions).riskModerate == 100
  {
  }

  /** Supplying one option changes exactly the threshold it names. */
  lemma RiskConfigOptionReplacesOwnDefault(o: Options, n: int, list: seq<string>)
    ensures RiskConfig(o.(riskFail := Some(n))) == RiskConfig(o).(riskFail := n)
    ensures RiskConfig(o.(riskModerate := Some(n))) == RiskConfig(o).(riskModerate := n)
    ensures RiskConfig(o.(cvnFail := Some(list))) == RiskConfig(o).(cvnFail := list)
    ensures RiskConfig(o.(cvnModerate := Some(list))) == RiskConfig(o).(cvnModerate := list)
    ensures RiskConfig(o.(avsFail := Some(list))) == RiskConfig(o).(avsFail := list)
    ensures RiskConfig(o.(avsModerate := Some(list))) == RiskConfig(o).(avsModerate := list)
  {
  }

  // ---------------------------------------------------------------------------
  // Response normalisation; `failure` is the gateway's recorded failure reason

  /** `ok?`: the processor reports status 200. */
  function IsOk(status: RequestStatus): bool {
    status.code == 200
  }

  /** `success?`: no failure is recorded and the processor reports 200. */
  function Succeeded(failure: Option<string>, status: RequestStatus): (b: bool)
    ensures b ==> IsOk(status)
    ensures failure.Some? ==> !b
  {
    failure.None? && IsOk(status)
  }

  /** `message_from`: the recorded failure when status is 200 or the text names an internal error, else the processor's text. */
  function MessageFrom(failure: Option<string>, status: RequestStatus): (m: string)
    ensures failure.None? ==> m == status.response
    ensures m == status.response || m == failure.value
  {
    if failure.Some? && (status.code == 200 || HasInfix(status.response, InternalMarker)) then failure.value
    else status.response
  }

  /** `response_for`: the gateway response for a processor record. */
  function ResponseFor(failure: Option<string>, t: RemoteRecord, review: bool, test: bool): Response {
    Response(
      Succeeded(failure, t.status),
      MessageFrom(failure, t.status),
      t.fields,
      test,
      review,
      if TokenField in t.fields then Some(t.fields[TokenField]) else None)
  }

  /** A response succeeds exactly when no failure is recorded and the status is 200. */
  lemma SuccessRule(failure: Option<string>, t: RemoteRecord, review: bool, test: bool)
    ensures var r := ResponseFor(failure, t, review, test);
      (r.success <==> failure.None? && t.status.code == 200) &&
      r.fraudReview == review && r.params == t.fields && r.test == test
  {
  }

  /** The message is the recorded failure exactly when one is recorded and the status is 200 or internal; otherwise the processor's text. */
  lemma MessageRule(failure: Option<string>, status: RequestStatus)
    ensures failure.Some? && (status.code == 200 || exists i :: OccursAt(status.response, InternalMarker, i))
      ==> MessageFrom(failure, status) == failure.value
    ensures !(failure.Some? && (status.code == 200 || exists i :: OccursAt(status.response, InternalMarker, i)))
      ==> MessageFrom(failure, status) == status.response
  {
    HasInfixIff(status.response, InternalMarker);
  }

  /** With no failure recorded `success?` agrees with `ok?`; with one recorded it never holds. */
  lemma OkIsStatus200(status: RequestStatus, reason: string)
    ensures Succeeded(None, status) == IsOk(status)
    ensures !Succeeded(Some(reason), status)
  {
  }

  /** The token is the record's merchantTransactionId, or nil when the record has none. */
  lemma TokenRule(failure: Option<string>, t: RemoteRecord, review: bool, test: bool)
    ensures var r := ResponseFor(failure, t, review, test);
      (r.authorization.Some? <==> TokenField in t.fields) &&
      (r.authorization.Some? ==> r.authorization.value == t.fields[TokenField])
  {
  }

  // ---------------------------------------------------------------------------
  // What one authorization does, as a function of the inputs and the prior failure

  /** The decision `do_auth` reaches for these options and this processor reply. */
  function AuthDecision(options: Options, reply: AuthReply): Decision {
    Decide(RiskConfig(options), SignalOf(reply.statusLog))
  }

  /** The `Transaction.auth` call `do_auth` issues. */
  function AuthRequest(money: int, card: CreditCard, options: Options): RemoteCall
    requires PickAddress(options).Some?
  {
    AuthCall(money, NameOn(card), card.number, Expdate(card),
      NormalizeAddress(NameOn(card), PickAddress(options).value), RiskConfig(options).riskFail)
  }

  /** The calls one authorization issues: the auth call, then a cancel of its ref when a fail list matched. */
  function AuthCalls(money: int, card: CreditCard, options: Options, reply: AuthReply): (cs: seq<RemoteCall>)
    requires PickAddress(options).Some?
  {
    [AuthRequest(money, card, options)] +
      (if Cancels(AuthDecision(options, reply)) then [CancelCall(reply.ref)] else [])
  }

  lemma AppendAssociative(a: seq<RemoteCall>, b: seq<RemoteCall>, c: seq<RemoteCall>)
    ensures (a + b) + c == a + (b + c)
  {
  }

  /** The response one authorization returns, given the failure recorded before it. */
  function AuthResponse(prior: Option<string>, options: Options, reply: AuthReply, test: bool): Response {
    var d := AuthDecision(options, reply);
    ResponseFor(FailureAfter(prior, d), reply.record, d == FraudReview, test)
  }

  /** `purchase` captures exactly after an authorization that succeeded without fraud review. */
  predicate Captures(a: Response) {
    a.success && !a.fraudReview
  }

  /**
   * What the authorization response says: it succeeds only when the chain passes, no
   * earlier failure is recorded and the status is 200; it is under review exactly on a
   * moderate match, and then unsuccessful; on a failure with status 200 its message is
   * the reason.
   */
  lemma AuthResponseRule(prior: Option<string>, options: Options, reply: AuthReply, test: bool)
    ensures var d := AuthDecision(options, reply); var a := AuthResponse(prior, options, reply, test);
      (a.success <==> d == Passed && prior.None? && reply.record.status.code == 200) &&
      (a.fraudReview <==> d == FraudReview) &&
      !(a.success && a.fraudReview) &&
      (d != Passed && reply.record.status.code == 200 ==> a.message == Reason(d).value) &&
      (Captures(a) ==> d == Passed && prior.None?)
  {
  }

  /** Once a failure is recorded, every later authorization is unsuccessful: no path clears it. */
  lemma StickyFailure(prior: Option<string>, options: Options, reply: AuthReply, test: bool)
    requires prior.Some?
    ensures !AuthResponse(prior, options, reply, test).success
    ensures !Captures(AuthResponse(prior, options, reply, test))
  {
  }

  /** The failure recorded after a capture: "Capture failed" when nothing succeeded, else unchanged. */
  function FailureAfterCapture(prior: Option<string>, reply: CaptureReply): (f: Option<string>)
    ensures prior.Some? ==> f.Some?
    ensures reply.successful == 0 ==> f == Some(CaptureFailedMessage)
    ensures reply.successful != 0 ==> f == prior
    ensures f != prior ==> f == Some(CaptureFailedMessage)
  {
    if reply.successful == 0 then Some(CaptureFailedMessage) else prior
  }

  /** A capture that succeeded for no transaction is unsuccessful even when the looked-up record reports 200, and then says "Capture failed". */
  lemma ZeroCaptureFails(prior: Option<string>, reply: CaptureReply, found: RemoteRecord, test: bool)
    requires reply.successful == 0
    ensures !ResponseFor(FailureAfterCapture(prior, reply), found, false, test).success
    ensures found.status.code == 200 ==>
      ResponseFor(FailureAfterCapture(prior, reply), found, false, test).message == CaptureFailedMessage
  {
  }

  // ---------------------------------------------------------------------------
  // The gateway

  class VindiciaGateway {
    /** Whether the processor environment is not production (`test_mode`). */
    const testMode: bool

    var riskFail: int
    var riskModerate: int
    var cvnFail: seq<string>
    var cvnModerate: seq<string>
    var avsFail: seq<string>
    var avsModerate: seq<string>

    /** The recorded failure reason (`@failure`); set by authorization and capture, never cleared. */
    var failure: Option<string>

    /** Every processor call issued so far, oldest first. */
    var calls: seq<RemoteCall>

    /** The thresholds currently held. */
    function CurrentThresholds(): Thresholds
      reads this`riskFail, this`riskModerate, this`cvnFail, this`cvnModerate, this`avsFail, this`avsModerate
    {
      Thresholds(riskFail, riskModerate, cvnFail, cvnModerate, avsFail, avsModerate)
    }

    /** A new gateway: no failure recorded, no call issued. The thresholds are set before every use. */
    constructor (testMode: bool)
      ensures this.testMode == testMode
      ensures failure == None && calls == []
    {
      this.testMode := testMode;
      riskFail, riskModerate := 0, 0;
      cvnFail, cvnModerate, avsFail, avsModerate := [], [], [], [];
      failure := None;
      calls := [];
    }

    /** `configure_risk`: each threshold from its option, or its default when the option is nil. */
    method ConfigureRisk(options: Options)
      modifies this`riskFail, this`riskModerate, this`cvnFail, this`cvnModerate, this`avsFail, this`avsModerate
      ensures CurrentThresholds() == RiskConfig(options)
    {
      riskFail := options.riskFail.GetOr(DefaultRiskFail);
      riskModerate := options.riskModerate.GetOr(DefaultRiskModerate);
      cvnFail := options.cvnFail.GetOr(DefaultCvnFail);
      cvnModerate := options.cvnModerate.GetOr(DefaultCvnModerate);
      avsFail := options.avsFail.GetOr(DefaultAvsFail);
      avsModerate := options.avsModerate.GetOr(DefaultAvsModerate);
    }

    /** `purchase`: authorize, and capture with the authorization's token only when it succeeded without review. */
    method Purchase(money: int, card: CreditCard, options: Options, authReply: AuthReply,
                    captureReply: CaptureReply, find: string -> RemoteRecord) returns (r: Response)
      requires PickAddress(options).Some?
      requires Captures(AuthResponse(failure, options, authReply, testMode)) ==> |captureReply.resultIds| > 0
      modifies this`riskFail, this`riskModerate, this`cvnFail, this`cvnModerate, this`avsFail, this`avsModerate,
        this`failure, this`calls
      ensures CurrentThresholds() == RiskConfig(options)
      ensures var a := AuthResponse(old(failure), options, authReply, testMode);
        var f := FailureAfter(old(failure), AuthDecision(options, authReply));
        var before := old(calls) + AuthCalls(money, card, options, authReply);
        if !Captures(a) then
          r == a && failure == f && calls == before
        else
          var id := captureReply.resultIds[0];
          AuthDecision(options, authReply) == Passed &&
          failure == FailureAfterCapture(f, captureReply) &&
          calls == before + [CaptureCall(a.authorization), FindCall(id)] &&
          r == ResponseFor(failure, find(id), false, testMode)
      ensures !(r.success && r.fraudReview)
    {
      var response := Authorize(money, card, options, authReply);
      if response.fraudReview || !response.success {
        return response;
      }
      r := Capture(money, response.authorization, captureReply, find);
    }

    /** `authorize`: an authorization with risk screening. */
    method Authorize(money: int, card: CreditCard, options: Options, reply: AuthReply) returns (r: Response)
      requires PickAddress(options).Some?
      modifies this`riskFail, this`riskModerate, this`cvnFail, this`cvnModerate, this`avsFail, this`avsModerate,
        this`failure, this`calls
      ensures CurrentThresholds() == RiskConfig(options)
      ensures failure == FailureAfter(old(failure), AuthDecision(options, reply))
      ensures calls == old(calls) + AuthCalls(money, card, options, reply)
      ensures r == AuthResponse(old(failure), options, reply, testMode)
    {
      r := DoAuth(money, card, options, reply);
    }

    /** `capture`: a capture of the authorization named by the token. */
    method Capture(money: int, authorization: Option<string>, reply: CaptureReply,
                   find: string -> RemoteRecord) returns (r: Response)
      requires |reply.resultIds| > 0
      modifies this`failure, this`calls
      ensures failure == FailureAfterCapture(old(failure), reply)
      ensures calls == old(calls) + [CaptureCall(authorization), FindCall(reply.resultIds[0])]
      ensures r == ResponseFor(failure, find(reply.resultIds[0]), false, testMode)
      ensures reply.successful == 0 ==> !r.success && !r.fraudReview
    {
      r := DoCapture(money, authorization, reply, find);
    }

    /**
     * `do_auth`: sends the authorization, reads the codes of the first authorized
     * status-log entry, and runs the decision chain, cancelling on a fail match.
     */
    method DoAuth(money: int, card: CreditCard, options: Options, reply: AuthReply) returns (r: Response)
      requires PickAddress(options).Some?
      modifies this`riskFail, this`riskModerate, this`cvnFail, this`cvnModerate, this`avsFail, this`avsModerate,
        this`failure, this`calls
      ensures CurrentThresholds() == RiskConfig(options)
      ensures failure == FailureAfter(old(failure), AuthDecision(options, reply))
      ensures calls == old(calls) + AuthCalls(money, card, options, reply)
      ensures r == AuthResponse(old(failure), options, reply, testMode)
    {
      ghost var prior := failure;
      ConfigureRisk(options);
      SendAuth(money, card, options);
      ghost var sent := calls;
      ghost var thresholds := CurrentThresholds();
      assert failure == prior;

      var avsCode, cvnCode;
      match FirstAuthorized(reply.statusLog) {
        case Some(i) =>
          avsCode, cvnCode := reply.statusLog[i].avsCode, reply.statusLog[i].cvnCode;
        case None =>
          avsCode, cvnCode := Missing, Missing;
      }
      ghost var d := AuthDecision(options, reply);
      assert Signal(avsCode, cvnCode) == SignalOf(reply.statusLog);
      assert d == Decide(thresholds, Signal(avsCode, cvnCode));
      r := ScreenAuthorization(avsCode, cvnCode, reply);
      assert CurrentThresholds() == thresholds;
      assert failure == FailureAfter(prior, d);
      ghost var cancel := if Cancels(d) then [CancelCall(reply.ref)] else [];
      assert calls == sent + cancel;
      assert AuthCalls(money, card, options, reply) == [AuthRequest(money, card, options)] + cancel;
      AppendAssociative(old(calls), [AuthRequest(money, card, options)], cancel);
    }

    /**
     * The request part of `do_auth`: the cardholder name and the normalised billing
     * address, sent with the card, its expiration date and the configured risk threshold.
     */
    method SendAuth(money: int, card: CreditCard, options: Options)
      requires PickAddress(options).Some?
      requires riskFail == RiskConfig(options).riskFail
      modifies this`calls
      ensures calls == old(calls) + [AuthRequest(money, card, options)]
    {
      var address := PickAddress(options).value;
      var addressHash := NormalizeAddress(NameOn(card), address);
      calls := calls + [AuthCall(money, NameOn(card), card.number, Expdate(card), addressHash, riskFail)];
    }

    /**
     * The decision chain of `do_auth` on the codes read from the status log:
     * record the reason of a fail or moderate match, cancel on a fail match.
     */
    method ScreenAuthorization(avsCode: RiskCode, cvnCode: RiskCode, reply: AuthReply) returns (r: Response)
      modifies this`failure, this`calls
      ensures var d := Decide(CurrentThresholds(), Signal(avsCode, cvnCode));
        failure == FailureAfter(old(failure), d) &&
        calls == old(calls) + (if Cancels(d) then [CancelCall(reply.ref)] else []) &&
        r == ResponseFor(failure, reply.record, d == FraudReview, testMode)
    {
      if Includes(cvnFail, cvnCode) {
        failure := Some(CvnFailedMessage);
        calls := calls + [CancelCall(reply.ref)];
        r := ResponseFor(failure, reply.record, false, testMode);
      } else if Includes(avsFail, avsCode) {
        failure := Some(AvsFailedMessage);
        calls := calls + [CancelCall(reply.ref)];
        r := ResponseFor(failure, reply.record, false, testMode);
      } else if Includes(cvnModerate, cvnCode) || Includes(avsModerate, avsCode) {
        failure := Some(FraudReviewMessage);
        r := ResponseFor(failure, reply.record, true, testMode);
      } else {
        r := ResponseFor(failure, reply.record, false, testMode);
      }
    }

    /**
     * `do_capture`: captures the transaction, looks up the record by the id the
     * capture reports, and records "Capture failed" when nothing was captured.
     */
    method DoCapture(money: int, authorization: Option<string>, reply: CaptureReply,
                     find: string -> RemoteRecord) returns (r: Response)
      requires |reply.resultIds| > 0
      modifies this`failure, this`calls
      ensures failure == FailureAfterCapture(old(failure), reply)
      ensures calls == old(calls) + [CaptureCall(authorization), FindCall(reply.resultIds[0])]
      ensures r == ResponseFor(failure, find(reply.resultIds[0]), false, testMode)
      ensures reply.successful == 0 ==> !r.success && !r.fraudReview
    {
      calls := calls + [CaptureCall(authorization)];
      var id := reply.resultIds[0];
      calls := calls + [FindCall(id)];
      var transaction := find(id);
      if reply.successful == 0 {
        failure := Some(CaptureFailedMessage);
      }
      r := ResponseFor(failure, transaction, false, testMode);
    }
  }

  /**
   * Two authorizations on one gateway: after a CVN failure, a second authorization
   * that passes every check with status 200 is still unsuccessful and still reports
   * the first one's reason, because the recorded failure is never cleared.
   */
  method StaleFailureExample(card: CreditCard, options: Options, first: AuthReply, second: AuthReply)
    returns (r1: Response, r2: Response)
    requires PickAddress(options).Some?
    requires AuthDecision(options, first) == CvnFailed
    requires AuthDecision(options, second) == Passed && second.record.status.code == 200
    ensures !r1.success && !r2.success && !r2.fraudReview
    ensures r2.message == CvnFailedMessage
  {
    var gateway := new VindiciaGateway(false);
    r1 := gateway.Authorize(0, card, options, first);
    r2 := gateway.Authorize(0, card, options, second);
  }
}
