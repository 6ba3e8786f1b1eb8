# Vindicia gateway transaction engine, modelled in Dafny

This project models the decision logic of ActiveMerchant's Vindicia payment gateway
(`lib/active_merchant/billing/gateways/vindicia.rb`):

- **Risk configuration** (`configure_risk`): per-call CVN/AVS fail and moderate code lists and the
  risk score thresholds, each taken from the options or from a fixed default.
- **Authorization** (`authorize` / `do_auth`): the billing address is normalised, the authorization
  is sent, the AVS and CVN codes of the first `Authorized` status-log entry are read, and a
  first-match chain decides: CVN fail (cancel), AVS fail (cancel), fraud review, or pass.
- **Capture** (`capture` / `do_capture`): capture by token, look up the record by the id the capture
  reports, and record "Capture failed" when the capture succeeded for no transaction.
- **Purchase** (`purchase`): authorize, and capture only after an authorization that succeeded without
  fraud review.
- **Normalisation** (`response_for`, `message_from`, `success?`, `ok?`) and the formatting helpers
  `name_on` and `expdate`.

The processor is not called. What `Transaction.auth`, `Transaction.capture` and `Transaction.find`
return is given to the operations as values (`AuthReply`, `CaptureReply`, a `find` function).
Every call the gateway issues (auth, cancel, capture, find) is appended to the gateway's `calls` log.
So the contracts can say exactly when a cancel or a capture is issued.

Files: `wrappers.dfy` (Option, standing for nil), `text.dfy` (Ruby's `%4d` / `%02d` formatting, a literal
`=~` match, `to_s` and `join` on nil), `risk.dfy` (the status-log lookup and the decision chain, pure),
`vindicia.dfy` (inputs and outputs, normalisation, and the `VindiciaGateway` class).

The gateway is a class. Its fields are the thresholds, the recorded failure `failure` (Ruby's `@failure`)
and the call log. `do_auth` and `do_capture` are methods, and each one's `ensures` gives the new failure,
the new call log and the response as functions of the inputs and the old state. `success?` and
`message_from` read `@failure` in the source. Here they are pure functions, and the methods pass them the
field's current value.

Behaviour of the code that the model keeps, even where a reader might expect
something else:

- `@failure` is set by a failed or held authorization and by a zero-count capture, and nothing ever resets
  it. After one failure, every later authorization on the same gateway object is unsuccessful, and a
  purchase never captures again (`StickyFailure`, `StaleFailureExample`). A per-call failure slot would
  behave differently.
- With no `Authorized` entry the codes become an empty list (line 118), not a string, so they match no
  threshold list and the authorization passes (`MissingSignalPasses`). The comment on line 117 says
  "fail normally". A reading in which the missing signal is held for review (through the `""` in the
  default CVN moderate list) does not match the code either: only an empty code *string* is held
  (`EmptyCvnStringIsModerate`).
- `detect` takes the first `Authorized` entry in the order the processor lists them, not necessarily the latest.
- The decision chain runs whatever status the processor reports, so a cancel can be issued after a non-200
  authorization. Such a response is unsuccessful, and its message is the processor's text unless the text
  contains "(Internal)".
- The token of every response is the record's `merchantTransactionId`, when present, on failed responses as well.

## Model

| member | source | states |
|---|---|---|
| `Risk.SignalOf` | lib/active_merchant/billing/gateways/vindicia.rb:113-119 | the AVS and CVN codes the chain tests, read from the first Authorized entry or both the non-string placeholder; see `SignalFromFirstAuthorized` and `NoAuthorizedEntryMeansMissing` |
| `Risk.FirstAuthorized` | lib/active_merchant/billing/gateways/vindicia.rb:113 | the index of the first status-log entry whose status is "Authorized", or none exactly when no entry has that status |
| `Risk.SignalFromFirstAuthorized` | lib/active_merchant/billing/gateways/vindicia.rb:113-115 | the AVS and CVN codes the chain compares are those of the first Authorized entry |
| `Risk.NoAuthorizedEntryMeansMissing` | lib/active_merchant/billing/gateways/vindicia.rb:116-119 | without an Authorized entry both codes are the non-string placeholder |
| `Risk.Includes` | lib/active_merchant/billing/gateways/vindicia.rb:121-129 | `include?` on a threshold list; finds only string codes, so the placeholder is never found; see `IncludesIff` |
| `Risk.Decide` | lib/active_merchant/billing/gateways/vindicia.rb:121-133 | the first-match chain; a CVN failure exactly when the CVN fail list holds the CVN code, and a pass only when neither moderate list matches; see `CvnFailWins`, `AvsFailRule`, `FraudReviewRule`, `PassRule` |
| `Risk.MissingSignalPasses` | lib/active_merchant/billing/gateways/vindicia.rb:118-133 | without an Authorized entry the chain passes under every threshold configuration: no cancel, no failure |
| `Risk.CvnFailWins` | lib/active_merchant/billing/gateways/vindicia.rb:121-124 | a CVN code in the CVN fail list decides a CVN failure with a cancel, whatever the AVS code and the other lists |
| `Risk.AvsFailRule` | lib/active_merchant/billing/gateways/vindicia.rb:125-128 | an AVS failure is decided iff the AVS code is in the AVS fail list and the CVN code is not in the CVN fail list |
| `Risk.FraudReviewRule` | lib/active_merchant/billing/gateways/vindicia.rb:129-131 | fraud review is decided iff neither fail list matches and the CVN or the AVS moderate list does |
| `Risk.PassRule` | lib/active_merchant/billing/gateways/vindicia.rb:132-133 | the authorization passes iff none of the four lists matches |
| `Risk.ModerateNeverOutranksFail` | lib/active_merchant/billing/gateways/vindicia.rb:121-131 | when a fail list matches, the decision cancels and does not depend on the moderate lists |
| `Risk.CancelAndReason` | lib/active_merchant/billing/gateways/vindicia.rb:121-134 | a cancel is issued iff a fail list matches; a failure reason is recorded iff the decision is not a pass |
| `Risk.Cancels` | lib/active_merchant/billing/gateways/vindicia.rb:121-128 | whether a decision issues `Transaction.cancel` (lines 123, 127): exactly the two fail branches; see `CancelAndReason` |
| `Risk.Reason` | lib/active_merchant/billing/gateways/vindicia.rb:122-130 | the failure text each branch records: "CVN check failed", "AVS check failed", "AVS/CVN triggered fraud review", none on a pass; see `CvnFailWins`, `CancelAndReason` |
| `Risk.FailureAfter` | lib/active_merchant/billing/gateways/vindicia.rb:122-130 | a fail or moderate decision records its reason, a pass leaves the earlier failure as it was |
| `Risk.EmptyCvnStringIsModerate` | lib/active_merchant/billing/gateways/vindicia.rb:41 | with the default lists an empty CVN code string, with an AVS code outside the AVS fail list, is held for fraud review |
| `Risk.DefaultAvsFailScenario` | lib/active_merchant/billing/gateways/vindicia.rb:125-128 | with the default lists, AVS N with CVN M fails the AVS check |
| `Risk.DefaultReviewScenario` | lib/active_merchant/billing/gateways/vindicia.rb:129-131 | with the default lists, AVS X with CVN U is held for fraud review |
| `Risk.DefaultPassScenario` | lib/active_merchant/billing/gateways/vindicia.rb:132-133 | with the default lists, AVS X with CVN M passes |
| `Risk.DefaultCvnFailScenario` | lib/active_merchant/billing/gateways/vindicia.rb:121-124 | with the default lists, CVN P fails the CVN check even with the moderate AVS code A |
| `Risk.IncludesIff` | lib/active_merchant/billing/gateways/vindicia.rb:121 | the `include?` scan finds a code iff the code is a string that is an element of the list |
| `Vindicia.RiskConfig` | lib/active_merchant/billing/gateways/vindicia.rb:36-47 | the thresholds `configure_risk` sets; with no options these are the defaults, and a given fail list is used as given; see `RiskConfigDefaults`, `RiskConfigOptionReplacesOwnDefault` |
| `Vindicia.RiskConfigDefaults` | lib/active_merchant/billing/gateways/vindicia.rb:36-47 | with no options the thresholds are 100, 100, cvn_fail N P S, cvn_moderate U and "", avs_fail N C E, avs_moderate A B W Z P U I |
| `Vindicia.RiskConfigOptionReplacesOwnDefault` | lib/active_merchant/billing/gateways/vindicia.rb:36-47 | supplying one option changes exactly the threshold it names and no other |
| `Vindicia.VindiciaGateway.ConfigureRisk` | lib/active_merchant/billing/gateways/vindicia.rb:36-47 | the gateway's threshold fields become the configuration of the options; the failure and the call log are not touched |
| `Vindicia.VindiciaGateway.constructor` | lib/active_merchant/billing/gateways/vindicia.rb:22-34 | a new gateway has no failure recorded and has issued no call |
| `Vindicia.VindiciaGateway.Purchase` | lib/active_merchant/billing/gateways/vindicia.rb:49-54 | after a reviewed or unsuccessful authorization the result is that response and no capture is issued; otherwise the chain passed with no earlier failure, and a capture with the authorization's token and a find follow, whose response is returned; success and fraud review are never both true |
| `Vindicia.VindiciaGateway.Authorize` | lib/active_merchant/billing/gateways/vindicia.rb:56-58 | as `DoAuth` |
| `Vindicia.VindiciaGateway.Capture` | lib/active_merchant/billing/gateways/vindicia.rb:60-62 | as `DoCapture` |
| `Vindicia.VindiciaGateway.DoAuth` | lib/active_merchant/billing/gateways/vindicia.rb:69-135 | the thresholds come from the options; one auth call is logged, followed by a cancel of the transaction ref exactly on a fail decision; the failure and the response follow the decision on the first Authorized entry's codes |
| `Vindicia.VindiciaGateway.SendAuth` | lib/active_merchant/billing/gateways/vindicia.rb:70-112 | exactly one auth call is logged, carrying the cardholder name, card number, expiration date, normalised billing address and configured risk threshold |
| `Vindicia.VindiciaGateway.ScreenAuthorization` | lib/active_merchant/billing/gateways/vindicia.rb:121-134 | the first-match chain on the gateway's lists: the decision's reason is recorded, a cancel is logged iff it is a fail, and the response is flagged for review iff it is a moderate match |
| `Vindicia.VindiciaGateway.DoCapture` | lib/active_merchant/billing/gateways/vindicia.rb:137-143 | a capture of the token then a find by the first result's id are logged; "Capture failed" is recorded when nothing was captured, and the response is that of the found record, then unsuccessful |
| `Vindicia.AuthDecision` | lib/active_merchant/billing/gateways/vindicia.rb:113-133 | the chain outcome for the configured thresholds and the reply's status log; specifies `DoAuth` |
| `Vindicia.AuthRequest` | lib/active_merchant/billing/gateways/vindicia.rb:106-112 | the `Transaction.auth` call: amount, card name, number, expiration date, normalised address, `@risk_fail`; specifies `SendAuth` |
| `Vindicia.AuthCalls` | lib/active_merchant/billing/gateways/vindicia.rb:106-127 | the auth call, followed by a cancel of its ref on a fail match; specifies `DoAuth`'s call log |
| `Vindicia.AuthResponse` | lib/active_merchant/billing/gateways/vindicia.rb:121-154 | the authorization response given the earlier failure; see `AuthResponseRule`, `StickyFailure` |
| `Vindicia.Captures` | lib/active_merchant/billing/gateways/vindicia.rb:51 | `purchase` goes on to capture exactly when the authorization succeeded and is not under review; specifies `Purchase` |
| `Vindicia.AuthResponseRule` | lib/active_merchant/billing/gateways/vindicia.rb:145-154 | an authorization succeeds iff the chain passes, no failure was recorded before and the status is 200; it is under review iff the match is moderate, and then unsuccessful; a failure with status 200 reports its reason |
| `Vindicia.StickyFailure` | lib/active_merchant/billing/gateways/vindicia.rb:168-170 | once a failure is recorded every later authorization is unsuccessful and purchase does not capture |
| `Vindicia.StaleFailureExample` | lib/active_merchant/billing/gateways/vindicia.rb:121-124 | on one gateway, a passing 200 authorization after a CVN failure is unsuccessful and reports "CVN check failed" |
| `Vindicia.FailureAfterCapture` | lib/active_merchant/billing/gateways/vindicia.rb:141 | the failure after a capture: "Capture failed" when nothing succeeded, otherwise unchanged; it never clears a failure; see `ZeroCaptureFails` |
| `Vindicia.ZeroCaptureFails` | lib/active_merchant/billing/gateways/vindicia.rb:141-142 | a capture that succeeded for no transaction is unsuccessful even if the found record says 200, and then reports "Capture failed" |
| `Vindicia.ResponseFor` | lib/active_merchant/billing/gateways/vindicia.rb:145-154 | `response_for`; see `SuccessRule` and `TokenRule` |
| `Vindicia.Succeeded` | lib/active_merchant/billing/gateways/vindicia.rb:168-170 | `success?`: never holds with a failure recorded, and only with status 200; see `OkIsStatus200` |
| `Vindicia.IsOk` | lib/active_merchant/billing/gateways/vindicia.rb:177-179 | `ok?`: status 200; see `OkIsStatus200` |
| `Vindicia.MessageFrom` | lib/active_merchant/billing/gateways/vindicia.rb:156-159 | `message_from`: the processor text when no failure is recorded, and always either that text or the failure; see `MessageRule` |
| `Vindicia.SuccessRule` | lib/active_merchant/billing/gateways/vindicia.rb:145-154 | a response succeeds iff no failure is recorded and the status code is 200; it carries the review flag, the test flag and the record's fields unchanged |
| `Vindicia.OkIsStatus200` | lib/active_merchant/billing/gateways/vindicia.rb:177-179 | with no failure recorded `success?` agrees with `ok?` (status 200); with a failure recorded it never holds |
| `Vindicia.MessageRule` | lib/active_merchant/billing/gateways/vindicia.rb:156-159 | the message is the recorded failure iff one is recorded and the status is 200 or the text contains "(Internal)"; otherwise it is the processor's text |
| `Vindicia.TokenRule` | lib/active_merchant/billing/gateways/vindicia.rb:152 | the token is the record's merchantTransactionId, and absent exactly when the record has none |
| `Vindicia.PickAddress` | lib/active_merchant/billing/gateways/vindicia.rb:70 | the billing address when given, else the shipping address, else the plain address; none only when all three are nil |
| `Vindicia.NormalizeAddress` | lib/active_merchant/billing/gateways/vindicia.rb:71-78 | the address hash: it carries the name, and an all-nil address becomes empty strings; see `NormalizeAddressFields` |
| `Vindicia.NormalizeAddressFields` | lib/active_merchant/billing/gateways/vindicia.rb:71-78 | each present address field is sent verbatim and each nil field as "" |
| `Vindicia.NameOn` | lib/active_merchant/billing/gateways/vindicia.rb:65-67 | `name_on`: first name, a blank, last name, so one character longer than the two; see `NameOnRoundTrip` |
| `Vindicia.NameOnRoundTrip` | lib/active_merchant/billing/gateways/vindicia.rb:65-67 | the name is first and last name joined by a blank (nil as ""); splitting at the first blank gives both back when the first name has none |
| `Vindicia.Expdate` | lib/active_merchant/billing/gateways/vindicia.rb:173-175 | `expdate`: the `%4d` year then the `%02d` month, at least six characters; see `ExpdateLayout` |
| `Vindicia.ExpdateLayout` | lib/active_merchant/billing/gateways/vindicia.rb:173-175 | for a four-digit year and a month below 100 the date is six digits, the first four reading as the year and the last two as the month |
| `Vindicia.FourDigitYear` | lib/active_merchant/billing/gateways/vindicia.rb:174 | `%4d` of a four-digit year is its four digits, which read back as the year |
| `Vindicia.TwoDigitMonth` | lib/active_merchant/billing/gateways/vindicia.rb:174 | `%02d` of a month below 100 is two digits, which read back as the month |
| `Text.FormatWidth` | lib/active_merchant/billing/gateways/vindicia.rb:174 | `%<w>d`: exactly max(w, length of the signed decimal) long, the signed decimal right-justified after blanks |
| `Text.FormatZeroPad` | lib/active_merchant/billing/gateways/vindicia.rb:174 | `%0<w>d`: at least `w` long and non-empty, starting with a minus sign exactly when the number is negative; see `ZeroPadLayout`, `ZeroPadRoundTrip` |
| `Text.ZeroPadLayout` | lib/active_merchant/billing/gateways/vindicia.rb:174 | `%0<w>d` is exactly max(w, digit count) long for a non-negative number; a negative one is a minus sign, zeros, then the digits of its magnitude, max(w - 1, digit count) after the sign |
| `Text.ZeroPadRoundTrip` | lib/active_merchant/billing/gateways/vindicia.rb:174 | `%0<w>d` of a non-negative number is all digits, at least w long, and reads back as the number |
| `Text.DigitsRoundTrip` | lib/active_merchant/billing/gateways/vindicia.rb:174 | the decimal rendering of a number reads back as the number |
| `Text.HasInfix` | lib/active_merchant/billing/gateways/vindicia.rb:157 | the literal match of `=~`: never finds a pattern longer than the text, and finds one at the start; see `HasInfixIff` |
| `Text.HasInfixIff` | lib/active_merchant/billing/gateways/vindicia.rb:157 | the literal match finds the pattern iff it occurs at some index of the text |
| `Text.ToS` | lib/active_merchant/billing/gateways/vindicia.rb:73-77 | `to_s` on a string or nil: the string itself, or "" for nil |
| `Text.JoinWithSpace` | lib/active_merchant/billing/gateways/vindicia.rb:66 | `join(" ")` of two strings or nils: the first, a blank, the second; see `JoinSplitRoundTrip` |
| `Text.JoinSplitRoundTrip` | lib/active_merchant/billing/gateways/vindicia.rb:66 | joining two strings with a blank is undone by splitting at the first blank when the first has none |

## Left out

- Loading the vindicia gem and `Vindicia.authenticate` in `initialize` (lines 22-34): credentials and the environment are not modelled. The constructor takes only the test-mode flag.
- The SOAP calls `Transaction.auth`, `cancel`, `capture`, `find` and `new`, plus `to_hash` and `request_status`. Their results are inputs and the calls are log entries. The ref of `Transaction.new(auth)` is modelled as the token itself.
- `money/100.0` (lines 108, 111) is floating point. The amount is logged in integer minor units. `do_capture` ignores `money`, as the source does.
- `test_mode` (lines 164, 181-183) reads the processor environment. It is the gateway's `testMode` constant, fixed at construction.
- `error_from` (lines 161-166) is never called.
- Class metadata (lines 4-20): URLs, supported countries and card types, names.
- Request-hash fields beyond the cardholder name, card number, expiration date, billing address and risk threshold: account id, e-mail, `warnBeforeAutobilling`, the payment-method `type`, order id, currency, line items, name values, the CVN name value, the shipping address (the same normalised hash sent a second time, line 110) and the third `false` argument of `Transaction.auth` (line 112).
- Nil parts of processor records are not modelled: a nil `statusLog` (line 113) or a nil `creditCardStatus` (line 114) raises in the source, and a nil `request.response` makes `message_from` return nil (lines 157-158). `AuthReply.statusLog`, the `LogEntry` codes' container and `RequestStatus.response` are always present values here.
- `do_auth` raises when no address option is given (lines 70-73). This is a precondition of `DoAuth`, `Authorize` and `Purchase`.
- `do_capture` raises when the capture reports no results (`results[0]` is nil, line 140). This is a precondition of `DoCapture` and `Capture`, and of `Purchase` when it is going to capture.
- Ruby's `||` also replaces `false` with the default. Options are modelled as nil or a value only.
- Threshold lists hold strings only. A list holding a non-string is not modelled. `Missing` stands for both a nil code and the empty list of line 118, since neither equals a string.
- `risk_moderate` is stored and never read by the source. The model stores it too.
- Concurrent use of one gateway object is not modelled.
- The Optimal Payments tests exercise a gateway that is not part of this model. The remote Vindicia tests depend on the live processor's messages.
