/**
 * The Vindicia gateway's client-side risk policy: the status-log lookup that
 * yields the AVS and CVN codes of an authorization, the default threshold
 * lists, and the first-match decision chain of `do_auth`.
 */
module Risk {
  import opened Wrappers

  /**
   * A risk code as the decision chain sees it. `Code(s)` is a code string
   * reported by the processor; `Missing` is any non-string value in its place:
   * the empty list the gateway substitutes when no authorization entry exists,
   * or a nil code. Neither equals a string, so `Missing` is in no threshold list.
   */
  datatype RiskCode = Missing | Code(text: string)

  /** One entry of a transaction's status log, with its card status codes. */
  datatype LogEntry = LogEntry(status: string, avsCode: RiskCode, cvnCode: RiskCode)

  /** The AVS and CVN codes that the decision chain tests. */
  datatype Signal = Signal(avs: RiskCode, cvn: RiskCode)

  /** The per-call thresholds held by the gateway after `configure_risk`. */
  datatype Thresholds = Thresholds(
    riskFail: int,
    riskModerate: int,
    cvnFail: seq<string>,
    cvnModerate: seq<string>,
    avsFail: seq<string>,
    avsModerate: seq<string>)

  const AuthorizedStatus: string := "Authorized"

  const DefaultRiskFail: int := 100
  const DefaultRiskModerate: int := 100
  const DefaultCvnFail: seq<string> := ["N", "P", "S"]
  const DefaultCvnModerate: seq<string> := ["U", ""]
  const DefaultAvsFail: seq<string> := ["N", "C", "E"]
  const DefaultAvsModerate: seq<string> := ["A", "B", "W", "Z", "P", "U", "I"]

  const CvnFailedMessage: string := "CVN check failed"
  const AvsFailedMessage: string := "AVS check failed"
  const FraudReviewMessage: string := "AVS/CVN triggered fraud review"

  /** Ruby's `detect`: the index of the first entry whose status is "Authorized", if any. */
  function FirstAuthorized(log: seq<LogEntry>): (r: Option<nat>)
    ensures r.None? <==> forall i :: 0 <= i < |log| ==> log[i].status != AuthorizedStatus
    ensures r.Some? ==> r.value < |log| && log[r.value].status == AuthorizedStatus
    ensures r.Some? ==> forall j :: 0 <= j < r.value ==> log[j].status != AuthorizedStatus
  {
    if log == [] then None
    else if log[0].status == AuthorizedStatus then Some(0)
    else match FirstAuthorized(log[1..])
      case None => None
      case Some(k) => Some(k + 1)
  }

  /** The codes the decision chain tests: those of the first authorized entry, else both missing. */
  function SignalOf(log: seq<LogEntry>): Signal {
    match FirstAuthorized(log)
    case Some(i) => Signal(log[i].avsCode, log[i].cvnCode)
    case None => Signal(Missing, Missing)
  }

  /** Ruby's `list.include?(code)` for a list of strings: a scan comparing each element with the code. */
  predicate Includes(list: seq<string>, c: RiskCode)
    ensures Includes(list, c) ==> c.Code?
  {
    list != [] && (Code(list[0]) == c || Includes(list[1..], c))
  }

  /** The scan finds the code exactly when the code is a string in the list. */
  lemma {:induction false} IncludesIff(list: seq<string>, c: RiskCode)
    ensures Includes(list, c) <==> c.Code? && c.text in list
  {
    if list != [] {
      IncludesIff(list[1..], c);
      assert list == [list[0]] + list[1..];
    }
  }

  /** The four outcomes of the decision chain. */
  datatype Decision = CvnFailed | AvsFailed | FraudReview | Passed

  /** The first-match chain of `do_auth`: CVN fail, then AVS fail, then either moderate list. */
  function Decide(t: Thresholds, s: Signal): (d: Decision)
    ensures d == CvnFailed <==> Includes(t.cvnFail, s.cvn)
    ensures d == Passed ==> !Includes(t.cvnModerate, s.cvn) && !Includes(t.avsModerate, s.avs)
  {
    if Includes(t.cvnFail, s.cvn) then CvnFailed
    else if Includes(t.avsFail, s.avs) then AvsFailed
    else if Includes(t.cvnModerate, s.cvn) || Includes(t.avsModerate, s.avs) then FraudReview
    else Passed
  }

  /** Whether the decision cancels the authorization at the processor. */
  predicate Cancels(d: Decision) {
    d == CvnFailed || d == AvsFailed
  }

  /** The failure reason the decision records, if any. */
  function Reason(d: Decision): Option<string> {
    match d
    case CvnFailed => Some(CvnFailedMessage)
    case AvsFailed => Some(AvsFailedMessage)
    case FraudReview => Some(FraudReviewMessage)
    case Passed => None
  }

  /** The recorded failure after a decision: a new reason replaces it, otherwise it is kept. */
  function FailureAfter(prior: Option<string>, d: Decision): (f: Option<string>)
    ensures d != Passed ==> f == Reason(d)
    ensures d == Passed ==> f == prior
  {
    if Reason(d).Some? then Reason(d) else prior
  }

  const DefaultThresholds: Thresholds := Thresholds(
    DefaultRiskFail, DefaultRiskModerate,
    DefaultCvnFail, DefaultCvnModerate, DefaultAvsFail, DefaultAvsModerate)

  // ---------------------------------------------------------------------------
  // Properties of the decision chain

  /** The signal is read from the first authorized entry, and is missing when there is none (`NoAuthorizedEntryMeansMissing`). */
  lemma SignalFromFirstAuthorized(log: seq<LogEntry>, i: nat)
    requires i < |log| && log[i].status == AuthorizedStatus
    requires forall j :: 0 <= j < i ==> log[j].status != AuthorizedStatus
    ensures SignalOf(log) == Signal(log[i].avsCode, log[i].cvnCode)
  {
    var k := FirstAuthorized(log).value;
    assert !(k < i) && !(i < k);
  }

  lemma NoAuthorizedEntryMeansMissing(log: seq<LogEntry>)
    requires forall i :: 0 <= i < |log| ==> log[i].status != AuthorizedStatus
    ensures SignalOf(log) == Signal(Missing, Missing)
  {
  }

  /** A CVN code in the CVN fail list decides a CVN failure, whatever the AVS code and the other lists. */
  lemma CvnFailWins(t: Thresholds, s: Signal)
    requires Includes(t.cvnFail, s.cvn)
    ensures Decide(t, s) == CvnFailed
    ensures Cancels(Decide(t, s)) && Reason(Decide(t, s)) == Some(CvnFailedMessage)
  {
  }

  /** An AVS failure is decided exactly when the AVS code fails and the CVN code does not. */
  lemma AvsFailRule(t: Thresholds, s: Signal)
    ensures Decide(t, s) == AvsFailed <==> !Includes(t.cvnFail, s.cvn) && Includes(t.avsFail, s.avs)
  {
  }

  /** Fraud review is decided exactly when neither fail list matches and a moderate list does. */
  lemma FraudReviewRule(t: Thresholds, s: Signal)
    ensures Decide(t, s) == FraudReview <==>
      !Includes(t.cvnFail, s.cvn) && !Includes(t.avsFail, s.avs) &&
      (Includes(t.cvnModerate, s.cvn) || Includes(t.avsModerate, s.avs))
  {
  }

  /** The authorization passes exactly when no list matches. */
  lemma PassRule(t: Thresholds, s: Signal)
    ensures Decide(t, s) == Passed <==>
      !Includes(t.cvnFail, s.cvn) && !Includes(t.avsFail, s.avs) &&
      !Includes(t.cvnModerate, s.cvn) && !Includes(t.avsModerate, s.avs)
  {
  }

  /** The moderate lists never outrank a fail match: changing them leaves a fail decision as it is. */
  lemma ModerateNeverOutranksFail(t: Thresholds, s: Signal, cvnModerate: seq<string>, avsModerate: seq<string>)
    requires Includes(t.cvnFail, s.cvn) || Includes(t.avsFail, s.avs)
    ensures Cancels(Decide(t, s))
    ensures Decide(t.(cvnModerate := cvnModerate, avsModerate := avsModerate), s) == Decide(t, s)
  {
  }

  /** A cancel is issued exactly when a fail list matches; a reason is recorded unless the decision passes. */
  lemma CancelAndReason(t: Thresholds, s: Signal)
    ensures Cancels(Decide(t, s)) <==> Includes(t.cvnFail, s.cvn) || Includes(t.avsFail, s.avs)
    ensures Reason(Decide(t, s)).None? <==> Decide(t, s) == Passed
  {
  }

  /**
   * With no authorized entry the codes are `Missing`, which no list holds, so
   * the transaction passes under every threshold configuration, the default
   * one (whose CVN moderate list holds "") included.
   */
  lemma MissingSignalPasses(t: Thresholds, log: seq<LogEntry>)
    requires forall i :: 0 <= i < |log| ==> log[i].status != AuthorizedStatus
    ensures Decide(t, SignalOf(log)) == Passed
  {
    IncludesIff(t.cvnFail, Missing);
    IncludesIff(t.avsFail, Missing);
    IncludesIff(t.cvnModerate, Missing);
    IncludesIff(t.avsModerate, Missing);
  }

  /** An empty CVN code string, unlike a missing one, is held for review by the defaults. */
  lemma EmptyCvnStringIsModerate(avs: string)
    requires avs !in DefaultAvsFail
    ensures Decide(DefaultThresholds, Signal(Code(avs), Code(""))) == FraudReview
  {
    IncludesIff(DefaultCvnFail, Code(""));
    IncludesIff(DefaultAvsFail, Code(avs));
    IncludesIff(DefaultCvnModerate, Code(""));
  }

  /** Worked cases under the default thresholds: AVS "N" with CVN "M" fails the AVS check. */
  lemma DefaultAvsFailScenario()
    ensures Decide(DefaultThresholds, Signal(Code("N"), Code("M"))) == AvsFailed
  {
    IncludesIff(DefaultCvnFail, Code("M"));
    IncludesIff(DefaultAvsFail, Code("N"));
  }

  /** AVS "X" with CVN "U" is held for fraud review. */
  lemma DefaultReviewScenario()
    ensures Decide(DefaultThresholds, Signal(Code("X"), Code("U"))) == FraudReview
  {
    IncludesIff(DefaultCvnFail, Code("U"));
    IncludesIff(DefaultAvsFail, Code("X"));
    IncludesIff(DefaultCvnModerate, Code("U"));
  }

  /** AVS "X" with CVN "M" passes. */
  lemma DefaultPassScenario()
    ensures Decide(DefaultThresholds, Signal(Code("X"), Code("M"))) == Passed
  {
    assert !Includes(DefaultCvnFail, Code("M")) by { IncludesIff(DefaultCvnFail, Code("M")); }
    assert !Includes(DefaultAvsFail, Code("X")) by { IncludesIff(DefaultAvsFail, Code("X")); }
    assert !Includes(DefaultCvnModerate, Code("M")) by { IncludesIff(DefaultCvnModerate, Code("M")); }
    assert !Includes(DefaultAvsModerate, Code("X")) by { IncludesIff(DefaultAvsModerate, Code("X")); }
  }

  /** A CVN "P" fails the CVN check even with a moderate AVS "A". */
  lemma DefaultCvnFailScenario()
    ensures Decide(DefaultThresholds, Signal(Code("A"), Code("P"))) == CvnFailed
  {
    IncludesIff(DefaultCvnFail, Code("P"));
  }
}
