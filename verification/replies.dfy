/** What a webhook request answers, in place of the HTTP response: a success
    notice or a classified failure, its status code and its message text. */
module Replies {
  import opened Basics

  datatype Notice =
    | AlreadyProcessed
    | NotRelevant
      /** The event was committed; the later handler reports the user id. */
    | Processed(userId: Option<nat>)

  datatype Failure =
    | InvalidEvent
    | MissingCustomer
    | MissingSubscriptionData
      /** An exception inside the handler's try block, including a failed commit. */
    | ProcessingFailed
      /** An exception nothing catches; the web framework answers it. */
    | Unhandled

  datatype Reply = Ok(notice: Notice) | Err(failure: Failure)
  {
    /** The only replies after which the store may differ. */
    predicate IsProcessed()
    {
      Ok? && notice.Processed?
    }
  }

  function StatusCode(r: Reply): (code: nat)
    ensures code == 200 <==> r.Ok?
    ensures code == 400 <==> r.Err? && r.failure in {InvalidEvent, MissingCustomer, MissingSubscriptionData}
    ensures code == 500 <==> r == Err(ProcessingFailed) || r == Err(Unhandled)
  {
    match r
    case Ok(_) => 200
    case Err(f) =>
      match f
      case InvalidEvent => 400
      case MissingCustomer => 400
      case MissingSubscriptionData => 400
      case ProcessingFailed => 500
      case Unhandled => 500
  }

  const ProcessedPrefix: string := "Event processed successfully for user id "

  function DigitChar(d: nat): char
    requires d < 10
  {
    ('0' as int + d) as char
  }

  predicate IsDigit(c: char)
  {
    '0' <= c <= '9'
  }

  /** The decimal text Python's `str` gives a non-negative int. */
  function NatToString(n: nat): (s: string)
    ensures |s| >= 1
    ensures forall i :: 0 <= i < |s| ==> IsDigit(s[i])
    ensures |s| > 1 ==> s[0] != '0'
  {
    if n < 10 then [DigitChar(n)] else NatToString(n / 10) + [DigitChar(n % 10)]
  }

  /** Python's `int` on a string of ASCII decimal digits; `None` on every
      other string, including some `int` accepts (see the README). */
  function ParseDigits(s: string): (r: Option<nat>)
    ensures r.Some? <==> |s| >= 1 && forall i :: 0 <= i < |s| ==> IsDigit(s[i])
  {
    if |s| == 0 || !IsDigit(s[|s| - 1]) then None
    else
      var d := (s[|s| - 1] as int - '0' as int) as nat;
      if |s| == 1 then Some(d)
      else
        match ParseDigits(s[..|s| - 1])
        case None => None
        case Some(v) => Some(10 * v + d)
  }

  lemma {:induction false} NatToStringRoundTrip(n: nat)
    ensures ParseDigits(NatToString(n)) == Some(n)
  {
    if n >= 10 {
      var s := NatToString(n);
      assert s[..|s| - 1] == NatToString(n / 10);
      NatToStringRoundTrip(n / 10);
    }
  }

  /** The message text of a reply; the exception text a 500 appends after
      its prefix is not modelled. */
  function Text(r: Reply): string
  {
    match r
    case Ok(AlreadyProcessed) => "Event already processed"
    case Ok(NotRelevant) => "Event type not relevant, ignoring"
    case Ok(Processed(None)) => "Event processed successfully"
    case Ok(Processed(Some(id))) => ProcessedPrefix + NatToString(id)
    case Err(InvalidEvent) => "Invalid event data -- event id not found"
    case Err(MissingCustomer) => "Customer ID not found in event data"
    case Err(MissingSubscriptionData) => "Subscription data not found in event"
    case Err(ProcessingFailed) => "Failed to process event: "
    case Err(Unhandled) => "Internal Server Error"
  }

  /** How a caller learns the new user's id from the webhook answer: the
      integer after "user id ". */
  function UserIdFromMessage(m: string): Option<nat>
  {
    if |ProcessedPrefix| <= |m| && m[..|ProcessedPrefix|] == ProcessedPrefix
    then ParseDigits(m[|ProcessedPrefix|..])
    else None
  }

  /** The user id a processed reply carries can be read back from its text. */
  lemma UserIdRoundTrip(id: nat)
    ensures UserIdFromMessage(Text(Ok(Processed(Some(id))))) == Some(id)
  {
    assert Text(Ok(Processed(Some(id))))[|ProcessedPrefix|..] == NatToString(id);
    NatToStringRoundTrip(id);
  }

  /** No other reply's text yields a user id. */
  lemma OnlyProcessedRepliesCarryUserId(r: Reply)
    requires !(r.IsProcessed() && r.notice.userId.Some?)
    ensures UserIdFromMessage(Text(r)) == None
  {
  }
}
