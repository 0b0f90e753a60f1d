/**
 * The bulk-send loop of `/send-messages` (index.js:219-249): one send per
 * recipient, strictly in input order; a failed send is recorded and the loop
 * goes on.
 *
 * `client.sendMessage` is an oracle: `outcomeOf(i)` is what the call for the
 * recipient at index `i` did (resolved, or threw an error with a message).
 */
module Dispatch {
  import opened Wrappers
  import Formatter

  /** An element of the parsed `numbers` array; only a string has `.replace`. */
  datatype JsonItem = JString(text: string) | JOther

  /** How `client.sendMessage` is called for one recipient. */
  datatype SendMode = MediaWithCaption(caption: string) | MediaOnly | TextOnly(text: string)

  /** One call of `client.sendMessage`: the chat ID and what is sent to it. */
  datatype Send = Send(chatId: string, mode: SendMode)

  /** What one `sendMessage` call did: it resolved, or it threw with this message. */
  datatype SendOutcome = Delivered | Failed(message: string)

  /** One element of the reply's `results`: the raw number as submitted. */
  datatype SendResult = SendResult(number: string, success: bool, error: Option<string>)

  /** The reply's `summary`: `total`, `enviados` (succeeded) and `fallidos` (failed). */
  datatype Summary = Summary(total: nat, succeeded: nat, failed: nat)

  /** `number.replace(/[^\d]/g, '')`. */
  function DigitsOnly(number: string): (r: string)
    ensures |r| <= |number|
    ensures forall i :: 0 <= i < |r| ==> Formatter.IsDigit(r[i])
  {
    Formatter.Retain(number, Formatter.IsDigit)
  }

  /**
   * The chat ID the loop sends to: the digits of the number, then the suffix.
   * No `+` is kept and leading zeros stay.
   */
  function DispatchId(number: string): (r: string)
    ensures Formatter.EndsWith(r, Formatter.Suffix)
  {
    DigitsOnly(number) + Formatter.Suffix
  }

  /** A dispatch ID is digits only, then the suffix. */
  lemma DispatchIdShape(number: string)
    ensures var r := DispatchId(number);
            && Formatter.EndsWith(r, Formatter.Suffix)
            && forall i :: 0 <= i < |r| - |Formatter.Suffix| ==> Formatter.IsDigit(r[i])
  {
    var digits := DigitsOnly(number);
    assert (digits + Formatter.Suffix)[..|digits|] == digits;
    assert (digits + Formatter.Suffix)[|digits|..] == Formatter.Suffix;
  }

  /**
   * For a number without `+` whose digits do not start with `0`, the general
   * formatter and the loop's narrower transform differ only by the `+`.
   */
  lemma DispatchIdMatchesFormatter(number: string)
    requires forall i :: 0 <= i < |number| ==> number[i] != '+'
    requires !Formatter.StartsWith(DigitsOnly(number), '0')
    ensures Formatter.Formatted(number) == "+" + DispatchId(number)
  {
    var digits := DigitsOnly(number);
    Formatter.RetainAgrees(number, Formatter.IsDialChar, Formatter.IsDigit);
    assert Formatter.KeepDialChars(number) == digits;
    assert Formatter.StripLeadingZeros(digits) == digits;
    assert !Formatter.StartsWith(digits, '+');
    assert Formatter.PhonePart(number) == "+" + digits;
  }

  /** `mensajesPorNumero[i] || ''`: the message for index `i`, empty when absent. */
  function MessageAt(messages: seq<string>, i: nat): (m: string)
    ensures i < |messages| ==> m == messages[i]
    ensures i >= |messages| ==> m == ""
  {
    if i < |messages| then messages[i] else ""
  }

  /**
   * The send mode: media with caption when there is media and a non-empty
   * message, media alone when there is media only, text otherwise.
   */
  function ModeFor(hasMedia: bool, message: string): (r: SendMode)
    ensures r.MediaWithCaption? <==> hasMedia && message != ""
    ensures r.MediaOnly? <==> hasMedia && message == ""
    ensures r.TextOnly? <==> !hasMedia
    ensures r.MediaWithCaption? ==> r.caption == message
    ensures r.TextOnly? ==> r.text == message
  {
    if hasMedia && message != "" then MediaWithCaption(message)
    else if hasMedia then MediaOnly
    else TextOnly(message)
  }

  /** The send performed for recipient `i`. */
  function SendFor(number: string, messages: seq<string>, hasMedia: bool, i: nat): Send
  {
    Send(DispatchId(number), ModeFor(hasMedia, MessageAt(messages, i)))
  }

  /** The result recorded for recipient `number` whose send had `outcome`. */
  function ResultFor(number: string, outcome: SendOutcome): (r: SendResult)
    ensures r.number == number
    ensures r.success <==> outcome.Delivered?
    ensures r.error.None? <==> r.success
    ensures outcome.Failed? ==> r.error == Some(outcome.message)
  {
    match outcome
    case Delivered => SendResult(number, true, None)
    case Failed(message) => SendResult(number, false, Some(message))
  }

  /** `results.filter(r => r.success).length`. */
  function CountSucceeded(results: seq<SendResult>): (n: nat)
    ensures n <= |results|
    ensures n == 0 <==> forall i :: 0 <= i < |results| ==> !results[i].success
  {
    if results == [] then 0
    else (if results[0].success then 1 else 0) + CountSucceeded(results[1..])
  }

  /** `results.filter(r => !r.success).length`. */
  function CountFailed(results: seq<SendResult>): (n: nat)
    ensures n <= |results|
    ensures n == 0 <==> forall i :: 0 <= i < |results| ==> results[i].success
  {
    if results == [] then 0
    else (if results[0].success then 0 else 1) + CountFailed(results[1..])
  }

  /** Every result is counted once, as a success or as a failure. */
  lemma {:induction false} CountsAddUp(results: seq<SendResult>)
    ensures CountSucceeded(results) + CountFailed(results) == |results|
  {
    if results != [] {
      CountsAddUp(results[1..]);
    }
  }

  /** The reply's summary for a finished loop over `total` numbers. */
  function Summarize(total: nat, results: seq<SendResult>): (s: Summary)
    requires |results| == total
    ensures s.total == total && s.succeeded + s.failed == total
    ensures s.succeeded == CountSucceeded(results) && s.failed == CountFailed(results)
  {
    CountsAddUp(results);
    Summary(total, CountSucceeded(results), CountFailed(results))
  }

  /**
   * The loop at index.js:219-241. Recipient `i` is sent to its digits-only ID
   * with the mode its message and the media decide, and gets exactly one
   * result whatever the outcome of earlier sends. A number that is not a
   * string makes `.replace` throw outside the per-recipient `try`: the loop
   * stops there (`aborted`), after the sends before it.
   */
  method SendAll(numbers: seq<JsonItem>, messages: seq<string>, hasMedia: bool,
                 outcomeOf: nat -> SendOutcome)
    returns (results: seq<SendResult>, sent: seq<Send>, aborted: bool)
    ensures |sent| <= |numbers|
    ensures forall i :: 0 <= i < |sent| ==>
              numbers[i].JString? && sent[i] == SendFor(numbers[i].text, messages, hasMedia, i)
    ensures aborted ==> |sent| < |numbers| && numbers[|sent|].JOther?
    ensures !aborted ==> |sent| == |numbers| && |results| == |numbers|
    ensures !aborted ==> forall i :: 0 <= i < |numbers| ==> numbers[i].JString?
    ensures !aborted ==> forall i :: 0 <= i < |numbers| ==>
              results[i] == ResultFor(numbers[i].text, outcomeOf(i))
  {
    results, sent, aborted := [], [], false;
    var i := 0;
    while i < |numbers|
      invariant 0 <= i <= |numbers|
      invariant |sent| == i && |results| == i
      invariant forall j :: 0 <= j < i ==>
                  numbers[j].JString? && sent[j] == SendFor(numbers[j].text, messages, hasMedia, j)
      invariant forall j :: 0 <= j < i ==> results[j] == ResultFor(numbers[j].text, outcomeOf(j))
    {
      var number := numbers[i];
      if number.JOther? {
        aborted := true;
        return;
      }
      var formattedNumber := DigitsOnly(number.text) + Formatter.Suffix;
      var messageIndividual := MessageAt(messages, i);
      var mode;
      if hasMedia && messageIndividual != "" {
        mode := MediaWithCaption(messageIndividual);
      } else if hasMedia {
        mode := MediaOnly;
      } else {
        mode := TextOnly(messageIndividual);
      }
      var call := Send(formattedNumber, mode);
      assert call == SendFor(number.text, messages, hasMedia, i);
      sent := sent + [call];
      var result;
      match outcomeOf(i) {
        case Delivered =>
          result := SendResult(number.text, true, None);
        case Failed(message) =>
          result := SendResult(number.text, false, Some(message));
      }
      assert result == ResultFor(number.text, outcomeOf(i));
      results := results + [result];
      i := i + 1;
    }
  }

  /**
   * Two recipients, the second send fails: two results in input order and a
   * summary of one success and one failure.
   */
  method TwoRecipientsOneFailure() returns (results: seq<SendResult>, summary: Summary)
    ensures results == [SendResult("15551234567", true, None),
                        SendResult("15557654321", false, Some("send failed"))]
    ensures summary == Summary(2, 1, 1)
  {
    var outcomeOf := i => if i == 1 then Failed("send failed") else Delivered;
    var sent, aborted;
    results, sent, aborted := SendAll([JString("15551234567"), JString("15557654321")],
                                      ["hi", "yo"], false, outcomeOf);
    assert results == [ResultFor("15551234567", outcomeOf(0)), ResultFor("15557654321", outcomeOf(1))];
    summary := Summarize(2, results);
    assert CountSucceeded(results[1..]) == 0;
    assert CountFailed(results[1..]) == 1;
  }
}
