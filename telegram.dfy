/** The part of the Telegram Bot API the bot uses: sending a text or a photo to a chat.
    The bot keeps the log of every send it attempted; whether a send succeeds is an
    oracle fixed when the bot is built. A send that does not succeed raises the
    corresponding `telegram.error` exception in the caller. */
module Telegram {
  import opened Wrappers
  import opened Models
  import opened Utils

  datatype Body = Text(text: string) | Photo(chart: Chart)

  /** A chat id is whatever value the caller passes as `chat_id`. */
  datatype Message = Message(chat: Value, body: Body)

  /** `Forbidden` (the user blocked the bot) and `BadRequest` (e.g. the chat does not
      exist) are the two errors the fan-out loops catch; `OtherError` is any other
      exception a send can raise. */
  datatype SendOutcome = Delivered | Forbidden | BadRequest | OtherError

  class Bot {
    /** Every message the bot attempted to send, in order. */
    var sent: seq<Message>
    const outcome: Message -> SendOutcome

    constructor (outcome: Message -> SendOutcome)
      ensures sent == [] && this.outcome == outcome
    {
      sent := [];
      this.outcome := outcome;
    }

    /** `send_message` / `send_photo`. */
    method Send(m: Message) returns (r: SendOutcome)
      modifies this
      ensures sent == old(sent) + [m]
      ensures r == outcome(m)
    {
      sent := sent + [m];
      r := outcome(m);
    }
  }

  /** The position of the first message whose send does not succeed. */
  function FirstFailure(ms: seq<Message>, outcome: Message -> SendOutcome): (r: Option<nat>)
    ensures r.Some? ==> r.value < |ms| && outcome(ms[r.value]) != Delivered
    ensures r.Some? ==> forall j :: 0 <= j < r.value ==> outcome(ms[j]) == Delivered
    ensures r.None? <==> forall j :: 0 <= j < |ms| ==> outcome(ms[j]) == Delivered
    decreases |ms|
  {
    if ms == [] then None
    else if outcome(ms[0]) != Delivered then Some(0)
    else match FirstFailure(ms[1..], outcome)
      case None => None
      case Some(j) => Some(j + 1)
  }

  /** The messages a handler sending `ms` one after another actually attempts: all of
      them, or those up to and including the first send that raises. */
  function Attempted(ms: seq<Message>, outcome: Message -> SendOutcome): seq<Message> {
    match FirstFailure(ms, outcome)
    case None => ms
    case Some(k) => ms[..k + 1]
  }

  lemma FirstFailureAt(ms: seq<Message>, outcome: Message -> SendOutcome, k: nat)
    requires k < |ms| && outcome(ms[k]) != Delivered
    requires forall j :: 0 <= j < k ==> outcome(ms[j]) == Delivered
    ensures FirstFailure(ms, outcome) == Some(k)
  {
  }

  /** Attempted sends form a prefix of the messages; every attempted send but the last
      succeeds; all are attempted exactly when none but possibly the last fails. */
  lemma AttemptedPrefix(ms: seq<Message>, outcome: Message -> SendOutcome)
    ensures var a := Attempted(ms, outcome);
      && |a| <= |ms| && a == ms[..|a|]
      && (forall j :: 0 <= j < |a| - 1 ==> outcome(a[j]) == Delivered)
      && ((forall j :: 0 <= j < |ms| ==> outcome(ms[j]) == Delivered) ==> a == ms)
      && (|a| < |ms| ==> outcome(a[|a| - 1]) != Delivered)
  {
  }
}
