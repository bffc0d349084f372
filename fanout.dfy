/** The delivery loop shared by `check_and_notify_prices` (src/task.py),
    `admin_announcement` (src/handler.py) and `check_prices` / `admin_announcement`
    (src/bot.py): one send per recipient in order; recipients whose send fails with
    Forbidden or BadRequest are collected and the loop goes on; any other exception
    ends the handler; afterwards one bulk `is_active = False` update runs, and only
    when something was collected. */
module FanOut {
  import opened Wrappers
  import opened Models
  import opened Store
  import opened Telegram

  /** The sends attempted, the chat ids collected as undeliverable, and whether an
      uncaught exception ended the loop. */
  datatype Report = Report(attempted: seq<Message>, failed: seq<Value>, raised: bool)

  /** `address(u)` is the value the loop reads as the chat id; `None` stands for the
      AttributeError of reading an attribute the user object lacks. */
  function MessageTo(u: User, text: string, address: User -> Option<Value>): Message
    requires address(u).Some?
  {
    Message(address(u).value, Text(text))
  }

  /** The recipients at which the loop stops with an exception. */
  predicate Stops(u: User, text: string, address: User -> Option<Value>, oracle: Message -> SendOutcome) {
    address(u).None? || oracle(MessageTo(u, text, address)) == OtherError
  }

  predicate Undeliverable(r: SendOutcome) {
    r == Forbidden || r == BadRequest
  }

  /** One iteration of the loop. */
  function Step(r: Report, u: User, text: string, address: User -> Option<Value>, oracle: Message -> SendOutcome): Report {
    if r.raised then r
    else match address(u)
      case None => r.(raised := true)
      case Some(chat) =>
        var m := Message(chat, Text(text));
        match oracle(m)
        case Delivered => r.(attempted := r.attempted + [m])
        case Forbidden => r.(attempted := r.attempted + [m], failed := r.failed + [chat])
        case BadRequest => r.(attempted := r.attempted + [m], failed := r.failed + [chat])
        case OtherError => r.(attempted := r.attempted + [m], raised := true)
  }

  /** The report of the loop over the given recipients. */
  function Deliveries(rs: seq<User>, text: string, address: User -> Option<Value>, oracle: Message -> SendOutcome): Report
    decreases |rs|
  {
    if rs == [] then Report([], [], false)
    else Step(Deliveries(rs[..|rs| - 1], text, address, oracle), rs[|rs| - 1], text, address, oracle)
  }

  lemma DeliveriesSnoc(rs: seq<User>, i: nat, text: string, address: User -> Option<Value>, oracle: Message -> SendOutcome)
    requires i < |rs|
    ensures Deliveries(rs[..i + 1], text, address, oracle) == Step(Deliveries(rs[..i], text, address, oracle), rs[i], text, address, oracle)
  {
    assert rs[..i + 1][..i] == rs[..i];
  }

  /** Once the loop has raised, later recipients change nothing. */
  lemma {:induction false} RaisedFinal(rs: seq<User>, i: nat, text: string, address: User -> Option<Value>, oracle: Message -> SendOutcome)
    requires i <= |rs|
    requires Deliveries(rs[..i], text, address, oracle).raised
    ensures Deliveries(rs, text, address, oracle) == Deliveries(rs[..i], text, address, oracle)
    decreases |rs| - i
  {
    if i < |rs| {
      DeliveriesSnoc(rs, i, text, address, oracle);
      RaisedFinal(rs, i + 1, text, address, oracle);
    } else {
      assert rs[..i] == rs;
    }
  }

  /** The messages for recipients none of which lacks an address. */
  function Messages(rs: seq<User>, text: string, address: User -> Option<Value>): (ms: seq<Message>)
    requires forall j :: 0 <= j < |rs| ==> address(rs[j]).Some?
    ensures |ms| == |rs|
    ensures forall j :: 0 <= j < |rs| ==> ms[j] == Message(address(rs[j]).value, Text(text))
  {
    seq(|rs|, j requires 0 <= j < |rs| => MessageTo(rs[j], text, address))
  }

  /** The chats of the messages whose send fails with Forbidden or BadRequest, in order. */
  function FailedChats(ms: seq<Message>, oracle: Message -> SendOutcome): seq<Value>
    decreases |ms|
  {
    if ms == [] then []
    else FailedChats(ms[..|ms| - 1], oracle) + (if Undeliverable(oracle(ms[|ms| - 1])) then [ms[|ms| - 1].chat] else [])
  }

  /** Every chat FailedChats collects is the chat of a failing message. */
  lemma {:induction false} FailedChatsSound(ms: seq<Message>, oracle: Message -> SendOutcome, v: Value)
    requires v in FailedChats(ms, oracle)
    ensures exists j :: 0 <= j < |ms| && ms[j].chat == v && Undeliverable(oracle(ms[j]))
    decreases |ms|
  {
    var front := ms[..|ms| - 1];
    if v in FailedChats(front, oracle) {
      FailedChatsSound(front, oracle, v);
      var j :| 0 <= j < |front| && front[j].chat == v && Undeliverable(oracle(front[j]));
      assert ms[j] == front[j];
    } else {
      assert ms[|ms| - 1].chat == v && Undeliverable(oracle(ms[|ms| - 1]));
    }
  }

  /** Every failing message's chat is collected. */
  lemma {:induction false} FailedChatsComplete(ms: seq<Message>, oracle: Message -> SendOutcome, j: nat)
    requires j < |ms| && Undeliverable(oracle(ms[j]))
    ensures ms[j].chat in FailedChats(ms, oracle)
    decreases |ms|
  {
    if j < |ms| - 1 {
      FailedChatsComplete(ms[..|ms| - 1], oracle, j);
    }
  }

  /** With no recipient that stops the loop, every recipient gets exactly one attempt,
      in order, all with the same text, nothing raises, and the collected chats are
      exactly those whose send failed with Forbidden or BadRequest. */
  lemma {:induction false} DeliveriesNoStop(rs: seq<User>, text: string, address: User -> Option<Value>, oracle: Message -> SendOutcome)
    requires forall j :: 0 <= j < |rs| ==>
      address(rs[j]).Some? && oracle(MessageTo(rs[j], text, address)) != OtherError
    ensures var r := Deliveries(rs, text, address, oracle);
      && !r.raised
      && r.attempted == Messages(rs, text, address)
      && r.failed == FailedChats(Messages(rs, text, address), oracle)
    decreases |rs|
  {
    if rs != [] {
      var front := rs[..|rs| - 1];
      DeliveriesNoStop(front, text, address, oracle);
      var ms := Messages(rs, text, address);
      assert ms[..|rs| - 1] == Messages(front, text, address);
      assert ms == Messages(front, text, address) + [MessageTo(rs[|rs| - 1], text, address)];
    }
  }

  /** At the first recipient that stops the loop, the loop raises: the sends before it
      are all attempted, its own send is attempted when it has an address, nothing after
      it is attempted, and only failures before it are collected. */
  lemma FirstStopRaises(rs: seq<User>, k: nat, text: string, address: User -> Option<Value>, oracle: Message -> SendOutcome)
    requires k < |rs| && Stops(rs[k], text, address, oracle)
    requires forall j :: 0 <= j < k ==>
      address(rs[j]).Some? && oracle(MessageTo(rs[j], text, address)) != OtherError
    ensures var r := Deliveries(rs, text, address, oracle);
      && r.raised
      && r.attempted == Messages(rs[..k], text, address)
           + (if address(rs[k]).Some? then [MessageTo(rs[k], text, address)] else [])
      && r.failed == FailedChats(Messages(rs[..k], text, address), oracle)
  {
    DeliveriesNoStop(rs[..k], text, address, oracle);
    DeliveriesSnoc(rs, k, text, address, oracle);
    RaisedFinal(rs, k + 1, text, address, oracle);
  }

  /** The loop raises exactly when some recipient stops it. */
  lemma RaisedIffStop(rs: seq<User>, text: string, address: User -> Option<Value>, oracle: Message -> SendOutcome)
    ensures Deliveries(rs, text, address, oracle).raised <==> exists j :: 0 <= j < |rs| && Stops(rs[j], text, address, oracle)
  {
    if exists j :: 0 <= j < |rs| && Stops(rs[j], text, address, oracle) {
      var k := FirstStopExists(rs, text, address, oracle);
      FirstStopRaises(rs, k, text, address, oracle);
    } else {
      DeliveriesNoStop(rs, text, address, oracle);
    }
  }

  lemma {:induction false} FirstStopExists(rs: seq<User>, text: string, address: User -> Option<Value>, oracle: Message -> SendOutcome)
    returns (k: nat)
    requires exists j :: 0 <= j < |rs| && Stops(rs[j], text, address, oracle)
    ensures k < |rs| && Stops(rs[k], text, address, oracle)
    ensures forall j :: 0 <= j < k ==> !Stops(rs[j], text, address, oracle)
    decreases |rs|
  {
    if Stops(rs[0], text, address, oracle) {
      k := 0;
    } else {
      var j :| 0 <= j < |rs| && Stops(rs[j], text, address, oracle);
      assert Stops(rs[1..][j - 1], text, address, oracle);
      var k1 := FirstStopExists(rs[1..], text, address, oracle);
      k := k1 + 1;
      assert forall i :: 1 <= i <= k1 ==> rs[i] == rs[1..][i - 1];
    }
  }

  /** `for target_user in user_list: ...` followed by the conditional bulk update. */
  method Broadcast(bot: Bot, users: UserCollection, rs: seq<User>, text: string, address: User -> Option<Value>)
    returns (report: Report)
    modifies bot, users
    ensures report == Deliveries(rs, text, address, bot.outcome)
    ensures bot.sent == old(bot.sent) + report.attempted
    ensures !report.raised && report.failed != [] ==>
      users.docs == Deactivate(old(users.docs), report.failed) && users.bulkUpdates == old(users.bulkUpdates) + [report.failed]
    ensures report.raised || report.failed == [] ==>
      users.docs == old(users.docs) && users.bulkUpdates == old(users.bulkUpdates)
  {
    ghost var start := bot.sent;
    var attempted: seq<Message> := [];
    var failed: seq<Value> := [];
    var raised := false;
    var i := 0;
    while i < |rs| && !raised
      invariant 0 <= i <= |rs|
      invariant Report(attempted, failed, raised) == Deliveries(rs[..i], text, address, bot.outcome)
      invariant bot.sent == start + attempted
      invariant users.docs == old(users.docs) && users.bulkUpdates == old(users.bulkUpdates)
    {
      DeliveriesSnoc(rs, i, text, address, bot.outcome);
      var target := rs[i];
      var chat := address(target);
      if chat.None? {
        raised := true;
      } else {
        var m := Message(chat.value, Text(text));
        var r := bot.Send(m);
        attempted := attempted + [m];
        if r == Forbidden || r == BadRequest {
          failed := failed + [chat.value];
        } else if r == OtherError {
          raised := true;
        }
      }
      i := i + 1;
    }
    if raised {
      RaisedFinal(rs, i, text, address, bot.outcome);
    } else {
      assert rs[..i] == rs;
    }
    report := Report(attempted, failed, raised);
    if !raised && failed != [] {
      users.DeactivateMany(failed);
    }
  }
}
