/** Blabber's `BlabberModel`: the countdown stream and the `forEach` that
    sends it, the reply table of the geocoder in `shareLocation`, the
    guards and the body of `say`, and the line rules of `readMessages`.
    The two versions modelled (the intermediate async/await final and the
    task-and-continuation starter) differ only in the authorization guard of
    `shareLocation` and in spelling; where they differ it is said below.
    Network replies, geocoder replies and JSON decoding come in as
    parameters. */
module Blabber {
  import opened Common

  /** `Message` as the model sees it: who wrote it (none for a system
      message) and its text; its `id` and `date` are not modelled. */
  datatype ChatMessage = ChatMessage(user: Option<string>, message: string)

  /** One line of the chat stream, as the two JSON decoders read it: as a
      `ServerStatus` (its `activeUsers`) and as a `Message`. */
  datatype ChatLine = ChatLine(status: Option<int>, update: Option<ChatMessage>)

  /** `CLAuthorizationStatus`. */
  datatype AuthorizationStatus =
    | NotDetermined | Restricted | Denied | AuthorizedAlways | AuthorizedWhenInUse

  /** What `say` throws when the server does not answer 200. */
  const ServerError: Error := Message("The server responded with an error.")

  /** The reply handler of `AddressEncoder.addressFor`: an address is used
      whenever there is one, even alongside an error; without an address
      the error is thrown, or "Address encoding failed" when there is none. */
  function AddressFor(address: Option<string>, error: Option<Error>): (r: Result<string>)
    ensures r.Ok? <==> address.Some?
    ensures r.Ok? ==> r.value == address.value
    ensures address.None? && error.Some? ==> r == Err(error.value)
    ensures address.None? && error.None? ==> r == Err(Message("Address encoding failed"))
  {
    match (address, error)
    case (None, Some(e)) => Err(e)
    case (Some(a), None) => Ok(a)
    case (None, None) => Err(Message("Address encoding failed"))
    case (Some(a), Some(_)) => Ok(a)
  }

  /** The authorization guard of `shareLocation`. */
  predicate Authorized(status: AuthorizationStatus)
  {
    status in {AuthorizedAlways, AuthorizedWhenInUse}
  }

  /** The value the countdown stream's closure returns for the captured
      counter: "n..." for a positive counter, the message after a party
      popper at zero, and the end of the stream below zero. */
  function CountdownValue(count: int, message: string): (v: Option<string>)
    ensures v.Some? <==> count >= 0
  {
    if count >= 1 then Some(IntToString(count) + "...")
    else if count == 0 then Some("🎉 " + message)
    else None
  }

  /** What the countdown to `message` sends when nothing interrupts it. */
  function CountdownTexts(message: string): seq<string>
  {
    ["3...", "2...", "1...", "🎉 " + message]
  }

  /** How many values the countdown stream yields when the sleep before
      pull number `cancelledAt` (counting from 0) is cancelled: the pulls
      before it, at most four; an empty message yields nothing, for
      `countdown` returns first. */
  function YieldCount(message: string, cancelledAt: Option<nat>): (n: nat)
    ensures n <= 4
    ensures message != [] && cancelledAt.None? ==> n == 4
  {
    if message == [] then 0
    else if cancelledAt.Some? && cancelledAt.value < 4 then cancelledAt.value
    else 4
  }

  /** Pull number `i` finds the counter, started at 3 and lowered once per
      earlier pull, at `3 - i`: the first four pulls give the four texts in
      order and the fifth ends the stream. */
  lemma CountdownStep(message: string, i: nat)
    requires i <= 4
    ensures i < 4 ==> CountdownValue(3 - i, message) == Some(CountdownTexts(message)[i])
    ensures i == 4 ==> CountdownValue(3 - i, message).None?
  {
    assert DigitChar(3) == '3' && DigitChar(2) == '2' && DigitChar(1) == '1';
    assert NatToString(3) == "3" && NatToString(2) == "2" && NatToString(1) == "1";
    if i == 0 {
      assert IntToString(3) + "..." == "3...";
    } else if i == 1 {
      assert IntToString(2) + "..." == "2...";
    } else if i == 2 {
      assert IntToString(1) + "..." == "1...";
    }
  }

  /** `forEach` over a sequence whose elements the block maps to an
      outcome: the index of the first element on which the block throws. */
  function FirstFailure<T>(elements: seq<T>, block: T -> Result<()>): (k: Option<nat>)
    ensures k.Some? ==> k.value < |elements| && block(elements[k.value]).Err?
    ensures k.Some? ==> forall j :: 0 <= j < k.value ==> block(elements[j]).Ok?
    ensures k.None? ==> forall j :: 0 <= j < |elements| ==> block(elements[j]).Ok?
  {
    if elements == [] then None
    else if block(elements[0]).Err? then Some(0)
    else match FirstFailure(elements[1..], block)
      case None => None
      case Some(j) => Some(j + 1)
  }

  /** The messages that arrive after the status line and decode, in
      arrival order. */
  function Updates(lines: seq<ChatLine>): (updates: seq<ChatMessage>)
    ensures |updates| <= |lines|
  {
    if lines == [] then []
    else Updates(lines[..|lines| - 1])
         + (if lines[|lines| - 1].update.Some? then [lines[|lines| - 1].update.value] else [])
  }

  /** The lines of two stretches of the stream contribute their messages
      one after the other. */
  lemma {:induction false} UpdatesConcat(a: seq<ChatLine>, b: seq<ChatLine>)
    ensures Updates(a + b) == Updates(a) + Updates(b)
    decreases |b|
  {
    if b != [] {
      assert (a + b)[..|a + b| - 1] == a + b[..|b| - 1];
      UpdatesConcat(a, b[..|b| - 1]);
    } else {
      assert a + b == a;
    }
  }

  /** A line's message is kept exactly when it decodes, and nothing else
      is kept: undecodable lines are skipped. */
  lemma {:induction false} UpdatesKeepDecodable(lines: seq<ChatLine>)
    ensures forall i :: 0 <= i < |lines| && lines[i].update.Some? ==> lines[i].update.value in Updates(lines)
    ensures forall m :: m in Updates(lines) ==> exists i :: 0 <= i < |lines| && lines[i].update == Some(m)
    ensures (forall i :: 0 <= i < |lines| ==> lines[i].update.None?) ==> Updates(lines) == []
  {
    if lines != [] {
      var init := lines[..|lines| - 1];
      UpdatesKeepDecodable(init);
      forall m | m in Updates(lines)
        ensures exists i :: 0 <= i < |lines| && lines[i].update == Some(m)
      {
        if m in Updates(init) {
          var i :| 0 <= i < |init| && init[i].update == Some(m);
          assert lines[i] == init[i];
        } else {
          assert lines[|lines| - 1].update == Some(m);
        }
      }
      forall i | 0 <= i < |lines| && lines[i].update.Some?
        ensures lines[i].update.value in Updates(lines)
      {
        if i < |lines| - 1 {
          assert init[i] == lines[i];
        }
      }
    }
  }

  class BlabberModel {
    var username: string
    /** The published chat messages. */
    var messages: seq<ChatMessage>

    constructor ()
      ensures username == "" && messages == []
    {
      username, messages := "", [];
    }

    /** `say(_:isSystemMessage:)`: empty text sends nothing. Otherwise the
        message is posted, without a user when it is a system message and
        under `username` otherwise; `response` is what the session brings
        back, a status code or a transport error, and anything but 200
        throws. */
    method Say(text: string, isSystemMessage: bool, response: Result<int>)
      returns (r: Result<()>, posted: Option<ChatMessage>)
      ensures text == [] ==> r == Ok(()) && posted == None
      ensures text != [] ==> posted.Some? && posted.value.message == text
      ensures text != [] && isSystemMessage ==> posted == Some(ChatMessage(None, text))
      ensures text != [] && !isSystemMessage ==> posted == Some(ChatMessage(Some(username), text))
      ensures text != [] ==> (r.Ok? <==> response == Ok(200))
      ensures text != [] && response.Err? ==> r == Err(response.error)
      ensures text != [] && response.Ok? && response.value != 200 ==> r == Err(ServerError)
    {
      if text == [] {
        return Ok(()), None;
      }
      var message := ChatMessage(if isSystemMessage then None else Some(username), text);
      posted := Some(message);
      if response.Err? {
        return Err(response.error), posted;
      }
      if response.value != 200 {
        return Err(ServerError), posted;
      }
      r := Ok(());
    }

    /** `countdown(to:)`: the stream's closure sleeps, which ends the
        stream when the sleep before pull number `cancelledAt` is cancelled,
        then returns the value for the captured counter and (`defer`) lowers
        it; `forEach` says each value and stops at the first `say` that
        throws, which is say number `failsAt` (its response is taken to be a
        non-200 status). `remaining` is the counter's final value. */
    method Countdown(message: string, cancelledAt: Option<nat>, failsAt: Option<nat>)
      returns (r: Result<()>, sent: seq<ChatMessage>, remaining: int)
      ensures failsAt.Some? && failsAt.value < YieldCount(message, cancelledAt) ==>
                r == Err(ServerError) && |sent| == failsAt.value + 1
      ensures !(failsAt.Some? && failsAt.value < YieldCount(message, cancelledAt)) ==>
                r == Ok(()) && |sent| == YieldCount(message, cancelledAt)
      ensures forall i :: 0 <= i < |sent| ==>
                sent[i] == ChatMessage(Some(username), CountdownTexts(message)[i])
      ensures message == [] ==> remaining == 3
      ensures message != [] ==>
                remaining == 3 - |sent|
                  - (if r.Ok? && (cancelledAt.None? || cancelledAt.value > 4) then 1 else 0)
    {
      remaining := 3;
      sent := [];
      r := Ok(());
      if message == [] {
        return;
      }
      ghost var n := YieldCount(message, cancelledAt);
      var pulls := 0;
      while true
        invariant -1 <= remaining <= 3 && pulls == 3 - remaining
        invariant |sent| == pulls && pulls <= n
        invariant forall i :: 0 <= i < pulls ==> sent[i] == ChatMessage(Some(username), CountdownTexts(message)[i])
        invariant failsAt.Some? ==> failsAt.value >= pulls
        invariant cancelledAt.Some? ==> cancelledAt.value >= pulls
        decreases remaining + 1
      {
        if cancelledAt == Some(pulls) {
          break;
        }
        CountdownStep(message, pulls);
        var value := CountdownValue(remaining, message);
        remaining := remaining - 1;
        if value.None? {
          break;
        }
        var said, posted := Say(value.value, false, Ok(if failsAt == Some(pulls) then 500 else 200));
        sent := sent + [posted.value];
        pulls := pulls + 1;
        if said.Err? {
          r := said;
          break;
        }
      }
    }

    /** `shareLocation()` of the intermediate async/await version, once the
        location delegate has answered (`located` is the error it resumed
        with, if any): the geocoder's reply is resolved and the address is
        said with a pin in front; `response` is the server's answer. */
    method ShareLocation(located: Option<Error>, address: Option<string>, error: Option<Error>,
                         response: Result<int>)
      returns (r: Result<()>, posted: Option<ChatMessage>)
      ensures located.Some? ==> r == Err(located.value) && posted == None
      ensures located.None? && address.None? ==> r == Err(AddressFor(address, error).error) && posted == None
      ensures located.None? && address.Some? ==>
                posted == Some(ChatMessage(Some(username), "📍 " + address.value))
                && (r.Ok? <==> response == Ok(200))
    {
      if located.Some? {
        return Err(located.value), None;
      }
      var resolved := AddressFor(address, error);
      if resolved.Err? {
        return Err(resolved.error), None;
      }
      r, posted := Say("📍 " + resolved.value, false, response);
    }

    /** `shareLocation()` of the task-and-continuation starter: the same,
        behind the authorization guard. */
    method ShareLocationWhenAuthorized(authorization: AuthorizationStatus, located: Option<Error>,
                                       address: Option<string>, error: Option<Error>,
                                       response: Result<int>)
      returns (r: Result<()>, posted: Option<ChatMessage>)
      ensures !Authorized(authorization) ==>
                r == Err(Message("The app isn't authorized to use location data")) && posted == None
      ensures Authorized(authorization) && located.Some? ==> r == Err(located.value) && posted == None
      ensures Authorized(authorization) && located.None? && address.None? ==>
                r == Err(AddressFor(address, error).error) && posted == None
      ensures Authorized(authorization) && located.None? && address.Some? ==>
                posted == Some(ChatMessage(Some(username), "📍 " + address.value))
                && (r.Ok? <==> response == Ok(200))
    {
      if !Authorized(authorization) {
        return Err(Message("The app isn't authorized to use location data")), None;
      }
      r, posted := ShareLocation(located, address, error, response);
    }

    /** The `for try await` loop of `readMessages`: each line that decodes
        as a message is appended, in order; the others are skipped. */
    method AppendUpdates(lines: seq<ChatLine>)
      modifies this
      ensures messages == old(messages) + Updates(lines)
      ensures username == old(username)
    {
      for i := 0 to |lines|
        invariant messages == old(messages) + Updates(lines[..i])
        invariant username == old(username)
      {
        assert lines[..i + 1][..i] == lines[..i];
        if lines[i].update.Some? {
          messages := messages + [lines[i].update.value];
        }
      }
      assert lines[..|lines|] == lines;
    }

    /** `readMessages(stream:)`: the first line must decode as the server
        status, which is announced as "<n> active users"; every later line
        that decodes as a message is appended. `ending` is the error the
        byte stream throws after its last line, if any: it is rethrown,
        with the messages appended so far kept. */
    method ReadMessages(lines: seq<ChatLine>, ending: Option<Error>) returns (r: Result<()>)
      modifies this
      ensures username == old(username)
      ensures lines == [] && ending.Some? ==> r == Err(ending.value) && messages == old(messages)
      ensures lines == [] && ending.None? ==>
                r == Err(Message("No response from server")) && messages == old(messages)
      ensures lines != [] && lines[0].status.None? ==>
                r == Err(Message("Invalid response from server")) && messages == old(messages)
      ensures lines != [] && lines[0].status.Some? ==>
                messages == old(messages)
                  + [ChatMessage(None, IntToString(lines[0].status.value) + " active users")]
                  + Updates(lines[1..])
                && (if ending.Some? then r == Err(ending.value) else r == Ok(()))
    {
      if lines == [] {
        return if ending.Some? then Err(ending.value) else Err(Message("No response from server"));
      }
      if lines[0].status.None? {
        return Err(Message("Invalid response from server"));
      }
      messages := messages + [ChatMessage(None, IntToString(lines[0].status.value) + " active users")];
      AppendUpdates(lines[1..]);
      r := if ending.Some? then Err(ending.value) else Ok(());
    }
  }

  /** `AsyncSequence.forEach(_:)` over a finished sequence: the block runs
      on the elements in order until one throws, whose error is rethrown;
      `applied` counts the elements the block ran on. */
  method ForEach<T>(elements: seq<T>, block: T -> Result<()>) returns (r: Result<()>, applied: nat)
    ensures FirstFailure(elements, block).None? ==> r == Ok(()) && applied == |elements|
    ensures FirstFailure(elements, block).Some? ==>
              var k := FirstFailure(elements, block).value;
              applied == k + 1 && r == block(elements[k])
  {
    applied := 0;
    r := Ok(());
    while applied < |elements|
      invariant applied <= |elements|
      invariant forall j :: 0 <= j < applied ==> block(elements[j]).Ok?
    {
      var outcome := block(elements[applied]);
      applied := applied + 1;
      if outcome.Err? {
        FirstFailureAt(elements, block, applied - 1);
        return outcome, applied;
      }
    }
  }

  /** The first failure is the failing element that every earlier one
      precedes successfully. */
  lemma {:induction false} FirstFailureAt<T>(elements: seq<T>, block: T -> Result<()>, k: nat)
    requires k < |elements| && block(elements[k]).Err?
    requires forall j :: 0 <= j < k ==> block(elements[j]).Ok?
    ensures FirstFailure(elements, block) == Some(k)
  {
    if k > 0 {
      FirstFailureAt(elements[1..], block, k - 1);
    }
  }
}
