/** Routing of outgoing messages to named channels
    (communication-service/src/managers/CommunicationManager.cpp). A channel
    is its name and its send function; the console output of the concrete
    channels is not modelled. */
module CommunicationManagers {
  import opened Wrappers
  import opened Exceptions
  import opened Text

  /** A channel: `getName()` and `send(recipient, message)`. */
  datatype Channel = Channel(name: string, send: (string, string) -> bool)

  datatype Manager = Manager(channels: map<string, Channel>)

  /** The e-mail and SMS channels of the service: fixed names, and `send`
      reports success unconditionally. */
  function EmailChannel(): (c: Channel)
    ensures c.name == "email" && forall r, m :: c.send(r, m)
  {
    Channel("email", (r, m) => true)
  }

  function SmsChannel(): (c: Channel)
    ensures c.name == "sms" && forall r, m :: c.send(r, m)
  {
    Channel("sms", (r, m) => true)
  }

  /** registerChannel; `None` stands for a null pointer. A channel whose name
      is already registered replaces the earlier one. */
  function RegisterChannel(m: Manager, channel: Option<Channel>): (r: Result<Manager, Exception>)
    ensures r.Ok? <==> channel.Some? && channel.value.name != ""
    ensures channel.None? ==> r == Err(Invalid("Communication channel must not be null", "channel"))
    ensures channel.Some? && channel.value.name == "" ==>
              r == Err(Invalid("Communication channel name must not be empty", "channelName"))
    ensures r.Ok? ==> r.value.channels.Keys == m.channels.Keys + {channel.value.name}
    ensures r.Ok? ==> r.value.channels[channel.value.name] == channel.value
    ensures r.Ok? ==> forall n :: n in m.channels && n != channel.value.name ==> r.value.channels[n] == m.channels[n]
  {
    if channel.None? then Err(Invalid("Communication channel must not be null", "channel"))
    else if channel.value.name == "" then Err(Invalid("Communication channel name must not be empty", "channelName"))
    else Ok(Manager(m.channels[channel.value.name := channel.value]))
  }

  /** resolveRecipient: "user_" followed by the decimal id; non-positive ids are rejected. */
  function ResolveRecipient(accountId: int): (r: Result<string, Exception>)
    ensures r.Ok? <==> accountId > 0
    ensures r.Err? ==> r.error == Invalid("Invalid accountId", "accountId")
    ensures r.Ok? ==> IsPrefix("user_", r.value) && AllDigits(r.value[5..])
                      && DecimalValue(r.value[5..]) == accountId
  {
    if accountId <= 0 then Err(Invalid("Invalid accountId", "accountId"))
    else
      var digits := NatToDecimal(accountId);
      DecimalRoundTrip(accountId);
      assert ("user_" + digits)[5..] == digits;
      Ok("user_" + digits)
  }

  /** resolveChannel: even ids go to "email", odd ids to "sms". The parity
      test `% 2 == 0` agrees between C++ and Dafny for every sign. */
  function ResolveChannel(accountId: int): (r: string)
    ensures r == "email" <==> accountId % 2 == 0
    ensures r == "sms" <==> accountId % 2 != 0
  {
    if accountId % 2 == 0 then "email" else "sms"
  }

  const EmptyMessage: Exception := Invalid("Message must not be empty", "message")
  const ChannelNotFound: Exception := Invalid("Communication channel not found", "channelName")

  /** sendMessage: checks the message, then the recipient, then looks the
      channel up; a missing channel throws. */
  function SendMessage(m: Manager, accountId: int, message: string): (r: Result<bool, Exception>)
    ensures message == "" ==> r == Err(EmptyMessage)
    ensures message != "" && accountId <= 0 ==> r == Err(Invalid("Invalid accountId", "accountId"))
    ensures message != "" && accountId > 0 && ResolveChannel(accountId) !in m.channels ==> r == Err(ChannelNotFound)
    ensures r.Ok? <==> message != "" && accountId > 0 && ResolveChannel(accountId) in m.channels
    ensures r.Ok? ==> r.value == m.channels[ResolveChannel(accountId)].send(ResolveRecipient(accountId).value, message)
  {
    if message == "" then Err(EmptyMessage)
    else
      var recipient :- ResolveRecipient(accountId);
      var channelName := ResolveChannel(accountId);
      if channelName !in m.channels then Err(ChannelNotFound)
      else Ok(m.channels[channelName].send(recipient, message))
  }

  /** The variant the test suite expects: a missing channel reports `false`
      instead of throwing; every other outcome is unchanged. */
  function SendMessageOrFalse(m: Manager, accountId: int, message: string): (r: Result<bool, Exception>)
    ensures r.Ok? <==> message != "" && accountId > 0
    ensures r.Ok? && ResolveChannel(accountId) !in m.channels ==> r.value == false
    ensures SendMessage(m, accountId, message).Ok? ==> r == SendMessage(m, accountId, message)
    ensures r.Err? ==> r == SendMessage(m, accountId, message)
  {
    match SendMessage(m, accountId, message)
    case Err(e) => if e == ChannelNotFound then Ok(false) else Err(e)
    case Ok(b) => Ok(b)
  }

  /** With no channel registered, sendMessage throws where the test
      "No channel registered" expects `false`; a manager holding only the
      e-mail channel also throws for the odd id of the "Happy path" test. */
  lemma MissingChannelThrows()
    ensures SendMessage(Manager(map[]), 1003, "No channel case") == Err(ChannelNotFound)
    ensures SendMessageOrFalse(Manager(map[]), 1003, "No channel case") == Ok(false)
    ensures var m := RegisterChannel(Manager(map[]), Some(EmailChannel())).value;
            SendMessage(m, 1001, "Test communication service") == Err(ChannelNotFound)
            && SendMessage(m, 1002, "Message 2") == Ok(true)
  {
    var m := RegisterChannel(Manager(map[]), Some(EmailChannel())).value;
    assert ResolveChannel(1001) == "sms";
    assert "sms" !in m.channels;
  }

  /** Once both service channels are registered, every valid request is delivered. */
  lemma BothChannelsDeliver(accountId: int, message: string)
    requires accountId > 0 && message != ""
    ensures var m1 := RegisterChannel(Manager(map[]), Some(EmailChannel())).value;
            var m2 := RegisterChannel(m1, Some(SmsChannel())).value;
            SendMessage(m2, accountId, message) == Ok(true)
  {
  }
}
