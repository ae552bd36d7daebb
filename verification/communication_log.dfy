/** The record of one message sent to a borrower, with its enum codecs and
    JSON mapping (communication-service/src/models/CommunicationLog.cpp).
    Timestamps are seconds supplied by the caller. */
module CommunicationLogs {
  import opened Wrappers
  import opened Exceptions
  import opened Json

  datatype ChannelType = Email | SMS | VoiceCall | PushNotification | Letter

  datatype MessageStatus = Pending | Sent | Delivered | Failed | Bounced

  datatype CommunicationLog = CommunicationLog(
    communicationId: int,
    accountId: int,
    borrowerId: int,
    strategyId: Option<int>,
    channelType: ChannelType,
    messageContent: string,
    messageStatus: MessageStatus,
    sentAt: Option<int>,
    deliveredAt: Option<int>,
    errorMessage: Option<string>,
    createdAt: int,
    updatedAt: int)

  /** The constructor for a new message: not yet stored (id 0), Pending, and
      without strategy, send time, delivery time or error. */
  function NewLog(accountId: int, borrowerId: int, channelType: ChannelType, messageContent: string, now: int): (l: CommunicationLog)
    ensures l.communicationId == 0 && l.messageStatus == Pending
    ensures l.strategyId.None? && l.sentAt.None? && l.deliveredAt.None? && l.errorMessage.None?
    ensures l.accountId == accountId && l.borrowerId == borrowerId
    ensures l.channelType == channelType && l.messageContent == messageContent
    ensures l.createdAt == now && l.updatedAt == now
  {
    CommunicationLog(0, accountId, borrowerId, None, channelType, messageContent, Pending, None, None, None, now, now)
  }

  function SetStrategyId(l: CommunicationLog, strategyId: int, now: int): (r: CommunicationLog)
    ensures r.strategyId == Some(strategyId) && r.updatedAt == now
    ensures r.(strategyId := l.strategyId, updatedAt := l.updatedAt) == l
  {
    l.(strategyId := Some(strategyId), updatedAt := now)
  }

  function SetMessageStatus(l: CommunicationLog, status: MessageStatus, now: int): (r: CommunicationLog)
    ensures r.messageStatus == status && r.updatedAt == now
    ensures r.(messageStatus := l.messageStatus, updatedAt := l.updatedAt) == l
  {
    l.(messageStatus := status, updatedAt := now)
  }

  function SetSentAt(l: CommunicationLog, sentAt: int, now: int): (r: CommunicationLog)
    ensures r.sentAt == Some(sentAt) && r.updatedAt == now
    ensures r.(sentAt := l.sentAt, updatedAt := l.updatedAt) == l
  {
    l.(sentAt := Some(sentAt), updatedAt := now)
  }

  function SetDeliveredAt(l: CommunicationLog, deliveredAt: int, now: int): (r: CommunicationLog)
    ensures r.deliveredAt == Some(deliveredAt) && r.updatedAt == now
    ensures r.(deliveredAt := l.deliveredAt, updatedAt := l.updatedAt) == l
  {
    l.(deliveredAt := Some(deliveredAt), updatedAt := now)
  }

  function SetErrorMessage(l: CommunicationLog, errorMessage: string, now: int): (r: CommunicationLog)
    ensures r.errorMessage == Some(errorMessage) && r.updatedAt == now
    ensures r.(errorMessage := l.errorMessage, updatedAt := l.updatedAt) == l
  {
    l.(errorMessage := Some(errorMessage), updatedAt := now)
  }

  /** Setters on different fields commute. */
  lemma SettersCommute(l: CommunicationLog, s: MessageStatus, id: int, t: int, now: int)
    ensures SetMessageStatus(SetStrategyId(l, id, now), s, now) == SetStrategyId(SetMessageStatus(l, s, now), id, now)
    ensures SetSentAt(SetDeliveredAt(l, t, now), t, now) == SetDeliveredAt(SetSentAt(l, t, now), t, now)
  {
  }

  /** The storage name of a channel; VoiceCall is stored as "Phone". */
  function ChannelTypeToString(t: ChannelType): (r: string)
    ensures |r| > 0
  {
    match t
    case Email => "Email"
    case SMS => "SMS"
    case VoiceCall => "Phone"
    case PushNotification => "PushNotification"
    case Letter => "Letter"
  }

  /** Accepts every storage name plus the alias "VoiceCall". */
  function StringToChannelType(typeStr: string): (r: Result<ChannelType, Exception>)
    ensures r.Ok? ==> ChannelTypeToString(r.value) == typeStr || (typeStr == "VoiceCall" && r.value == ChannelType.VoiceCall)
    ensures r.Err? ==> forall t :: ChannelTypeToString(t) != typeStr && typeStr != "VoiceCall"
    ensures r.Err? ==> r.error == InvalidArgument("Invalid ChannelType string: " + typeStr)
  {
    if typeStr == "Email" then Ok(ChannelType.Email)
    else if typeStr == "SMS" then Ok(ChannelType.SMS)
    else if typeStr == "Phone" || typeStr == "VoiceCall" then Ok(ChannelType.VoiceCall)
    else if typeStr == "PushNotification" then Ok(PushNotification)
    else if typeStr == "Letter" then Ok(Letter)
    else
      assert forall t :: ChannelTypeToString(t) != typeStr;
      Err(InvalidArgument("Invalid ChannelType string: " + typeStr))
  }

  function MessageStatusToString(s: MessageStatus): (r: string)
    ensures |r| > 0
  {
    match s
    case Pending => "Pending"
    case Sent => "Sent"
    case Delivered => "Delivered"
    case Failed => "Failed"
    case Bounced => "Bounced"
  }

  /** Accepts every status name plus "Opened", which is read as Bounced. */
  function StringToMessageStatus(statusStr: string): (r: Result<MessageStatus, Exception>)
    ensures r.Ok? ==> MessageStatusToString(r.value) == statusStr || (statusStr == "Opened" && r.value == Bounced)
    ensures r.Err? ==> forall s :: MessageStatusToString(s) != statusStr && statusStr != "Opened"
    ensures r.Err? ==> r.error == InvalidArgument("Invalid MessageStatus string: " + statusStr)
  {
    if statusStr == "Pending" then Ok(Pending)
    else if statusStr == "Sent" then Ok(Sent)
    else if statusStr == "Delivered" then Ok(Delivered)
    else if statusStr == "Failed" then Ok(Failed)
    else if statusStr == "Bounced" || statusStr == "Opened" then Ok(Bounced)
    else
      assert forall s :: MessageStatusToString(s) != statusStr;
      Err(InvalidArgument("Invalid MessageStatus string: " + statusStr))
  }

  /** Both codecs round-trip; the aliases parse to VoiceCall and Bounced, so
      "VoiceCall" comes back as "Phone" and "Opened" as "Bounced". */
  lemma CodecRoundTrips(t: ChannelType, s: MessageStatus)
    ensures StringToChannelType(ChannelTypeToString(t)) == Ok(t)
    ensures StringToMessageStatus(MessageStatusToString(s)) == Ok(s)
    ensures StringToChannelType("VoiceCall") == StringToChannelType("Phone") == Ok(ChannelType.VoiceCall)
    ensures ChannelTypeToString(StringToChannelType("VoiceCall").value) == "Phone"
    ensures StringToMessageStatus("Opened") == Ok(Bounced)
    ensures MessageStatusToString(StringToMessageStatus("Opened").value) == "Bounced"
  {
  }

  /** get<int>() on a JSON member: integers as they are, floating-point
      numbers truncated toward zero, booleans as 1 and 0, anything else a
      type error. */
  function JsonToInt(j: Json, key: string): (r: Result<int, Exception>)
    ensures j.Int? ==> r == Ok(j.i)
    ensures j.Bool? ==> r == Ok(if j.b then 1 else 0)
    ensures j.Num? ==> r.Ok? && (r.value < 0 ==> j.r < 0.0) && (r.value > 0 ==> j.r > 0.0) &&
                       var m: real := if r.value >= 0 then r.value as real else -(r.value as real);
                       var a: real := if j.r >= 0.0 then j.r else -j.r;
                       m <= a < m + 1.0
    ensures !j.Int? && !j.Num? && !j.Bool? ==> r == Err(JsonError(key))
  {
    match j
    case Int(i) => Ok(i)
    case Num(x) => Ok(if x >= 0.0 then x.Floor else -((-x).Floor))
    case Bool(b) => Ok(if b then 1 else 0)
    case _ => Err(JsonError(key))
  }

  function JsonToString(j: Json, key: string): (r: Result<string, Exception>)
    ensures r.Ok? <==> j.Str?
    ensures j.Str? ==> r.value == j.s
    ensures r.Err? ==> r.error == JsonError(key)
  {
    match j
    case Str(s) => Ok(s)
    case _ => Err(JsonError(key))
  }

  /** j.at(key): the member, or an error when it is missing. */
  function At(j: Json, key: string): (r: Result<Json, Exception>)
    ensures r.Ok? <==> Has(j, key)
    ensures r.Ok? ==> r.value == j.fields[key]
    ensures r.Err? ==> r.error == JsonError(key)
  {
    match Member(j, key)
    case Some(v) => Ok(v)
    case None => Err(JsonError(key))
  }

  /** fromJson on an already-parsed document. The four required members are
      read in order; strategy_id is applied only when present and not null,
      message_status only when present (a null status is a type error). */
  function FromJson(j: Json, now: int): (r: Result<CommunicationLog, Exception>)
    ensures r.Ok? ==> r.value.communicationId == 0 && r.value.sentAt.None?
                      && r.value.deliveredAt.None? && r.value.errorMessage.None?
    ensures r.Ok? ==> (r.value.strategyId.Some? <==> Has(j, "strategy_id") && j.fields["strategy_id"] != Null)
    ensures r.Ok? && !Has(j, "message_status") ==> r.value.messageStatus == Pending
    ensures !Has(j, "account_id") ==> r == Err(JsonError("account_id"))
  {
    var accountId :- At(j, "account_id");
    var accountId :- JsonToInt(accountId, "account_id");
    var borrowerId :- At(j, "borrower_id");
    var borrowerId :- JsonToInt(borrowerId, "borrower_id");
    var channel :- At(j, "channel_type");
    var channel :- JsonToString(channel, "channel_type");
    var channelType :- StringToChannelType(channel);
    var content :- At(j, "message_content");
    var content :- JsonToString(content, "message_content");
    var log := NewLog(accountId, borrowerId, channelType, content, now);
    var log :- if Has(j, "strategy_id") && j.fields["strategy_id"] != Null then
                 (var id :- JsonToInt(j.fields["strategy_id"], "strategy_id"); Ok(SetStrategyId(log, id, now)))
               else Ok(log);
    if Has(j, "message_status") then
      var status :- JsonToString(j.fields["message_status"], "message_status");
      var status :- StringToMessageStatus(status);
      Ok(SetMessageStatus(log, status, now))
    else Ok(log)
  }

  /** toJson as a document. `format` stands for the strftime rendering of a
      timestamp. */
  function ToJson(l: CommunicationLog, format: int -> string): (j: Json)
    ensures j.Obj? && Has(j, "account_id") && Has(j, "strategy_id") && Has(j, "message_status") && Has(j, "channel_type")
    ensures j.fields["strategy_id"] == (if l.strategyId.Some? then Int(l.strategyId.value) else Null)
    ensures j.fields["channel_type"] == Str(ChannelTypeToString(l.channelType))
    ensures j.fields["message_status"] == Str(MessageStatusToString(l.messageStatus))
  {
    Obj(map[
      "communication_id" := Int(l.communicationId),
      "account_id" := Int(l.accountId),
      "borrower_id" := Int(l.borrowerId),
      "strategy_id" := if l.strategyId.Some? then Int(l.strategyId.value) else Null,
      "channel_type" := Str(ChannelTypeToString(l.channelType)),
      "message_content" := Str(l.messageContent),
      "message_status" := Str(MessageStatusToString(l.messageStatus)),
      "sent_at" := if l.sentAt.Some? then Str(format(l.sentAt.value)) else Null,
      "delivered_at" := if l.deliveredAt.Some? then Str(format(l.deliveredAt.value)) else Null,
      "error_message" := if l.errorMessage.Some? then Str(l.errorMessage.value) else Null,
      "created_at" := Str(format(l.createdAt)),
      "updated_at" := Str(format(l.updatedAt))])
  }

  /** The four members fromJson requires are present with the log's values. */
  lemma RequiredMembers(l: CommunicationLog, format: int -> string)
    ensures At(ToJson(l, format), "account_id") == Ok(Int(l.accountId))
    ensures At(ToJson(l, format), "borrower_id") == Ok(Int(l.borrowerId))
    ensures At(ToJson(l, format), "channel_type") == Ok(Str(ChannelTypeToString(l.channelType)))
    ensures At(ToJson(l, format), "message_content") == Ok(Str(l.messageContent))
  {
  }

  /** Reading back a serialised log keeps what fromJson reads (account,
      borrower, strategy, channel, content, status) and starts afresh on the
      rest: id 0, no send or delivery time, no error, new timestamps. */
  lemma JsonRoundTrip(l: CommunicationLog, format: int -> string, now: int)
    ensures FromJson(ToJson(l, format), now)
            == Ok(l.(communicationId := 0, sentAt := None, deliveredAt := None, errorMessage := None,
                     createdAt := now, updatedAt := now))
  {
    var j := ToJson(l, format);
    CodecRoundTrips(l.channelType, l.messageStatus);
    RequiredMembers(l, format);
    var base := NewLog(l.accountId, l.borrowerId, l.channelType, l.messageContent, now);
    var withStrategy := if l.strategyId.Some? then SetStrategyId(base, l.strategyId.value, now) else base;
    assert Has(j, "message_status") && j.fields["message_status"] == Str(MessageStatusToString(l.messageStatus));
    assert FromJson(j, now) == Ok(SetMessageStatus(withStrategy, l.messageStatus, now));
  }
}
