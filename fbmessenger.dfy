/**
 * The Facebook Messenger adapter's inbound side: a webhook request is turned
 * into the message data the pipeline starts from, with the user's input
 * classified as accept, reject, custom (text, a choice number, or a payload)
 * or unknown.
 */
module FbMessenger {
  import opened Wrappers
  import opened JsString

  /** The kinds of messaging event the adapter tells apart. */
  datatype MessageType = TextMessage | PostbackMessage | UnknownMessage

  /** The kinds of input the pipeline understands. */
  datatype InputType = Accept | Reject | Custom | Unknown

  /** A JavaScript value as it can appear in a payload or in the parsed input. */
  datatype JsValue = Undefined | Null | Str(s: string) | Num(n: int) | NaN

  /** The `message` object of an event; `text` is absent for e.g. attachments. */
  datatype MessageBody = MessageBody(text: JsValue)

  /** The `postback` object of an event. */
  datatype PostbackBody = PostbackBody(payload: JsValue)

  /** One messaging event; `message` and `postback` are present or absent keys. */
  datatype Messaging = Messaging(
    timestamp: int,
    senderID: string,
    message: Option<MessageBody>,
    postback: Option<PostbackBody>)

  datatype Entry = Entry(messaging: seq<Messaging>)

  /** The webhook request body. */
  datatype Request = Request(entry: seq<Entry>)

  datatype Input = Input(inputType: InputType, data: JsValue)

  /** The message data handed to the pipeline; `input` is null until injected. */
  datatype MsgData = MsgData(timestamp: int, senderID: string, subjectName: string, input: Option<Input>)

  /** The ways reading a request fails with a TypeError. */
  datatype ParseError = NoEntry | NoMessaging | PayloadNotString

  /** The subject every parsed message is attributed to. */
  const HardcodedSubjectName: string := "crash-course-biology"

  /** A `message` key makes a text message, even beside a `postback`; else a `postback` key; else unknown. */
  function GetMsgType(msg: Messaging): (t: MessageType)
    ensures t == TextMessage <==> msg.message.Some?
    ensures t == PostbackMessage <==> msg.message.None? && msg.postback.Some?
    ensures t == UnknownMessage <==> msg.message.None? && msg.postback.None?
  {
    if msg.message.Some? then TextMessage
    else if msg.postback.Some? then PostbackMessage
    else UnknownMessage
  }

  /** The content of an event for its type: the text, the payload, or null. */
  function ContentExtractor(t: MessageType, msg: Messaging): (c: JsValue)
    requires t == TextMessage ==> msg.message.Some?
    requires t == PostbackMessage ==> msg.postback.Some?
    ensures t == TextMessage ==> c == msg.message.value.text
    ensures t == PostbackMessage ==> c == msg.postback.value.payload
    ensures t == UnknownMessage ==> c == Null
  {
    match t
    case TextMessage => msg.message.value.text
    case PostbackMessage => msg.postback.value.payload
    case UnknownMessage => Null
  }

  /** The number at the end of a choice payload: `parseInt` of the last '-'-separated piece. */
  function StripChoiceNum(choice: string): (r: JsValue)
    ensures r.Num? || r == NaN
    ensures r == NaN <==> ParseInt(LastPiece(choice, '-')).None?
    ensures r.Num? ==> ParseInt(LastPiece(choice, '-')) == Some(r.n)
  {
    match ParseInt(LastPiece(choice, '-'))
    case Some(n) => Num(n)
    case None => NaN
  }

  /** Any prefix, a '-', and the decimal digits of n give back n. */
  lemma StripChoiceNumAfterDash(s: string, prefix: string, n: nat)
    requires s == prefix + "-" + NatToString(n)
    ensures StripChoiceNum(s) == Num(n)
  {
    var d := NatToString(n);
    assert '-' !in d by {
      forall i | 0 <= i < |d| ensures d[i] != '-' {
        assert IsDigit(d[i]);
      }
    }
    assert s == prefix + ['-'] + d;
    LastPieceAfterSep(prefix, d, '-');
    ParseIntOfNatToString(n);
  }

  /** A choice payload round trip: "choice-" followed by the digits of n gives n. */
  lemma StripChoiceNumRoundTrip(n: nat)
    ensures StripChoiceNum("choice-" + NatToString(n)) == Num(n)
  {
    var s := "choice-" + NatToString(n);
    assert s == "choice" + "-" + NatToString(n);
    StripChoiceNumAfterDash(s, "choice", n);
  }

  /** The input a postback payload stands for. */
  function PostbackInput(content: JsValue): (r: Result<Input, ParseError>)
    ensures content == Str("accept") ==> r == Ok(Input(Accept, Null))
    ensures content == Str("reject") ==> r == Ok(Input(Reject, Null))
    ensures content.Str? && content.s != "accept" && content.s != "reject" ==>
      r == Ok(Input(Custom,
        if IndexOf(content.s, "choice-") != -1 then StripChoiceNum(content.s) else content))
    ensures !content.Str? ==> r == Err(PayloadNotString)
  {
    if content == Str("accept") then Ok(Input(Accept, Null))
    else if content == Str("reject") then Ok(Input(Reject, Null))
    else if !content.Str? then Err(PayloadNotString)
    else if IndexOf(content.s, "choice-") != -1 then Ok(Input(Custom, StripChoiceNum(content.s)))
    else Ok(Input(Custom, content))
  }

  /** Sets the input of the message data from the content; nothing else changes. */
  function ContentInjector(t: MessageType, m: MsgData, content: JsValue): (r: Result<MsgData, ParseError>)
    ensures r.Ok? ==> r.value.input.Some? && r.value.(input := m.input) == m
    ensures t == TextMessage ==> r == Ok(m.(input := Some(Input(Custom, content))))
    ensures t == UnknownMessage ==> r == Ok(m.(input := Some(Input(Unknown, Null))))
    ensures t == PostbackMessage ==>
      (r.Ok? <==> PostbackInput(content).Ok?) &&
      (r.Ok? ==> r.value.input == Some(PostbackInput(content).value))
  {
    match t
    case TextMessage => Ok(m.(input := Some(Input(Custom, content))))
    case PostbackMessage =>
      (match PostbackInput(content)
       case Ok(i) => Ok(m.(input := Some(i)))
       case Err(e) => Err(e))
    case UnknownMessage => Ok(m.(input := Some(Input(Unknown, Null))))
  }

  /** The first messaging event of the first entry, if there is one. */
  function FirstEvent(req: Request): (r: Result<Messaging, ParseError>)
    ensures r.Ok? <==> |req.entry| > 0 && |req.entry[0].messaging| > 0
    ensures r.Ok? ==> r.value == req.entry[0].messaging[0]
  {
    if |req.entry| == 0 then Err(NoEntry)
    else if |req.entry[0].messaging| == 0 then Err(NoMessaging)
    else Ok(req.entry[0].messaging[0])
  }

  /**
   * Parses a webhook request: time stamp and sender of the first event, the
   * fixed subject name, and the input classified from the event's content.
   */
  function Parse(req: Request): (r: Result<MsgData, ParseError>)
    ensures r.Ok? ==>
      && |req.entry| > 0 && |req.entry[0].messaging| > 0
      && r.value.timestamp == req.entry[0].messaging[0].timestamp
      && r.value.senderID == req.entry[0].messaging[0].senderID
      && r.value.subjectName == HardcodedSubjectName
      && r.value.input.Some?
    ensures |req.entry| == 0 ==> r == Err(NoEntry)
  {
    match FirstEvent(req)
    case Err(e) => Err(e)
    case Ok(msg) =>
      var init := MsgData(msg.timestamp, msg.senderID, HardcodedSubjectName, None);
      var t := GetMsgType(msg);
      ContentInjector(t, init, ContentExtractor(t, msg))
  }

  /** A text message gives custom input carrying the text, whatever else the event holds. */
  lemma ParseText(req: Request, msg: Messaging)
    requires FirstEvent(req) == Ok(msg) && msg.message.Some?
    ensures Parse(req) ==
      Ok(MsgData(msg.timestamp, msg.senderID, HardcodedSubjectName,
                 Some(Input(Custom, msg.message.value.text))))
  {
  }

  /** The "accept" and "reject" postbacks give accept and reject input with null data. */
  lemma ParseAcceptReject(req: Request, msg: Messaging)
    requires FirstEvent(req) == Ok(msg) && msg.message.None? && msg.postback.Some?
    ensures msg.postback.value.payload == Str("accept") ==>
      Parse(req).Ok? && Parse(req).value.input == Some(Input(Accept, Null))
    ensures msg.postback.value.payload == Str("reject") ==>
      Parse(req).Ok? && Parse(req).value.input == Some(Input(Reject, Null))
  {
  }

  /** A postback "choice-n" gives custom input carrying the number n. */
  lemma ParseChoice(req: Request, msg: Messaging, n: nat)
    requires FirstEvent(req) == Ok(msg)
    requires msg.message.None? && msg.postback == Some(PostbackBody(Str("choice-" + NatToString(n))))
    ensures Parse(req) ==
      Ok(MsgData(msg.timestamp, msg.senderID, HardcodedSubjectName, Some(Input(Custom, Num(n)))))
  {
    var payload := "choice-" + NatToString(n);
    assert OccursAt(payload, "choice-", 0) by {
      assert payload[..7] == "choice-";
    }
    assert payload != "accept" && payload != "reject" by {
      assert |payload| >= 8;
    }
    StripChoiceNumRoundTrip(n);
  }

  /** Any postback event gives exactly the input its payload stands for, or that payload's error. */
  lemma ParsePostback(req: Request, msg: Messaging)
    requires FirstEvent(req) == Ok(msg) && msg.message.None? && msg.postback.Some?
    ensures Parse(req).Ok? <==> PostbackInput(msg.postback.value.payload).Ok?
    ensures Parse(req).Ok? ==>
      Parse(req).value == MsgData(msg.timestamp, msg.senderID, HardcodedSubjectName,
                                  Some(PostbackInput(msg.postback.value.payload).value))
    ensures Parse(req).Err? ==> Parse(req).error == PostbackInput(msg.postback.value.payload).error
  {
  }

  /** Any other postback text gives custom input carrying the whole payload. */
  lemma ParseOtherPostback(req: Request, msg: Messaging, payload: string)
    requires FirstEvent(req) == Ok(msg)
    requires msg.message.None? && msg.postback == Some(PostbackBody(Str(payload)))
    requires payload != "accept" && payload != "reject"
    requires forall i :: !OccursAt(payload, "choice-", i)
    ensures Parse(req) ==
      Ok(MsgData(msg.timestamp, msg.senderID, HardcodedSubjectName, Some(Input(Custom, Str(payload)))))
  {
  }

  /** An event with neither a message nor a postback gives unknown input with null data. */
  lemma ParseUnknown(req: Request, msg: Messaging)
    requires FirstEvent(req) == Ok(msg) && msg.message.None? && msg.postback.None?
    ensures Parse(req) ==
      Ok(MsgData(msg.timestamp, msg.senderID, HardcodedSubjectName, Some(Input(Unknown, Null))))
  {
  }
}
