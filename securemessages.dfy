/**
  The secure-message operations. They post to the message endpoints, expect
  JSON, and apply the JSON outcome rule: a response with errors comes back as
  a nil response and an error.
 */
module LockerMessages {
  import opened Results
  import opened Text
  import opened Wire
  import opened Locker

  /** A secure message; its dates are the service's strings, never parsed. */
  datatype SecureMessage = SecureMessage(
    body: string,
    created: string,
    expiration: string,
    id: int,
    ownerID: string,
    recipients: seq<string>,
    subject: string,
    viewed: string)

  /** The service nests every message in a group of its own; the nesting is kept. */
  type SecureMessagesResponse = Envelope<seq<seq<SecureMessage>>>
  type SecureMessageReadResponse = Envelope<()>
  type SecureMessageCountResponse = Envelope<int>
  type NewMessageResponse = Envelope<()>
  type SecureMessagesDeleteResponse = Envelope<()>

  const MessagesPath := "/message/get_messages"
  const ReadPath := "/message/read_message"
  const CountPath := "/message/get_new_message_count"
  const CreatePath := "/message/create_message"
  const DeleteMessagesPath := "/message/delete_messages"

  const ListFailure := "error listing secure messages"
  const ReadFailure := "error marking secure message as read"
  const CountFailure := "error listing secure messages"
  const SendFailure := "error sending secure messages"
  const DeleteMessagesFailure := "error deleting secure messages"

  /** The expiration NewSecureMessage sends whatever the caller wants. */
  const HardCodedExpiration := "07/10/2019"

  /** SecureMessages: a post without a body; the nested groups come back as decoded. */
  method SecureMessages(c: Client, server: Request -> IoResult<SecureMessagesResponse>)
    returns (req: Request, reply: Reply<SecureMessagesResponse>)
    ensures req == Request("POST", c.baseURL + MessagesPath, [], FormHeaders(JsonAccept), NoBody)
    ensures reply == JsonOutcome(server(req), ListFailure)
  {
    req := Request("POST", c.baseURL + MessagesPath, [], FormHeaders(JsonAccept), NoBody);
    reply := JsonOutcome(server(req), ListFailure);
  }

  /** SecureMessageRead: posts the decimal form of the ID, which reads back as the ID. */
  method SecureMessageRead(c: Client, id: int, server: Request -> IoResult<SecureMessageReadResponse>)
    returns (req: Request, reply: Reply<SecureMessageReadResponse>)
    ensures req.verb == "POST" && req.url == c.baseURL + ReadPath && req.query == []
    ensures req.body == FormBody([Param("messageId", Itoa(id))])
    ensures ParseInt(req.body.form[0].value) == Some(id)
    ensures req.headers == FormHeaders(JsonAccept)
    ensures reply == JsonOutcome(server(req), ReadFailure)
  {
    var form: Form := [];
    form := Add(form, "messageId", Itoa(id));
    assert form == [Param("messageId", Itoa(id))];
    ItoaRoundTrip(id);
    req := Request("POST", c.baseURL + ReadPath, [], FormHeaders(JsonAccept), FormBody(form));
    reply := JsonOutcome(server(req), ReadFailure);
  }

  /** SecureMessagesCount: without an error the count is the decoded data field. */
  method SecureMessagesCount(c: Client, server: Request -> IoResult<SecureMessageCountResponse>)
    returns (req: Request, reply: Reply<SecureMessageCountResponse>)
    ensures req == Request("POST", c.baseURL + CountPath, [], FormHeaders(JsonAccept), NoBody)
    ensures reply == JsonOutcome(server(req), CountFailure)
    ensures reply.err.None? ==> server(req).Ok? && reply.response == Some(server(req).value)
  {
    req := Request("POST", c.baseURL + CountPath, [], FormHeaders(JsonAccept), NoBody);
    reply := JsonOutcome(server(req), CountFailure);
  }

  /** The form of a new message, in the order its parameters are added. */
  function MessageForm(origin: string, subject: string, body: string, expiration: string,
                       recipients: seq<string>): (form: Form)
    ensures |form| == 5
    ensures form[0].key == "requestOrigin" && form[1].key == "subject" && form[2].key == "body"
    ensures form[3].key == "expiration" && form[4].key == "recipientIds"
    ensures ValuesOf(form, "requestOrigin") == [origin]
    ensures ValuesOf(form, "subject") == [subject]
    ensures ValuesOf(form, "body") == [body]
    ensures ValuesOf(form, "expiration") == [expiration]
    ensures ValuesOf(form, "recipientIds") == [Join(recipients, ',')]
  {
    var form := Add(Add(Add(Add(Add([], "requestOrigin", origin), "subject", subject), "body", body),
                        "expiration", expiration), "recipientIds", Join(recipients, ','));
    ValuesOfSingle(form, "requestOrigin", 0);
    ValuesOfSingle(form, "subject", 1);
    ValuesOfSingle(form, "body", 2);
    ValuesOfSingle(form, "expiration", 3);
    ValuesOfSingle(form, "recipientIds", 4);
    form
  }

  /**
    NewSecureMessage as written: three arguments, and the expiration sent is
    always the hard-coded date.
   */
  method NewSecureMessage(c: Client, subject: string, msg: string, recipients: seq<string>,
                          server: Request -> IoResult<NewMessageResponse>)
    returns (req: Request, reply: Reply<NewMessageResponse>)
    ensures req.verb == "POST" && req.url == c.baseURL + CreatePath && req.query == []
    ensures req.body == FormBody(MessageForm(c.origin, subject, msg, HardCodedExpiration, recipients))
    ensures req.headers == FormHeaders(JsonAccept)
    ensures reply == JsonOutcome(server(req), SendFailure)
  {
    var form := MessageForm(c.origin, subject, msg, HardCodedExpiration, recipients);
    req := Request("POST", c.baseURL + CreatePath, [], FormHeaders(JsonAccept), FormBody(form));
    reply := JsonOutcome(server(req), SendFailure);
  }

  /**
    Whatever expiration a caller asks for, the as-written form carries the
    hard-coded date instead.
   */
  lemma HardCodedExpirationIgnoresCaller(origin: string, subject: string, body: string,
                                         recipients: seq<string>, wanted: string)
    requires wanted != HardCodedExpiration
    ensures ValuesOf(MessageForm(origin, subject, body, HardCodedExpiration, recipients), "expiration") != [wanted]
  {
  }

  /**
    NewSecureMessage as its callers use it: the caller's expiration, already
    formatted as MM/DD/YYYY, is what the form carries.
   */
  method NewSecureMessageExpiring(c: Client, subject: string, msg: string, recipients: seq<string>,
                                  expiration: string, server: Request -> IoResult<NewMessageResponse>)
    returns (req: Request, reply: Reply<NewMessageResponse>)
    ensures req.verb == "POST" && req.url == c.baseURL + CreatePath && req.query == []
    ensures req.body == FormBody(MessageForm(c.origin, subject, msg, expiration, recipients))
    ensures ValuesOf(req.body.form, "requestOrigin") == [c.origin]
    ensures ValuesOf(req.body.form, "subject") == [subject]
    ensures ValuesOf(req.body.form, "body") == [msg]
    ensures ValuesOf(req.body.form, "expiration") == [expiration]
    ensures ValuesOf(req.body.form, "recipientIds") == [Join(recipients, ',')]
    ensures req.headers == FormHeaders(JsonAccept)
    ensures reply == JsonOutcome(server(req), SendFailure)
  {
    var form := MessageForm(c.origin, subject, msg, expiration, recipients);
    req := Request("POST", c.baseURL + CreatePath, [], FormHeaders(JsonAccept), FormBody(form));
    reply := JsonOutcome(server(req), SendFailure);
  }

  /**
    SecureMessagesDelete: the IDs are converted one by one and joined with
    commas, followed by the origin token; no IDs give the empty string. What
    a server reads back from the value is MessageIdsReadBack.
   */
  method SecureMessagesDelete(c: Client, ids: seq<int>, server: Request -> IoResult<SecureMessagesDeleteResponse>)
    returns (req: Request, reply: Reply<SecureMessagesDeleteResponse>)
    ensures req.verb == "POST" && req.url == c.baseURL + DeleteMessagesPath && req.query == []
    ensures req.body == FormBody([Param("messageIds", Join(DecimalIds(ids), ',')),
                                  Param("requestOrigin", c.origin)])
    ensures |ids| == 0 ==> req.body.form[0].value == ""
    ensures req.headers == FormHeaders(JsonAccept)
    ensures reply == JsonOutcome(server(req), DeleteMessagesFailure)
  {
    var idList: seq<string> := [];
    var i := 0;
    while i < |ids|
      invariant 0 <= i <= |ids|
      invariant |idList| == i
      invariant forall k :: 0 <= k < i ==> idList[k] == Itoa(ids[k])
    {
      idList := idList + [Itoa(ids[i])];
      i := i + 1;
    }
    assert idList == DecimalIds(ids);
    var joined := Join(idList, ',');

    var form: Form := [];
    form := Add(form, "messageIds", joined);
    form := Add(form, "requestOrigin", c.origin);
    assert form == [Param("messageIds", joined), Param("requestOrigin", c.origin)];
    req := Request("POST", c.baseURL + DeleteMessagesPath, [], FormHeaders(JsonAccept), FormBody(form));
    reply := JsonOutcome(server(req), DeleteMessagesFailure);
  }

  /** What the messageIds value means to the server: the IDs, or nothing at all. */
  lemma MessageIdsReadBack(ids: seq<int>)
    ensures |ids| >= 1 ==> ParseIdList(Join(DecimalIds(ids), ',')) == Some(ids)
    ensures |ids| == 0 ==> Join(DecimalIds(ids), ',') == ""
  {
    if |ids| >= 1 {
      IdListRoundTrip(ids);
    }
  }

  /** The IDs 1, 2 and 3 are sent as "1,2,3". */
  lemma DeleteOneTwoThree()
    ensures Join(DecimalIds([1, 2, 3]), ',') == "1,2,3"
  {
    assert DecimalIds([1, 2, 3]) == ["1", "2", "3"];
  }
}
