/**
  The `read` command of the CLI: without --all it asks only for the count of
  new messages; with --all it lists the messages of the first group, either as
  text lines or as a JSON record (--json).
 */
module ReadCommand {
  import opened Results
  import opened Text
  import opened Wire
  import opened Locker
  import opened LockerMessages

  /** The record messagesToJSON hands to the JSON encoder. */
  datatype MessageList = MessageList(messages: seq<SecureMessage>, info: seq<string>, error: seq<string>)

  /**
    messagesToJSON: the messages of the first group, in order, with the info
    list. The Error field is filled from the info list too, as the source does.
    The first group must exist: the source indexes it unconditionally.
   */
  method MessagesToJSON(resp: SecureMessagesResponse) returns (list: MessageList)
    requires |resp.payload| > 0
    ensures list.messages == resp.payload[0]
    ensures list.info == resp.infoMessages
    ensures list.error == resp.infoMessages
  {
    list := MessageList([], resp.infoMessages, resp.infoMessages);
    var first := resp.payload[0];
    var i := 0;
    while i < |first|
      invariant 0 <= i <= |first|
      invariant list.messages == first[..i]
      invariant list.info == resp.infoMessages && list.error == resp.infoMessages
    {
      list := list.(messages := list.messages + [first[i]]);
      i := i + 1;
    }
    assert first[..i] == first;
  }

  /** The text line printed for one message. */
  function ListingLine(m: SecureMessage): string
  {
    "ID: " + Itoa(m.id) + " | Expiration: " + m.expiration + " | Subject: " + m.subject + " | Body: " + m.body
  }

  /** The plain listing: one line per message of the group, in order. */
  method ListingLines(group: seq<SecureMessage>) returns (lines: seq<string>)
    ensures |lines| == |group|
    ensures forall k :: 0 <= k < |group| ==> lines[k] == ListingLine(group[k])
  {
    lines := [];
    var i := 0;
    while i < |group|
      invariant 0 <= i <= |group|
      invariant |lines| == i
      invariant forall k :: 0 <= k < i ==> lines[k] == ListingLine(group[k])
    {
      lines := lines + [ListingLine(group[i])];
      i := i + 1;
    }
  }

  /** What one run of the command ends with. */
  datatype ReadOutput =
    | Printed(lines: seq<string>)   // lines written to standard output
    | PrintedJson(list: MessageList) // the record encoded and written out
    | Failed(message: string)        // the error RunE returns
    | IndexPanic                     // the first group was indexed but there is none

  const CountWrap := "unable to get message count"
  const ReadWrap := "unable to read secure message"

  /** errors.Wrap: the context, a colon, then the cause. */
  function Wrap(cause: string, context: string): string
  {
    context + ": " + cause
  }

  /**
    RunE of the read command. The --mark flag is not consulted. Without --all
    only the count request is sent. With --all only the list request is sent;
    an error is wrapped and returned; otherwise the first group is printed,
    as lines or as JSON, and a reply without groups panics at the index.
   */
  method RunRead(c: Client, allMessages: bool, asJSON: bool,
                 countServer: Request -> IoResult<SecureMessageCountResponse>,
                 listServer: Request -> IoResult<SecureMessagesResponse>)
    returns (sent: seq<Request>, out: ReadOutput)
    ensures |sent| == 1
    ensures !allMessages ==> sent[0] == Request("POST", c.baseURL + CountPath, [], FormHeaders(JsonAccept), NoBody)
    ensures allMessages ==> sent[0] == Request("POST", c.baseURL + MessagesPath, [], FormHeaders(JsonAccept), NoBody)
    ensures !allMessages ==>
      var r := JsonOutcome(countServer(sent[0]), CountFailure);
      out == (if r.err.Some? then Failed(Wrap(r.err.value, CountWrap))
              else Printed(["New Messages: " + Itoa(r.response.value.payload)]))
    ensures allMessages ==>
      var r := JsonOutcome(listServer(sent[0]), ListFailure);
      if r.err.Some? then out == Failed(Wrap(r.err.value, ReadWrap))
      else
        var v := r.response.value;
        if |v.payload| == 0 then out == IndexPanic
        else if asJSON then out == PrintedJson(MessageList(v.payload[0], v.infoMessages, v.infoMessages))
        else out.Printed? && |out.lines| == |v.payload[0]| &&
             forall k :: 0 <= k < |v.payload[0]| ==> out.lines[k] == ListingLine(v.payload[0][k])
  {
    if !allMessages {
      var req, reply := SecureMessagesCount(c, countServer);
      sent := [req];
      if reply.err.Some? {
        out := Failed(Wrap(reply.err.value, CountWrap));
      } else {
        out := Printed(["New Messages: " + Itoa(reply.response.value.payload)]);
      }
      return;
    }

    var req, reply := SecureMessages(c, listServer);
    sent := [req];
    if reply.err.Some? {
      out := Failed(Wrap(reply.err.value, ReadWrap));
      return;
    }
    var resp := reply.response.value;
    if |resp.payload| == 0 {
      out := IndexPanic;
      return;
    }
    if asJSON {
      var list := MessagesToJSON(resp);
      out := PrintedJson(list);
      return;
    }
    var lines := ListingLines(resp.payload[0]);
    out := Printed(lines);
  }
}
