/** Listing the user's groups: one form parameter and the XML outcome rule. */
module LockerGroups {
  import opened Results
  import opened Wire
  import opened Locker

  /** A group as the service lists it. */
  datatype Group = Group(id: string, name: string)

  type GroupsResponse = Envelope<seq<Group>>

  const GroupsPath := "/account/get_groups"
  const GroupsFailure := "error listing groups"

  /** The request Groups sends: format=cli posted to the groups endpoint. */
  function GroupsRequest(baseURL: string): (req: Request)
    ensures req.verb == "POST" && req.url == baseURL + GroupsPath && req.query == []
    ensures req.body.FormBody? && ValuesOf(req.body.form, "format") == ["cli"]
    ensures forall k :: k != "format" ==> ValuesOf(req.body.form, k) == []
    ensures req.headers == FormHeaders(XmlAccept)
    ensures ValuesOf(req.headers, "Accept") == [XmlAccept]
  {
    Request("POST", baseURL + GroupsPath, [], FormHeaders(XmlAccept), FormBody(Add([], "format", "cli")))
  }

  /**
    Groups: the decoded response always comes back; it carries an error exactly
    when its error list is non-empty; the group list passes through unchanged.
   */
  function Groups(c: Client, server: Request -> IoResult<GroupsResponse>): (reply: Reply<GroupsResponse>)
    reads c
    ensures server(GroupsRequest(c.baseURL)).Ok? ==>
      var v := server(GroupsRequest(c.baseURL)).value;
      && reply.response == Some(v)
      && (reply.err.Some? <==> |v.errorMessages| > 0)
      && (reply.err.Some? ==> reply.err.value == GroupsFailure)
    ensures server(GroupsRequest(c.baseURL)).IoError? ==>
      reply == Reply(None, Some(server(GroupsRequest(c.baseURL)).message))
  {
    XmlOutcome(server(GroupsRequest(c.baseURL)), GroupsFailure)
  }

  /** Whatever the info list holds, the decision and the groups returned are the same. */
  lemma GroupsIgnoreInfo(v: GroupsResponse, info: seq<string>)
    ensures
      var a := XmlOutcome(Ok(v), GroupsFailure);
      var b := XmlOutcome(Ok(v.(infoMessages := info)), GroupsFailure);
      a.err == b.err && a.response.value.payload == b.response.value.payload
  {
  }
}
