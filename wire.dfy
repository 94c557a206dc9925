/**
  The shape of what the client sends and receives. A request is the method,
  URL, query and header parameters and body handed to the HTTP transport; a
  decoded response is an envelope of the service's info list, error list and
  payload. The two outcome rules below decide between success and failure for
  the authenticated calls: XmlOutcome for the XML calls (files, groups) and
  JsonOutcome for the JSON calls (secure messages). Login has a rule of its
  own, Locker.LoginOrigin.
 */
module Wire {
  import opened Results

  newtype byte = x: int | 0 <= x < 256

  /** One key/value pair of url.Values or http.Header, in the order it was added. */
  datatype Param = Param(key: string, value: string)

  type Form = seq<Param>

  /** Every value stored under key, in the order they were added (url.Values[key]). */
  function ValuesOf(form: Form, key: string): seq<string>
  {
    if |form| == 0 then []
    else (if form[0].key == key then [form[0].value] else []) + ValuesOf(form[1..], key)
  }

  lemma {:induction false} ValuesOfAppend(form: Form, p: Param, key: string)
    ensures ValuesOf(form + [p], key) == ValuesOf(form, key) + (if p.key == key then [p.value] else [])
  {
    if |form| > 0 {
      assert (form + [p])[1..] == form[1..] + [p];
      ValuesOfAppend(form[1..], p, key);
    }
  }

  /** A key that no parameter uses has no values. */
  lemma {:induction false} ValuesOfAbsent(form: Form, key: string)
    requires forall j :: 0 <= j < |form| ==> form[j].key != key
    ensures ValuesOf(form, key) == []
  {
    if |form| > 0 {
      ValuesOfAbsent(form[1..], key);
    }
  }

  /** A key that exactly one parameter uses has exactly that parameter's value. */
  lemma {:induction false} ValuesOfSingle(form: Form, key: string, i: int)
    requires 0 <= i < |form| && form[i].key == key
    requires forall j :: 0 <= j < |form| && j != i ==> form[j].key != key
    ensures ValuesOf(form, key) == [form[i].value]
  {
    if i == 0 {
      ValuesOfAbsent(form[1..], key);
    } else {
      ValuesOfSingle(form[1..], key, i - 1);
    }
  }

  /** url.Values.Add and http.Header.Add: append a value under key. */
  function Add(form: Form, key: string, value: string): (r: Form)
    ensures ValuesOf(r, key) == ValuesOf(form, key) + [value]
    ensures |r| == |form| + 1 && r[..|form|] == form && r[|form|] == Param(key, value)
  {
    ValuesOfAppend(form, Param(key, value), key);
    form + [Param(key, value)]
  }

  /** Adding under one key leaves the values of every other key as they were. */
  lemma AddKeepsOtherKeys(form: Form, key: string, value: string, other: string)
    requires other != key
    ensures ValuesOf(Add(form, key, value), other) == ValuesOf(form, other)
  {
    ValuesOfAppend(form, Param(key, value), other);
  }

  datatype Body = NoBody | FormBody(form: Form) | RawBody(content: seq<byte>)

  datatype Request = Request(verb: string, url: string, query: Form, headers: Form, body: Body)

  const FormContentType := "application/x-www-form-urlencoded"
  const XmlAccept := "text/xml"
  const JsonAccept := "application/json"

  /** The two headers every form post carries, in the order they are added. */
  function FormHeaders(accept: string): (h: Form)
    ensures ValuesOf(h, "Content-Type") == [FormContentType]
    ensures ValuesOf(h, "Accept") == [accept]
  {
    var h := [Param("Content-Type", FormContentType), Param("Accept", accept)];
    ValuesOfSingle(h, "Content-Type", 0);
    ValuesOfSingle(h, "Accept", 1);
    h
  }

  /** A decoded response: the payload and the service's two message lists. */
  datatype Envelope<+P> = Envelope(payload: P, errorMessages: seq<string>, infoMessages: seq<string>)

  /** What a Go call returns: a possibly nil response and a possibly nil error. */
  datatype Reply<+T> = Reply(response: Option<T>, err: Option<string>)

  /**
    The XML calls: a transport or decode error is returned as is with a nil
    response; otherwise the decoded response is always returned, and it comes
    with an error exactly when its error list is non-empty.
   */
  function XmlOutcome<P>(delivered: IoResult<Envelope<P>>, failure: string): (r: Reply<Envelope<P>>)
    ensures delivered.IoError? ==> r == Reply(None, Some(delivered.message))
    ensures delivered.Ok? ==> r.response == Some(delivered.value)
    ensures delivered.Ok? ==> (r.err.Some? <==> |delivered.value.errorMessages| > 0)
    ensures delivered.Ok? && r.err.Some? ==> r.err.value == failure
  {
    match delivered
    case IoError(e) => Reply(None, Some(e))
    case Ok(v) =>
      if |v.errorMessages| > 0 then Reply(Some(v), Some(failure)) else Reply(Some(v), None)
  }

  /**
    The JSON calls: exactly one of response and error is present. An error
    list that is non-empty drops the response and yields the failure message.
   */
  function JsonOutcome<P>(delivered: IoResult<Envelope<P>>, failure: string): (r: Reply<Envelope<P>>)
    ensures r.response.Some? <==> r.err.None?
    ensures delivered.IoError? ==> r.err == Some(delivered.message)
    ensures delivered.Ok? ==> (r.err.Some? <==> |delivered.value.errorMessages| > 0)
    ensures delivered.Ok? && r.err.Some? ==> r.err.value == failure
    ensures r.response.Some? ==> delivered == Ok(r.response.value)
  {
    match delivered
    case IoError(e) => Reply(None, Some(e))
    case Ok(v) =>
      if |v.errorMessages| > 0 then Reply(None, Some(failure)) else Reply(Some(v), None)
  }

  /**
    The asymmetry between the two rules: on an envelope with errors the XML
    rule still hands back the response while the JSON rule returns nil; on an
    envelope without errors, and on a failed round trip, they agree.
   */
  lemma XmlJsonAsymmetry<P>(delivered: IoResult<Envelope<P>>, failure: string)
    ensures delivered.Ok? && |delivered.value.errorMessages| > 0 ==>
      XmlOutcome(delivered, failure) == Reply(Some(delivered.value), Some(failure)) &&
      JsonOutcome(delivered, failure) == Reply(None, Some(failure))
    ensures !(delivered.Ok? && |delivered.value.errorMessages| > 0) ==>
      XmlOutcome(delivered, failure) == JsonOutcome(delivered, failure)
  {
  }

  /** Info messages never decide the outcome, in either rule. */
  lemma InfoMessagesIrrelevant<P>(v: Envelope<P>, info: seq<string>, failure: string)
    ensures XmlOutcome(Ok(v), failure).err == XmlOutcome(Ok(v.(infoMessages := info)), failure).err
    ensures JsonOutcome(Ok(v), failure).err == JsonOutcome(Ok(v.(infoMessages := info)), failure).err
  {
  }
}
