# go-filelocker, modelled in Dafny

go-filelocker is a Go client library and command-line tool for a legacy
file-and-message locker web service. A session starts with a login form post.
The service answers with an envelope of info and error messages. The first
info message becomes the session's *origin* token, which every state-changing
call must send back. The authenticated calls then list, upload and delete
files, list groups, and list, count, read, send and delete secure messages.
The `read` command of the CLI either prints the count of new messages or lists
the messages of the first group, as text lines or as a JSON record.

The model treats every remote call as two steps, with the round trip between
them left abstract:

* **Request construction.** The method, URL, query parameters, headers and
  body the call hands to the transport. Parameters are an ordered list of
  key/value pairs, in the order of the `Add` calls (`Wire.Form`), and
  `Wire.ValuesOf` reads them the way `url.Values[key]` does.
* **Outcome classification.** Once the reply is decoded into an envelope
  (payload, error list, info list), the call decides what it returns. There
  are three rules:
  * `Locker.LoginOrigin`: login fails on any error message or on no info
    message at all.
  * `Wire.XmlOutcome`: the XML calls return the response together with
    the error.
  * `Wire.JsonOutcome`: the JSON calls return a nil response with the error.

The round trip itself is a parameter `server: Request -> IoResult<Envelope<P>>`
of each operation. It gives either the decoded reply to the request, or the
error that `http.NewRequest`, `Client.Do`, `ioutil.ReadAll` or the XML/JSON
decoder returned, which every operation passes on unchanged. Each operation
also returns the request it sent, so its contract can speak about the
parameters.

Modules follow the Go files:

| file | module |
|---|---|
| `pkg/filelocker/filelocker.go` | `Locker` (`locker.dfy`) |
| `pkg/filelocker/files.go` | `LockerFiles` (`files.dfy`) |
| `pkg/filelocker/groups.go` | `LockerGroups` (`groups.dfy`) |
| `pkg/filelocker/securemessages.go` | `LockerMessages` (`securemessages.dfy`) |
| `cmd/filelocker/cmd/read.go` | `ReadCommand` (`readcmd.dfy`) |

The other modules hold what those files rely on:

* `Wire` holds forms, requests, envelopes and the two outcome rules.
* `Text` holds `strings.Join`, `strconv.Itoa` and `strconv.FormatBool`, plus
  the inverse operations a server applies to them (a split on commas and a
  decimal parse). These inverses are what let the model show that ID lists
  arrive intact.
* `Results` holds `Option` and `IoResult`.

The Go `Client` struct is a Dafny class with the same fields, and
`http.Client` is a class holding its timeout and cookie jar. `NewClient`
mutates the HTTP client it is given, as the Go code does. The methods defined
on `*Client` in Go are module-level methods here, and `c` is an explicit
parameter.

Choices where the sources disagree:

* `pkg/filelocker/securemessages.go` reads `c.baseURL` and `c.client`, but the
  struct only has `BaseURL` and `Client` (pkg/filelocker/filelocker.go:17-18).
  So as written the file does not compile. The model reads the struct's
  fields, which is evidently what was meant.
* The session description promises a non-empty origin after a successful
  login. The code only checks that there is at least one info message. So an
  empty first info message gives a successful login with an empty origin, and
  the model follows the code.
* `messagesToJSON` fills the output's `Error` field from the info messages
  instead of the error messages. The model reproduces this.
* `NewSecureMessage` sends a hard-coded expiration date; see Findings.

## Model

| member | source | states |
|---|---|---|
| `Locker.LoginOrigin` | pkg/filelocker/filelocker.go:97-100 | login fails exactly when the error list is non-empty or the info list is empty; on success the origin is the first info message |
| `Locker.LoginOriginIgnoresLaterInfo` | pkg/filelocker/filelocker.go:100 | once login succeeds, info messages after the first never change the origin |
| `Locker.EmptyFirstInfoAccepted` | pkg/filelocker/filelocker.go:97-100 | a reply with no error and an empty first info message is a successful login whose origin is the empty string |
| `Locker.NewClient` | pkg/filelocker/filelocker.go:32-103 | a nil HTTP client is replaced by a fresh one with a 30-second timeout; a missing cookie jar is installed and an existing one kept; a URL parse error returns before any request is sent; the login form is `CLIkey`, `userId`, posted to the base URL plus `/cli/CLI_login` with the form and XML headers; a transport or decode error returns no client; otherwise a fresh client with the parsed base URL is returned whose Errors and Messages are the decoded lists, whose origin is the first info message on success and empty on failure, and the error is "error logging into filelocker" exactly on failure |
| `Locker.LoginFormCarriesCredentials` | pkg/filelocker/filelocker.go:52-54 | the login form holds the API key under `CLIkey` and the user ID under `userId`, once each |
| `Wire.Add` | pkg/filelocker/files.go:96-98 | appending a parameter adds its value last under its key and leaves the earlier parameters in place |
| `Wire.AddKeepsOtherKeys` | pkg/filelocker/files.go:96-110 | adding under one key leaves every other key's values unchanged |
| `Wire.ValuesOfSingle` | pkg/filelocker/files.go:96-108 | a key that exactly one parameter uses has exactly that value |
| `Wire.ValuesOfAbsent` | pkg/filelocker/files.go:100-102 | a key no parameter uses has no value |
| `Wire.FormHeaders` | pkg/filelocker/filelocker.go:62-63 | every form post carries Content-Type `application/x-www-form-urlencoded` and the given Accept type, once each |
| `Wire.XmlOutcome` | pkg/filelocker/files.go:62-71 | a round-trip error is returned with a nil response; otherwise the decoded response is always returned, with the call's failure message exactly when the error list is non-empty |
| `Wire.JsonOutcome` | pkg/filelocker/securemessages.go:56-66 | exactly one of response and error is returned; a round-trip error is passed on; otherwise there is an error exactly when the error list is non-empty, and a returned response is the decoded one unchanged |
| `Wire.XmlJsonAsymmetry` | pkg/filelocker/groups.go:61-65 | on an envelope with errors the XML rule keeps the response and the JSON rule drops it; in every other case the two rules agree |
| `Wire.InfoMessagesIrrelevant` | pkg/filelocker/files.go:67-71 | info messages never decide whether an XML or JSON call fails |
| `LockerFiles.Files` | pkg/filelocker/files.go:32-72 | posts exactly `format=cli` to `/file/get_user_file_list` with XML headers; the outcome follows the XML rule with "error listing file" |
| `LockerFiles.Upload` | pkg/filelocker/files.go:82-144 | a failed read of the source returns its error and sends nothing; otherwise posts the content as the raw body to `/file/upload`; the query is `format=cli`, `fileName`, then `scanFile=true` only when scanning, then `fileNotes`, with the default note exactly when the notes are empty; the headers are Content-Type `application/octet-stream`, Accept `text/xml`, Content-Length the content's length in decimal, and X-File-Name the name; the outcome follows the XML rule with "error uploading" |
| `LockerFiles.UploadQueryValues` | pkg/filelocker/files.go:96-108 | the upload query holds one format, one file name, a `scanFile` value of "true" when scanning and none otherwise, and one note, which is "Uploaded by #golang" when the notes are empty and the notes otherwise |
| `LockerFiles.Delete` | pkg/filelocker/files.go:153-195 | posts `format=cli`, `requestOrigin` set to the client's origin, and `fileIds` set to the IDs joined with commas in input order, to `/file/delete_files`; the outcome follows the XML rule with "error deleting file" |
| `LockerGroups.GroupsRequest` | pkg/filelocker/groups.go:28-38 | posts `format=cli` and no other form key to `/account/get_groups`, with the form Content-Type and the XML Accept header |
| `LockerGroups.Groups` | pkg/filelocker/groups.go:27-66 | a round-trip error gives a nil response; otherwise the decoded groups always come back unchanged, with "error listing groups" exactly when the error list is non-empty |
| `LockerGroups.GroupsIgnoreInfo` | pkg/filelocker/groups.go:55-65 | whatever the info list holds, the decision and the groups returned are the same |
| `LockerMessages.SecureMessages` | pkg/filelocker/securemessages.go:35-67 | posts without a body to `/message/get_messages` accepting JSON; the nested groups come back exactly as decoded, or nil with "error listing secure messages" |
| `LockerMessages.SecureMessageRead` | pkg/filelocker/securemessages.go:76-111 | the form is `messageId` set to the decimal string of the ID, which reads back as the ID; posted to `/message/read_message`; JSON outcome rule |
| `LockerMessages.SecureMessagesCount` | pkg/filelocker/securemessages.go:115-153 | posts to `/message/get_new_message_count`; without an error the count returned is the decoded `data` field; JSON outcome rule |
| `LockerMessages.MessageForm` | pkg/filelocker/securemessages.go:163-169 | the new-message form is `requestOrigin`, `subject`, `body`, `expiration`, `recipientIds` in that order, each once, with the recipients joined by commas |
| `LockerMessages.NewSecureMessage` | pkg/filelocker/securemessages.go:162-204 | as written: posts the message form with the hard-coded expiration "07/10/2019" to `/message/create_message`; JSON outcome rule with "error sending secure messages" |
| `LockerMessages.HardCodedExpirationIgnoresCaller` | pkg/filelocker/securemessages.go:167 | whatever other expiration a caller wants, the as-written form does not carry it |
| `LockerMessages.NewSecureMessageExpiring` | pkg/filelocker/securemessages.go:162-204 | corrected: the form is the message form carrying the caller's expiration, with the origin, subject, body and comma-joined recipients once each; JSON outcome rule |
| `LockerMessages.SecureMessagesDelete` | pkg/filelocker/securemessages.go:213-254 | the form is `messageIds` set to the decimal IDs joined with commas in order, then `requestOrigin` set to the origin; no IDs give the empty string; posted to `/message/delete_messages`; JSON outcome rule |
| `LockerMessages.MessageIdsReadBack` | pkg/filelocker/securemessages.go:214-220 | a non-empty list of IDs sent as `messageIds` splits and parses back to exactly that list; an empty list is sent as "" |
| `LockerMessages.DeleteOneTwoThree` | pkg/filelocker/securemessages.go:214-220 | the IDs 1, 2, 3 are sent as "1,2,3" |
| `Text.SplitJoin` | pkg/filelocker/files.go:157 | splitting the joined list on the separator gives the list back when no element holds the separator |
| `Text.ItoaRoundTrip` | pkg/filelocker/securemessages.go:78 | the decimal string of any integer, negative ones included, parses back to that integer |
| `Text.ItoaHasNoComma` | pkg/filelocker/securemessages.go:216 | a decimal string never contains a comma |
| `Text.DecimalIds` | pkg/filelocker/securemessages.go:214-217 | one decimal string per ID, in order |
| `Text.ParseDecimalIds` | pkg/filelocker/securemessages.go:214-217 | parsing each decimal string gives back the list of IDs |
| `Text.IdListRoundTrip` | pkg/filelocker/securemessages.go:214-220 | a non-empty ID list joined with commas splits and parses back to that list |
| `ReadCommand.MessagesToJSON` | cmd/filelocker/cmd/read.go:79-134 | requires a first group (the source indexes it); the record's messages are exactly the first group's, in order; Info and Error are both the info list |
| `ReadCommand.ListingLines` | cmd/filelocker/cmd/read.go:65-67 | one line per message of the first group, in order, giving its ID, expiration, subject and body |
| `ReadCommand.RunRead` | cmd/filelocker/cmd/read.go:40-69 | exactly one request is sent; without `--all` it is the count request (a bodiless JSON post to `/message/get_new_message_count`), and the output is the count or the wrapped count error; with `--all` it is the list request (a bodiless JSON post to `/message/get_messages`), and the output is the wrapped error, a panic when there is no group, the JSON record, or the text lines of the first group |

## Left out

* The HTTP transport, the cookie jar's contents, and reading and closing
  response bodies are not modelled. The `server` parameter stands for all of
  them. An `http.NewRequest` error is folded into the server's error, because
  both are passed on unchanged.
* XML and JSON decoding are not modelled. The server returns an already
  decoded envelope.
* `SecureMessage` has no JSON tags, while the service's records use the names
  `creationDatetime`, `expirationDatetime`, `messageRecipients` and
  `viewedDatetime`; by encoding/json's name matching, `Created`, `Expiration`,
  `Recipients` and `Viewed` would then stay empty, and so would the
  `Expiration:` of the `read` listing. The unconstrained decoded reply does not
  capture this.
* `url.Values.Encode` (percent-encoding and key sorting) is not modelled.
  Form bodies and the upload query are the ordered parameter list before
  encoding.
* `url.Parse` is the parameter `parseURL`, which gives the printed form of the
  parsed URL or the parse error. A query already present in the base URL is
  not modelled.
* `cookiejar.New(nil)` is modelled as always succeeding, which it does in Go.
  Its error branch is therefore absent.
* The timeout is a whole number of seconds. `time.Duration` arithmetic and the
  CLI's duration parsing are left out.
* Cookies set by the login reply are not modelled. How they reach later calls
  is transport state.
* `json.MarshalIndent` and its error branch in `read.go` are not modelled. The
  model stops at the record handed to the encoder, and printing is the
  `ReadOutput` value.
* The difference between nil and empty slices in that record is not
  modelled.
* The `--mark` flag of the `read` command is not modelled, because the
  command never consults it.
* Go's `int` is modelled as an unbounded integer. IDs and counts are far below
  64 bits.
* The `log.Println` in `NewSecureMessage` is not modelled, because it changes
  nothing the caller sees.
* `cmd/filelocker/cmd/root.go` and `cmd/filelocker/cmd/send.go` are not part
  of this model. They wire cobra and viper flags and configuration to the
  library calls modelled here.
* `pkg/filelocker/version.go` is not part of this model, because it holds
  only constants.
* `Text.Split` is the reading side that a server applies, not client code; it
  is there only to state the round trips.

## Findings

| source | as written | input that shows it | evidently intended | confidence | as-written member | corrected member |
|---|---|---|---|---|---|---|
| pkg/filelocker/securemessages.go:162-167 | `NewSecureMessage` takes no expiration and always sends `expiration=07/10/2019` | any message meant to expire on a date other than 07/10/2019, e.g. the caller asks for "12/31/2030"; the CLI and the tests pass a fourth time argument and expect it as `MM/DD/YYYY` | the expiration sent is the caller's date, formatted `MM/DD/YYYY` | not executed | `LockerMessages.NewSecureMessage`, `LockerMessages.HardCodedExpirationIgnoresCaller` | `LockerMessages.NewSecureMessageExpiring` |
