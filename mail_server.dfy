/** mail/server.js: the two request handlers of the temporary-mail backend.

    GET /generate answers with a random address: a local part of 2 to 8
    lower-case letters under kulam.my.id. GET /inbox/:address lists at most
    ten messages sent to the address and answers with the From, Subject and
    Date header of each (section 3.6 of RFC 5322 defines these fields; the
    handler matches their names exactly as written, case-sensitively).

    The Gmail API is an input: `listing` answers a list request and `fetch`
    answers a get request for a message id. Express routing, OAuth and the
    network are not modelled. */
module MailServer {
  import opened Wrappers
  import opened RandomDraw

  const Letters: string := "abcdefghijklmnopqrstuvwxyz"
  const Domain: string := "@kulam.my.id"
  const ErrorBody: string := "Error fetching emails"

  /** `Math.floor(Math.random() * 7) + 2`. */
  function LocalPartLength(r: real): (len: nat)
    requires IsDraw(r)
    ensures 2 <= len <= 8
  {
    Index(r, 7) + 2
  }

  predicate IsLowerLetter(c: char) {
    'a' <= c <= 'z'
  }

  /** GET /generate: one draw for the length, then one draw per letter;
      the body is `{ email: name + "@kulam.my.id" }`. */
  method Generate(draws: seq<real>) returns (email: string)
    requires AllDraws(draws) && |draws| > 0 && 1 + LocalPartLength(draws[0]) <= |draws|
    ensures var len := LocalPartLength(draws[0]);
      email == Picked(Letters, draws[1..1 + len]) + Domain
    ensures |email| > |Domain| && email[|email| - |Domain|..] == Domain
    ensures var name := email[..|email| - |Domain|];
      2 <= |name| <= 8 && forall i :: 0 <= i < |name| ==> IsLowerLetter(name[i])
  {
    var length := LocalPartLength(draws[0]);
    var name := PickString(Letters, draws[1..], length);
    assert draws[1..][..length] == draws[1..1 + length];
    email := name + Domain;
    assert email[..|email| - |Domain|] == name;
    forall i | 0 <= i < |name| ensures IsLowerLetter(name[i]) {
      assert name[i] in Letters;
    }
  }

  datatype Header = Header(name: string, value: string)

  /** One row of the inbox answer. */
  datatype Summary = Summary(from: string, subject: string, date: string)

  /** The arguments of `gmail.users.messages.list`. */
  datatype ListRequest = ListRequest(userId: string, q: string, maxResults: nat)

  /** What the list call produced: a rejected promise, or a response whose
      `data.messages` is absent (None) or a list of message ids. */
  datatype ListResult = ListFailed | Listed(messages: Option<seq<string>>)

  /** What the get call for one id produced: a rejected promise, or a response
      whose `data.payload.headers` is absent (None) or the header list. */
  datatype GetResult = GetFailed | Got(headers: Option<seq<Header>>)

  /** The HTTP answer: a JSON array, or status 500 with a fixed text. */
  datatype Response = Json(summaries: seq<Summary>) | ServerError(status: nat, body: string)

  /** The list request sent for an address: the authenticated user's mailbox,
      the search `to:<address>` and a page of at most ten messages. */
  function ListQuery(address: string): (req: ListRequest)
    ensures req.userId == "me" && req.maxResults <= 10
    ensures |req.q| == 3 + |address| && req.q[..3] == "to:" && req.q[3..] == address
  {
    ListRequest("me", "to:" + address, 10)
  }

  /** `headers.find((h) => h.name === name)?.value || ""`: the value of the
      first header whose name is exactly `name`, or "" if there is none. */
  function HeaderValue(headers: seq<Header>, name: string): (v: string)
    ensures (forall i :: 0 <= i < |headers| ==> headers[i].name != name) ==> v == ""
    ensures forall k ::
      (0 <= k < |headers| && headers[k].name == name && forall j :: 0 <= j < k ==> headers[j].name != name)
      ==> v == headers[k].value
  {
    if headers == [] then ""
    else if headers[0].name == name then headers[0].value
    else HeaderValue(headers[1..], name)
  }

  /** The `{ from, subject, date }` object built for one message. */
  function Summarize(headers: seq<Header>): (s: Summary)
  {
    Summary(HeaderValue(headers, "From"), HeaderValue(headers, "Subject"), HeaderValue(headers, "Date"))
  }

  /** A header named in another case is not the field: the match is exact. */
  lemma CaseSensitiveMatch(value: string)
    ensures Summarize([Header("from", value), Header("SUBJECT", value), Header("date", value)]) == Summary("", "", "")
  {
  }

  /** `Promise.all(messages.map(...))`: the summaries of all ids in order, or
      None as soon as one get call fails or has no header list (reading
      `headers.find` of an absent list throws, which rejects the promise). */
  function SummarizeAll(ids: seq<string>, fetch: string -> GetResult): (r: Option<seq<Summary>>)
    ensures r.Some? <==> forall i :: 0 <= i < |ids| ==> fetch(ids[i]).Got? && fetch(ids[i]).headers.Some?
    ensures r.Some? ==> (|r.value| == |ids| &&
      forall i :: 0 <= i < |ids| ==> r.value[i] == Summarize(fetch(ids[i]).headers.value))
  {
    if ids == [] then Some([])
    else
      match fetch(ids[0])
      case GetFailed => None
      case Got(None) => None
      case Got(Some(headers)) =>
        match SummarizeAll(ids[1..], fetch)
        case None => None
        case Some(rest) => Some([Summarize(headers)] + rest)
  }

  /** GET /inbox/:address. Any failure inside the try block becomes the 500
      answer; a listing without `messages` is an empty array; otherwise one
      summary per listed message, in list order. */
  function Inbox(address: string, listing: ListRequest -> ListResult, fetch: string -> GetResult): (r: Response)
    ensures var l := listing(ListQuery(address));
      && (l == Listed(None) ==> r == Json([]))
      && (l.ListFailed? ==> r == ServerError(500, ErrorBody))
      && (l.Listed? && l.messages.Some? ==>
            var ids := l.messages.value;
            if forall i :: 0 <= i < |ids| ==> fetch(ids[i]).Got? && fetch(ids[i]).headers.Some?
            then r.Json? && |r.summaries| == |ids| &&
              forall i :: 0 <= i < |ids| ==> r.summaries[i] == Summarize(fetch(ids[i]).headers.value)
            else r == ServerError(500, ErrorBody))
  {
    match listing(ListQuery(address))
    case ListFailed => ServerError(500, ErrorBody)
    case Listed(None) => Json([])
    case Listed(Some(ids)) =>
      match SummarizeAll(ids, fetch)
      case None => ServerError(500, ErrorBody)
      case Some(summaries) => Json(summaries)
  }
}
