/**
 * The values HandleLNURL takes, returns and exchanges with its collaborators: the
 * parsed URL and its query, the fetched JSON body, the errors, the five protocol
 * descriptors, and the collaborators themselves.
 */
module LnurlTypes {
  import opened Wrappers

  /** A byte of a fetched response body. */
  type Bytes = seq<bv8>

  /** url.Values: every query parameter with all of its values, in order. */
  type Values = map<string, seq<string>>

  /** url.Values.Get: the first value of `key`, or "" when there is none. */
  function ValuesGet(v: Values, key: string): (r: string)
    ensures key !in v || v[key] == [] ==> r == ""
    ensures key in v && v[key] != [] ==> r == v[key][0]
  {
    if key in v && v[key] != [] then v[key][0] else ""
  }

  /** Key/value pairs in the order they appear in a query string or a JSON object. */
  type Pairs = seq<(string, string)>

  /** The value of the first pair named `key`, or "" when no pair has that name. */
  function FirstValue(pairs: Pairs, key: string): string {
    if pairs == [] then ""
    else if pairs[0].0 == key then pairs[0].1
    else FirstValue(pairs[1..], key)
  }

  /** How url.ParseQuery groups a query's pairs: every key with all its values, in order. */
  function ValuesOf(pairs: Pairs): Values {
    if pairs == [] then map[]
    else
      var rest := ValuesOf(pairs[1..]);
      var (k, v) := pairs[0];
      rest[k := [v] + (if k in rest then rest[k] else [])]
  }

  /** url.Values.Get on a parsed query gives the value of the first pair with that key. */
  lemma {:induction false} ValuesGetFirstPair(pairs: Pairs, key: string)
    ensures ValuesGet(ValuesOf(pairs), key) == FirstValue(pairs, key)
  {
    if pairs != [] {
      ValuesGetFirstPair(pairs[1..], key);
    }
  }

  /** The *url.URL that url.Parse returns; `query` is what its Query() method yields. */
  datatype URL = URL(raw: string, query: Values)

  /**
   * A gjson result for a fetched body: `fields` holds `.String()` of every top-level
   * field that is present, and `text` is the whole value's `.String()`.
   */
  datatype Json = Json(fields: map<string, string>, text: string)

  /** gjson's `Get(key).String()`: a missing field reads as "". */
  function JsonGet(j: Json, key: string): (r: string)
    ensures key !in j.fields ==> r == ""
    ensures key in j.fields ==> r == j.fields[key]
  {
    if key in j.fields then j.fields[key] else ""
  }

  /** The fields of a JSON object as gjson reads them: a repeated name keeps its first value. */
  function FieldsOf(members: Pairs): map<string, string> {
    if members == [] then map[]
    else FieldsOf(members[1..])[members[0].0 := members[0].1]
  }

  /** gjson's `Get(key).String()` on an object gives the value of the first member with that name. */
  lemma {:induction false} JsonGetFirstMember(members: Pairs, text: string, key: string)
    ensures JsonGet(Json(FieldsOf(members), text), key) == FirstValue(members, key)
  {
    if members != [] {
      JsonGetFirstMember(members[1..], text, key);
    }
  }

  /** The `error` values HandleLNURL returns. */
  datatype Error =
    | Message(text: string)
      // errors.New(text), or an error raised by a collaborator
    | ErrorResponse(url: URL, reason: string, status: string)
      // LNURLErrorResponse: the service answered with status "ERROR"

  /** The subprotocol descriptors. Their fields are filled by the parsers, which are collaborators. */
  datatype AuthParams = AuthParams(callback: string, k1: string, action: string)
  datatype WithdrawParams =
    WithdrawParams(callback: string, k1: string, minWithdrawable: int, maxWithdrawable: int,
                   defaultDescription: string)
  datatype PayParams =
    PayParams(callback: string, minSendable: int, maxSendable: int, metadata: string,
              commentAllowed: int)
  datatype ChannelParams = ChannelParams(uri: string, callback: string, k1: string)

  /** LNURLParams: exactly one subprotocol, told apart by the variant itself. */
  datatype Params =
    | Auth(auth: AuthParams)
    | FastWithdraw(fast: WithdrawParams)
    | Withdraw(withdraw: WithdrawParams)
    | Pay(pay: PayParams)
    | Channel(channel: ChannelParams)

  /** A parser's `(value, error)` pair; `value == None` is a nil LNURLParams. */
  datatype Reply<+T> = Reply(value: Option<T>, err: Option<Error>)

  /** HandleLNURL's `(string, LNURLParams, error)` triple. */
  datatype Resolution = Resolution(rawurl: string, params: Option<Params>, err: Option<Error>)

  /** ParseInternetIdentifier's `(name, domain)` when it reports ok. */
  datatype Identifier = Identifier(name: string, domain: string)

  /**
   * Everything HandleLNURL calls but does not define. `get` is the HTTP GET through
   * `actualClient` followed by io.ReadAll of the body; an error from either is its Fail.
   */
  datatype Collaborators = Collaborators(
    parseInternetIdentifier: string -> Option<Identifier>,
    findLNURLInText: string -> Option<string>,
    lnurlDecode: string -> Result<string, Error>,
    parseURL: string -> Result<URL, Error>,
    handleAuth: (string, URL, Values) -> Reply<AuthParams>,
    handleFastWithdraw: Values -> Option<WithdrawParams>,
    get: string -> Result<Bytes, Error>,
    parseJSON: Bytes -> Json,
    handleWithdraw: Bytes -> Reply<WithdrawParams>,
    handlePay: Bytes -> Reply<PayParams>,
    handleChannel: Bytes -> Reply<ChannelParams>)
}
