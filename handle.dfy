/**
 * HandleLNURL (handle.go): normalise a raw identifier into a URL, answer `login` and
 * fast `withdrawRequest` links from the URL's own query, otherwise fetch the URL and
 * dispatch on the JSON body's `status` and `tag`.
 */
module Handle {
  import opened Wrappers
  import opened GoStrings
  import opened LnurlTypes

  /** The LUD-16 path under which a lightning address is served. */
  const WellKnownPay := "/.well-known/lnurlp/"

  /**
   * The onion test of the lightning-address branch, as handle.go writes it: the FIRST
   * ".onion" in the domain starts at len(domain)-6, where strings.Index reports -1
   * for a domain without ".onion".
   */
  predicate IsOnionDomain(domain: string) {
    Index(domain, ".onion") == |domain| - 6
  }

  /** An absolute URL whose scheme is http or https. */
  predicate IsAbsoluteHttp(u: string) {
    HasPrefix(u, "http://") || HasPrefix(u, "https://")
  }

  /** One of the four LUD-17 protocol schemes that handle.go rewrites. */
  predicate HasProtocolScheme(s: string) {
    || HasPrefix(s, "lnurlp://")
    || HasPrefix(s, "lnurlw://")
    || HasPrefix(s, "lnurla://")
    || HasPrefix(s, "keyauth://")
  }

  /** The LUD-17 onion test: ".onion/" anywhere in the input, or ".onion" at its end. */
  predicate MentionsOnion(s: string) {
    Contains(s, ".onion/") || HasSuffix(s, ".onion")
  }

  /** The lightning-address URL for `name@domain` (LUD-16). */
  function AddressURL(id: Identifier): (u: string)
    ensures HasPrefix(u, "http://") <==> IsOnionDomain(id.domain)
    ensures HasPrefix(u, "https://") <==> !IsOnionDomain(id.domain)
    ensures HasSuffix(u, id.domain + WellKnownPay + id.name)
  {
    var location := id.domain + WellKnownPay + id.name;
    if IsOnionDomain(id.domain) then
      assert !HasPrefix("http://" + location, "https://") by {
        assert ("http://" + location)[4] == ':' != "https://"[4];
      }
      "http://" + location
    else
      assert !HasPrefix("https://" + location, "http://") by {
        assert ("https://" + location)[4] == 's' != "http://"[4];
      }
      "https://" + location
  }

  /** A scheme prefix in the LUD-17 shape: a name without ':' followed by "://". */
  predicate IsSchemePrefix(p: string) {
    |p| >= 3 && p[|p| - 3..] == "://" && ':' !in p[..|p| - 3]
  }

  /** The first ':' of an input with a scheme prefix is the one inside that prefix. */
  lemma FirstColonOfScheme(raw: string, p: string, k: int)
    requires IsSchemePrefix(p) && HasPrefix(raw, p)
    requires 0 <= k < |raw| && raw[k] == ':' && ':' !in raw[..k]
    ensures k == |p| - 3
  {
    assert raw[..|p|] == p;
    assert raw[|p| - 3] == p[|p| - 3..][0] == ':';
    assert forall i :: 0 <= i < k ==> raw[i] != ':' by {
      forall i | 0 <= i < k ensures raw[i] != ':' {
        assert raw[..k][i] == raw[i];
      }
    }
    assert forall i :: 0 <= i < |p| - 3 ==> raw[i] != ':' by {
      forall i | 0 <= i < |p| - 3 ensures raw[i] != ':' {
        assert raw[i] == p[..|p| - 3][i];
      }
    }
  }

  /**
   * Whatever its scheme prefix, "http:" or "https:" put before what follows the
   * input's first ':' spells "http://" or "https://" followed by the input after the prefix.
   */
  lemma AfterFirstColon(raw: string, k: int)
    requires 0 <= k < |raw| && raw[k] == ':' && ':' !in raw[..k]
    ensures forall p {:trigger HasPrefix(raw, p)} :: IsSchemePrefix(p) && HasPrefix(raw, p) ==>
              && "http:" + raw[k + 1..] == "http://" + raw[|p|..]
              && "https:" + raw[k + 1..] == "https://" + raw[|p|..]
  {
    forall p | IsSchemePrefix(p) && HasPrefix(raw, p)
      ensures "http:" + raw[k + 1..] == "http://" + raw[|p|..]
      ensures "https:" + raw[k + 1..] == "https://" + raw[|p|..]
    {
      FirstColonOfScheme(raw, p, k);
      assert raw[..|p|] == p;
      assert raw[k + 1] == p[|p| - 3..][1] == '/' && raw[k + 2] == p[|p| - 3..][2] == '/';
      assert raw[k + 1..] == "//" + raw[|p|..];
      SchemeSlashes(raw[|p|..]);
    }
  }

  /** "http:" or "https:" followed by "//" spells the full scheme, and the result is absolute. */
  lemma SchemeSlashes(rest: string)
    ensures "http:" + ("//" + rest) == "http://" + rest
    ensures "https:" + ("//" + rest) == "https://" + rest
  {
  }

  /**
   * The LUD-17 rewrite: the scheme becomes "https:" (or "http:" for an onion
   * service) and everything after the input's first ':' is kept, so the prefix
   * `name://` is replaced by "https://" or "http://".
   */
  function SchemeURL(raw: string): (u: string)
    requires HasProtocolScheme(raw)
    ensures exists k :: 0 <= k < |raw| && raw[k] == ':' && ':' !in raw[..k] &&
              u == (if MentionsOnion(raw) then "http:" else "https:") + raw[k + 1..]
    ensures forall p {:trigger HasPrefix(raw, p)} :: IsSchemePrefix(p) && HasPrefix(raw, p) ==>
              u == (if MentionsOnion(raw) then "http://" else "https://") + raw[|p|..]
    ensures HasPrefix(u, "http")
  {
    var scheme := if MentionsOnion(raw) then "http:" else "https:";
    assert ':' in raw by {
      if HasPrefix(raw, "keyauth://") {
        assert raw[..10][7] == ':';
      } else {
        assert raw[..9][6] == ':';
      }
    }
    var parts := SplitN2(raw, ':');
    var k := |parts[0]|;
    assert raw[k] == ':' && raw[..k] == parts[0] && raw[k + 1..] == parts[1] by {
      assert parts[0] + [':'] + parts[1] == raw;
    }
    AfterFirstColon(raw, k);
    assert (scheme + parts[1])[..4] == scheme[..4] == "http";
    scheme + parts[1]
  }

  /**
   * The normalisation chain of handle.go, first match wins: lightning address, then a
   * URL already starting with "http", then a LUD-17 scheme, then a bech32 token found
   * in the text and decoded.
   */
  function Normalise(raw: string, c: Collaborators): (r: Result<string, Error>)
    ensures c.parseInternetIdentifier(raw).Some? ==> r.Ok? && IsAbsoluteHttp(r.value)
    ensures c.parseInternetIdentifier(raw).None? && HasPrefix(raw, "http") ==> r == Ok(raw)
    ensures HasProtocolScheme(raw) ==> r.Ok? && HasPrefix(r.value, "http")
    ensures && c.parseInternetIdentifier(raw).None? && !HasPrefix(raw, "http") && !HasProtocolScheme(raw)
            && c.findLNURLInText(raw).Some?
            ==> r == c.lnurlDecode(c.findLNURLInText(raw).value)
    ensures r.Fail? ==>
              && c.parseInternetIdentifier(raw).None?
              && !HasPrefix(raw, "http")
              && !HasProtocolScheme(raw)
  {
    match c.parseInternetIdentifier(raw)
    case Some(id) => Ok(AddressURL(id))
    case None =>
      if HasPrefix(raw, "http") then Ok(raw)
      else if HasProtocolScheme(raw) then
        Ok(SchemeURL(raw))
      else
        match c.findLNURLInText(raw)
        case None => Fail(Message("invalid bech32-encoded lnurl: " + raw))
        case Some(lnurl) => c.lnurlDecode(lnurl)
  }

  /** The `tag` parameter of the resolved URL's own query. */
  function QueryTag(parsed: URL): string {
    ValuesGet(parsed.query, "tag")
  }

  /** What a parser returned, passed on unchanged as HandleLNURL's result. */
  function Pass<T>(rawurl: string, reply: Reply<T>, variant: T -> Params): (r: Resolution)
    ensures r.rawurl == rawurl && r.err == reply.err
    ensures r.params.Some? <==> reply.value.Some?
    ensures r.params.Some? ==> r.params.value == variant(reply.value.value)
  {
    match reply.value
    case None => Resolution(rawurl, None, reply.err)
    case Some(v) => Resolution(rawurl, Some(variant(v)), reply.err)
  }

  /** The outcome of the pre-flight stage: resolved from the query alone, or a fetch is needed. */
  datatype Step = Done(result: Resolution) | NeedFetch

  /**
   * Pre-flight dispatch on the query's `tag`: `login` always resolves through
   * HandleAuth; `withdrawRequest` resolves only when HandleFastWithdraw reports ok.
   */
  function Preflight(rawurl: string, parsed: URL, c: Collaborators): (s: Step)
    ensures s.Done? <==>
              || QueryTag(parsed) == "login"
              || (QueryTag(parsed) == "withdrawRequest" && c.handleFastWithdraw(parsed.query).Some?)
    ensures s.Done? ==> s.result.rawurl == rawurl
    ensures s.Done? && QueryTag(parsed) == "withdrawRequest" ==>
              s.result == Resolution(rawurl, Some(FastWithdraw(c.handleFastWithdraw(parsed.query).value)), None)
  {
    var tag := QueryTag(parsed);
    if tag == "login" then
      Done(Pass(rawurl, c.handleAuth(rawurl, parsed, parsed.query), (a: AuthParams) => Auth(a)))
    else if tag == "withdrawRequest" then
      match c.handleFastWithdraw(parsed.query)
      case Some(w) => Done(Resolution(rawurl, Some(FastWithdraw(w)), None))
      case None => NeedFetch
    else
      NeedFetch
  }

  /** The descriptor variant that a body `tag` selects, if any. */
  predicate SelectedBy(p: Params, tag: string) {
    match p
    case Withdraw(_) => tag == "withdrawRequest"
    case Pay(_) => tag == "payRequest"
    case Channel(_) => tag == "channelRequest"
    case _ => false
  }

  /**
   * Post-flight dispatch on the fetched body: an error envelope first, then the body's
   * `tag`; an unrecognised tag is an error carrying the body.
   */
  function Postflight(rawurl: string, parsed: URL, body: Bytes, c: Collaborators): (r: Resolution)
    ensures r.rawurl == rawurl
    ensures JsonGet(c.parseJSON(body), "status") == "ERROR" ==>
              r == Resolution(rawurl, None,
                              Some(ErrorResponse(parsed, JsonGet(c.parseJSON(body), "reason"), "ERROR")))
    ensures r.params.Some? ==>
              && JsonGet(c.parseJSON(body), "status") != "ERROR"
              && SelectedBy(r.params.value, JsonGet(c.parseJSON(body), "tag"))
  {
    var j := c.parseJSON(body);
    if JsonGet(j, "status") == "ERROR" then
      Resolution(rawurl, None, Some(ErrorResponse(parsed, JsonGet(j, "reason"), "ERROR")))
    else
      match JsonGet(j, "tag")
      case "withdrawRequest" => Pass(rawurl, c.handleWithdraw(body), (w: WithdrawParams) => Withdraw(w))
      case "payRequest" => Pass(rawurl, c.handlePay(body), (p: PayParams) => Pay(p))
      case "channelRequest" => Pass(rawurl, c.handleChannel(body), (ch: ChannelParams) => Channel(ch))
      case _ => Resolution(rawurl, None, Some(Message("unknown response tag " + j.text)))
  }

  /**
   * HandleLNURL: the URL it resolved to ("" when normalisation failed), the
   * descriptor, and the error.
   */
  function HandleLNURL(rawlnurl: string, c: Collaborators): (r: Resolution)
    ensures Normalise(rawlnurl, c).Fail? ==>
              r == Resolution("", None, Some(Normalise(rawlnurl, c).error))
    ensures Normalise(rawlnurl, c).Ok? ==> r.rawurl == Normalise(rawlnurl, c).value
  {
    match Normalise(rawlnurl, c)
    case Fail(e) => Resolution("", None, Some(e))
    case Ok(rawurl) =>
      match c.parseURL(rawurl)
      case Fail(e) => Resolution(rawurl, None, Some(e))
      case Ok(parsed) =>
        match Preflight(rawurl, parsed, c)
        case Done(result) => result
        case NeedFetch =>
          match c.get(rawurl)
          case Fail(e) => Resolution(rawurl, None, Some(e))
          case Ok(body) => Postflight(rawurl, parsed, body, c)
  }
}
