/**
 * What HandleLNURL promises, stated over all inputs and all collaborators: the
 * normalisation branches and their order, the onion test as written, the query-only
 * short-circuits, the single fetch, and the body dispatch.
 */
module HandleProperties {
  import opened Wrappers
  import opened GoStrings
  import opened LnurlTypes
  import opened Handle

  // ---------------------------------------------------------------------------
  // The lightning-address onion test

  /**
   * The onion test holds exactly for a 5-byte domain (where strings.Index's -1
   * equals len-6) and for a domain whose only-or-first ".onion" is its suffix.
   */
  lemma OnionDomainIff(d: string)
    ensures IsOnionDomain(d) <==>
              || |d| == 5
              || (HasSuffix(d, ".onion") && forall i :: 0 <= i < |d| - 6 ==> !OccursAt(d, ".onion", i))
  {
    var k := Index(d, ".onion");
    if HasSuffix(d, ".onion") {
      assert OccursAt(d, ".onion", |d| - 6);
    }
    if k >= 0 {
      assert |d| >= 6;
      if k == |d| - 6 {
        assert d[|d| - 6..] == d[k..k + 6];
      }
    }
  }

  /** Every 5-byte domain is treated as an onion service, although none ends in ".onion". */
  lemma FiveByteDomainIsOnion(d: string)
    requires |d| == 5
    ensures IsOnionDomain(d) && !HasSuffix(d, ".onion")
  {
  }

  /** A domain with a ".onion" before its last six bytes is not treated as an onion service. */
  lemma EarlierOnionIsNotOnion(d: string, i: int)
    requires 0 <= i < |d| - 6 && OccursAt(d, ".onion", i)
    ensures !IsOnionDomain(d)
  {
  }

  /** "x.onion.onion" ends in ".onion" and is still served over https. */
  lemma RepeatedOnionExample()
    ensures HasSuffix("x.onion.onion", ".onion") && !IsOnionDomain("x.onion.onion")
  {
  }

  // ---------------------------------------------------------------------------
  // Normalisation

  /** A lightning address wins over every other branch and becomes the LUD-16 URL. */
  lemma AddressBranch(raw: string, c: Collaborators, id: Identifier)
    requires c.parseInternetIdentifier(raw) == Some(id)
    ensures Normalise(raw, c) ==
              Ok((if || |id.domain| == 5
                     || (&& HasSuffix(id.domain, ".onion")
                         && forall i :: 0 <= i < |id.domain| - 6 ==> !OccursAt(id.domain, ".onion", i))
                  then "http://" else "https://")
                 + id.domain + "/.well-known/lnurlp/" + id.name)
  {
    OnionDomainIff(id.domain);
    var scheme := if IsOnionDomain(id.domain) then "http://" else "https://";
    assert AddressURL(id) == scheme + (id.domain + WellKnownPay + id.name);
    assert scheme + (id.domain + WellKnownPay + id.name)
        == scheme + id.domain + "/.well-known/lnurlp/" + id.name;
  }

  /** A lightning address with a 5-byte domain gets plain http, although the domain is not ".onion". */
  lemma FiveByteAddressUsesHttp(raw: string, c: Collaborators, id: Identifier)
    requires c.parseInternetIdentifier(raw) == Some(id) && |id.domain| == 5
    ensures !HasSuffix(id.domain, ".onion")
    ensures Normalise(raw, c) == Ok("http://" + id.domain + "/.well-known/lnurlp/" + id.name)
  {
    FiveByteDomainIsOnion(id.domain);
    assert AddressURL(id) == "http://" + (id.domain + WellKnownPay + id.name);
    assert "http://" + (id.domain + WellKnownPay + id.name)
        == "http://" + id.domain + "/.well-known/lnurlp/" + id.name;
  }

  /** The four schemes handle.go rewrites all have the LUD-17 shape `name://`. */
  lemma ProtocolSchemesAreSchemePrefixes()
    ensures IsSchemePrefix("lnurlp://") && IsSchemePrefix("lnurlw://")
    ensures IsSchemePrefix("lnurla://") && IsSchemePrefix("keyauth://")
  {
    assert "lnurlp://"[..6] == "lnurlp";
    assert "lnurlw://"[..6] == "lnurlw";
    assert "lnurla://"[..6] == "lnurla";
    assert "keyauth://"[..7] == "keyauth";
  }

  /**
   * A LUD-17 input that is not an internet identifier becomes "https://" (or
   * "http://" for an onion service) followed by everything after its "scheme://".
   */
  lemma SchemeBranch(raw: string, c: Collaborators, p: string)
    requires c.parseInternetIdentifier(raw).None?
    requires p in ["lnurlp://", "lnurlw://", "lnurla://", "keyauth://"] && HasPrefix(raw, p)
    ensures Normalise(raw, c) ==
              Ok((if Contains(raw, ".onion/") || HasSuffix(raw, ".onion") then "http://" else "https://")
                 + raw[|p|..])
    ensures IsAbsoluteHttp(Normalise(raw, c).value)
  {
    assert !HasPrefix(raw, "http") by {
      assert raw[0] == p[0] != 'h';
    }
    assert HasProtocolScheme(raw);
    ProtocolSchemesAreSchemePrefixes();
    assert IsSchemePrefix(p);
    var rest := raw[|p|..];
    var u := SchemeURL(raw);
    assert Normalise(raw, c) == Ok(u);
    assert u == (if MentionsOnion(raw) then "http://" else "https://") + rest;
    assert IsAbsoluteHttp(u) by {
      assert ("http://" + rest)[..7] == "http://";
      assert ("https://" + rest)[..8] == "https://";
    }
  }

  /** A URL already starting with "http" is used verbatim, unless it parses as an internet identifier. */
  lemma PlainURLBranch(raw: string, c: Collaborators)
    requires c.parseInternetIdentifier(raw).None? && HasPrefix(raw, "http")
    ensures Normalise(raw, c) == Ok(raw)
    ensures HandleLNURL(raw, c).rawurl == raw
  {
  }

  /**
   * The first three branches produce a URL starting with "http"; normalising it again
   * leaves it unchanged unless it also reads as an internet identifier.
   */
  lemma NormaliseIdempotent(raw: string, c: Collaborators)
    requires c.parseInternetIdentifier(raw).Some? || HasPrefix(raw, "http") || HasProtocolScheme(raw)
    requires Normalise(raw, c).Ok? && c.parseInternetIdentifier(Normalise(raw, c).value).None?
    ensures Normalise(Normalise(raw, c).value, c) == Normalise(raw, c)
  {
  }

  /** No bech32 token in the text: no URL, no descriptor, and an error naming the input. */
  lemma NoLNURLInText(raw: string, c: Collaborators)
    requires c.parseInternetIdentifier(raw).None? && !HasPrefix(raw, "http") && !HasProtocolScheme(raw)
    requires c.findLNURLInText(raw).None?
    ensures HandleLNURL(raw, c) ==
              Resolution("", None, Some(Message("invalid bech32-encoded lnurl: " + raw)))
  {
  }

  /**
   * A bech32 token that decodes: the decoded URL is the resolved URL, and it is
   * what every later stage sees.
   */
  lemma Bech32Branch(raw: string, c: Collaborators, token: string, u: string)
    requires c.parseInternetIdentifier(raw).None? && !HasPrefix(raw, "http") && !HasProtocolScheme(raw)
    requires c.findLNURLInText(raw) == Some(token) && c.lnurlDecode(token) == Ok(u)
    ensures Normalise(raw, c) == Ok(u)
    ensures HandleLNURL(raw, c).rawurl == u
  {
  }

  /** A token that fails to decode: no URL, no descriptor, and the decoder's own error. */
  lemma DecodeFailure(raw: string, c: Collaborators, token: string, e: Error)
    requires c.parseInternetIdentifier(raw).None? && !HasPrefix(raw, "http") && !HasProtocolScheme(raw)
    requires c.findLNURLInText(raw) == Some(token) && c.lnurlDecode(token) == Fail(e)
    ensures HandleLNURL(raw, c) == Resolution("", None, Some(e))
  {
  }

  /** A resolved URL that url.Parse rejects: that URL, no descriptor, and the parse error. */
  lemma URLParseFailure(raw: string, c: Collaborators, u: string, e: Error)
    requires Normalise(raw, c) == Ok(u) && c.parseURL(u) == Fail(e)
    ensures HandleLNURL(raw, c) == Resolution(u, None, Some(e))
  {
  }

  // ---------------------------------------------------------------------------
  // Pre-flight: answered from the query, no fetch

  /** `tag=login` always returns HandleAuth's value and error. */
  lemma LoginShortCircuit(raw: string, c: Collaborators, u: string, parsed: URL)
    requires Normalise(raw, c) == Ok(u) && c.parseURL(u) == Ok(parsed)
    requires QueryTag(parsed) == "login"
    ensures var reply := c.handleAuth(u, parsed, parsed.query);
            var r := HandleLNURL(raw, c);
            && r.rawurl == u && r.err == reply.err
            && (r.params.Some? <==> reply.value.Some?)
            && (reply.value.Some? ==> r.params == Some(Auth(reply.value.value)))
  {
  }

  /** `tag=withdrawRequest` that HandleFastWithdraw accepts returns its offer with no error. */
  lemma FastWithdrawShortCircuit(raw: string, c: Collaborators, u: string, parsed: URL, w: WithdrawParams)
    requires Normalise(raw, c) == Ok(u) && c.parseURL(u) == Ok(parsed)
    requires QueryTag(parsed) == "withdrawRequest" && c.handleFastWithdraw(parsed.query) == Some(w)
    ensures HandleLNURL(raw, c) == Resolution(u, Some(FastWithdraw(w)), None)
  {
  }

  /**
   * When the query settles the outcome, the fetch, the JSON reader and the body parsers
   * play no part: replacing them changes nothing.
   */
  lemma NoFetchWhenAnsweredByQuery(raw: string, c: Collaborators, u: string, parsed: URL,
                                   get: string -> Result<Bytes, Error>, parseJSON: Bytes -> Json,
                                   withdraw: Bytes -> Reply<WithdrawParams>,
                                   pay: Bytes -> Reply<PayParams>,
                                   channel: Bytes -> Reply<ChannelParams>)
    requires Normalise(raw, c) == Ok(u) && c.parseURL(u) == Ok(parsed)
    requires Preflight(u, parsed, c).Done?
    ensures HandleLNURL(raw, c.(get := get, parseJSON := parseJSON, handleWithdraw := withdraw,
                                handlePay := pay, handleChannel := channel))
            == HandleLNURL(raw, c)
  {
  }

  /** Any other query tag, or a declined fast withdraw, goes on to fetch the resolved URL. */
  lemma OtherTagsFetch(raw: string, c: Collaborators, u: string, parsed: URL)
    requires Normalise(raw, c) == Ok(u) && c.parseURL(u) == Ok(parsed)
    requires QueryTag(parsed) != "login"
    requires QueryTag(parsed) == "withdrawRequest" ==> c.handleFastWithdraw(parsed.query).None?
    ensures Preflight(u, parsed, c) == NeedFetch
    ensures c.get(u).Fail? ==> HandleLNURL(raw, c) == Resolution(u, None, Some(c.get(u).error))
    ensures c.get(u).Ok? ==> HandleLNURL(raw, c) == Postflight(u, parsed, c.get(u).value, c)
  {
  }

  /** The only URL ever fetched is the resolved one: getters that agree on it give the same result. */
  lemma FetchesOnlyResolvedURL(raw: string, c: Collaborators, get: string -> Result<Bytes, Error>)
    requires Normalise(raw, c).Ok? && get(Normalise(raw, c).value) == c.get(Normalise(raw, c).value)
    ensures HandleLNURL(raw, c.(get := get)) == HandleLNURL(raw, c)
  {
    var c' := c.(get := get);
    assert Normalise(raw, c') == Normalise(raw, c);
    var u := Normalise(raw, c).value;
    if c.parseURL(u).Ok? {
      var parsed := c.parseURL(u).value;
      assert Preflight(u, parsed, c') == Preflight(u, parsed, c);
      if c.get(u).Ok? {
        assert Postflight(u, parsed, c.get(u).value, c') == Postflight(u, parsed, c.get(u).value, c);
      }
    }
  }

  // ---------------------------------------------------------------------------
  // Post-flight: the fetched body

  /** A body whose `status` is "ERROR" yields the error envelope, whatever its `tag`. */
  lemma ErrorEnvelopeFirst(raw: string, c: Collaborators, u: string, parsed: URL, body: Bytes)
    requires Normalise(raw, c) == Ok(u) && c.parseURL(u) == Ok(parsed)
    requires Preflight(u, parsed, c) == NeedFetch && c.get(u) == Ok(body)
    requires JsonGet(c.parseJSON(body), "status") == "ERROR"
    ensures HandleLNURL(raw, c) ==
              Resolution(u, None, Some(ErrorResponse(parsed, JsonGet(c.parseJSON(body), "reason"), "ERROR")))
  {
  }

  /**
   * Otherwise the body's `tag` picks the parser, whose value and error are returned;
   * any other tag, a missing one included, is an error carrying the body.
   */
  lemma BodyTagDispatch(raw: string, c: Collaborators, u: string, parsed: URL, body: Bytes)
    requires Normalise(raw, c) == Ok(u) && c.parseURL(u) == Ok(parsed)
    requires Preflight(u, parsed, c) == NeedFetch && c.get(u) == Ok(body)
    requires JsonGet(c.parseJSON(body), "status") != "ERROR"
    ensures var r := HandleLNURL(raw, c);
            var tag := JsonGet(c.parseJSON(body), "tag");
            && r.rawurl == u
            && (tag == "withdrawRequest" ==>
                  r.err == c.handleWithdraw(body).err
                  && r.params == (if c.handleWithdraw(body).value.Some?
                                  then Some(Withdraw(c.handleWithdraw(body).value.value)) else None))
            && (tag == "payRequest" ==>
                  r.err == c.handlePay(body).err
                  && r.params == (if c.handlePay(body).value.Some?
                                  then Some(Pay(c.handlePay(body).value.value)) else None))
            && (tag == "channelRequest" ==>
                  r.err == c.handleChannel(body).err
                  && r.params == (if c.handleChannel(body).value.Some?
                                  then Some(Channel(c.handleChannel(body).value.value)) else None))
            && (tag !in {"withdrawRequest", "payRequest", "channelRequest"} ==>
                  r == Resolution(u, None, Some(Message("unknown response tag " + c.parseJSON(body).text))))
  {
  }

  // ---------------------------------------------------------------------------
  // The result as a whole

  /**
   * A descriptor always comes from the place its variant names: Auth and FastWithdraw
   * from the query's tag without a fetch, the other three from a fetched body that is
   * not an error envelope and whose tag selects that variant.
   */
  lemma DescriptorMatchesTag(raw: string, c: Collaborators)
    ensures var r := HandleLNURL(raw, c);
            r.params.Some? ==>
              && Normalise(raw, c) == Ok(r.rawurl)
              && c.parseURL(r.rawurl).Ok?
              && var parsed := c.parseURL(r.rawurl).value;
                 match r.params.value
                 case Auth(_) => QueryTag(parsed) == "login"
                 case FastWithdraw(_) => QueryTag(parsed) == "withdrawRequest"
                 case _ =>
                   && Preflight(r.rawurl, parsed, c) == NeedFetch
                   && c.get(r.rawurl).Ok?
                   && JsonGet(c.parseJSON(c.get(r.rawurl).value), "status") != "ERROR"
                   && SelectedBy(r.params.value, JsonGet(c.parseJSON(c.get(r.rawurl).value), "tag"))
  {
  }

  /** Every parser returns a value exactly when it returns no error. */
  ghost predicate ParsersWellBehaved(c: Collaborators) {
    && (forall u, p, q :: c.handleAuth(u, p, q).value.Some? <==> c.handleAuth(u, p, q).err.None?)
    && (forall b :: c.handleWithdraw(b).value.Some? <==> c.handleWithdraw(b).err.None?)
    && (forall b :: c.handlePay(b).value.Some? <==> c.handlePay(b).err.None?)
    && (forall b :: c.handleChannel(b).value.Some? <==> c.handleChannel(b).err.None?)
  }

  /**
   * With parsers that keep Go's convention, a resolution carries a descriptor exactly
   * when it carries no error: never both, never neither.
   */
  lemma ExactlyOneOutcome(raw: string, c: Collaborators)
    requires ParsersWellBehaved(c)
    ensures HandleLNURL(raw, c).params.Some? <==> HandleLNURL(raw, c).err.None?
  {
    match Normalise(raw, c)
    case Fail(_) =>
    case Ok(u) =>
      match c.parseURL(u)
      case Fail(_) =>
      case Ok(parsed) =>
        if Preflight(u, parsed, c) == NeedFetch && c.get(u).Ok? {
          var j := c.parseJSON(c.get(u).value);
          assert JsonGet(j, "status") != "ERROR" ==>
                   JsonGet(j, "tag") in {"withdrawRequest", "payRequest", "channelRequest"} ||
                   HandleLNURL(raw, c).err.Some?;
        }

  }
}
