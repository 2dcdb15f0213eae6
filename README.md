# HandleLNURL, modelled in Dafny

This project models `HandleLNURL` from the Go LNURL library (`handle.go`). The function
takes a raw LNURL-style identifier and resolves it to the URL it denotes. It then returns
one subprotocol descriptor (auth, fast withdraw, withdraw, pay or channel) or an error.
It works in three stages:

1. **Normalisation** (`Handle.Normalise`). The first matching branch wins:
   - a lightning address `name@domain` (LUD-16) becomes `scheme + domain + "/.well-known/lnurlp/" + name`;
   - an input starting with `http` is used verbatim;
   - a LUD-17 scheme (`lnurlp://`, `lnurlw://`, `lnurla://`, `keyauth://`) becomes `https:` or `http:` followed by everything after the first `:`;
   - anything else is scanned for a bech32 token, which is then decoded.
2. **Pre-flight dispatch** (`Handle.Preflight`) reads the resolved URL's own query. `tag=login` is answered by the auth parser. `tag=withdrawRequest` is answered by the fast-withdraw parser when that parser reports ok. Either way, no fetch happens.
3. **Post-flight dispatch** (`Handle.Postflight`) reads the fetched body. A body whose `status` is `"ERROR"` becomes an `LNURLErrorResponse`, and this check comes before any tag. Otherwise the body's `tag` picks the withdraw, pay or channel parser. Any other tag is an error.

Everything `HandleLNURL` calls but does not define is a field of the `LnurlTypes.Collaborators` value:
- the identifier parser, the bech32 text scanner and the bech32 decoder;
- `url.Parse` and `Query()`;
- the HTTP GET together with reading the body;
- the JSON reader;
- the five subprotocol parsers.

So every property below holds for every behaviour of those collaborators. "No network call" is stated as "the result does not depend on the `get` collaborator".

Go strings are byte strings. In this model each element of a Dafny `string` stands for one byte, so lengths and offsets are byte counts, as in `handle.go`. The functions of Go's `strings` package that the code uses are defined in module `GoStrings`: `Index`, `HasPrefix`, `HasSuffix`, `Contains` and `SplitN` with n = 2.

### Notes on the code's behaviour (the model follows the code)

- **Onion test for lightning addresses.** LUD-16 serves an address over `http` exactly when its domain is an onion service, that is, when the domain ends in `.onion`. `handle.go:21` instead compares the *first* index of `.onion` with `len(domain)-6`, and `strings.Index` gives -1 when the substring is absent. The consequences:
  - every 5-byte domain (for example `abcde`) gets `http://`;
  - a domain whose first `.onion` is not at its end gets `https://` (`x.onion.onion`).

  `HandleProperties.OnionDomainIff` gives the exact condition. `FiveByteDomainIsOnion`, `FiveByteAddressUsesHttp`, `EarlierOnionIsNotOnion` and `RepeatedOnionExample` exhibit the two cases. The model keeps the code's test.
- **Absolute URLs.** A caller might expect the resolved URL to be an absolute `http`/`https` URL. The code guarantees this only for lightning addresses and LUD-17 schemes (`Normalise`, `SchemeBranch`). An input such as `httpfoo` is passed on verbatim. A decoded bech32 URL is not checked either: `url.Parse` accepts relative URLs and other schemes, and nothing in `HandleLNURL` checks it. So such a URL can reach the auth parser (`handle.go:62`) or the GET (`handle.go:70`).
- **Failed decode.** When no token is found or decoding fails, the returned URL is `""` (`handle.go:44-50`).

## Model

| member | source | states |
|---|---|---|
| `GoStrings.HasPrefix` | handle.go:28-33 | `strings.HasPrefix`: true exactly when the string is the prefix followed by some rest |
| `GoStrings.HasSuffix` | handle.go:36 | `strings.HasSuffix`: true exactly when the string is some rest followed by the suffix |
| `GoStrings.Index` | handle.go:21 | the result is -1 exactly when the substring occurs nowhere; otherwise it occurs at the result and at no earlier offset |
| `GoStrings.Contains` | handle.go:36 | true exactly when the substring occurs at some offset |
| `GoStrings.SplitN2` | handle.go:39 | two parts exactly when the separator occurs; part 0, the separator and part 1 rejoin to the input; part 0 holds no separator |
| `LnurlTypes.ValuesGetFirstPair` | handle.go:60 | `query.Get("tag")` on a query parsed from its key/value pairs is the value of the first pair with that key, or `""` when no pair has it |
| `LnurlTypes.JsonGetFirstMember` | handle.go:81-89 | gjson `Get(key).String()` on an object read from its members is the value of the first member with that name, or `""` when none has it |
| `Handle.AddressURL` | handle.go:21-27 | the LUD-16 URL starts with `http://` exactly when the onion test holds, otherwise with `https://`, and ends with `domain/.well-known/lnurlp/name` |
| `Handle.SchemeURL` | handle.go:35-40 | the result is `http:` (onion) or `https:` followed by everything after the input's first `:`; equivalently, the prefix `name://` is replaced by `http://` or `https://` and the rest of the input is kept |
| `Handle.Normalise` | handle.go:20-51 | an identifier yields an absolute http(s) URL; otherwise an `http…` input is returned unchanged; a LUD-17 input yields an `http…` URL; otherwise a bech32 token found in the text resolves to exactly what the decoder returns for it; failure happens only in the bech32 branch |
| `Handle.Preflight` | handle.go:58-68 | resolves without a fetch exactly for `tag=login`, or for `tag=withdrawRequest` that fast withdraw accepts; a fast withdraw returns its offer with no error |
| `Handle.Postflight` | handle.go:80-101 | a body with status `"ERROR"` gives the error response with the body's reason and no value; a returned descriptor always comes from a non-error body whose tag selects it |
| `Handle.HandleLNURL` | handle.go:16-102 | a failed normalisation returns `""`, no value and its error; every other return carries the resolved URL |
| `HandleProperties.OnionDomainIff` | handle.go:21 | the onion test holds iff the domain has 5 bytes (too short to contain `.onion`), or ends in `.onion` with no earlier occurrence |
| `HandleProperties.FiveByteDomainIsOnion` | handle.go:21 | every 5-byte domain passes the onion test though it does not end in `.onion` |
| `HandleProperties.EarlierOnionIsNotOnion` | handle.go:21 | a `.onion` before the last six bytes makes the onion test fail |
| `HandleProperties.RepeatedOnionExample` | handle.go:21-27 | `x.onion.onion` ends in `.onion` yet fails the onion test |
| `HandleProperties.AddressBranch` | handle.go:20-27 | an internet identifier wins over every other branch and yields `scheme + domain + "/.well-known/lnurlp/" + name`, with `http://` exactly under the stated onion condition |
| `HandleProperties.FiveByteAddressUsesHttp` | handle.go:20-27 | a lightning address with a 5-byte domain resolves to plain `http://` |
| `Handle.FirstColonOfScheme` | handle.go:39 | in an input with a prefix `name://` whose name has no `:`, the first `:` is the one before `//` |
| `Handle.AfterFirstColon` | handle.go:39-40 | for any such prefix, `http:` or `https:` followed by what comes after the first `:` equals `http://` or `https://` followed by the input after the prefix |
| `HandleProperties.ProtocolSchemesAreSchemePrefixes` | handle.go:30-33 | each of the four prefixes is a colon-free name followed by `://` |
| `HandleProperties.SchemeBranch` | handle.go:28-40 | a non-identifier input with one of the four prefixes normalises to `http://` when it contains `.onion/` or ends in `.onion`, otherwise to `https://`, followed by the input after `scheme://` |
| `HandleProperties.PlainURLBranch` | handle.go:28-29 | a non-identifier input starting with `http` is the resolved URL unchanged |
| `HandleProperties.NormaliseIdempotent` | handle.go:20-40 | normalising the output of the first three branches again returns it unchanged, unless it reads as an internet identifier |
| `HandleProperties.NoLNURLInText` | handle.go:42-46 | no bech32 token yields `("", nil, "invalid bech32-encoded lnurl: " + input)` |
| `HandleProperties.Bech32Branch` | handle.go:42-53 | a bech32 token that decodes to `u` makes `u` the resolved URL, and `HandleLNURL` returns `u` as its URL |
| `HandleProperties.DecodeFailure` | handle.go:47-50 | a token that fails to decode yields `""`, no value and the decoder's error |
| `HandleProperties.URLParseFailure` | handle.go:53-56 | a URL that `url.Parse` rejects yields that URL, no value and the parse error |
| `HandleProperties.LoginShortCircuit` | handle.go:60-63 | `tag=login` returns the auth parser's value, as an Auth descriptor, and its error |
| `HandleProperties.FastWithdrawShortCircuit` | handle.go:64-67 | `tag=withdrawRequest` accepted by fast withdraw returns that offer with a nil error |
| `HandleProperties.NoFetchWhenAnsweredByQuery` | handle.go:58-70 | when the query settles the result, replacing the fetch, the JSON reader and the body parsers changes nothing |
| `HandleProperties.OtherTagsFetch` | handle.go:60-73 | any other query tag, or a declined fast withdraw, fetches the URL: a fetch error is returned as is, and a body goes to post-flight |
| `HandleProperties.FetchesOnlyResolvedURL` | handle.go:70-78 | the only URL fetched is the resolved one: fetchers that agree on it give identical results |
| `HandleProperties.ErrorEnvelopeFirst` | handle.go:80-87 | a fetched body with status `"ERROR"` gives `LNURLErrorResponse{parsed URL, reason, "ERROR"}` and no value, whatever its tag |
| `HandleProperties.BodyTagDispatch` | handle.go:89-101 | `withdrawRequest`, `payRequest` and `channelRequest` return that parser's value and error; any other tag, a missing one included, gives no value and `"unknown response tag " + body` |
| `HandleProperties.DescriptorMatchesTag` | handle.go:58-101 | Auth only comes from `tag=login` and FastWithdraw only from query `tag=withdrawRequest`; Withdraw, Pay and Channel only come from a fetched non-error body whose tag names them |
| `HandleProperties.ExactlyOneOutcome` | handle.go:16-102 | when the parsers return a value exactly when they return no error, every resolution carries a descriptor exactly when it carries no error |

## Left out

- The HTTP GET through `actualClient` and `io.ReadAll` (handle.go:70-78) are network I/O. They are merged into one `get` collaborator that returns the body bytes or an error. An error from either step is returned the same way.
- `url.Parse` and `Query()` are the `parseURL` collaborator. Percent-decoding and URL syntax are not modelled. How `Query()` groups a query's key/value pairs is defined by `LnurlTypes.ValuesOf`.
- The gjson reader is the `parseJSON` collaborator. It yields each top-level field's `.String()` (missing reads as `""`) and the whole value's `.String()`. `LnurlTypes.FieldsOf` defines how an object's members become those fields, with the first of a repeated name winning. JSON syntax and non-string values are not modelled.
- `ParseInternetIdentifier`, `FindLNURLInText` and `LNURLDecode` are collaborators, and the bech32 codec is not part of this model. So no encode/decode round trip is proved.
- `HandleAuth`, `HandleFastWithdraw`, `HandleWithdraw`, `HandlePay` and `HandleChannel` are collaborators. They make the checks on `k1`/`callback`, the `action` values and the amount ranges; they live outside `handle.go` and are not modelled, and neither are the descriptor contents. The descriptor records only name the fields each subprotocol carries.
- `LNURLKind()` is not modelled. The variant of `Params` stands for the descriptor's kind. `FastWithdraw` and `Withdraw` are one subprotocol, withdraw: both answer `tag=withdrawRequest` (`handle.go:64-66` and `handle.go:90-92`). The two variants only record which path produced the offer, the query or the fetched body.
- Strings are byte strings, one element per byte. UTF-8 decoding is not modelled; `handle.go` does none.
- `GoStrings.SplitN2` models `strings.SplitN(s, sep, 2)` only for a one-byte separator. `handle.go` uses only `":"`.
- `HandleProperties.ExactlyOneOutcome` assumes the parsers return a value exactly when they return no error. Their code is not part of this model, and a Go parser can return both.
