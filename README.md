# DID-anchored JWT verification, modelled in Dafny

This project models `JwtVerifier` from `src/jwt-verifier.ts`. The verifier authenticates a caller from a compact JWT whose signing key is published in a DID document. It works in these steps:

- It splits the token on `.` into header, payload and signature segments (section 7.1 of RFC 7515).
- It checks the header's `typ`, `alg` and `kid` (section 5.1 of RFC 7519).
- It dereferences `kid`, a DID URL, to a verification method of the resolved DID document (section 3.2.2 of W3C DID Core).
- It selects a verifier from a fixed registry keyed by `alg:crv`. ES256K over secp256k1 follows section 3.2 of RFC 8812. EdDSA over Ed25519 follows section 3.1 of RFC 8037.
- It normalises the JWK for import.
- It checks the signature over `header-segment.payload-segment` (section 5.1 of RFC 7515).
- On success it returns the method's `controller` as the signer, together with the decoded payload.

Modules, one per concern of the source file:

- `Wrappers` (wrappers.dfy): `Option` and `Result`.
- `Json` (json.dfy): JSON values, with JavaScript truthiness and template-literal rendering (`Render`). `alg` and `crv` reach the registry key through that rendering.
- `CompactJws` (compact.dfy): `split('.')`, join and the signing input.
- `AlgorithmRegistry` (registry.dfy): the `algorithms` table and the `${alg}:${crv}` key.
- `Errors` (errors.dfy): one error case per exception the verifier raises or lets through.
- `DidResources` (did.dfy): `resolveDid` and `deferenceDidUrl`. `Dereference` is the specification. `DereferenceDidUrl` is the source's two `for ... of` loops with early return, proved equal to it.
- `JwtVerification` (verifier.dfy): `verify` as a pure function returning a `Result`, in the source's order of checks, with lemmas about that order and about success.
- `Scenarios` (scenarios.dfy): worked cases on a concrete DID document. One token verifies, an HS256 token is refused, and a key id naming no key fails.

The foreign calls are parameters of type function, gathered in `Env` and `DidResolver`:

- base64url + JSON decoding (`Convert`)
- `didUtils.parseDid`
- the DID resolver
- `Jose.jwkToCryptoKey`
- the verifier's `verify`

The model follows the code, including where it behaves differently from what one might expect:

- Registry lookup is exact key membership. There is no fallback from `alg:crv` to `alg:`.
- `deferenceDidUrl` returns nothing when no entry matches. The failure then surfaces as "not a verification method" from the type guard, not as a dereference error.
- The resolver is asked about the full DID URL (`kid`), not the bare DID.
- The signature segment is decoded (line 99) before the algorithm is looked up (line 101). A signature segment that does not decode therefore fails before an unsupported algorithm is reported. The decoder's exception is not caught.
- Taking a document apart can throw a TypeError. The model reports this as `MalformedDidDocument` in three cases:
  - the document is null;
  - `verificationMethod` is absent or not iterable, or `service` is in that state and no verification method matched;
  - an entry is `null`.
- In particular, a fragment that matches nothing, in a document with no `service` member, throws instead of yielding nothing (`Scenarios.MissingKey`).
- Building the key `${alg}:${crv}` (line 101) throws a TypeError when `alg` or the curve is a JSON object with its own `toString` member, or an array holding one. Such a member is not callable, and `valueOf` returns the object itself. The model reports `AlgorithmIdTypeError` (`Scenarios.ObjectAlgThrows`).
- The curve-only key `:secp256k1` cannot be reached with a non-empty text `alg`. It can be reached with an `alg` that is truthy but renders as empty text, such as `[]` (`AlgorithmRegistry.EmptyArrayAlgSelectsCurveOnlyKey`).

## Model

| member | source | states |
|---|---|---|
| CompactJws.Split | src/jwt-verifier.ts:53-55 | `split('.')` yields one more part than the token has separators, and no part contains a separator |
| CompactJws.JoinSplit | src/jwt-verifier.ts:53-59 | joining the split parts with `.` gives back the token: splitting loses nothing |
| CompactJws.SplitJoin | src/jwt-verifier.ts:53-59 | separator-free segments joined by `.` split back into exactly those segments |
| CompactJws.TokenIsSigningInputAndSignature | src/jwt-verifier.ts:96 | a three-part token is the signing input (header segment `.` payload segment, as received), then `.`, then the signature segment |
| CompactJws.ThreeSegments | src/jwt-verifier.ts:53-59 | `h.p.s` with separator-free segments splits into exactly `[h, p, s]` |
| AlgorithmRegistry.ColonJoinUnique | src/jwt-verifier.ts:101 | when both sides of a key are colon-free, `a:c` equals that key only if `a` and `c` are its two sides |
| AlgorithmRegistry.SupportedIff | src/jwt-verifier.ts:37-42 | the key `alg:crv` (`AlgorithmId`, the template literal of line 101, with `CurveText` giving the JWK's `crv`, or empty text when that is falsy) is in the registry iff (alg, crv) is one of its four pairs, and it selects the Ed25519 verifier exactly for EdDSA and the secp256k1 verifier otherwise |
| AlgorithmRegistry.SupportedPairRenders | src/jwt-verifier.ts:101 | a registered pair never comes from an `alg` or curve on which building the key throws (`AlgorithmIdRenders`; `Json.UnrenderableIsLong`: anything that throws renders to at least 15 characters) |
| Json.UnrenderableIsLong | src/jwt-verifier.ts:101 | a value on which `String` throws (an object with its own `toString`, or an array holding one) has an object at its root or among its elements, so the model's rendering of it has at least the 15 characters of `[object Object]` |
| AlgorithmRegistry.UnregisteredAlgNeverSupported | src/jwt-verifier.ts:101-104 | an `alg` other than ES256K, EdDSA or empty (HS256, say) is unsupported with every curve |
| AlgorithmRegistry.CurveOnlyKeyNeedsEmptyRendering | src/jwt-verifier.ts:40 | reaching `:secp256k1` needs an `alg` that renders as empty text, so never a truthy text `alg` |
| AlgorithmRegistry.EmptyArrayAlgSelectsCurveOnlyKey | src/jwt-verifier.ts:73 | a header `alg` of `[]` passes the truthiness guard and selects `:secp256k1` |
| DidResources.ResolveDid | src/jwt-verifier.ts:126-136 | resolution fails iff the metadata carries a non-empty error, naming the DID and that error; otherwise it returns the resolver's document |
| DidResources.FirstMatch | src/jwt-verifier.ts:158-168 | a scan returns the first index whose entry matches, or the first `null` entry (whose `.id` throws), with every earlier entry passed over; it reports no match iff no entry is null or matches |
| DidResources.Iterable | src/jwt-verifier.ts:151-164 | a member yields entries to scan only when it is an array (its items) or a string; an absent or non-iterable member makes the loop throw |
| DidResources.Dereference | src/jwt-verifier.ts:138-169 | an unparsable URL fails, a resolution error fails naming the full DID URL, no fragment returns the resolved document unchanged, and any returned entry has an `id` that is one of the three accepted forms |
| DidResources.AcceptedIdForms | src/jwt-verifier.ts:156-159 | an entry matches iff its `id` is the full DID URL, the bare fragment or `#` followed by the fragment |
| DidResources.VerificationMethodFirst | src/jwt-verifier.ts:158-162 | the first matching verification method is returned, whatever the services hold |
| DidResources.ServiceWhenNoMethod | src/jwt-verifier.ts:164-168 | a service is returned only when no verification method matches, and it is the first matching service |
| DidResources.NothingMatches | src/jwt-verifier.ts:158-169 | when neither list has a match, dereferencing returns nothing rather than an error |
| DidResources.DereferenceDidUrl | src/jwt-verifier.ts:138-169 | the two loops with early return compute exactly `Dereference` |
| JwtVerification.DecodeJwt | src/jwt-verifier.ts:53-82 | the token fails as malformed, with the part count, iff it does not have exactly two separators. A decoded token consists of its separator-free segments, its header decodes and passes `TypIsJwt` (line 69: `typ` is exactly "JWT") and `HasAlgAndKid` (line 73: `alg` and `kid` truthy), and its payload decodes |
| JwtVerification.LocateKey | src/jwt-verifier.ts:85-94 | `kid` is dereferenced by `KidResource` (line 85; a `kid` that is not text fails as an unparsable DID URL). A dereference error passes through unchanged; a resource failing the type guard `IsVerificationMethod` (absent, or lacking `id`, `type` or `controller`, as at lines 175-177) fails with the verification-method error; a method succeeds iff its `publicKeyJwk` is truthy, and otherwise fails as missing its JWK; a located key is that method and its JWK |
| JwtVerification.NormaliseJwk | src/jwt-verifier.ts:109-114 | the import JWK takes `alg` from the header only when the JWK has none, always has `ext` "true" and `key_ops` ["verify"], and keeps every other JWK member unchanged |
| JwtVerification.Verify | src/jwt-verifier.ts:52-57 | `verify` fails as malformed, with the part count and whatever the other inputs, iff the token does not split into exactly three parts |
| JwtVerification.VerifiesValidToken | src/jwt-verifier.ts:52-123 | a well-formed token whose `kid` names a verification method with a supported key, and whose signature the verifier accepts over `header.payload`, verifies to that method's controller and the decoded payload |
| JwtVerification.VerifiedTokenWasSigned | src/jwt-verifier.ts:96-123 | a verified token's alg/curve pair is registered, its key imported, and its signature was accepted over the received `header.payload` segments. The result is the controller and the decoded payload |
| JwtVerification.AlgorithmIdTypeErrorIff | src/jwt-verifier.ts:101 | past the earlier checks, building `${alg}:${crv}` throws iff `alg` or the curve is an object with its own `toString` (or an array holding one) |
| JwtVerification.UnsupportedAlgorithmIff | src/jwt-verifier.ts:101-104 | past the earlier checks, verification fails as unsupported iff the key `alg:crv` can be built and (alg, crv) is not a registered pair, with the error naming `alg:crv` |
| JwtVerification.IntegrityMismatchIff | src/jwt-verifier.ts:116-121 | with a supported algorithm and an imported key, verification fails with an integrity mismatch iff the verifier rejects the signature, and succeeds otherwise |
| JwtVerification.HeaderCheckOrder | src/jwt-verifier.ts:63-82 | header decoding, then `typ`, then `alg`/`kid`, then payload decoding: the first failing check names the error |
| JwtVerification.DereferenceErrorPassesThrough | src/jwt-verifier.ts:85 | an unparsable `kid`, a resolution error or a document that throws while scanned is the verification's own error |
| JwtVerification.NonMethodIsNotVerificationMethod | src/jwt-verifier.ts:86-88 | a `kid` that dereferences to nothing, to a whole document or to a service (anything `IsVerificationMethod` refuses, lines 175-177) fails with the verification-method error |
| JwtVerification.MissingJwkPrecedesAlgorithm | src/jwt-verifier.ts:90-94 | a verification method without `publicKeyJwk` is reported as such, whatever the algorithm |
| JwtVerification.SignatureDecodingPrecedesAlgorithm | src/jwt-verifier.ts:99-104 | a signature segment that does not decode fails before the algorithm is looked up |
| JwtVerification.KeyImportFailureAfterAlgorithm | src/jwt-verifier.ts:101-116 | key import is attempted only after the algorithm check: a supported pair whose normalised JWK does not import fails with the key-import error |
| Scenarios.ValidEd25519Token | src/jwt-verifier.ts:52-123 | an EdDSA token signed by `did:example:123#key-1` verifies to signer `did:example:123` and its payload |
| Scenarios.Hs256Refused | src/jwt-verifier.ts:101-104 | an HS256 token is refused as `HS256:Ed25519 not supported`, even with a signature the verifier would accept |
| Scenarios.ObjectAlgThrows | src/jwt-verifier.ts:101 | a header `alg` of `{"toString": 1}` makes building the registry key throw a TypeError, not report an unsupported key |
| Scenarios.MissingUrlDereferences | src/jwt-verifier.ts:158-168 | `#missing-key` matches nothing: nothing is returned when the document has a service list, and the service loop throws when it has none |
| Scenarios.BareDidDereferences | src/jwt-verifier.ts:146-149 | a `kid` without fragment dereferences to the whole document, which is not a verification method |
| Scenarios.BareDidRefused | src/jwt-verifier.ts:86-88 | a token whose `kid` is the bare DID `did:example:123` fails with the verification-method error |
| Scenarios.MissingKey | src/jwt-verifier.ts:86-88 | a token whose `kid` names no key fails with the verification-method error, or with the thrown TypeError when the document has no `service` member |

## Left out

- Base64url and JSON decoding (`Convert`) is a parameter that yields a JSON object or fails. A segment that decodes to a JSON primitive, `null` or an array is not modelled. The source would return an array payload from line 79, and an array header would fail the `typ` check.
- The UTF-8 encoding of the signing input (line 97) is not modelled. The signature parameter receives the signing input as text.
- DID URL parsing (`didUtils.parseDid`) is a parameter. So is DID method resolution over ION, Key and DHT (`DidResolver`), which involves network I/O. A document that is not a JSON object is not modelled.
- A truthy `kid` that is not text is modelled as a DID URL that does not parse. The source hands it to the parser, which expects text, and that parser is not part of this model.
- Key import (`Jose.jwkToCryptoKey`) is a parameter that accepts or refuses the normalised JWK. Signature checking (`EcdsaAlgorithm`/`EdDsaAlgorithm.verify`) is a parameter that receives the registry's verifier, the normalised JWK, the signing input and the signature bytes. Exceptions thrown by the signature check itself are not modelled.
- JSON numbers are integers. Fractions, NaN and their rendering are not modelled.
- Json.Render: an integer of 1e21 or more is printed in full, where JavaScript prints it in exponent form (`1e+21`). Integers beyond 2^53 keep their exact value, where JavaScript loses precision. Only the text of an `UnsupportedAlgorithm` key changes.
- NormaliseJwk: when `publicKeyJwk` is a string or an array, JavaScript's spread copies index-keyed members. The model copies nothing from a non-object JWK.
- Error messages are modelled as error cases with their data, not as exact texts.
- async/await: every call is taken in sequence. No state is shared between requests.
- Credential issuance in `src/api.ts` is not modelled because it is I/O and library glue. This covers the Express routing, the `Bearer ` header split, the OAuth code exchange with the identity provider, credential creation and Ed25519 signing.
- `index.js` (a demo OAuth server), `src/main.ts` (process lifecycle), `src/middleware/*.ts` (metrics and audit logging) and `src/config.ts` (environment variables) are not part of this model.
