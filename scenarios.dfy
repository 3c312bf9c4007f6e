/**
 * Worked cases: a DID document with one Ed25519 verification method
 * `did:example:123#key-1`, and tokens whose segments the decoder maps to
 * fixed headers and payloads.
 */
module Scenarios {
  import opened Wrappers
  import opened Json
  import opened Errors
  import opened CompactJws
  import opened AlgorithmRegistry
  import opened DidResources
  import opened JwtVerification

  const Did := "did:example:123"
  const KeyUrl := "did:example:123#key-1"
  const MissingUrl := "did:example:123#missing-key"

  const Ed25519Jwk := JObj(map["kty" := JStr("OKP"), "crv" := JStr("Ed25519"), "x" := JStr("11qYAYKxCrfVS_7TyWQHOg7hcvPapiMlrwIaaPcHURo")])

  const KeyMethod: Object := map[
    "id" := JStr(KeyUrl), "type" := JStr("JsonWebKey2020"),
    "controller" := JStr(Did), "publicKeyJwk" := Ed25519Jwk]

  /** The example document, with or without a `service` member. */
  function Document(withServices: bool): Object {
    var base := map["id" := JStr(Did), "verificationMethod" := JArr([JObj(KeyMethod)])];
    if withServices then base["service" := JArr([])] else base
  }

  function Resolver(doc: Object): DidResolver {
    DidResolver(
      u => if u == KeyUrl then Some(ParsedDid(Did, "key-1"))
           else if u == MissingUrl then Some(ParsedDid(Did, "missing-key"))
           else if u == Did then Some(ParsedDid(Did, ""))
           else None,
      u => ResolutionResult(None, Some(doc)))
  }

  function Header(alg: string, kid: string): Object {
    map["typ" := JStr("JWT"), "alg" := JStr(alg), "kid" := JStr(kid)]
  }

  const Payload: Object := map["jti" := JStr("code")]

  /** An environment whose decoder knows segment "h" as `header` and "p" as the payload, and whose verifier accepts `accepted`. */
  function Environment(doc: Object, header: Object, accepted: bool): Env {
    Env(
      seg => if seg == "h" then Some(header) else if seg == "p" then Some(Payload) else None,
      seg => if seg == "s" then Some([1 as bv8, 2, 3]) else None,
      Resolver(doc),
      jwk => true,
      (v, k, d, sig) => accepted && d == "h.p")
  }

  lemma KeyUrlDereferences(withServices: bool)
    ensures Dereference(Resolver(Document(withServices)), KeyUrl) == Success(Some(KeyMethod))
  {
  }

  lemma HeaderFacts(alg: string, kid: string)
    requires alg != "" && kid != ""
    ensures TypIsJwt(Header(alg, kid)) && HasAlgAndKid(Header(alg, kid))
    ensures Header(alg, kid)["alg"] == JStr(alg) && Header(alg, kid)["kid"] == JStr(kid)
  {
  }

  lemma KeyMethodFacts()
    ensures IsVerificationMethod(Some(KeyMethod)) && Present(Member(KeyMethod, "publicKeyJwk"))
    ensures KeyMethod["publicKeyJwk"] == Ed25519Jwk && CurveText(Ed25519Jwk) == "Ed25519"
    ensures KeyMethod["controller"] == JStr(Did)
  {
  }

  lemma TokenSegments()
    ensures SigningInput("h", "p") == "h.p"
    ensures SigningInput("h", "p") + "." + "s" == "h.p.s"
  {
  }

  /** The environment of the worked cases: the decoder, the resolver over `doc`, and a verifier that accepts "h.p". */
  lemma EnvironmentFacts(doc: Object, header: Object)
    ensures var env := Environment(doc, header, true);
      && env.decodeObject("h") == Some(header) && env.decodeObject("p") == Some(Payload)
      && env.decodeBytes("s") == Some([1, 2, 3])
      && env.resolver == Resolver(doc)
      && env.importKey(NormaliseJwk(JStr("EdDSA"), Ed25519Jwk))
      && env.signatureValid(Ed25519Verifier, NormaliseJwk(JStr("EdDSA"), Ed25519Jwk), SigningInput("h", "p"), [1, 2, 3])
  {
  }

  /** The EdDSA token of the worked cases meets every premise of `VerifiesValidToken`. */
  lemma ValidTokenPremises()
    ensures var env := Environment(Document(true), Header("EdDSA", KeyUrl), true);
      var header := Header("EdDSA", KeyUrl);
      && env.decodeObject("h") == Some(header) && TypIsJwt(header) && HasAlgAndKid(header)
      && env.decodeObject("p") == Some(Payload)
      && KidResource(env.resolver, header["kid"]) == Success(Some(KeyMethod))
      && IsVerificationMethod(Some(KeyMethod)) && Present(Member(KeyMethod, "publicKeyJwk"))
      && env.decodeBytes("s") == Some([1, 2, 3])
      && SupportedPair(Render(header["alg"]), CurveText(KeyMethod["publicKeyJwk"]))
      && env.importKey(NormaliseJwk(header["alg"], KeyMethod["publicKeyJwk"]))
      && env.signatureValid(VerifierFor(Render(header["alg"])),
                            NormaliseJwk(header["alg"], KeyMethod["publicKeyJwk"]), SigningInput("h", "p"), [1, 2, 3])
      && KeyMethod["controller"] == JStr(Did)
  {
    KeyUrlDereferences(true);
    HeaderFacts("EdDSA", KeyUrl);
    KeyMethodFacts();
    EnvironmentFacts(Document(true), Header("EdDSA", KeyUrl));
  }

  /** An EdDSA token signed by key-1 verifies to the document's DID and the payload. */
  lemma ValidEd25519Token()
    ensures Verify(Environment(Document(true), Header("EdDSA", KeyUrl), true), "h.p.s")
         == Success(Verified(JStr(Did), Payload))
  {
    ValidTokenPremises();
    TokenSegments();
    VerifiesValidToken(Environment(Document(true), Header("EdDSA", KeyUrl), true), "h", "p", "s",
                       Header("EdDSA", KeyUrl), Payload, KeyMethod, [1, 2, 3]);
  }

  /** Any token "h.p.s" of the worked cases splits and decodes. */
  lemma DecodedToken(doc: Object, alg: string, kid: string)
    requires alg != "" && kid != ""
    ensures DecodeJwt(Environment(doc, Header(alg, kid), true), "h.p.s")
         == Success(Jwt("h", "p", "s", Header(alg, kid), Payload))
  {
  }

  lemma Hs256Unsupported()
    ensures AlgorithmId(JStr("HS256"), Ed25519Jwk) == "HS256:Ed25519"
    ensures !SupportedPair("HS256", CurveText(Ed25519Jwk))
    ensures AlgorithmIdRenders(JStr("HS256"), Ed25519Jwk)
  {
  }

  /** An unregistered algorithm is refused before the signature is looked at, however good it is. */
  lemma Hs256Refused()
    ensures Verify(Environment(Document(true), Header("HS256", KeyUrl), true), "h.p.s")
         == Failure(UnsupportedAlgorithm("HS256:Ed25519"))
  {
    var env := Environment(Document(true), Header("HS256", KeyUrl), true);
    DecodedToken(Document(true), "HS256", KeyUrl);
    HeaderFacts("HS256", KeyUrl);
    KeyUrlDereferences(true);
    KeyMethodFacts();
    assert LocateKey(env, Header("HS256", KeyUrl)) == Success((KeyMethod, Ed25519Jwk));
    assert env.decodeBytes("s").Some?;
    Hs256Unsupported();
    UnsupportedAlgorithmIff(env, "h.p.s");
  }

  /** The missing key matches nothing; the scan of services finds nothing, or throws when there is no `service` member. */
  lemma MissingUrlDereferences(withServices: bool)
    ensures Dereference(Resolver(Document(withServices)), MissingUrl)
         == if withServices then Success(None) else Failure(MalformedDidDocument)
  {
  }

  /**
   * A `kid` naming no key of a document with an empty service list
   * dereferences to nothing and fails the type guard; in a document with no
   * `service` member at all, the scan of services throws first.
   */
  lemma MissingKey(withServices: bool)
    ensures Verify(Environment(Document(withServices), Header("EdDSA", MissingUrl), true), "h.p.s")
         == Failure(if withServices then NotVerificationMethod else MalformedDidDocument)
  {
    var env := Environment(Document(withServices), Header("EdDSA", MissingUrl), true);
    DecodedToken(Document(withServices), "EdDSA", MissingUrl);
    HeaderFacts("EdDSA", MissingUrl);
    MissingUrlDereferences(withServices);
    if withServices {
      NonMethodIsNotVerificationMethod(env, "h.p.s");
    }
  }

  /** A `kid` without fragment dereferences to the whole document, which has no `type` or `controller`. */
  lemma BareDidDereferences()
    ensures Dereference(Resolver(Document(true)), Did) == Success(Some(Document(true)))
    ensures !IsVerificationMethod(Some(Document(true)))
  {
  }

  /** A token whose `kid` is the bare DID fails the type guard: a document is not a verification method. */
  lemma BareDidRefused()
    ensures Verify(Environment(Document(true), Header("EdDSA", Did), true), "h.p.s") == Failure(NotVerificationMethod)
  {
    var env := Environment(Document(true), Header("EdDSA", Did), true);
    DecodedToken(Document(true), "EdDSA", Did);
    HeaderFacts("EdDSA", Did);
    BareDidDereferences();
    NonMethodIsNotVerificationMethod(env, "h.p.s");
  }

  /** A header whose `alg` is an object with its own, non-callable, `toString` member. */
  const ObjectAlgHeader: Object := map[
    "typ" := JStr("JWT"), "alg" := JObj(map["toString" := JNum(1)]), "kid" := JStr(KeyUrl)]

  lemma DecodedObjectAlgToken()
    ensures DecodeJwt(Environment(Document(true), ObjectAlgHeader, true), "h.p.s")
         == Success(Jwt("h", "p", "s", ObjectAlgHeader, Payload))
  {
  }

  /** Building the key `${alg}:${crv}` from that header throws a TypeError instead of naming an unsupported key. */
  lemma ObjectAlgThrows()
    ensures Verify(Environment(Document(true), ObjectAlgHeader, true), "h.p.s") == Failure(AlgorithmIdTypeError)
  {
    var env := Environment(Document(true), ObjectAlgHeader, true);
    DecodedObjectAlgToken();
    KeyUrlDereferences(true);
    KeyMethodFacts();
    assert LocateKey(env, ObjectAlgHeader) == Success((KeyMethod, Ed25519Jwk));
    assert env.decodeBytes("s").Some?;
    AlgorithmIdTypeErrorIff(env, "h.p.s");
  }
}
