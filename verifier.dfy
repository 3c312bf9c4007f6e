/**
 * `JwtVerifier.verify`: a chain of checks over a compact JWT, each of which
 * ends the verification with its own error, in this order: three segments,
 * header decoding, `typ`, `alg` and `kid`, payload decoding, dereferencing
 * `kid`, the verification-method shape, `publicKeyJwk`, signature decoding,
 * algorithm support, key import, and the signature itself. On success the
 * signer is the controller of the verification method and the payload is the
 * decoded payload segment. Decoding, key import and signature checking are
 * parameters.
 */
module JwtVerification {
  import opened Wrappers
  import opened Json
  import opened Errors
  import opened CompactJws
  import opened AlgorithmRegistry
  import opened DidResources

  /** The foreign calls the verifier depends on. */
  datatype Env = Env(
    /** base64url-decode a segment and parse it as a JSON object */
    decodeObject: string -> Option<Object>,
    /** base64url-decode a segment to bytes */
    decodeBytes: string -> Option<seq<bv8>>,
    resolver: DidResolver,
    /** whether the key importer accepts the (normalised) JWK */
    importKey: Object -> bool,
    /** the verifier's answer for a key, the signed data and the signature bytes */
    signatureValid: (Verifier, Object, string, seq<bv8>) -> bool)

  /** A split and decoded token. */
  datatype Jwt = Jwt(
    headerSegment: string, payloadSegment: string, signatureSegment: string,
    header: Object, payload: Object)

  /** What a successful verification returns. */
  datatype Verified = Verified(signer: Json, payload: Object)

  /** The header passes the `typ` check: `typ` is exactly the text "JWT" (section 5.1 of RFC 7519). */
  predicate TypIsJwt(header: Object) {
    Member(header, "typ") == Some(JStr("JWT"))
  }

  /** Both `alg` and `kid` are present and truthy. */
  predicate HasAlgAndKid(header: Object) {
    Present(Member(header, "alg")) && Present(Member(header, "kid"))
  }

  /**
   * Split the token and decode its header and payload (src/jwt-verifier.ts
   * lines 53-82). Nothing but the number of segments decides the first error.
   */
  function DecodeJwt(env: Env, token: string): (r: Result<Jwt, Error>)
    ensures Count(token, '.') != 2 <==> r.Failure? && r.error.MalformedJwt?
    ensures Count(token, '.') != 2 ==> r == Failure(MalformedJwt(Count(token, '.') + 1))
    ensures r.Success? ==>
      && token == SigningInput(r.value.headerSegment, r.value.payloadSegment) + "." + r.value.signatureSegment
      && '.' !in r.value.headerSegment && '.' !in r.value.payloadSegment && '.' !in r.value.signatureSegment
      && env.decodeObject(r.value.headerSegment) == Some(r.value.header)
      && TypIsJwt(r.value.header) && HasAlgAndKid(r.value.header)
      && env.decodeObject(r.value.payloadSegment) == Some(r.value.payload)
  {
    var parts := Split(token, '.');
    if |parts| != 3 then Failure(MalformedJwt(|parts|))
    else
      TokenIsSigningInputAndSignature(token);
      match env.decodeObject(parts[0])
      case None => Failure(InvalidHeaderEncoding)
      case Some(header) =>
        if !TypIsJwt(header) then Failure(MissingTyp)
        else if !HasAlgAndKid(header) then Failure(MissingAlgOrKid)
        else
          match env.decodeObject(parts[1])
          case None => Failure(InvalidPayloadEncoding)
          case Some(payload) => Success(Jwt(parts[0], parts[1], parts[2], header, payload))
  }

  /**
   * Dereference the header's `kid`. A `kid` that is not text cannot be parsed
   * as a DID URL.
   */
  function KidResource(resolver: DidResolver, kid: Json): Result<Option<Object>, Error> {
    if kid.JStr? then Dereference(resolver, kid.s) else Failure(DidParseFailure)
  }

  /** The type guard: a resource is a verification method when it is present and has `id`, `type` and `controller`. */
  predicate IsVerificationMethod(resource: Option<Object>) {
    resource.Some? && "id" in resource.value && "type" in resource.value && "controller" in resource.value
  }

  /**
   * Find the verification method `kid` names and its public JWK
   * (src/jwt-verifier.ts lines 85-94).
   */
  function LocateKey(env: Env, header: Object): (r: Result<(Object, Json), Error>)
    requires HasAlgAndKid(header)
    ensures r.Success? ==>
      && KidResource(env.resolver, header["kid"]) == Success(Some(r.value.0))
      && IsVerificationMethod(Some(r.value.0))
      && Present(Member(r.value.0, "publicKeyJwk")) && r.value.1 == r.value.0["publicKeyJwk"]
    ensures var resource := KidResource(env.resolver, header["kid"]);
            && (resource.Failure? ==> r == Failure(resource.error))
            && (resource.Success? && !IsVerificationMethod(resource.value) ==> r == Failure(NotVerificationMethod))
            && (resource.Success? && IsVerificationMethod(resource.value) ==>
                  && (r.Success? <==> Present(Member(resource.value.value, "publicKeyJwk")))
                  && (!Present(Member(resource.value.value, "publicKeyJwk")) ==> r == Failure(MissingPublicKeyJwk)))
  {
    match KidResource(env.resolver, header["kid"])
    case Failure(e) => Failure(e)
    case Success(resource) =>
      if !IsVerificationMethod(resource) then Failure(NotVerificationMethod)
      else
        var vm := resource.value;
        if !Present(Member(vm, "publicKeyJwk")) then Failure(MissingPublicKeyJwk)
        else Success((vm, vm["publicKeyJwk"]))
  }

  /** The members a spread `...jwk` copies: an object's own members; nothing for any other JSON value. */
  function OwnMembers(jwk: Json): Object {
    if jwk.JObj? then jwk.fields else map[]
  }

  /**
   * `{ alg: header alg, ...publicKeyJwk, ext: 'true', key_ops: ['verify'] }`:
   * the JWK prepared for import.
   */
  function NormaliseJwk(alg: Json, jwk: Json): (k: Object)
    ensures "alg" in k && k["alg"] == if "alg" in OwnMembers(jwk) then OwnMembers(jwk)["alg"] else alg
    ensures "ext" in k && k["ext"] == JStr("true")
    ensures "key_ops" in k && k["key_ops"] == JArr([JStr("verify")])
    ensures forall f :: f in OwnMembers(jwk) && f != "ext" && f != "key_ops" ==> f in k && k[f] == OwnMembers(jwk)[f]
    ensures k.Keys == OwnMembers(jwk).Keys + {"alg", "ext", "key_ops"}
  {
    map["alg" := alg] + OwnMembers(jwk) + map["ext" := JStr("true"), "key_ops" := JArr([JStr("verify")])]
  }

  /** `JwtVerifier.verify`. */
  function Verify(env: Env, token: string): (r: Result<Verified, Error>)
    ensures Count(token, '.') != 2 <==> r.Failure? && r.error.MalformedJwt?
    ensures Count(token, '.') != 2 ==> r == Failure(MalformedJwt(Count(token, '.') + 1))
  {
    match DecodeJwt(env, token)
    case Failure(e) => Failure(e)
    case Success(jwt) =>
      match LocateKey(env, jwt.header)
      case Failure(e) => Failure(e)
      case Success((vm, jwk)) =>
        var data := SigningInput(jwt.headerSegment, jwt.payloadSegment);
        match env.decodeBytes(jwt.signatureSegment)
        case None => Failure(InvalidSignatureEncoding)
        case Some(signature) =>
          var alg := jwt.header["alg"];
          if !AlgorithmIdRenders(alg, jwk) then Failure(AlgorithmIdTypeError)
          else
            var id := AlgorithmId(alg, jwk);
            if id !in Algorithms then Failure(UnsupportedAlgorithm(id))
            else
              var key := NormaliseJwk(alg, jwk);
              if !env.importKey(key) then Failure(KeyImportFailure)
              else if !env.signatureValid(Algorithms[id], key, data, signature) then Failure(IntegrityMismatch)
              else Success(Verified(vm["controller"], jwt.payload))
  }

  /** The header `alg`; present once the header passed its checks. */
  function Alg(jwt: Jwt): Json
    requires HasAlgAndKid(jwt.header)
  {
    jwt.header["alg"]
  }

  /** A token that gets past every check before the signature: decoded, its key found and its signature segment decoded. */
  predicate ReachesAlgorithmCheck(env: Env, token: string) {
    && DecodeJwt(env, token).Success?
    && LocateKey(env, DecodeJwt(env, token).value.header).Success?
    && env.decodeBytes(DecodeJwt(env, token).value.signatureSegment).Some?
  }

  /**
   * A token with three separator-free segments, a well-formed header whose
   * `kid` dereferences to a verification method with a JWK of a supported
   * algorithm and curve, and a signature the verifier accepts over header
   * segment '.' payload segment, verifies: the signer is the method's
   * controller and the payload is the decoded payload segment.
   */
  lemma VerifiesValidToken(env: Env, h: string, p: string, s: string,
                           header: Object, payload: Object, vm: Object, signature: seq<bv8>)
    requires '.' !in h && '.' !in p && '.' !in s
    requires env.decodeObject(h) == Some(header) && TypIsJwt(header) && HasAlgAndKid(header)
    requires env.decodeObject(p) == Some(payload)
    requires KidResource(env.resolver, header["kid"]) == Success(Some(vm))
    requires IsVerificationMethod(Some(vm)) && Present(Member(vm, "publicKeyJwk"))
    requires env.decodeBytes(s) == Some(signature)
    requires SupportedPair(Render(header["alg"]), CurveText(vm["publicKeyJwk"]))
    requires env.importKey(NormaliseJwk(header["alg"], vm["publicKeyJwk"]))
    requires env.signatureValid(VerifierFor(Render(header["alg"])),
                                NormaliseJwk(header["alg"], vm["publicKeyJwk"]), SigningInput(h, p), signature)
    ensures Verify(env, SigningInput(h, p) + "." + s) == Success(Verified(vm["controller"], payload))
  {
    ThreeSegments(h, p, s);
    SupportedIff(Render(header["alg"]), CurveText(vm["publicKeyJwk"]));
    SupportedPairRenders(header["alg"], vm["publicKeyJwk"]);
  }

  /**
   * A verified token passed every check: its signature segment decodes to
   * bytes the verifier accepted, for the registry's verifier of its `alg`
   * and curve and the normalised JWK, over the token's header and payload
   * segments exactly as received; and the result names the controller of the
   * dereferenced verification method and the decoded payload.
   */
  lemma VerifiedTokenWasSigned(env: Env, token: string)
    ensures Verify(env, token).Success? ==>
            && ReachesAlgorithmCheck(env, token)
            && var jwt := DecodeJwt(env, token).value;
               var vm := LocateKey(env, jwt.header).value.0;
               var jwk := LocateKey(env, jwt.header).value.1;
               && SupportedPair(Render(Alg(jwt)), CurveText(jwk))
               && env.importKey(NormaliseJwk(Alg(jwt), jwk))
               && env.signatureValid(VerifierFor(Render(Alg(jwt))), NormaliseJwk(Alg(jwt), jwk),
                                     SigningInput(jwt.headerSegment, jwt.payloadSegment),
                                     env.decodeBytes(jwt.signatureSegment).value)
               && Verify(env, token) == Success(Verified(vm["controller"], jwt.payload))
  {
    if Verify(env, token).Success? {
      var jwt := DecodeJwt(env, token).value;
      SupportedIff(Render(Alg(jwt)), CurveText(LocateKey(env, jwt.header).value.1));
    }
  }

  /**
   * Past the earlier checks, building the key `${alg}:${crv}` throws exactly
   * when the header `alg` or the key's curve is an object with its own `toString`.
   */
  lemma AlgorithmIdTypeErrorIff(env: Env, token: string)
    requires ReachesAlgorithmCheck(env, token)
    ensures var jwt := DecodeJwt(env, token).value;
            var jwk := LocateKey(env, jwt.header).value.1;
            Verify(env, token) == Failure(AlgorithmIdTypeError) <==> !AlgorithmIdRenders(Alg(jwt), jwk)
  {
    var jwt := DecodeJwt(env, token).value;
    var jwk := LocateKey(env, jwt.header).value.1;
    if AlgorithmIdRenders(Alg(jwt), jwk) {
      SupportedIff(Render(Alg(jwt)), CurveText(jwk));
    }
  }

  /**
   * Past the earlier checks, verification fails as unsupported exactly when
   * the key `${alg}:${crv}` can be built and the header `alg` and the key's
   * curve are not one of the registry's pairs; the error names that key.
   */
  lemma UnsupportedAlgorithmIff(env: Env, token: string)
    requires ReachesAlgorithmCheck(env, token)
    ensures var jwt := DecodeJwt(env, token).value;
            var jwk := LocateKey(env, jwt.header).value.1;
            && (Verify(env, token).Failure? && Verify(env, token).error.UnsupportedAlgorithm?
                <==> AlgorithmIdRenders(Alg(jwt), jwk) && !SupportedPair(Render(Alg(jwt)), CurveText(jwk)))
            && (AlgorithmIdRenders(Alg(jwt), jwk) && !SupportedPair(Render(Alg(jwt)), CurveText(jwk)) ==>
                Verify(env, token) == Failure(UnsupportedAlgorithm(AlgorithmId(Alg(jwt), jwk))))
  {
    var jwt := DecodeJwt(env, token).value;
    SupportedIff(Render(Alg(jwt)), CurveText(LocateKey(env, jwt.header).value.1));
  }

  /**
   * Once the algorithm is supported and the key imports, verification fails
   * with an integrity mismatch exactly when the verifier rejects the
   * signature over the received header and payload segments, and succeeds
   * otherwise.
   */
  lemma IntegrityMismatchIff(env: Env, token: string)
    requires ReachesAlgorithmCheck(env, token)
    requires var jwt := DecodeJwt(env, token).value;
             var jwk := LocateKey(env, jwt.header).value.1;
             SupportedPair(Render(Alg(jwt)), CurveText(jwk)) && env.importKey(NormaliseJwk(Alg(jwt), jwk))
    ensures var jwt := DecodeJwt(env, token).value;
            var jwk := LocateKey(env, jwt.header).value.1;
            var valid := env.signatureValid(VerifierFor(Render(Alg(jwt))), NormaliseJwk(Alg(jwt), jwk),
                                            SigningInput(jwt.headerSegment, jwt.payloadSegment),
                                            env.decodeBytes(jwt.signatureSegment).value);
            && (Verify(env, token) == Failure(IntegrityMismatch) <==> !valid)
            && (Verify(env, token).Success? <==> valid)
  {
    var jwt := DecodeJwt(env, token).value;
    SupportedIff(Render(Alg(jwt)), CurveText(LocateKey(env, jwt.header).value.1));
    SupportedPairRenders(Alg(jwt), LocateKey(env, jwt.header).value.1);
  }

  /**
   * The header checks come in order (decoding, `typ`, `alg` and `kid`) and all
   * before the payload is decoded; the first that fails names the error.
   */
  lemma HeaderCheckOrder(env: Env, token: string)
    requires |Split(token, '.')| == 3
    ensures var parts := Split(token, '.');
            var header := env.decodeObject(parts[0]);
            && (header.None? ==> Verify(env, token) == Failure(InvalidHeaderEncoding))
            && (header.Some? && !TypIsJwt(header.value) ==> Verify(env, token) == Failure(MissingTyp))
            && (header.Some? && TypIsJwt(header.value) && !HasAlgAndKid(header.value) ==>
                  Verify(env, token) == Failure(MissingAlgOrKid))
            && (header.Some? && TypIsJwt(header.value) && HasAlgAndKid(header.value) && env.decodeObject(parts[1]).None?
                ==> Verify(env, token) == Failure(InvalidPayloadEncoding))
  {
  }

  /**
   * A failure to dereference `kid` (a URL that does not parse, a resolution
   * error, a document that throws while scanned) is the verification's error.
   */
  lemma DereferenceErrorPassesThrough(env: Env, token: string)
    requires DecodeJwt(env, token).Success?
    requires KidResource(env.resolver, DecodeJwt(env, token).value.header["kid"]).Failure?
    ensures Verify(env, token) == Failure(KidResource(env.resolver, DecodeJwt(env, token).value.header["kid"]).error)
  {
  }

  /**
   * A `kid` that dereferences to nothing, or to a resource lacking `id`,
   * `type` or `controller` (the whole document for a `kid` without fragment,
   * a service), fails the verification-method type guard.
   */
  lemma NonMethodIsNotVerificationMethod(env: Env, token: string)
    requires DecodeJwt(env, token).Success?
    requires KidResource(env.resolver, DecodeJwt(env, token).value.header["kid"]).Success?
    requires !IsVerificationMethod(KidResource(env.resolver, DecodeJwt(env, token).value.header["kid"]).value)
    ensures Verify(env, token) == Failure(NotVerificationMethod)
  {
  }

  /** A verification method without `publicKeyJwk` is reported as such, whatever the algorithm. */
  lemma MissingJwkPrecedesAlgorithm(env: Env, token: string, vm: Object)
    requires DecodeJwt(env, token).Success?
    requires KidResource(env.resolver, DecodeJwt(env, token).value.header["kid"]) == Success(Some(vm))
    requires IsVerificationMethod(Some(vm)) && !Present(Member(vm, "publicKeyJwk"))
    ensures Verify(env, token) == Failure(MissingPublicKeyJwk)
  {
  }

  /** The signature segment is decoded before the algorithm is looked up, so its decoding error comes first. */
  lemma SignatureDecodingPrecedesAlgorithm(env: Env, token: string)
    requires DecodeJwt(env, token).Success?
    requires LocateKey(env, DecodeJwt(env, token).value.header).Success?
    requires env.decodeBytes(DecodeJwt(env, token).value.signatureSegment).None?
    ensures Verify(env, token) == Failure(InvalidSignatureEncoding)
  {
  }

  /** Key import comes after the algorithm check: a supported pair whose normalised JWK does not import fails as such. */
  lemma KeyImportFailureAfterAlgorithm(env: Env, token: string)
    requires ReachesAlgorithmCheck(env, token)
    requires var jwt := DecodeJwt(env, token).value;
             var jwk := LocateKey(env, jwt.header).value.1;
             SupportedPair(Render(Alg(jwt)), CurveText(jwk)) && !env.importKey(NormaliseJwk(Alg(jwt), jwk))
    ensures Verify(env, token) == Failure(KeyImportFailure)
  {
    var jwt := DecodeJwt(env, token).value;
    SupportedIff(Render(Alg(jwt)), CurveText(LocateKey(env, jwt.header).value.1));
    SupportedPairRenders(Alg(jwt), LocateKey(env, jwt.header).value.1);
  }
}
