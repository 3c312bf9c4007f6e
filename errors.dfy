/**
 * Why a verification fails. Each case stands for one exception the verifier
 * raises or lets through; the comment gives the gist of its message.
 */
module Errors {

  datatype Error =
      /** "Malformed JWT. expected 3 parts. got <parts>" */
    | MalformedJwt(parts: nat)
      /** "Malformed JWT. Invalid base64url encoding for JWT header" */
    | InvalidHeaderEncoding
      /** "Expected JWT header to contain typ property set to JWT" */
    | MissingTyp
      /** "Expected JWT header to contain alg and kid" */
    | MissingAlgOrKid
      /** "Malformed JWT. Invalid base64url encoding for JWT payload" */
    | InvalidPayloadEncoding
      /** "failed to parse did" */
    | DidParseFailure
      /** "Failed to resolve DID: <did>. Error: <reason>" */
    | DidResolutionFailure(did: string, reason: string)
      /** a TypeError while taking apart a resolved DID document */
    | MalformedDidDocument
      /** "Expected kid in JWT header to dereference a DID Document Verification Method" */
    | NotVerificationMethod
      /** "Expected kid ... to dereference to a DID Document Verification Method with publicKeyJwk" */
    | MissingPublicKeyJwk
      /** the decoder's own error for a signature segment that is not base64url */
    | InvalidSignatureEncoding
      /** "Cannot convert object to primitive value", a TypeError while building `${alg}:${crv}` */
    | AlgorithmIdTypeError
      /** "<id> not supported" */
    | UnsupportedAlgorithm(id: string)
      /** the key importer's own error for a JWK it cannot import */
    | KeyImportFailure
      /** "Signature verification failed: Integrity mismatch" */
    | IntegrityMismatch
}
