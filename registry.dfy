/**
 * The static table of supported signature algorithms. Keys are
 * `${alg}:${crv}`, the `alg` of the JWT header and the `crv` of the
 * verification key, and lookup is by exact key: there is no fallback from
 * `alg:crv` to `alg:`. ES256K over secp256k1 is section 3.2 of RFC 8812,
 * EdDSA over Ed25519 is section 3.1 of RFC 8037.
 */
module AlgorithmRegistry {
  import opened Wrappers
  import opened Json

  datatype Scheme = Ecdsa | EdDsa

  /** A registered verifier: its scheme, the options it is called with, and the alg/crv it serves. */
  datatype Verifier = Verifier(scheme: Scheme, optionsName: string, hash: Option<string>, alg: string, crv: string)

  const Secp256k1Verifier := Verifier(Ecdsa, "ECDSA", Some("SHA-256"), "ES256K", "secp256k1")
  const Ed25519Verifier := Verifier(EdDsa, "EdDSA", None, "EdDSA", "Ed25519")

  /** The registry, read-only for the life of the process. */
  const Algorithms: map<string, Verifier> := map[
    "ES256K:" := Secp256k1Verifier,
    "ES256K:secp256k1" := Secp256k1Verifier,
    ":secp256k1" := Secp256k1Verifier,
    "EdDSA:Ed25519" := Ed25519Verifier
  ]

  /** The key's `crv` when it is present and truthy; otherwise `|| ''` puts the empty text in its place. */
  function Curve(jwk: Json): Option<Json> {
    var crv := if jwk.JObj? then Member(jwk.fields, "crv") else None;
    if Present(crv) then crv else None
  }

  /** `publicKeyJwk['crv'] || ''`: the key's curve as text, empty when absent or falsy. */
  function CurveText(jwk: Json): string {
    if Curve(jwk).Some? then Render(Curve(jwk).value) else ""
  }

  /** Building `${alg}:${crv}` does not throw: neither `alg` nor the curve is an object with its own `toString`. */
  predicate AlgorithmIdRenders(alg: Json, jwk: Json) {
    Renderable(alg) && (Curve(jwk).Some? ==> Renderable(Curve(jwk).value))
  }

  /** `${alg}:${crv}`, the registry key for a header `alg` and a verification key. */
  function AlgorithmId(alg: Json, jwk: Json): string {
    Render(alg) + ":" + CurveText(jwk)
  }

  /** The (alg, crv) text pairs the registry serves. */
  predicate SupportedPair(alg: string, crv: string) {
    || (alg == "ES256K" && crv == "")
    || (alg == "ES256K" && crv == "secp256k1")
    || (alg == "" && crv == "secp256k1")
    || (alg == "EdDSA" && crv == "Ed25519")
  }

  /** Around a single ':' the two sides are determined: `a:c` names a key only by its own parts. */
  lemma ColonJoinUnique(a: string, c: string, k1: string, k2: string)
    requires ':' !in k1 && ':' !in k2
    ensures a + ":" + c == k1 + ":" + k2 <==> a == k1 && c == k2
  {
    var lhs, rhs := a + ":" + c, k1 + ":" + k2;
    if lhs == rhs {
      assert lhs[|a|] == ':';
      assert forall i :: 0 <= i < |k1| ==> rhs[i] == k1[i];
      assert forall i :: |k1| < i < |rhs| ==> rhs[i] == k2[i - |k1| - 1];
      assert |a| == |k1|;
      assert a == lhs[..|a|] && k1 == rhs[..|k1|];
      assert c == lhs[|a| + 1..] && k2 == rhs[|k1| + 1..];
    }
  }

  /**
   * The registry key built from `alg` and `crv` is supported exactly for the
   * four pairs of the table, and names the secp256k1 verifier unless it is
   * the EdDSA pair. So `EdDSA` without a curve and `HS256` are never supported.
   */
  lemma SupportedIff(alg: string, crv: string)
    ensures alg + ":" + crv in Algorithms <==> SupportedPair(alg, crv)
    ensures alg + ":" + crv in Algorithms ==> Algorithms[alg + ":" + crv] == VerifierFor(alg)
  {
    var id := alg + ":" + crv;
    assert id in Algorithms <==> id == "ES256K:" || id == "ES256K:secp256k1" || id == ":secp256k1" || id == "EdDSA:Ed25519";
    assert id == "ES256K:" <==> alg == "ES256K" && crv == "" by {
      assert "ES256K:" == "ES256K" + ":" + "";
      ColonJoinUnique(alg, crv, "ES256K", "");
    }
    assert id == "ES256K:secp256k1" <==> alg == "ES256K" && crv == "secp256k1" by {
      assert "ES256K:secp256k1" == "ES256K" + ":" + "secp256k1";
      ColonJoinUnique(alg, crv, "ES256K", "secp256k1");
    }
    assert id == ":secp256k1" <==> alg == "" && crv == "secp256k1" by {
      assert ":secp256k1" == "" + ":" + "secp256k1";
      ColonJoinUnique(alg, crv, "", "secp256k1");
    }
    assert id == "EdDSA:Ed25519" <==> alg == "EdDSA" && crv == "Ed25519" by {
      assert "EdDSA:Ed25519" == "EdDSA" + ":" + "Ed25519";
      ColonJoinUnique(alg, crv, "EdDSA", "Ed25519");
    }
  }

  /**
   * A registered pair never comes from a key whose building would have
   * thrown: anything `String` throws on renders to at least 15 characters,
   * longer than every `alg` and `crv` of the table.
   */
  lemma SupportedPairRenders(alg: Json, jwk: Json)
    requires SupportedPair(Render(alg), CurveText(jwk))
    ensures AlgorithmIdRenders(alg, jwk)
  {
    if !Renderable(alg) {
      UnrenderableIsLong(alg);
    }
    if Curve(jwk).Some? && !Renderable(Curve(jwk).value) {
      UnrenderableIsLong(Curve(jwk).value);
    }
  }

  /** The verifier a supported pair selects. */
  function VerifierFor(alg: string): Verifier {
    if alg == "EdDSA" then Ed25519Verifier else Secp256k1Verifier
  }

  /** An `alg` other than ES256K, EdDSA and the empty text (HS256, say) is never supported, whatever the curve. */
  lemma UnregisteredAlgNeverSupported(alg: string, crv: string)
    requires alg != "ES256K" && alg != "EdDSA" && alg != ""
    ensures alg + ":" + crv !in Algorithms
  {
    SupportedIff(alg, crv);
  }

  /**
   * The curve-only key `:secp256k1` cannot be reached by a non-empty text
   * `alg`; it can only be reached by an `alg` that is truthy but renders as
   * empty text, such as an empty JSON array.
   */
  lemma CurveOnlyKeyNeedsEmptyRendering(alg: Json, jwk: Json)
    requires AlgorithmId(alg, jwk) == ":secp256k1"
    ensures Render(alg) == ""
    ensures !alg.JStr? || !Truthy(alg)
  {
    SupportedIff(Render(alg), CurveText(jwk));
  }

  /** A header `alg` of `[]` passes the truthiness guard and selects the curve-only key. */
  lemma EmptyArrayAlgSelectsCurveOnlyKey()
    ensures Truthy(JArr([]))
    ensures AlgorithmId(JArr([]), JObj(map["crv" := JStr("secp256k1")])) == ":secp256k1"
  {
  }
}
