/**
 * The JWS compact serialisation (section 7.1 of RFC 7515): a token is its
 * header, payload and signature segments joined by '.'. The verifier splits
 * the token with JavaScript's `String.prototype.split('.')`, which cuts at
 * every separator and keeps empty pieces, and signs over the header segment,
 * '.', and the payload segment (the signing input of section 5.1 of RFC 7515).
 */
module CompactJws {

  /** Number of occurrences of `c` in `s`. */
  function Count(s: string, c: char): nat {
    if s == [] then 0 else (if s[0] == c then 1 else 0) + Count(s[1..], c)
  }

  /** `s.split(sep)`: the pieces between separators, in order, empty pieces included. */
  function Split(s: string, sep: char): (parts: seq<string>)
    ensures |parts| == Count(s, sep) + 1
    ensures forall i :: 0 <= i < |parts| ==> sep !in parts[i]
  {
    if s == [] then [""]
    else
      var rest := Split(s[1..], sep);
      if s[0] == sep then [""] + rest
      else [[s[0]] + rest[0]] + rest[1..]
  }

  /** `parts.join(sep)`. */
  function Join(parts: seq<string>, sep: char): string
    requires |parts| >= 1
  {
    if |parts| == 1 then parts[0] else parts[0] + [sep] + Join(parts[1..], sep)
  }

  /** Splitting loses nothing: joining the pieces gives back the token. */
  lemma {:induction false} JoinSplit(s: string, sep: char)
    ensures Join(Split(s, sep), sep) == s
  {
    if s != [] {
      var rest := Split(s[1..], sep);
      JoinSplit(s[1..], sep);
      if s[0] == sep {
        assert Split(s, sep) == [""] + rest;
        assert ([""] + rest)[1..] == rest;
        assert s == [sep] + s[1..];
      } else if |rest| == 1 {
        assert s == [s[0]] + s[1..];
      } else {
        var parts := Split(s, sep);
        assert parts[1..] == rest[1..];
        calc {
          Join(parts, sep);
          ([s[0]] + rest[0]) + [sep] + Join(rest[1..], sep);
          [s[0]] + (rest[0] + [sep] + Join(rest[1..], sep));
          [s[0]] + Join(rest, sep);
          s;
        }
      }
    }
  }

  /** A piece without separators followed by a separator splits off as one part. */
  lemma {:induction false} SplitPiece(p: string, sep: char, rest: string)
    requires sep !in p
    ensures Split(p, sep) == [p]
    ensures Split(p + [sep] + rest, sep) == [p] + Split(rest, sep)
  {
    if p != [] {
      SplitPiece(p[1..], sep, rest);
      assert (p + [sep] + rest)[1..] == p[1..] + [sep] + rest;
      assert [p[0]] + p[1..] == p;
    } else {
      assert p + [sep] + rest == [sep] + rest;
      assert ([sep] + rest)[1..] == rest;
    }
  }

  /** Joining separator-free pieces and splitting again gives back the pieces. */
  lemma {:induction false} SplitJoin(parts: seq<string>, sep: char)
    requires |parts| >= 1
    requires forall i :: 0 <= i < |parts| ==> sep !in parts[i]
    ensures Split(Join(parts, sep), sep) == parts
  {
    if |parts| == 1 {
      SplitPiece(parts[0], sep, "");
    } else {
      SplitJoin(parts[1..], sep);
      SplitPiece(parts[0], sep, Join(parts[1..], sep));
      assert [parts[0]] + parts[1..] == parts;
    }
  }

  /** The signing input: the header segment, '.', the payload segment, as received. */
  function SigningInput(header: string, payload: string): string {
    header + "." + payload
  }

  /**
   * A token that splits into exactly three segments is its signing input,
   * '.', and its signature segment: the verifier checks the signature over
   * the token's own bytes up to the last '.', with nothing re-encoded.
   */
  lemma TokenIsSigningInputAndSignature(token: string)
    requires |Split(token, '.')| == 3
    ensures var parts := Split(token, '.');
      token == SigningInput(parts[0], parts[1]) + "." + parts[2]
  {
    var parts := Split(token, '.');
    JoinSplit(token, '.');
    assert parts[1..][1..] == [parts[2]];
    assert Join(parts[1..], '.') == parts[1] + "." + parts[2];
    assert token == parts[0] + "." + (parts[1] + "." + parts[2]);
  }

  /** Three separator-free segments joined by '.' split back into exactly those segments. */
  lemma ThreeSegments(h: string, p: string, s: string)
    requires '.' !in h && '.' !in p && '.' !in s
    ensures Split(SigningInput(h, p) + "." + s, '.') == [h, p, s]
  {
    var parts := [h, p, s];
    SplitJoin(parts, '.');
    assert parts[1..] == [p, s] && parts[1..][1..] == [s];
    assert Join([p, s], '.') == p + "." + s;
    assert Join(parts, '.') == h + "." + (p + "." + s);
    assert h + "." + (p + "." + s) == SigningInput(h, p) + "." + s;
  }
}
