/**
 Invite tokens: a signed envelope as canonical JSON, in unpadded base64url, behind a prefix. The JSON codec and the
 signature scheme are parameters, with the laws that they promise as hypotheses.
 */
module InviteToken {
  import opened Wrappers
  import Base64Url
  import MeshState
  import MeshNames

  const PREFIX := "msmesh1."
  const MAX_TOKEN := 16384

  type Byte = Base64Url.Byte

  /** An envelope as it is transmitted. */
  datatype Sealed = Sealed(version: int, envelope: MeshState.Envelope, signature: string)

  /** What the standard libraries do: writing and reading JSON, and signing with the key of an endpoint. */
  datatype Codec = Codec(
    write: Sealed -> seq<Byte>,
    read: seq<Byte> -> Option<Sealed>,
    sign: (MeshState.Endpoint, int, MeshState.Envelope) -> string)

  ghost predicate Lossless(c: Codec) {
    forall s :: c.read(c.write(s)) == Some(s)
  }

  datatype Refusal = BadEncoding | NotAuthentic

  /** The owner signs the envelope with its own key, which the envelope names as the authority. */
  function Seal(c: Codec, e: MeshState.Envelope): Sealed {
    Sealed(1, e, c.sign(e.mesh.authority, 1, e))
  }

  function Token(c: Codec, e: MeshState.Envelope): string {
    PREFIX + Base64Url.Encode(c.write(Seal(c, e)))
  }

  function DecodeInvite(c: Codec, token: string, now: real): Result<MeshState.Envelope, Refusal> {
    if !MeshNames.StartsWith(token, PREFIX) || |token| > MAX_TOKEN then Err(NotAuthentic)
    else
      var bytes := Base64Url.Decode(token[|PREFIX|..]);
      if bytes.Err? then Err(BadEncoding)
      else
        var s := c.read(bytes.value);
        if s.None? then Err(NotAuthentic)
        else if s.value.signature != c.sign(s.value.envelope.mesh.authority, s.value.version, s.value.envelope) then
          Err(NotAuthentic)
        else if s.value.version != 1 || s.value.envelope.expiresAt as real <= now then Err(NotAuthentic)
        else Ok(s.value.envelope)
  }

  /** A token is within its limit exactly if it carries at most 12282 bytes. */
  lemma TokenLength(c: Codec, e: MeshState.Envelope)
    ensures |Token(c, e)| <= MAX_TOKEN <==> |c.write(Seal(c, e))| <= 12282
  {
    var n := |c.write(Seal(c, e))|;
    Base64Url.EncodeShape(c.write(Seal(c, e)));
    LettersWithinLimit(n);
  }

  lemma LettersWithinLimit(n: nat)
    ensures 4 * ((n + 2) / 3) - Base64Url.PadLength(n) <= MAX_TOKEN - 8 <==> n <= 12282
  {
  }

  /**
   What the owner prints is decoded to exactly the envelope it was made from, whatever its contents and length, as
   long as the token is within its limit and the invite has not expired; otherwise it is refused.
   */
  lemma InviteRoundTrip(c: Codec, e: MeshState.Envelope, now: real)
    requires Lossless(c)
    ensures DecodeInvite(c, Token(c, e), now) ==
      if |c.write(Seal(c, e))| <= 12282 && e.expiresAt as real > now then Ok(e) else Err(NotAuthentic)
  {
    var bytes := c.write(Seal(c, e));
    TokenLength(c, e);
    assert Token(c, e)[..|PREFIX|] == PREFIX;
    assert Token(c, e)[|PREFIX|..] == Base64Url.Encode(bytes);
    Base64Url.RoundTrip(bytes);
  }

  /** So no token stands for two envelopes. */
  lemma TokensAreDistinct(c: Codec, e: MeshState.Envelope, f: MeshState.Envelope)
    requires Lossless(c) && |Token(c, e)| <= MAX_TOKEN && Token(c, e) == Token(c, f)
    ensures e == f
  {
    assert Token(c, e)[|PREFIX|..] == Base64Url.Encode(c.write(Seal(c, e)));
    assert Token(c, f)[|PREFIX|..] == Base64Url.Encode(c.write(Seal(c, f)));
    Base64Url.EncodeIsInjective(c.write(Seal(c, e)), c.write(Seal(c, f)));
    assert c.read(c.write(Seal(c, e))) == Some(Seal(c, e));
  }

  /**
   Whatever string is presented: what is accepted was signed, in the first version of the format, with the key of
   the authority that it names, and has not expired.
   */
  lemma OnlySignedInvites(c: Codec, token: string, now: real)
    requires DecodeInvite(c, token, now).Ok?
    ensures var e := DecodeInvite(c, token, now).value;
      && e.expiresAt as real > now
      && exists bytes :: Base64Url.Decode(token[|PREFIX|..]) == Ok(bytes) && c.read(bytes) == Some(Seal(c, e))
  {
    var bytes := Base64Url.Decode(token[|PREFIX|..]).value;
    assert c.read(bytes) == Some(Seal(c, DecodeInvite(c, token, now).value));
  }
}
