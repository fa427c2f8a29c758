/** The upload type check, the server's master key, the AES-256-GCM file layout
    and share tokens. The cipher itself and the random source are parameters:
    the model fixes what goes where, not how AES computes it. */
module Crypto {
  import opened Common
  import opened FileSystem

  /** The MIME types an upload may have. */
  const AllowedTypes: seq<string> := ["image/jpeg", "image/png", "image/svg+xml", "image/bmp"]

  const DisallowedTypeMessage: string := "Nedovoljen tip datoteke"

  /** `ensureAllowedType`: passes exactly the four listed types. */
  function EnsureAllowedType(mime: string): (r: Result<()>)
    ensures r.Success? <==> mime in AllowedTypes
    ensures r.Failure? ==> r.error == DisallowedTypeMessage
  {
    if mime in AllowedTypes then Success(()) else Failure(DisallowedTypeMessage)
  }

  /** The list is matched literally: no case folding, no parameters. */
  lemma AllowedTypeExamples()
    ensures EnsureAllowedType("image/png").Success?
    ensures EnsureAllowedType("image/svg+xml").Success?
    ensures EnsureAllowedType("image/gif").Failure?
    ensures EnsureAllowedType("image/PNG").Failure?
    ensures EnsureAllowedType("image/jpeg; charset=binary").Failure?
  {
    assert "image/PNG" != "image/png" by { assert "image/PNG"[6] != "image/png"[6]; }
  }

  // -------------------------------------------------------------------- hex

  predicate IsHexChar(c: char)
  {
    ('0' <= c <= '9') || ('a' <= c <= 'f') || ('A' <= c <= 'F')
  }

  predicate IsLowerHexChar(c: char)
  {
    ('0' <= c <= '9') || ('a' <= c <= 'f')
  }

  function HexValue(c: char): (v: nat)
    requires IsHexChar(c)
    ensures v < 16
  {
    if '0' <= c <= '9' then (c as int) - ('0' as int)
    else if 'a' <= c <= 'f' then (c as int) - ('a' as int) + 10
    else (c as int) - ('A' as int) + 10
  }

  function HexDigit(v: nat): (c: char)
    requires v < 16
    ensures IsLowerHexChar(c) && HexValue(c) == v
  {
    if v < 10 then (('0' as int) + v) as char else (('a' as int) + v - 10) as char
  }

  /** `buf.toString("hex")`: two lower-case digits per byte, high nibble first. */
  function HexEncode(b: Bytes): (s: string)
    ensures |s| == 2 * |b|
    ensures forall i :: 0 <= i < |s| ==> IsLowerHexChar(s[i])
  {
    if b == [] then []
    else [HexDigit(b[0] as nat / 16), HexDigit(b[0] as nat % 16)] + HexEncode(b[1..])
  }

  /** `Buffer.from(s, "hex")`: decodes digit pairs from the front and stops at
      the first pair that is not two hex digits; a trailing odd digit is
      dropped. It never throws. */
  function HexDecode(s: string): (b: Bytes)
    ensures |b| <= |s| / 2
  {
    if |s| < 2 || !IsHexChar(s[0]) || !IsHexChar(s[1]) then []
    else [(HexValue(s[0]) * 16 + HexValue(s[1])) as byte] + HexDecode(s[2..])
  }

  lemma {:induction false} HexRoundTrip(b: Bytes)
    ensures HexDecode(HexEncode(b)) == b
  {
    if b != [] {
      var s := HexEncode(b);
      assert s[2..] == HexEncode(b[1..]);
      HexRoundTrip(b[1..]);
    }
  }

  /** Distinct byte strings give distinct tokens. */
  lemma HexEncodeInjective(a: Bytes, b: Bytes)
    requires HexEncode(a) == HexEncode(b)
    ensures a == b
  {
    HexRoundTrip(a);
    HexRoundTrip(b);
  }

  // -------------------------------------------------------------------- key

  const MissingKeyMessage: string := "MANJKA MASTER_KEY_GCM"

  /** The master key read once from `MASTER_KEY_GCM`: absent or empty fails,
      anything else is decoded as hex, leniently. */
  function LoadKey(env: Option<string>): (r: Result<Bytes>)
    ensures r.Failure? <==> env.None? || env.value == ""
    ensures r.Failure? ==> r.error == MissingKeyMessage
    ensures r.Success? ==> r.value == HexDecode(env.value)
  {
    if env.None? || env.value == "" then Failure(MissingKeyMessage) else Success(HexDecode(env.value))
  }

  /** A key written as 64 hex digits loads as the 32 bytes it spells. */
  lemma KeyFromHex(key: Bytes)
    requires |key| == 32
    ensures LoadKey(Some(HexEncode(key))) == Success(key)
  {
    HexRoundTrip(key);
  }

  // ------------------------------------------------------------ file layout

  const IvLength: nat := 12
  const TagLength: nat := 16
  const HeaderLength: nat := IvLength + TagLength

  type Iv = b: Bytes | |b| == 12 witness [0, 0, 0, 0, 0, 0, 0, 0, 0, 0, 0, 0]
  type Tag = b: Bytes | |b| == 16 witness [0, 0, 0, 0, 0, 0, 0, 0, 0, 0, 0, 0, 0, 0, 0, 0]

  /** What AES-256-GCM returns for a key, a nonce and a plaintext. */
  datatype Sealed = Sealed(ciphertext: Bytes, tag: Tag)

  /** The bytes written to disk: nonce, then tag, then ciphertext. */
  function Frame(iv: Iv, tag: Tag, ciphertext: Bytes): (out: Bytes)
    ensures |out| == HeaderLength + |ciphertext|
    ensures out[..IvLength] == iv
    ensures out[IvLength..HeaderLength] == tag
    ensures out[HeaderLength..] == ciphertext
  {
    iv + tag + ciphertext
  }

  datatype Parts = Parts(iv: Iv, tag: Tag, ciphertext: Bytes)

  /** Splits a stored file back into its parts; shorter than the header is
      not a file this layout wrote. */
  function Unframe(blob: Bytes): (r: Result<Parts>)
    ensures r.Failure? <==> |blob| < HeaderLength
  {
    if |blob| < HeaderLength then Failure("encrypted file too short")
    else Success(Parts(blob[..IvLength], blob[IvLength..HeaderLength], blob[HeaderLength..]))
  }

  lemma FrameRoundTrip(iv: Iv, tag: Tag, ciphertext: Bytes)
    ensures Unframe(Frame(iv, tag, ciphertext)) == Success(Parts(iv, tag, ciphertext))
  {
  }

  lemma UnframeRoundTrip(blob: Bytes)
    requires Unframe(blob).Success?
    ensures var p := Unframe(blob).value; Frame(p.iv, p.tag, p.ciphertext) == blob
  {
    var p := Unframe(blob).value;
    assert blob == blob[..IvLength] + blob[IvLength..HeaderLength] + blob[HeaderLength..];
  }

  /** `encryptAndSave`: a fresh 12-byte nonce, the cipher output and its tag,
      written at `path` in the framed layout. A key that is not 32 bytes makes
      the cipher constructor throw before anything is written. */
  function EncryptAndSave(files: Files, path: string, data: Bytes, key: Bytes, iv: Iv,
                          gcm: (Bytes, Iv, Bytes) -> Sealed): (r: Result<Files>)
    ensures |key| != 32 <==> r.Failure?
    ensures r.Failure? ==> r.error == "Invalid key length"
    ensures r.Success? ==>
      && r.value.Keys == files.Keys + {path}
      && (forall p :: p in files && p != path ==> r.value[p] == files[p])
      && |r.value[path]| == HeaderLength + |gcm(key, iv, data).ciphertext|
      && r.value[path][..IvLength] == iv
  {
    if |key| != 32 then Failure("Invalid key length")
    else
      var sealed := gcm(key, iv, data);
      Success(files[path := Frame(iv, sealed.tag, sealed.ciphertext)])
  }

  /** What `encryptAndSave` wrote splits back into the nonce it drew and the
      cipher's output for that key, nonce and plaintext. */
  lemma SavedFileSplits(files: Files, path: string, data: Bytes, key: Bytes, iv: Iv,
                        gcm: (Bytes, Iv, Bytes) -> Sealed)
    requires |key| == 32
    ensures var r := EncryptAndSave(files, path, data, key, iv, gcm);
      var sealed := gcm(key, iv, data);
      r.Success? && Unframe(r.value[path]) == Success(Parts(iv, sealed.tag, sealed.ciphertext))
  {
    var sealed := gcm(key, iv, data);
    FrameRoundTrip(iv, sealed.tag, sealed.ciphertext);
  }

  // ------------------------------------------------------------ share token

  /** `generateShareToken`: 32 random bytes as 64 lower-case hex digits. */
  function GenerateShareToken(random: Bytes): (token: string)
    requires |random| == 32
    ensures |token| == 64
    ensures forall i :: 0 <= i < |token| ==> IsLowerHexChar(token[i])
    ensures HexDecode(token) == random
  {
    HexRoundTrip(random);
    HexEncode(random)
  }
}
