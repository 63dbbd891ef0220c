/** `DingTalkCrypt`: the callback envelope. A message is framed as 16 random
    bytes, its length as a big-endian 32-bit number, the message bytes and the
    app id; the frame is padded to whole 32-byte blocks and encrypted with
    AES-256-CBC, whose IV is the first 16 bytes of the key. Signatures hash
    the sorted arguments together with the token. */
module Crypto {
  import opened Results
  import opened Buffers
  import opened Strings
  import opened Primitives

  const BLOCK_SIZE: nat := 32

  datatype CryptError =
    | KeyInvalid          // 'encodingAESKey invalid' from the constructor
    | BadFinalBlock       // decipher.final(): input is not whole 16-byte blocks
    | BufferTooShort      // readUInt32BE(0) on fewer than four bytes
    | LengthOutOfRange    // writeUInt32BE of a length of 2^32 or more

  // ---------------------------------------------------------------------------
  // PKCS7Encoder

  /** `PKCS7Encoder.encode`: appends r bytes of value r, r = 32 - len % 32, so
      a length that is already whole blocks still gains a full block. */
  function Pkcs7Encode(text: seq<byte>): (r: seq<byte>)
    ensures |r| % BLOCK_SIZE == 0
    ensures |text| < |r| <= |text| + BLOCK_SIZE
    ensures |text| % BLOCK_SIZE == 0 ==> |r| == |text| + BLOCK_SIZE
    ensures r[..|text|] == text
    ensures forall i :: |text| <= i < |r| ==> r[i] as int == |r| - |text|
  {
    var amountToPad := BLOCK_SIZE - |text| % BLOCK_SIZE;
    text + seq(amountToPad, _ => amountToPad as byte)
  }

  /** `PKCS7Encoder.decode`: reads the last byte p; a p outside 1..32 is
      ignored and the buffer passes through unchanged. The cut uses Node's
      `slice(0, len - p)`, so a p larger than the buffer counts back from the
      end and keeps the first 2*len - p bytes (none when that is negative). */
  function Pkcs7Decode(text: seq<byte>): (r: seq<byte>)
    ensures |text| == 0 ==> r == []
    ensures |text| > 0 && !(1 <= text[|text| - 1] <= 32) ==> r == text
    ensures |text| > 0 && 1 <= text[|text| - 1] as int <= 32 && text[|text| - 1] as int <= |text|
            ==> r == text[..|text| - text[|text| - 1] as int]
    ensures |text| > 0 && 1 <= text[|text| - 1] as int <= 32 && text[|text| - 1] as int > |text|
            ==> r == text[..if 2 * |text| - text[|text| - 1] as int < 0 then 0 else 2 * |text| - text[|text| - 1] as int]
  {
    if |text| == 0 then
      []  // the last byte is `undefined`, so the cut is slice(0, NaN): empty
    else
      var last := text[|text| - 1] as int;
      var pad := if last < 1 || last > 32 then 0 else last;
      Slice(text, 0, |text| - pad)
  }

  /** Unpadding undoes padding, for every byte sequence. */
  lemma Pkcs7RoundTrip(b: seq<byte>)
    ensures Pkcs7Decode(Pkcs7Encode(b)) == b
  {
    var e := Pkcs7Encode(b);
    assert e[|e| - 1] as int == |e| - |b|;
    assert e[..|b|] == b;
  }

  // ---------------------------------------------------------------------------
  // Envelope framing

  /** The plaintext `encrypt` builds before padding:
      random ++ BE32(|msg|) ++ msg ++ id. */
  function Frame(random: seq<byte>, msg: seq<byte>, id: seq<byte>): (r: seq<byte>)
    requires |random| == 16 && |msg| < UINT32_LIMIT
    ensures |r| == 20 + |msg| + |id|
    ensures r[..16] == random
    ensures ReadUInt32BE(r[16..20]) == |msg|
    ensures r[20..20 + |msg|] == msg && r[20 + |msg|..] == id
  {
    ReadWriteUInt32BE(|msg|);
    random + WriteUInt32BE(|msg|) + msg + id
  }

  /** The slicing `decrypt` does after unpadding: skip 16 bytes, read the
      length L, take at most L message bytes and the rest as the id. An L
      beyond the buffer is clamped, not rejected; fewer than 20 bytes is the
      only failure. */
  function Unframe(deciphered: seq<byte>): (r: Result<(seq<byte>, seq<byte>), CryptError>)
    ensures r.Ok? <==> |deciphered| >= 20
    ensures r.Err? ==> r.error == BufferTooShort
    ensures r.Ok? ==>
      var length := ReadUInt32BE(deciphered[16..20]);
      var cut := if 20 + length <= |deciphered| then 20 + length else |deciphered|;
      r.value.0 == deciphered[20..cut] && r.value.1 == deciphered[cut..]
    ensures r.Ok? ==> r.value.0 + r.value.1 == deciphered[20..]
  {
    var content := Slice(deciphered, 16, |deciphered|);
    if |content| < 4 then Err(BufferTooShort)
    else
      var length := ReadUInt32BE(Slice(content, 0, 4));
      assert content == deciphered[16..];
      assert Slice(content, 0, 4) == deciphered[16..20];
      Ok((Slice(content, 4, length + 4), Slice(content, length + 4, |content|)))
  }

  /** Unframing a frame gives back the message and the id. */
  lemma FrameRoundTrip(random: seq<byte>, msg: seq<byte>, id: seq<byte>)
    requires |random| == 16 && |msg| < UINT32_LIMIT
    ensures Unframe(Frame(random, msg, id)) == Ok((msg, id))
  {
    var f := Frame(random, msg, id);
    assert f[20..20 + |msg|] == msg;
  }

  // ---------------------------------------------------------------------------
  // Signature

  /** The text `getSignature` hashes: the arguments and the token, sorted,
      joined with no separator. */
  function SignedText(args: seq<string>, token: string): string {
    Concat(Sort(args + [token]))
  }

  /** The signed text is the join of the one ordered arrangement of the
      arguments and the token, however `Sort` arrives at it. */
  lemma SignedTextIsSortedJoin(args: seq<string>, token: string, arranged: seq<string>)
    requires Sorted(arranged) && multiset(arranged) == multiset(args + [token])
    ensures SignedText(args, token) == Concat(arranged)
  {
    SortSorted(args + [token]);
    SortedUnique(Sort(args + [token]), arranged);
  }

  // ---------------------------------------------------------------------------
  // DingTalkCrypt

  /** `AESKey.slice(0, 16)`: the IV is taken from the key, not generated. */
  function DeriveIv(key: seq<byte>): (iv: seq<byte>)
    ensures |key| >= 16 ==> iv == key[..16]
  {
    Slice(key, 0, 16)
  }

  datatype Decrypted = Decrypted(message: string, id: string)

  /** An instance of `DingTalkCrypt`; its fields never change after the
      constructor. */
  datatype Crypt = Crypt(prims: Primitives, token: string, key: seq<byte>, iv: seq<byte>, id: string) {

    predicate Valid() {
      |key| == 32 && iv == key[..16]
    }

    /** `getSignature(...args)`. */
    function GetSignature(args: seq<string>): (s: string)
      ensures args == [] ==> s == prims.sha1Hex(token)
    {
      assert [token][1..] == [] && Sort([token]) == [token] && Concat([token]) == token;
      assert args == [] ==> args + [token] == [token];
      prims.sha1Hex(SignedText(args, token))
    }

    /** The padded plaintext `encrypt` hands to the cipher. */
    function Plaintext(text: string, random: seq<byte>): (r: seq<byte>)
      requires |random| == 16 && |prims.utf8Encode(text)| < UINT32_LIMIT
      ensures |r| % BLOCK_SIZE == 0
      ensures |r| > 20 + |prims.utf8Encode(text)| + |prims.utf8Encode(id)|
      ensures Pkcs7Decode(r) == Frame(random, prims.utf8Encode(text), prims.utf8Encode(id))
    {
      var framed := Frame(random, prims.utf8Encode(text), prims.utf8Encode(id));
      Pkcs7RoundTrip(framed);
      Pkcs7Encode(framed)
    }

    /** `encrypt(text)` with `random` standing for `pseudoRandomBytes(16)`. */
    function Encrypt(text: string, random: seq<byte>): (r: Result<string, CryptError>)
      requires |random| == 16
      ensures r.Ok? <==> |prims.utf8Encode(text)| < UINT32_LIMIT
      ensures r.Err? ==> r.error == LengthOutOfRange
    {
      var msg := prims.utf8Encode(text);
      if |msg| >= UINT32_LIMIT then Err(LengthOutOfRange)
      else Ok(prims.base64Encode(prims.aesEncrypt(key, iv, Plaintext(text, random))))
    }

    /** `decrypt(text)`. */
    function Decrypt(text: string): (r: Result<Decrypted, CryptError>)
      ensures r.Ok? <==>
        var data := prims.base64Decode(text);
        |data| % 16 == 0 && |Pkcs7Decode(prims.aesDecrypt(key, iv, data))| >= 20
      ensures |prims.base64Decode(text)| % 16 != 0 ==> r == Err(BadFinalBlock)
    {
      var data := prims.base64Decode(text);
      if |data| % 16 != 0 then Err(BadFinalBlock)
      else
        var parts :- Unframe(Pkcs7Decode(prims.aesDecrypt(key, iv, data)));
        Ok(Decrypted(prims.utf8Decode(parts.0), prims.utf8Decode(parts.1)))
    }
  }

  /** `new DingTalkCrypt(token, encodingAESKey, id)`: fails unless the key
      with a '=' appended decodes to exactly 32 bytes. */
  function NewCrypt(p: Primitives, token: string, encodingAESKey: string, id: string): (r: Result<Crypt, CryptError>)
    ensures r.Ok? <==> |p.base64Decode(encodingAESKey + "=")| == 32
    ensures r.Err? ==> r.error == KeyInvalid
    ensures r.Ok? ==> r.value.Valid() && r.value.key == p.base64Decode(encodingAESKey + "=")
    ensures r.Ok? ==> r.value.prims == p && r.value.token == token && r.value.id == id
  {
    var aesKey := p.base64Decode(encodingAESKey + "=");
    if |aesKey| != 32 then Err(KeyInvalid)
    else Ok(Crypt(p, token, aesKey, DeriveIv(aesKey), id))
  }

  /** Any rearrangement of the arguments gives the same signature. */
  lemma SignatureOrderIndependent(c: Crypt, a: seq<string>, b: seq<string>)
    requires multiset(a) == multiset(b)
    ensures c.GetSignature(a) == c.GetSignature(b)
  {
    assert multiset(a + [c.token]) == multiset(b + [c.token]);
    SortPermutationInvariant(a + [c.token], b + [c.token]);
  }

  /** Decrypting what `encrypt` produced gives back the text and the app id. */
  lemma EncryptDecrypt(c: Crypt, text: string, random: seq<byte>)
    requires Sound(c.prims) && |random| == 16
    requires |c.prims.utf8Encode(text)| < UINT32_LIMIT
    ensures c.Encrypt(text, random).Ok?
    ensures c.Decrypt(c.Encrypt(text, random).value) == Ok(Decrypted(text, c.id))
  {
    var p := c.prims;
    var msg, idBytes := p.utf8Encode(text), p.utf8Encode(c.id);
    var plain := c.Plaintext(text, random);
    var sealed := p.aesEncrypt(c.key, c.iv, plain);
    assert p.base64Decode(p.base64Encode(sealed)) == sealed;
    assert p.aesDecrypt(c.key, c.iv, sealed) == plain;
    FrameRoundTrip(random, msg, idBytes);
    assert p.utf8Decode(msg) == text && p.utf8Decode(idBytes) == c.id;
  }
}
