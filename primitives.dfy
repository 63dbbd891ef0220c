/** The library calls the envelope code makes into Node's `crypto` and
    `Buffer`, kept uninterpreted: AES-256-CBC with automatic padding switched
    off, SHA-1 rendered as lowercase hex, base64, and UTF-8 conversion
    between strings and bytes. */
module Primitives {
  import opened Buffers

  datatype Primitives = Primitives(
    aesEncrypt: (seq<byte>, seq<byte>, seq<byte>) -> seq<byte>,  // (key, iv, data)
    aesDecrypt: (seq<byte>, seq<byte>, seq<byte>) -> seq<byte>,  // (key, iv, data)
    sha1Hex: string -> string,
    base64Encode: seq<byte> -> string,
    base64Decode: string -> seq<byte>,
    utf8Encode: string -> seq<byte>,
    utf8Decode: seq<byte> -> string)

  /** The only facts about the primitives the round trips depend on: CBC
      decryption undoes CBC encryption under the same key and IV on whole
      16-byte blocks and encryption keeps the length; base64 and UTF-8
      decoding undo their encodings. */
  ghost predicate Sound(p: Primitives) {
    && (forall key, iv, x :: |x| % 16 == 0 ==>
          |p.aesEncrypt(key, iv, x)| == |x| && p.aesDecrypt(key, iv, p.aesEncrypt(key, iv, x)) == x)
    && (forall b :: p.base64Decode(p.base64Encode(b)) == b)
    && (forall s :: p.utf8Decode(p.utf8Encode(s)) == s)
  }
}
