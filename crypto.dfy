/**
 * The hash primitives the certificate manager calls, kept uninterpreted: a
 * model is given one `Primitives` value and every digest it computes goes
 * through it, so what is proved holds whatever SHA-256 and HMAC compute.
 */
module Crypto {
  type Bytes = seq<bv8>

  datatype Primitives = Primitives(
    /** UTF-8 encoding of a string (how a string key or message enters a hash). */
    utf8: string -> Bytes,
    /** SHA-256 of a byte string. */
    sha256: Bytes -> Bytes,
    /** HMAC-SHA256 of a message under a key. */
    hmac: (Bytes, Bytes) -> Bytes,
    /** Lower-case hexadecimal text of bytes. */
    hex: Bytes -> string,
    /** Unpadded base64url text of bytes. */
    base64url: Bytes -> string)
  {
    /** `createHash('sha256').update(text).digest('hex')`. */
    function Sha256Hex(text: string): string {
      hex(sha256(utf8(text)))
    }

    /** `createHmac('sha256', key).update(text).digest()`. */
    function HmacText(key: Bytes, text: string): Bytes {
      hmac(key, utf8(text))
    }
  }
}
