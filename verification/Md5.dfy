/** MD5 and its keyed form, put together: 32-bit words obey the laws, and the program's steps are the RFC's. */
module Md5 {
  import opened Common
  import opened Md5Block
  import opened Md5Codec
  import opened Md5Hash

  /** rstr_md5 is MD5 as RFC 1321 defines it. */
  method RawMd5(a: seq<Byte>) returns (r: seq<Byte>)
    requires 8 * |a| < 0x8000_0000
    ensures r == Hashed(RFC, WORDS, a)
  {
    WordsLawful();
    ProgramAgrees();
    r := HashLike(PROGRAM, RFC, WORDS, a);
  }

  /** rstr_hmac_md5 is HMAC as RFC 2104 defines it, with that hash. */
  method RawHmacMd5(key: seq<Byte>, text: seq<Byte>) returns (r: seq<Byte>)
    requires 8 * |key| < 0x8000_0000 && 512 + 8 * |text| < 0x8000_0000
    ensures r == Hmac(RFC, WORDS, key, text)
  {
    WordsLawful();
    ProgramAgrees();
    r := HmacLike(PROGRAM, RFC, WORDS, key, text);
  }
}
