/**
 * Account.Credentials: a username and the lowercase hexadecimal form of the
 * MD5 digest of the password. The digest (MessageDigest over String.getBytes)
 * is foreign code and enters the model as an arbitrary function `md5`.
 */
module Credentials {

  /** A Java `byte`: signed, two's complement. */
  newtype JByte = x: int | -128 <= x < 128

  /** `b & 0xff`: the unsigned value of the byte's bit pattern. */
  function Unsigned(b: JByte): (u: nat)
    ensures u < 256
    ensures b >= 0 ==> u == b as int
    ensures b < 0 ==> u == b as int + 256
  {
    (b as int) % 256
  }

  /** The digit Character.forDigit(d, 16) produces: 0-9, then lowercase a-f. */
  function HexDigit(d: nat): (c: char)
    requires d < 16
  {
    if d < 10 then ('0' as int + d) as char else ('a' as int + d - 10) as char
  }

  predicate IsLowerHexDigit(c: char)
  {
    '0' <= c <= '9' || 'a' <= c <= 'f'
  }

  /** Integer.toString(n, 16) for a non-negative n: no leading zeros. */
  function ToHexString(n: nat): (s: string)
    ensures |s| >= 1
    ensures forall i :: 0 <= i < |s| ==> IsLowerHexDigit(s[i])
  {
    if n < 16 then [HexDigit(n)] else ToHexString(n / 16) + [HexDigit(n % 16)]
  }

  /** A three-digit number prints as exactly its three digits. */
  lemma ThreeHexDigits(n: nat)
    requires 0x100 <= n < 0x1000
    ensures ToHexString(n) == [HexDigit(n / 256), HexDigit(n / 16 % 16), HexDigit(n % 16)]
  {
    assert ToHexString(n / 16) == ToHexString(n / 16 / 16) + [HexDigit(n / 16 % 16)];
    assert n / 16 / 16 == n / 256;
  }

  /**
   * One step of the encoding loop:
   * Integer.toString((b & 0xff) + 0x100, 16).substring(1).
   * Adding 0x100 forces a third digit, and dropping it leaves the byte
   * zero-padded to exactly two digits.
   */
  function ByteHex(b: JByte): (s: string)
    ensures s == [HexDigit(Unsigned(b) / 16), HexDigit(Unsigned(b) % 16)]
  {
    var n := Unsigned(b) + 0x100;
    ThreeHexDigits(n);
    assert n / 16 % 16 == Unsigned(b) / 16;
    ToHexString(n)[1..]
  }

  /** Different bytes encode differently. */
  lemma ByteHexInjective(a: JByte, b: JByte)
    requires ByteHex(a) == ByteHex(b)
    ensures a == b
  {
  }

  /** What the StringBuilder holds after the loop has visited `bytes`. */
  function Hex(bytes: seq<JByte>): (s: string)
    ensures |s| == 2 * |bytes|
  {
    if bytes == [] then [] else Hex(bytes[..|bytes| - 1]) + ByteHex(bytes[|bytes| - 1])
  }

  /** Characters 2k and 2k+1 of the encoding are the two digits of byte k. */
  lemma {:induction false} HexAt(bytes: seq<JByte>, k: nat)
    requires k < |bytes|
    ensures Hex(bytes)[2 * k .. 2 * k + 2] == ByteHex(bytes[k])
  {
    var init := bytes[..|bytes| - 1];
    if k < |bytes| - 1 {
      HexAt(init, k);
      assert init[k] == bytes[k];
      assert Hex(bytes)[2 * k .. 2 * k + 2] == Hex(init)[2 * k .. 2 * k + 2];
    }
  }

  /** Every character of the encoding is a lowercase hexadecimal digit. */
  lemma HexIsLowercase(bytes: seq<JByte>, i: nat)
    requires i < |Hex(bytes)|
    ensures IsLowerHexDigit(Hex(bytes)[i])
  {
  }

  /** The encoding loses nothing: equal encodings come from equal digests. */
  lemma HexInjective(a: seq<JByte>, b: seq<JByte>)
    requires Hex(a) == Hex(b)
    ensures a == b
  {
    assert |a| == |b|;
    forall k | 0 <= k < |a|
      ensures a[k] == b[k]
    {
      HexAt(a, k);
      HexAt(b, k);
      ByteHexInjective(a[k], b[k]);
    }
  }

  /** The hashed form stored in place of the password (the MD5 path; its failure mode is left out). */
  method GenerateHashedValue(value: string, md5: string -> seq<JByte>) returns (generatedHash: string)
    ensures generatedHash == Hex(md5(value))
    ensures |generatedHash| == 2 * |md5(value)|
  {
    var bytes := md5(value);
    var sb := "";
    for i := 0 to |bytes|
      invariant sb == Hex(bytes[..i])
    {
      assert bytes[..i + 1][..i] == bytes[..i];
      // ByteHex is the loop body's Integer.toString((b & 0xff) + 0x100, 16).substring(1)
      sb := sb + ByteHex(bytes[i]);
    }
    assert bytes[..|bytes|] == bytes;
    generatedHash := sb;
  }

  /** A username and a hashed password; immutable once built. */
  datatype Credentials = Credentials(username: string, password: string)
  {
    /** Field-by-field comparison, which is exactly value equality. */
    function Validate(other: Credentials): (r: bool)
      ensures r <==> this == other
    {
      username == other.username && password == other.password
    }
  }

  /** `new Credentials(username, password)`: stores the hash, never the raw password. */
  method NewCredentials(username: string, password: string, md5: string -> seq<JByte>) returns (c: Credentials)
    ensures c.username == username
    ensures c.password == Hex(md5(password))
  {
    var hashed := GenerateHashedValue(password, md5);
    c := Credentials(username, hashed);
  }

  /**
   * Two hashed credentials validate against each other exactly when the
   * usernames agree and the passwords have the same digest.
   */
  lemma ValidateHashed(u1: string, p1: string, u2: string, p2: string, md5: string -> seq<JByte>)
    ensures Credentials(u1, Hex(md5(p1))).Validate(Credentials(u2, Hex(md5(p2))))
            <==> u1 == u2 && md5(p1) == md5(p2)
  {
    if Hex(md5(p1)) == Hex(md5(p2)) {
      HexInjective(md5(p1), md5(p2));
    }
  }
}
