/**
 * The password entry codec of password.js: a salt made of random bytes in
 * lower-case hex, and a digest of the clear text followed by the salt.
 * The digest (SHA-1 in hex) is the parameter H; the random source is the
 * parameter `random`, the bytes crypto.randomBytes would have returned.
 */
module Password {

  type Byte = b: int | 0 <= b < 256

  /** crypto.randomBytes(8): the salt is made of this many bytes. */
  const SaltBytes: nat := 8

  /** The lower-case hex digit of a nibble, as Buffer.toString("hex") writes it. */
  function HexDigit(n: nat): (c: char)
    requires n < 16
    ensures IsHexDigit(c)
  {
    if n < 10 then ('0' as int + n) as char else ('a' as int + (n - 10)) as char
  }

  predicate IsHexDigit(c: char)
  {
    '0' <= c <= '9' || 'a' <= c <= 'f'
  }

  predicate IsHexText(s: string)
  {
    forall i :: 0 <= i < |s| ==> IsHexDigit(s[i])
  }

  /** The nibble a hex digit stands for; the inverse of HexDigit. */
  function DigitValue(c: char): (n: nat)
    requires IsHexDigit(c)
    ensures n < 16 && HexDigit(n) == c
  {
    if c <= '9' then c as int - '0' as int else c as int - 'a' as int + 10
  }

  /** Buffer.toString("hex"): two digits per byte, high nibble first. */
  function Hex(bytes: seq<Byte>): (s: string)
    ensures |s| == 2 * |bytes|
    ensures IsHexText(s)
  {
    if bytes == [] then ""
    else [HexDigit(bytes[0] / 16), HexDigit(bytes[0] % 16)] + Hex(bytes[1..])
  }

  /** Reads hex text back into bytes; the partner of Hex. */
  function Unhex(s: string): (bytes: seq<Byte>)
    requires |s| % 2 == 0 && IsHexText(s)
    ensures |bytes| == |s| / 2
  {
    if s == [] then []
    else [DigitValue(s[0]) * 16 + DigitValue(s[1])] + Unhex(s[2..])
  }

  lemma {:induction false} UnhexHex(bytes: seq<Byte>)
    ensures Unhex(Hex(bytes)) == bytes
  {
    if bytes != [] {
      var s := Hex(bytes);
      assert s[2..] == Hex(bytes[1..]);
      UnhexHex(bytes[1..]);
      var b := bytes[0];
      assert DigitValue(HexDigit(b / 16)) == b / 16;
      assert DigitValue(HexDigit(b % 16)) == b % 16;
    }
  }

  /** Distinct random bytes give distinct salts. */
  lemma HexInjective(a: seq<Byte>, b: seq<Byte>)
    requires Hex(a) == Hex(b)
    ensures a == b
  {
    UnhexHex(a);
    UnhexHex(b);
  }

  datatype PasswordEntry = PasswordEntry(salt: string, hash: string)

  /** makePasswordEntry: a fresh hex salt, and the digest of the clear text followed by that salt. */
  function MakePasswordEntry(H: string -> string, clearTextPassword: string, random: seq<Byte>): (e: PasswordEntry)
    requires |random| == SaltBytes
    ensures |e.salt| == 2 * SaltBytes && IsHexText(e.salt)
    ensures Unhex(e.salt) == random
    ensures e.hash == H(clearTextPassword + e.salt)
  {
    UnhexHex(random);
    var salt := Hex(random);
    PasswordEntry(salt, H(clearTextPassword + salt))
  }

  /** doesPasswordMatch: recompute the digest of candidate plus salt and compare it with the stored one. */
  function DoesPasswordMatch(H: string -> string, hash: string, salt: string, clearTextPassword: string): bool
  {
    H(clearTextPassword + salt) == hash
  }

  /** The digest function never maps two different texts to the same digest. */
  ghost predicate Injective(H: string -> string)
  {
    forall x, y :: H(x) == H(y) ==> x == y
  }

  /** A fresh entry verifies the password it was made from. */
  lemma RoundTrip(H: string -> string, p: string, random: seq<Byte>)
    requires |random| == SaltBytes
    ensures var e := MakePasswordEntry(H, p, random); DoesPasswordMatch(H, e.hash, e.salt, p)
  {
  }

  /** Appending the same salt to two texts keeps them apart: right cancellation of concatenation. */
  lemma {:induction false} ConcatRightCancel(a: string, b: string, s: string)
    requires a + s == b + s
    ensures a == b
  {
    assert |a| == |b|;
    assert a == (a + s)[..|a|];
    assert b == (b + s)[..|b|];
  }

  /** Putting two texts after the same password keeps them apart: left cancellation. */
  lemma {:induction false} ConcatLeftCancel(p: string, s: string, t: string)
    requires p + s == p + t
    ensures s == t
  {
    assert s == (p + s)[|p|..];
    assert t == (p + t)[|p|..];
  }

  /** Under an injective digest, no password other than the one an entry was made from matches it. */
  lemma WrongPasswordRejected(H: string -> string, p: string, q: string, random: seq<Byte>)
    requires Injective(H)
    requires |random| == SaltBytes
    requires p != q
    ensures var e := MakePasswordEntry(H, p, random); !DoesPasswordMatch(H, e.hash, e.salt, q)
  {
    var e := MakePasswordEntry(H, p, random);
    if DoesPasswordMatch(H, e.hash, e.salt, q) {
      assert H(q + e.salt) == H(p + e.salt);
      ConcatRightCancel(q, p, e.salt);
    }
  }

  /** Two entries for the same password made from different random bytes differ in salt and, under an injective digest, in hash. */
  lemma FreshSaltsGiveFreshEntries(H: string -> string, p: string, r1: seq<Byte>, r2: seq<Byte>)
    requires Injective(H)
    requires |r1| == SaltBytes && |r2| == SaltBytes
    requires r1 != r2
    ensures var e1, e2 := MakePasswordEntry(H, p, r1), MakePasswordEntry(H, p, r2);
            e1.salt != e2.salt && e1.hash != e2.hash
  {
    var e1, e2 := MakePasswordEntry(H, p, r1), MakePasswordEntry(H, p, r2);
    if e1.salt == e2.salt {
      HexInjective(r1, r2);
    }
    if e1.hash == e2.hash {
      ConcatLeftCancel(p, e1.salt, e2.salt);
      HexInjective(r1, r2);
    }
  }
}
