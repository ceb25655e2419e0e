/**
 Idealised cryptography and the text operations that stay abstract.

 keccak256 and SHA-256 are arbitrary functions without collisions; HMAC is an arbitrary
 function that, under any one key, has no collisions. Digests are never blank. The witnesses
 show that such functions exist.
 */
module Crypto {
  import opened Text

  /** A stand-in without collisions, to show that the laws below can be met. */
  function Tagged(s: string): (t: string)
    ensures t != "" && t[1..] == s
  {
    "#" + s
  }

  ghost predicate HashLaws(f: string -> string) {
    && (forall a, b | f(a) == f(b) :: a == b)
    && (forall a :: f(a) != "")
  }

  type Hash = f: string -> string | HashLaws(f) witness (s: string) => Tagged(s)

  const KECCAK256: Hash
  const SHA256: Hash

  ghost predicate MacLaws(f: (string, string) -> string) {
    && (forall k, a, b | f(k, a) == f(k, b) :: a == b)
    && (forall k, a :: f(k, a) != "")
  }

  type Mac = f: (string, string) -> string | MacLaws(f) witness (k: string, s: string) => Tagged(s)

  const HMAC: Mac

  /** Text without letters, which lower-casing leaves alone. */
  predicate Uncased(s: string) {
    forall i | 0 <= i < |s| :: '0' <= s[i] <= '9' || s[i] == '|'
  }

  /** `str.lower()`; only its effect on plain and on letterless ASCII text is used. */
  ghost predicate LowerLaws(f: string -> string) {
    && (forall s | Plain(s) :: Plain(f(s)) && (f(s) == "" <==> s == ""))
    && (forall s | Uncased(s) :: f(s) == s)
  }

  type Lower = f: string -> string | LowerLaws(f) witness (s: string) => s

  const LOWER: Lower

  /** An address as accounts compare it: lower case, no surrounding blanks. */
  const NORMALISE_EMAIL: string -> string
}
