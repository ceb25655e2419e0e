/**
 Text normalisation: NFC followed by whitespace collapsing
 (`normalise_text` in backend/apps/common/utils.py).

 NFC itself (Unicode Standard Annex #15) is an arbitrary function of which only four
 published facts are used; `NfcLaws` states them, and the witness of `Nfc` shows that they
 can all hold together.
 */
module Text {
  import opened Basics

  /** What Unicode Standard Annex #15 guarantees and the platform relies on. */
  ghost predicate NfcLaws(f: string -> string) {
    && (forall s :: f(f(s)) == f(s))
    // Normal forms are closed under taking substrings.
    && (forall s, i, j | 0 <= i <= j <= |s| && f(s) == s :: f(s[i..j]) == s[i..j])
    // A space neither composes nor reorders, so it may stand between two normal texts.
    && (forall a, b | f(a) == a && f(b) == b :: f(a + " " + b) == a + " " + b)
    && (forall s | Ascii(s) :: f(s) == s)
  }

  type Nfc = f: string -> string | NfcLaws(f) witness (s: string) => s

  const NFC: Nfc

  predicate Ascii(s: string) {
    forall c | c in s :: c as int < 128
  }

  /** The characters on which Python's `str.split()` splits. */
  predicate IsSpace(c: char) {
    var n := c as int;
    || 0x09 <= n <= 0x0D || 0x1C <= n <= 0x20 || n == 0x85 || n == 0xA0 || n == 0x1680
    || 0x2000 <= n <= 0x200A || n == 0x2028 || n == 0x2029 || n == 0x202F || n == 0x205F
    || n == 0x3000
  }

  /** One by one: the 29 characters that Unicode or ASCII calls white space or a separator of lines. */
  lemma SpacesListed(c: char)
    ensures IsSpace(c) <==> c as int in {9, 10, 11, 12, 13, 28, 29, 30, 31, 32, 133, 160, 5760, 8192, 8193, 8194, 8195, 8196,
                                         8197, 8198, 8199, 8200, 8201, 8202, 8232, 8233, 8239, 8287, 12288}
  {
  }

  /** Length of the longest prefix without whitespace. */
  function WordLength(s: string): (n: nat)
    ensures n <= |s|
    ensures forall i | 0 <= i < n :: !IsSpace(s[i])
    ensures n < |s| ==> IsSpace(s[n])
  {
    if s == "" || IsSpace(s[0]) then 0 else 1 + WordLength(s[1..])
  }

  function Words(s: string): seq<string>
    decreases |s|
  {
    if s == "" then []
    else if IsSpace(s[0]) then Words(s[1..])
    else [s[..WordLength(s)]] + Words(s[WordLength(s)..])
  }

  function Join(words: seq<string>): string {
    if |words| == 0 then ""
    else if |words| == 1 then words[0]
    else words[0] + " " + Join(words[1..])
  }

  function NormaliseText(s: string): string {
    Join(Words(NFC(s)))
  }

  predicate Spaceless(s: string) {
    forall c | c in s :: !IsSpace(c)
  }

  /** A word as `Words` yields it: not empty and without whitespace. */
  predicate IsWord(s: string) {
    s != "" && Spaceless(s)
  }

  lemma {:induction false} WordLengthSpaceless(s: string, t: string)
    requires Spaceless(s) && (t == "" || IsSpace(t[0]))
    ensures WordLength(s + t) == |s|
  {
    hide IsSpace;
    if s == "" {
      assert s + t == t;
    } else {
      assert (s + t)[0] == s[0] && (s + t)[1..] == s[1..] + t;
      assert Spaceless(s[1..]) by {
        forall c | c in s[1..] ensures !IsSpace(c) { assert c in s; }
      }
      WordLengthSpaceless(s[1..], t);
    }
  }

  lemma WordsOfWord(s: string)
    requires IsWord(s)
    ensures Words(s) == [s]
  {
    WordLengthSpaceless(s, "");
    assert s + "" == s && s[..|s|] == s && s[|s|..] == "";
  }

  lemma {:induction false} WordsOfJoin(words: seq<string>)
    requires forall w | w in words :: IsWord(w)
    ensures Words(Join(words)) == words
  {
    if |words| == 0 {
    } else if |words| == 1 {
      assert words == [words[0]];
      WordsOfWord(words[0]);
    } else {
      var rest := Join(words[1..]);
      assert IsWord(words[0]) by { assert words[0] in words; }
      WordsOfJoin(words[1..]);
      WordLengthSpaceless(words[0], " " + rest);
      var s := words[0] + " " + rest;
      Assoc(words[0], " ", rest);
      Slices(words[0], " " + rest);
      Slices(" ", rest);
      HeadTail(words);
    }
  }

  /** Every word is a piece of the text, so the words of a normal text are normal. */
  lemma {:induction false} WordsAreNormal(s: string)
    requires NFC(s) == s
    ensures forall w | w in Words(s) :: IsWord(w) && NFC(w) == w
    decreases |s|
  {
    if s == "" {
    } else if IsSpace(s[0]) {
      assert s[1..|s|] == s[1..];
      WordsAreNormal(s[1..]);
    } else {
      var n := WordLength(s);
      assert s[0..n] == s[..n] && s[n..|s|] == s[n..];
      WordsAreNormal(s[n..]);
    }
  }

  lemma {:induction false} JoinIsNormal(words: seq<string>)
    requires forall w | w in words :: NFC(w) == w
    ensures NFC(Join(words)) == Join(words)
  {
    if |words| == 0 {
      assert Ascii("");
    } else if |words| > 1 {
      JoinIsNormal(words[1..]);
    }
  }

  predicate IsNormal(s: string) {
    NormaliseText(s) == s
  }

  /** Normalising twice is normalising once. */
  lemma NormaliseTextIdempotent(s: string)
    ensures IsNormal(NormaliseText(s))
  {
    var words := Words(NFC(s));
    WordsAreNormal(NFC(s));
    JoinIsNormal(words);
    WordsOfJoin(words);
  }

  /** Printable ASCII without spaces: field names, identifiers, numbers, dates. */
  predicate Plain(s: string) {
    Ascii(s) && Spaceless(s)
  }

  lemma PlainIsNormal(s: string)
    requires Plain(s)
    ensures IsNormal(s)
  {
    if s != "" {
      WordsOfWord(s);
    }
  }
}
