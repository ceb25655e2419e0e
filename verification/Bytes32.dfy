/**
 Stored hashes and the 32 bytes that the contract takes (`to_bytes32` and `from_bytes32` in
 backend/apps/ledger/canonical.py), and hashing an uploaded file in pieces (`sha256_file` in
 backend/apps/common/utils.py).
 */
module Bytes32 {
  import opened Basics
  import opened Crypto
  import opened Json

  type Byte = n: nat | n < 256

  datatype HexError = WrongSize | NotHex

  /** The value of a hexadecimal digit of either case. */
  function NibbleOf(c: char): Option<nat> {
    if '0' <= c <= '9' then Some(c as int - '0' as int)
    else if 'a' <= c <= 'f' then Some(c as int - 'a' as int + 10)
    else if 'A' <= c <= 'F' then Some(c as int - 'A' as int + 10)
    else None
  }

  /** Lower case, as `bytes.hex()` prints it. */
  function Hex(bytes: seq<Byte>): string {
    if bytes == [] then "" else [HexDigit(bytes[0] / 16), HexDigit(bytes[0] % 16)] + Hex(bytes[1..])
  }

  /** The white space that `bytes.fromhex` skips between bytes. */
  predicate IsBlank(c: char) {
    c == ' ' || 9 <= c as int <= 13
  }

  function FromHex(s: string): Option<seq<Byte>>
    decreases |s|
  {
    if s == "" then Some([])
    else if IsBlank(s[0]) then FromHex(s[1..])
    else if |s| < 2 || NibbleOf(s[0]).None? || NibbleOf(s[1]).None? then None
    else
      match FromHex(s[2..])
      case None => None
      case Some(rest) => Some([NibbleOf(s[0]).value * 16 + NibbleOf(s[1]).value] + rest)
  }

  function Cleaned(s: string): string {
    if |s| >= 2 && s[0] == '0' && s[1] == 'x' then s[2..] else s
  }

  function ToBytes32(s: string): Result<seq<Byte>, HexError> {
    if |Cleaned(s)| != 64 then Err(WrongSize)
    else
      match FromHex(Cleaned(s))
      case None => Err(NotHex)
      case Some(bytes) => Ok(bytes)
  }

  lemma NibblesReadBack(b: Byte)
    ensures NibbleOf(HexDigit(b / 16)) == Some(b / 16) && NibbleOf(HexDigit(b % 16)) == Some(b % 16)
    ensures !IsBlank(HexDigit(b / 16)) && b / 16 * 16 + b % 16 == b
  {
  }

  lemma {:induction false} HexReadsBack(bytes: seq<Byte>)
    ensures FromHex(Hex(bytes)) == Some(bytes) && |Hex(bytes)| == 2 * |bytes|
  {
    if bytes != [] {
      HexReadsBack(bytes[1..]);
      NibblesReadBack(bytes[0]);
      var head := [HexDigit(bytes[0] / 16), HexDigit(bytes[0] % 16)];
      assert (head + Hex(bytes[1..]))[2..] == Hex(bytes[1..]);
      HeadTail(bytes);
    }
  }

  /** What the contract returns is stored, and sent again, as the same 32 bytes. */
  lemma Bytes32RoundTrip(bytes: seq<Byte>)
    requires |bytes| == 32
    ensures ToBytes32(Hex(bytes)) == Ok(bytes) && ToBytes32("0x" + Hex(bytes)) == Ok(bytes)
  {
    HexReadsBack(bytes);
    assert ("0x" + Hex(bytes))[2..] == Hex(bytes);
    if |Hex(bytes)| == 64 && Hex(bytes)[1] == 'x' {
      NibblesReadBack(bytes[0]);
    }
  }

  function LowerHex(s: string): string {
    if s == "" then "" else (if NibbleOf(s[0]).Some? then [HexDigit(NibbleOf(s[0]).value)] else [s[0]]) + LowerHex(s[1..])
  }

  predicate NoBlanks(s: string) {
    forall i | 0 <= i < |s| :: !IsBlank(s[i])
  }

  lemma {:induction false} FromHexExact(s: string)
    requires FromHex(s).Some?
    ensures 2 * |FromHex(s).value| <= |s|
    ensures 2 * |FromHex(s).value| == |s| <==> NoBlanks(s)
    ensures NoBlanks(s) ==> Hex(FromHex(s).value) == LowerHex(s)
    decreases |s|
  {
    if s != "" {
      if IsBlank(s[0]) {
        FromHexExact(s[1..]);
        assert !NoBlanks(s);
      } else {
        FromHexExact(s[2..]);
        PairReadsBack(s);
      }
    }
  }

  lemma Nibbles(high: nat, low: nat)
    requires low < 16
    ensures (high * 16 + low) / 16 == high && (high * 16 + low) % 16 == low
  {
  }

  lemma HexIsNoBlank(c: char)
    requires NibbleOf(c).Some?
    ensures !IsBlank(c) && NibbleOf(c).value < 16
  {
  }

  lemma BlanksBehind(s: string)
    requires |s| >= 2 && !IsBlank(s[0]) && !IsBlank(s[1])
    ensures NoBlanks(s) <==> NoBlanks(s[2..])
  {
    hide IsBlank;
    forall i | 2 <= i < |s| ensures s[i] == s[2..][i - 2] {
    }
  }

  lemma LowerPair(s: string)
    requires |s| >= 2 && NibbleOf(s[0]).Some? && NibbleOf(s[1]).Some?
    ensures LowerHex(s) == [HexDigit(NibbleOf(s[0]).value), HexDigit(NibbleOf(s[1]).value)] + LowerHex(s[2..])
  {
    hide NibbleOf, HexDigit;
    assert s[1..][1..] == s[2..] && s[1..][0] == s[1];
  }

  lemma PairReadsBack(s: string)
    requires |s| >= 2 && NibbleOf(s[0]).Some? && NibbleOf(s[1]).Some?
    ensures NoBlanks(s) <==> NoBlanks(s[2..])
    ensures LowerHex(s) == [HexDigit(NibbleOf(s[0]).value), HexDigit(NibbleOf(s[1]).value)] + LowerHex(s[2..])
    ensures var b := NibbleOf(s[0]).value * 16 + NibbleOf(s[1]).value;
            b / 16 == NibbleOf(s[0]).value && b % 16 == NibbleOf(s[1]).value
  {
    HexIsNoBlank(s[0]);
    HexIsNoBlank(s[1]);
    hide NibbleOf, IsBlank, HexDigit, NoBlanks, LowerHex;
    Nibbles(NibbleOf(s[0]).value, NibbleOf(s[1]).value);
    BlanksBehind(s);
    LowerPair(s);
  }

  /**
   A stored hash that converts gives exactly 32 bytes, and comes back in lower case and without
   prefix, if and only if it contains no white space; blanks slip through the length check.
   */
  lemma ToBytes32Exact(s: string)
    requires ToBytes32(s).Ok?
    ensures |ToBytes32(s).value| == 32 <==> NoBlanks(Cleaned(s))
    ensures NoBlanks(Cleaned(s)) ==> Hex(ToBytes32(s).value) == LowerHex(Cleaned(s))
  {
    FromHexExact(Cleaned(s));
  }

  predicate IsHex(c: char) {
    '0' <= c <= '9' || 'a' <= c <= 'f' || 'A' <= c <= 'F'
  }

  lemma {:induction false} FromHexAccepts(s: string)
    requires NoBlanks(s)
    ensures FromHex(s).Some? <==> |s| % 2 == 0 && forall i | 0 <= i < |s| :: IsHex(s[i])
    decreases |s|
  {
    if |s| >= 2 {
      BlanksBehind(s);
      FromHexAccepts(s[2..]);
      hide IsHex, IsBlank, FromHex;
      assert forall i | 2 <= i < |s| :: s[i] == s[2..][i - 2];
      assert (forall i | 0 <= i < |s[2..]| :: IsHex(s[2..][i])) <==> forall i | 2 <= i < |s| :: IsHex(s[i]);
      PairRead(s);
    }
  }

  lemma PairRead(s: string)
    requires |s| >= 2 && !IsBlank(s[0])
    ensures FromHex(s).Some? <==> IsHex(s[0]) && IsHex(s[1]) && FromHex(s[2..]).Some?
  {
  }

  /** Without white space, exactly 64 digits of either case convert, with the prefix or without. */
  lemma ToBytes32Accepts(s: string)
    requires NoBlanks(Cleaned(s))
    ensures ToBytes32(s).Ok? <==> |Cleaned(s)| == 64 && forall i | 0 <= i < 64 :: IsHex(Cleaned(s)[i])
  {
    FromHexAccepts(Cleaned(s));
  }

  /** Two blanks and 62 digits have the right length, and give a byte too few. */
  lemma BlanksSlip(bytes: seq<Byte>)
    requires |bytes| == 31
    ensures ToBytes32("  " + Hex(bytes)) == Ok(bytes)
  {
    HexReadsBack(bytes);
    var s := "  " + Hex(bytes);
    assert s[1..] == " " + Hex(bytes) && (" " + Hex(bytes))[1..] == Hex(bytes);
    assert FromHex(" " + Hex(bytes)) == FromHex(Hex(bytes));
    assert FromHex(s) == FromHex(s[1..]);
    assert Cleaned(s) == s && |s| == 64;
  }

  // ------------------------------------------------------------- file digests

  class Upload {
    const content: string
    var position: nat

    constructor (text: string)
      ensures content == text && position == 0
    {
      content, position := text, 0;
    }

    /** `read(size)`: the next piece, empty at the end. */
    method Read(size: nat) returns (chunk: string)
      requires position <= |content| && size > 0
      modifies this
      ensures position == old(position) + |chunk| <= |content|
      ensures chunk == content[old(position)..position]
      ensures chunk == "" <==> old(position) == |content|
    {
      var end := if position + size <= |content| then position + size else |content|;
      chunk := content[position..end];
      position := end;
    }
  }

  const CHUNK: nat := 65536

  /** `sha256_file`: the digest of the whole file, wherever it was being read, which is restored. */
  method Sha256File(file: Upload) returns (digest: string)
    requires file.position <= |file.content|
    modifies file
    ensures digest == SHA256(file.content)
    ensures file.position == old(file.position)
  {
    var position := file.position;
    file.position := 0;
    var fed := "";
    var chunk := file.Read(CHUNK);
    while chunk != ""
      invariant file.position <= |file.content| && fed + chunk == file.content[..file.position]
      invariant chunk == "" ==> file.position == |file.content|
      decreases |file.content| - |fed|
    {
      fed := fed + chunk;
      chunk := file.Read(CHUNK);
    }
    assert fed == file.content;
    file.position := position;
    digest := SHA256(fed);
  }
}
