/** The chunked base64 encoder of the WebSocket handshake, against section 4 of RFC 4648. Shifts, masks and
    disjoint ors of the code are written as division, remainder and sum. */
module Base64 {
  import opened Results

  type byte = x: int | 0 <= x < 256

  // ---------------------------------------------------------------- the standard

  /** The value of a character of the alphabet, from its place in the four ranges. */
  function ValueOf(c: char): Option<sextet> {
    if 'A' <= c <= 'Z' then Some(c as int - 'A' as int)
    else if 'a' <= c <= 'z' then Some(c as int - 'a' as int + 26)
    else if '0' <= c <= '9' then Some(c as int - '0' as int + 52)
    else if c == '+' then Some(62)
    else if c == '/' then Some(63)
    else None
  }

  /** The character of a value. */
  function Symbol(i: sextet): char {
    if i < 26 then ('A' as int + i) as char
    else if i < 52 then ('a' as int + i - 26) as char
    else if i < 62 then ('0' as int + i - 52) as char
    else if i == 62 then '+' else '/'
  }

  lemma SymbolHas(i: sextet)
    ensures ValueOf(Symbol(i)) == Some(i) && Symbol(i) != '='
  {
  }

  lemma SymbolOfValue(c: char)
    requires ValueOf(c).Some?
    ensures Symbol(ValueOf(c).value) == c && c != '='
  {
  }

  type sextet = x: int | 0 <= x < 64

  /** The sextets of one, two or three octets: each octet is cut in two. */
  function Sextets(g: seq<byte>): seq<sextet> {
    if |g| == 1 then [g[0] / 4, g[0] % 4 * 16]
    else if |g| == 2 then [g[0] / 4, g[0] % 4 * 16 + g[1] / 16, g[1] % 16 * 4]
    else if |g| == 3 then [g[0] / 4, g[0] % 4 * 16 + g[1] / 16, g[1] % 16 * 4 + g[2] / 64, g[2] % 64]
    else []
  }

  /** The octets that neighbouring sextets give. */
  function First(p: sextet, q: sextet): byte { p * 4 + q / 16 }

  function Second(q: sextet, r: sextet): byte { q % 16 * 16 + r / 4 }

  function Third(r: sextet, t: sextet): byte { r % 4 * 64 + t }

  /** The octets of two, three or four sextets. */
  function Octets(v: seq<sextet>): seq<byte> {
    if |v| == 2 then [First(v[0], v[1])]
    else if |v| == 3 then [First(v[0], v[1]), Second(v[1], v[2])]
    else if |v| == 4 then [First(v[0], v[1]), Second(v[1], v[2]), Third(v[2], v[3])]
    else []
  }

  /** No stray bits after the last octet. */
  predicate Clean(v: seq<sextet>) {
    (|v| == 2 && v[1] % 16 == 0) || (|v| == 3 && v[2] % 4 == 0) || |v| == 4
  }

  /** Four characters, with pads for missing sextets. */
  function Chars(v: seq<sextet>): string {
    if |v| == 2 then [Symbol(v[0]), Symbol(v[1]), '=', '=']
    else if |v| == 3 then [Symbol(v[0]), Symbol(v[1]), Symbol(v[2]), '=']
    else if |v| == 4 then [Symbol(v[0]), Symbol(v[1]), Symbol(v[2]), Symbol(v[3])]
    else ""
  }

  function Values(s: string): Option<seq<sextet>> {
    if |s| != 4 || ValueOf(s[0]).None? || ValueOf(s[1]).None? then None
    else if s[2] == '=' && s[3] == '=' then Some([ValueOf(s[0]).value, ValueOf(s[1]).value])
    else if ValueOf(s[2]).None? then None
    else if s[3] == '=' then Some([ValueOf(s[0]).value, ValueOf(s[1]).value, ValueOf(s[2]).value])
    else if ValueOf(s[3]).None? then None
    else Some([ValueOf(s[0]).value, ValueOf(s[1]).value, ValueOf(s[2]).value, ValueOf(s[3]).value])
  }

  function Group(g: seq<byte>): string { Chars(Sextets(g)) }

  /** A strict reader of a group. */
  function Ungroup(s: string): Option<seq<byte>> {
    if Values(s).None? || !Clean(Values(s).value) then None else Some(Octets(Values(s).value))
  }

  lemma CutAndJoin(g: seq<byte>)
    requires 1 <= |g| <= 3
    ensures |Sextets(g)| == |g| + 1 && Clean(Sextets(g)) && Octets(Sextets(g)) == g
  {
  }

  lemma FirstCut(p: sextet, q: sextet)
    ensures First(p, q) / 4 == p && First(p, q) % 4 == q / 16
  {
  }

  lemma SecondCut(q: sextet, r: sextet)
    ensures Second(q, r) / 16 == q % 16 && Second(q, r) % 16 == r / 4
  {
  }

  lemma ThirdCut(r: sextet, t: sextet)
    ensures Third(r, t) / 64 == r % 4 && Third(r, t) % 64 == t
  {
  }

  lemma JoinAndCut(v: seq<sextet>)
    requires Clean(v)
    ensures |Octets(v)| == |v| - 1 && Sextets(Octets(v)) == v
  {
    FirstCut(v[0], v[1]);
    if |v| > 2 { SecondCut(v[1], v[2]); }
    if |v| > 3 { ThirdCut(v[2], v[3]); }
  }

  lemma ValuesOfChars(v: seq<sextet>)
    requires 2 <= |v| <= 4
    ensures |Chars(v)| == 4 && Values(Chars(v)) == Some(v)
  {
    SymbolHas(v[0]);
    SymbolHas(v[1]);
    if |v| == 2 {
      assert v == [v[0], v[1]];
    } else if |v| == 3 {
      SymbolHas(v[2]);
      assert v == [v[0], v[1], v[2]];
    } else {
      SymbolHas(v[2]);
      SymbolHas(v[3]);
      assert v == [v[0], v[1], v[2], v[3]];
    }
  }

  lemma CharsOfValues(s: string)
    requires Values(s).Some?
    ensures 2 <= |Values(s).value| <= 4 && Chars(Values(s).value) == s
  {
    SymbolOfValue(s[0]);
    SymbolOfValue(s[1]);
    if ValueOf(s[2]).Some? { SymbolOfValue(s[2]); }
    if ValueOf(s[3]).Some? { SymbolOfValue(s[3]); }
  }

  /** Group by group, for any way to write a group. */
  function EncodedBy(write: seq<byte> -> string, bytes: seq<byte>): string {
    if |bytes| == 0 then "" else write(bytes[..Min(3, |bytes|)]) + EncodedBy(write, bytes[Min(3, |bytes|)..])
  }

  /** Group by group, for any way to read a group; only the last group may be short. */
  function DecodedBy(read: string -> Option<seq<byte>>, s: string): Option<seq<byte>> {
    if |s| == 0 then Some([])
    else if |s| < 4 || read(s[..4]).None? then None
    else
      var rest := DecodedBy(read, s[4..]);
      if rest.None? || (|read(s[..4]).value| != 3 && |s| > 4) then None else Some(read(s[..4]).value + rest.value)
  }

  function Encoded(bytes: seq<byte>): string { EncodedBy(Group, bytes) }

  function Decoded(s: string): Option<seq<byte>> { DecodedBy(Ungroup, s) }

  predicate WritesGroup(write: seq<byte> -> string, read: string -> Option<seq<byte>>, g: seq<byte>) {
    |write(g)| == 4 && read(write(g)) == Some(g)
  }

  predicate ReadsGroup(write: seq<byte> -> string, read: string -> Option<seq<byte>>, s: string) {
    read(s).Some? ==> 1 <= |read(s).value| <= 3 && write(read(s).value) == s
  }

  lemma {:induction false} GroupsRoundTrip(write: seq<byte> -> string, read: string -> Option<seq<byte>>,
                                           bytes: seq<byte>)
    requires forall g {:trigger WritesGroup(write, read, g)} :: 1 <= |g| <= 3 ==> WritesGroup(write, read, g)
    ensures DecodedBy(read, EncodedBy(write, bytes)) == Some(bytes)
  {
    if |bytes| > 0 {
      var n := Min(3, |bytes|);
      assert WritesGroup(write, read, bytes[..n]);
      GroupsRoundTrip(write, read, bytes[n..]);
      FirstGroupReads(read, write(bytes[..n]), EncodedBy(write, bytes[n..]));
      assert bytes == bytes[..n] + bytes[n..];
    }
  }

  lemma FirstGroupReads(read: string -> Option<seq<byte>>, group: string, rest: string)
    requires |group| == 4 && read(group).Some? && DecodedBy(read, rest).Some?
    requires |read(group).value| == 3 || rest == ""
    ensures DecodedBy(read, group + rest) == Some(read(group).value + DecodedBy(read, rest).value)
  {
    assert (group + rest)[..4] == group && (group + rest)[4..] == rest;
  }

  lemma {:induction false} GroupsLength(write: seq<byte> -> string, bytes: seq<byte>)
    requires forall g :: 1 <= |g| <= 3 ==> |write(g)| == 4
    ensures |EncodedBy(write, bytes)| == (|bytes| + 2) / 3 * 4
  {
    if |bytes| > 0 {
      GroupsLength(write, bytes[Min(3, |bytes|)..]);
    }
  }

  lemma {:induction false} GroupsRoundTripBack(write: seq<byte> -> string, read: string -> Option<seq<byte>>, s: string)
    requires forall t {:trigger ReadsGroup(write, read, t)} :: |t| == 4 ==> ReadsGroup(write, read, t)
    requires DecodedBy(read, s).Some?
    ensures EncodedBy(write, DecodedBy(read, s).value) == s
  {
    if |s| > 0 {
      assert ReadsGroup(write, read, s[..4]);
      GroupsRoundTripBack(write, read, s[4..]);
      var g, rest := read(s[..4]).value, DecodedBy(read, s[4..]).value;
      assert (g + rest)[..Min(3, |g + rest|)] == g && (g + rest)[Min(3, |g + rest|)..] == rest;
      assert s == s[..4] + s[4..];
    }
  }

  lemma GroupReads(g: seq<byte>)
    requires 1 <= |g| <= 3
    ensures WritesGroup(Group, Ungroup, g)
  {
    CutAndJoin(g);
    ValuesOfChars(Sextets(g));
  }

  lemma UngroupWrites(s: string)
    ensures ReadsGroup(Group, Ungroup, s)
  {
    if Ungroup(s).Some? {
      CharsOfValues(s);
      JoinAndCut(Values(s).value);
    }
  }

  /** Decoding gives back every byte string, and the length is four for every three bytes begun. */
  lemma DecodeInvertsEncode(bytes: seq<byte>)
    ensures Decoded(Encoded(bytes)) == Some(bytes)
    ensures |Encoded(bytes)| == (|bytes| + 2) / 3 * 4
  {
    forall g {:trigger WritesGroup(Group, Ungroup, g)} | 1 <= |g| <= 3 ensures WritesGroup(Group, Ungroup, g) {
      GroupReads(g);
    }
    GroupsRoundTrip(Group, Ungroup, bytes);
    forall g: seq<byte> | 1 <= |g| <= 3 ensures |Group(g)| == 4 { GroupReads(g); }
    GroupsLength(Group, bytes);
  }

  /** And whatever decodes is the encoding of what it decodes to. */
  lemma EncodeInvertsDecode(s: string)
    requires Decoded(s).Some?
    ensures Encoded(Decoded(s).value) == s
  {
    forall t {:trigger ReadsGroup(Group, Ungroup, t)} | |t| == 4 ensures ReadsGroup(Group, Ungroup, t) {
      UngroupWrites(t);
    }
    GroupsRoundTripBack(Group, Ungroup, s);
  }

  /** The ends of the four ranges of the alphabet. */
  lemma AlphabetEnds()
    ensures Symbol(0) == 'A' && Symbol(25) == 'Z' && Symbol(26) == 'a' && Symbol(51) == 'z'
    ensures Symbol(52) == '0' && Symbol(61) == '9' && Symbol(62) == '+' && Symbol(63) == '/'
  {
  }

  /** Examples of section 10 of RFC 4648: "f", "fo", "foo" and "foobar". */
  lemma KnownEncodings()
    ensures Encoded([0x66]) == "Zg==" && Encoded([0x66, 0x6F]) == "Zm8=" && Encoded([0x66, 0x6F, 0x6F]) == "Zm9v"
    ensures Encoded([0x66, 0x6F, 0x6F] + [0x62, 0x61, 0x72]) == "Zm9v" + "YmFy"
  {
    KnownGroups();
    LastGroup(Group, [0x66]);
    LastGroup(Group, [0x66, 0x6F]);
    hide Group;
    FirstGroupOf([0x66, 0x6F, 0x6F], []);
    FirstGroupOf([0x62, 0x61, 0x72], []);
    FirstGroupOf([0x66, 0x6F, 0x6F], [0x62, 0x61, 0x72]);
    assert [0x66, 0x6F, 0x6F] + [] == [0x66, 0x6F, 0x6F] && [0x62, 0x61, 0x72] + [] == [0x62, 0x61, 0x72];
    assert Encoded([]) == "" && "Zm9v" + "" == "Zm9v" && "YmFy" + "" == "YmFy";
  }

  lemma KnownGroups()
    ensures Group([0x66]) == "Zg==" && Group([0x66, 0x6F]) == "Zm8="
    ensures Group([0x66, 0x6F, 0x6F]) == "Zm9v" && Group([0x62, 0x61, 0x72]) == "YmFy"
  {
  }

  lemma FirstGroupOf(g: seq<byte>, rest: seq<byte>)
    requires |g| == 3
    ensures Encoded(g + rest) == Group(g) + Encoded(rest)
  {
    assert (g + rest)[..3] == g && (g + rest)[3..] == rest;
  }

  // ---------------------------------------------------------------- the code

  const UPPER: string := "ABCDEFGHIJKLMNOPQRSTUVWXYZ"
  const OTHERS: string := "abcdefghijklmnopqrstuvwxyz0123456789+/"
  const TABLE: string := UPPER + OTHERS

  method Lookup(i: nat) returns (c: char)
    requires i < 64
    ensures c == Symbol(i)
  {
    c := TABLE[i];
    if i < 26 {
      assert c == UPPER[i];
    } else {
      assert c == OTHERS[i - 26];
    }
  }

  lemma DivideTwice(n: nat)
    ensures n / 0x1000 == n / 0x40 / 0x40 && n / 0x40000 == n / 0x1000 / 0x40
  {
  }

  /** The four sextets of a 24-bit value. */
  method SplitValue(value: nat) returns (p: sextet, q: sextet, r: sextet, t: sextet)
    requires value < 0x1000000
    ensures value == p * 0x40000 + q * 0x1000 + r * 0x40 + t
  {
    DivideTwice(value);
    p, q, r, t := value / 0x40000 % 0x40, value / 0x1000 % 0x40, value / 0x40 % 0x40, value % 0x40;
  }

  lemma SplitIsCut(a: byte, b: byte, c: byte, p: sextet, q: sextet, r: sextet, t: sextet)
    requires a * 0x10000 + b * 0x100 + c == p * 0x40000 + q * 0x1000 + r * 0x40 + t
    ensures p == a / 4 && q == a % 4 * 16 + b / 16 && r == b % 16 * 4 + c / 64 && t == c % 64
  {
  }

  method EncodeThree(a: byte, b: byte, c: byte) returns (quad: string)
    ensures quad == Group([a, b, c])
  {
    var p, q, r, t := SplitValue(a * 0x10000 + b * 0x100 + c);
    SplitIsCut(a, b, c, p, q, r, t);
    assert Sextets([a, b, c]) == [p, q, r, t];
    var c0 := Lookup(p);
    var c1 := Lookup(q);
    var c2 := Lookup(r);
    var c3 := Lookup(t);
    quad := [c0] + [c1] + [c2] + [c3];
  }

  method EncodeRemainder(remainder: seq<byte>) returns (last: string)
    requires 0 < |remainder| < 3
    ensures last == Group(remainder)
  {
    var first: byte := remainder[0];
    var second: byte := if |remainder| > 1 then remainder[1] else 0;
    var p, q, r, t := SplitValue(first * 0x10000 + second * 0x100);
    SplitIsCut(first, second, 0, p, q, r, t);
    assert Sextets(remainder) == if |remainder| == 2 then [p, q, r] else [p, q];
    var c0 := Lookup(p);
    var c1 := Lookup(q);
    last := [c0] + [c1];
    if |remainder| == 2 {
      var c2 := Lookup(r);
      last := last + [c2];
    } else {
      last := last + ['='];
    }
    last := last + ['='];
  }

  /** A group at the end, and a full group before others. */
  lemma LastGroup(write: seq<byte> -> string, g: seq<byte>)
    requires 0 < |g| < 3
    ensures EncodedBy(write, g) == write(g)
  {
    assert g[..|g|] == g && g[|g|..] == [];
  }

  lemma FirstGroup(write: seq<byte> -> string, bytes: seq<byte>, n: nat)
    requires n + 3 <= |bytes|
    ensures EncodedBy(write, bytes[n..])
            == write([bytes[n], bytes[n + 1], bytes[n + 2]]) + EncodedBy(write, bytes[n + 3..])
  {
    assert bytes[n..][..3] == [bytes[n], bytes[n + 1], bytes[n + 2]] && bytes[n..][3..] == bytes[n + 3..];
  }

  method Base64Encode(bytes: seq<byte>) returns (encoded: string)
    ensures encoded == Encoded(bytes)
  {
    encoded := "";
    var n := 0;
    while n + 3 <= |bytes|
      invariant n <= |bytes| && encoded + Encoded(bytes[n..]) == Encoded(bytes)
    {
      var quad := EncodeThree(bytes[n], bytes[n + 1], bytes[n + 2]);
      FirstGroup(Group, bytes, n);
      assert encoded + (quad + Encoded(bytes[n + 3..])) == (encoded + quad) + Encoded(bytes[n + 3..]);
      encoded := encoded + quad;
      n := n + 3;
    }
    var remainder := bytes[n..];
    if remainder != [] {
      var last := EncodeRemainder(remainder);
      LastGroup(Group, remainder);
      encoded := encoded + last;
    }
  }
}
