/** The hash of "abc", the one-block example that accompanies FIPS 180-4, computed sixteen rounds at a time. */
module Sha1Example {
  import opened Sha1

  type Window = w: seq<word> | |w| == 16 witness seq(16, _ => 0)

  /** The sixteen words of the schedule from `t` on. */
  predicate WindowAt(block: seq<byte>, t: nat, w: Window)
    requires |block| == 64
  {
    && W(block, t) == w[0] && W(block, t + 1) == w[1] && W(block, t + 2) == w[2] && W(block, t + 3) == w[3]
    && W(block, t + 4) == w[4] && W(block, t + 5) == w[5] && W(block, t + 6) == w[6] && W(block, t + 7) == w[7]
    && W(block, t + 8) == w[8] && W(block, t + 9) == w[9] && W(block, t + 10) == w[10] && W(block, t + 11) == w[11]
    && W(block, t + 12) == w[12] && W(block, t + 13) == w[13] && W(block, t + 14) == w[14] && W(block, t + 15) == w[15]
  }

  /** The sixteen words after `w`. */
  predicate Follows(w: Window, v: Window) {
    && v[0] == Expanded(w[13], w[8], w[2], w[0]) && v[1] == Expanded(w[14], w[9], w[3], w[1])
    && v[2] == Expanded(w[15], w[10], w[4], w[2]) && v[3] == Expanded(v[0], w[11], w[5], w[3])
    && v[4] == Expanded(v[1], w[12], w[6], w[4]) && v[5] == Expanded(v[2], w[13], w[7], w[5])
    && v[6] == Expanded(v[3], w[14], w[8], w[6]) && v[7] == Expanded(v[4], w[15], w[9], w[7])
    && v[8] == Expanded(v[5], v[0], w[10], w[8]) && v[9] == Expanded(v[6], v[1], w[11], w[9])
    && v[10] == Expanded(v[7], v[2], w[12], w[10]) && v[11] == Expanded(v[8], v[3], w[13], w[11])
    && v[12] == Expanded(v[9], v[4], w[14], w[12]) && v[13] == Expanded(v[10], v[5], w[15], w[13])
    && v[14] == Expanded(v[11], v[6], v[0], w[14]) && v[15] == Expanded(v[12], v[7], v[1], w[15])
  }

  lemma Later(block: seq<byte>, t: nat)
    requires |block| == 64 && t >= 16
    ensures W(block, t) == Expanded(W(block, t - 3), W(block, t - 8), W(block, t - 14), W(block, t - 16))
  {
  }

  lemma NextWindow(block: seq<byte>, t: nat, w: Window, v: Window)
    requires |block| == 64 && WindowAt(block, t, w) && Follows(w, v)
    ensures WindowAt(block, t + 16, v)
  {
    hide W, Expanded;
    Later(block, t + 16);
    Later(block, t + 17);
    Later(block, t + 18);
    Later(block, t + 19);
    Later(block, t + 20);
    Later(block, t + 21);
    Later(block, t + 22);
    Later(block, t + 23);
    Later(block, t + 24);
    Later(block, t + 25);
    Later(block, t + 26);
    Later(block, t + 27);
    Later(block, t + 28);
    Later(block, t + 29);
    Later(block, t + 30);
    Later(block, t + 31);
  }

  /** Sixteen rounds from round `t` on, with the words `w`. */
  function SixteenRounds(h: Hash, t: nat, w: Window): Hash
  {
    var h1 := Round(h, t, w[0]);
    var h2 := Round(h1, t + 1, w[1]);
    var h3 := Round(h2, t + 2, w[2]);
    var h4 := Round(h3, t + 3, w[3]);
    var h5 := Round(h4, t + 4, w[4]);
    var h6 := Round(h5, t + 5, w[5]);
    var h7 := Round(h6, t + 6, w[6]);
    var h8 := Round(h7, t + 7, w[7]);
    var h9 := Round(h8, t + 8, w[8]);
    var h10 := Round(h9, t + 9, w[9]);
    var h11 := Round(h10, t + 10, w[10]);
    var h12 := Round(h11, t + 11, w[11]);
    var h13 := Round(h12, t + 12, w[12]);
    var h14 := Round(h13, t + 13, w[13]);
    var h15 := Round(h14, t + 14, w[14]);
    Round(h15, t + 15, w[15])
  }

  lemma SixteenMore(h: Hash, block: seq<byte>, t: nat, w: Window)
    requires |block| == 64 && WindowAt(block, t, w)
    ensures Rounds(h, block, t + 16) == SixteenRounds(Rounds(h, block, t), t, w)
  {
    hide Round, W;
    assert Rounds(h, block, t + 1) == Round(Rounds(h, block, t), t, w[0]);
    assert Rounds(h, block, t + 2) == Round(Rounds(h, block, t + 1), t + 1, w[1]);
    assert Rounds(h, block, t + 3) == Round(Rounds(h, block, t + 2), t + 2, w[2]);
    assert Rounds(h, block, t + 4) == Round(Rounds(h, block, t + 3), t + 3, w[3]);
    assert Rounds(h, block, t + 5) == Round(Rounds(h, block, t + 4), t + 4, w[4]);
    assert Rounds(h, block, t + 6) == Round(Rounds(h, block, t + 5), t + 5, w[5]);
    assert Rounds(h, block, t + 7) == Round(Rounds(h, block, t + 6), t + 6, w[6]);
    assert Rounds(h, block, t + 8) == Round(Rounds(h, block, t + 7), t + 7, w[7]);
    assert Rounds(h, block, t + 9) == Round(Rounds(h, block, t + 8), t + 8, w[8]);
    assert Rounds(h, block, t + 10) == Round(Rounds(h, block, t + 9), t + 9, w[9]);
    assert Rounds(h, block, t + 11) == Round(Rounds(h, block, t + 10), t + 10, w[10]);
    assert Rounds(h, block, t + 12) == Round(Rounds(h, block, t + 11), t + 11, w[11]);
    assert Rounds(h, block, t + 13) == Round(Rounds(h, block, t + 12), t + 12, w[12]);
    assert Rounds(h, block, t + 14) == Round(Rounds(h, block, t + 13), t + 13, w[13]);
    assert Rounds(h, block, t + 15) == Round(Rounds(h, block, t + 14), t + 14, w[14]);
  }

  /** Sixteen words and rounds further. */
  lemma Further(h: Hash, block: seq<byte>, t: nat, w: Window, g: Hash, v: Window)
    requires |block| == 64 && WindowAt(block, t, w) && Rounds(h, block, t) == g
    requires Follows(w, v)
    ensures WindowAt(block, t + 16, v) && Rounds(h, block, t + 16) == SixteenRounds(g, t, w)
  {
    hide *;
    NextWindow(block, t, w, v);
    SixteenMore(h, block, t, w);
  }

  const WORDS_0: Window := [
    0x61626380, 0x00000000, 0x00000000, 0x00000000, 0x00000000, 0x00000000, 0x00000000, 0x00000000,
    0x00000000, 0x00000000, 0x00000000, 0x00000000, 0x00000000, 0x00000000, 0x00000000, 0x00000018]
  const WORDS_1: Window := [
    0xC2C4C700, 0x00000000, 0x00000030, 0x85898E01, 0x00000000, 0x00000060, 0x0B131C03, 0x00000030,
    0x85898EC1, 0x16263806, 0x00000000, 0x00000180, 0x2C4C700C, 0x000000F0, 0x93AFB507, 0x5898E048]
  const WORDS_2: Window := [
    0x8E9A9202, 0x00000600, 0xB131C0F0, 0x16263BC6, 0x4EBED41E, 0x626380A1, 0x16263806, 0x000018C0,
    0xD2E138C4, 0x00000F00, 0x3AFB5079, 0x898E04E5, 0xE2BA3C2B, 0x000060C0, 0x053A37CD, 0x74458547]
  const WORDS_3: Window := [
    0xDA9415ED, 0x26380A16, 0x626383A1, 0x4EBF54DE, 0x3835B44B, 0x0000F600, 0x1E84C7A3, 0x98E04D98,
    0x651D16A0, 0x62658CA1, 0x458544D6, 0x44584CB7, 0x7BA06619, 0x6380AEA2, 0x0AE55269, 0x627B49A1]
  const WORDS_4: Window := [
    0x7CD45C9D, 0x000F0000, 0xFB50753A, 0xEC6765E8, 0xBA3C2BE2, 0x0060C000, 0x3A37CD05, 0x458546F4,
    0xB8599DD6, 0x380A1A26, 0x01E02203, 0xE7CC3456, 0xE6E60B69, 0x00F60A00, 0x5795EF4F, 0x822E0879]

  const STATE_1: Hash := Hash(0x20BDD62F, 0x196BEE77, 0x644A3DA5, 0x1181ED99, 0x18C623F9)
  const STATE_2: Hash := Hash(0x3B845D33, 0x1267B407, 0x717EEBD7, 0xA0DC2D4B, 0xD2AA1365)
  const STATE_3: Hash := Hash(0xBEAD02CA, 0xA01B846C, 0x8714787C, 0x503CA382, 0xFB86C6AB)
  const STATE_4: Hash := Hash(0x6B61C9E1, 0xB66C020B, 0x9523272C, 0xF5D5B051, 0x8FD4B796)
  const STATE_5: Hash := Hash(0x42541B35, 0x5738D5E1, 0x21834873, 0x681E6DF6, 0xD8FDF6AD)

  lemma Stage0()
    ensures SixteenRounds(INITIAL, 0, WORDS_0) == STATE_1
    ensures Follows(WORDS_0, WORDS_1)
  {
  }

  lemma Stage1()
    ensures SixteenRounds(STATE_1, 16, WORDS_1) == STATE_2
    ensures Follows(WORDS_1, WORDS_2)
  {
  }

  lemma Stage2()
    ensures SixteenRounds(STATE_2, 32, WORDS_2) == STATE_3
    ensures Follows(WORDS_2, WORDS_3)
  {
  }

  lemma Stage3()
    ensures SixteenRounds(STATE_3, 48, WORDS_3) == STATE_4
    ensures Follows(WORDS_3, WORDS_4)
  {
  }

  lemma Stage4()
    ensures SixteenRounds(STATE_4, 64, WORDS_4) == STATE_5
  {
  }

  lemma LastByte(n: nat, width: nat)
    ensures BigEndian(n, width + 1) == BigEndian(n / 256, width) + [(n % 256) as byte]
  {
  }

  lemma {:induction false} ZeroField(width: nat)
    ensures BigEndian(0, width) == Zeros(width)
  {
    if width > 0 { ZeroField(width - 1); }
  }

  lemma PaddedAbc()
    ensures Padded([0x61, 0x62, 0x63]) == [0x61, 0x62, 0x63, 0x80] + Zeros(59) + [0x18]
  {
    hide BigEndian;
    ZeroField(7);
    LastByte(24, 7);
    assert (24 % 256) as byte == 0x18;
    assert ZeroCount(3) == 52 && Zeros(52) + Zeros(7) == Zeros(59);
  }

  lemma FirstWords(block: seq<byte>)
    requires block == [0x61, 0x62, 0x63, 0x80] + Zeros(59) + [0x18]
    ensures |block| == 64 && WindowAt(block, 0, WORDS_0)
  {
  }

  lemma AllRounds(block: seq<byte>)
    requires |block| == 64 && WindowAt(block, 0, WORDS_0)
    ensures Rounds(INITIAL, block, 80) == STATE_5
  {
    assert Rounds(INITIAL, block, 0) == INITIAL;
    hide *;
    Stage0();
    Stage1();
    Stage2();
    Stage3();
    Stage4();
    Further(INITIAL, block, 0, WORDS_0, INITIAL, WORDS_1);
    Further(INITIAL, block, 16, WORDS_1, STATE_1, WORDS_2);
    Further(INITIAL, block, 32, WORDS_2, STATE_2, WORDS_3);
    Further(INITIAL, block, 48, WORDS_3, STATE_3, WORDS_4);
    SixteenMore(INITIAL, block, 64, WORDS_4);
  }

  const RESULT: Hash := Hash(0xA9993E36, 0x4706816A, 0xBA3E2571, 0x7850C26C, 0x9CD0D89D)

  lemma Total()
    ensures Sum(INITIAL, STATE_5) == RESULT
  {
  }

  lemma ResultBytes()
    ensures WordBytes(RESULT.a) == [0xA9, 0x99, 0x3E, 0x36]
    ensures WordBytes(RESULT.b) == [0x47, 0x06, 0x81, 0x6A]
    ensures WordBytes(RESULT.c) == [0xBA, 0x3E, 0x25, 0x71]
    ensures WordBytes(RESULT.d) == [0x78, 0x50, 0xC2, 0x6C]
    ensures WordBytes(RESULT.e) == [0x9C, 0xD0, 0xD8, 0x9D]
  {
  }

  lemma OneBlock(m: seq<byte>)
    requires |m| == 64
    ensures Blocks(m, 1) == Sum(INITIAL, Rounds(INITIAL, m, 80))
  {
    assert m[0..64] == m;
    assert Blocks(m, 0) == INITIAL;
    hide Rounds;
  }

  lemma AbcBlocks()
    ensures |Padded([0x61, 0x62, 0x63])| == 64 && Blocks(Padded([0x61, 0x62, 0x63]), 1) == RESULT
  {
    PaddedAbc();
    var m := Padded([0x61, 0x62, 0x63]);
    FirstWords(m);
    hide *;
    AllRounds(m);
    OneBlock(m);
    Total();
  }

  /** The digest of "abc". */
  lemma HashOfAbc()
    ensures Sha1.Sha1([0x61, 0x62, 0x63])
         == [0xA9, 0x99, 0x3E, 0x36] + [0x47, 0x06, 0x81, 0x6A] + [0xBA, 0x3E, 0x25, 0x71] + [
            0x78, 0x50, 0xC2, 0x6C] + [0x9C, 0xD0, 0xD8, 0x9D]
  {
    hide Blocks, Padded, WordBytes;
    AbcBlocks();
    ResultBytes();
  }
}
