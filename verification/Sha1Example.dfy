/**
 FIPS 180-4 on the message "abc": the functions of Sha1Spec give the digest the standard's
 examples publish, A9993E36 4706816A BA3E2571 7850C26C 9CD0D89D.
 */
module Sha1Example {
  import opened Sha1Spec

  const ABC: seq<Byte> := [0x61, 0x62, 0x63]

  const DIGEST: seq<Byte> := [
    0xA9, 0x99, 0x3E, 0x36, 0x47, 0x06, 0x81, 0x6A, 0xBA, 0x3E,
    0x25, 0x71, 0x78, 0x50, 0xC2, 0x6C, 0x9C, 0xD0, 0xD8, 0x9D]

  /** The one block of the padded message. */
  const BLOCK: seq<Word> := [0x61626380, 0, 0, 0, 0, 0, 0, 0, 0, 0, 0, 0, 0, 0, 0, 0x18]

  /** One word of the schedule from the four it depends on. */
  lemma Word(t: nat, w3: Word, w8: Word, w14: Word, w16: Word, w: Word)
    requires t >= 16 && W(BLOCK, t - 3) == w3 && W(BLOCK, t - 8) == w8 && W(BLOCK, t - 14) == w14 && W(BLOCK, t - 16) == w16
    requires Rotl1(w3 ^ w8 ^ w14 ^ w16) == w
    ensures W(BLOCK, t) == w
  {
  }

  /** One step from the working variables before it to the new a. */
  lemma Go(t: nat, a: Word, b: Word, c: Word, d: Word, e: Word, w: Word, a': Word, c': Word)
    requires Rounds(BLOCK, H0, t) == Regs(a, b, c, d, e) && W(BLOCK, t) == w
    requires Temp(a, F(t, b, c, d), e, K(t), w) == a' && Rotl30(b) == c'
    ensures Rounds(BLOCK, H0, t + 1) == Regs(a', a, c', c, d)
  {
  }

  lemma Front0()
    ensures W(BLOCK, 0) == 0x61626380 && W(BLOCK, 1) == 0x00000000 && W(BLOCK, 2) == 0x00000000 && W(BLOCK, 3) == 0x00000000
  {
  }

  lemma Front4()
    ensures W(BLOCK, 4) == 0x00000000 && W(BLOCK, 5) == 0x00000000 && W(BLOCK, 6) == 0x00000000 && W(BLOCK, 7) == 0x00000000
  {
  }

  lemma Front8()
    ensures W(BLOCK, 8) == 0x00000000 && W(BLOCK, 9) == 0x00000000 && W(BLOCK, 10) == 0x00000000 && W(BLOCK, 11) == 0x00000000
  {
  }

  lemma Front12()
    ensures W(BLOCK, 12) == 0x00000000 && W(BLOCK, 13) == 0x00000000 && W(BLOCK, 14) == 0x00000000 && W(BLOCK, 15) == 0x00000018
  {
  }

  lemma Schedule0()
    ensures W(BLOCK, 0) == 0x61626380 && W(BLOCK, 1) == 0x00000000 && W(BLOCK, 2) == 0x00000000 && W(BLOCK, 3) == 0x00000000
    ensures W(BLOCK, 4) == 0x00000000 && W(BLOCK, 5) == 0x00000000 && W(BLOCK, 6) == 0x00000000 && W(BLOCK, 7) == 0x00000000
    ensures W(BLOCK, 8) == 0x00000000 && W(BLOCK, 9) == 0x00000000 && W(BLOCK, 10) == 0x00000000 && W(BLOCK, 11) == 0x00000000
    ensures W(BLOCK, 12) == 0x00000000 && W(BLOCK, 13) == 0x00000000 && W(BLOCK, 14) == 0x00000000 && W(BLOCK, 15) == 0x00000018
  {
    hide W;
    Front0();
    Front4();
    Front8();
    Front12();
  }

  lemma Schedule16()
    ensures W(BLOCK, 16) == 0xC2C4C700 && W(BLOCK, 17) == 0x00000000 && W(BLOCK, 18) == 0x00000030 && W(BLOCK, 19) == 0x85898E01
    ensures W(BLOCK, 20) == 0x00000000 && W(BLOCK, 21) == 0x00000060 && W(BLOCK, 22) == 0x0B131C03 && W(BLOCK, 23) == 0x00000030
    ensures W(BLOCK, 24) == 0x85898EC1 && W(BLOCK, 25) == 0x16263806 && W(BLOCK, 26) == 0x00000000 && W(BLOCK, 27) == 0x00000180
    ensures W(BLOCK, 28) == 0x2C4C700C && W(BLOCK, 29) == 0x000000F0 && W(BLOCK, 30) == 0x93AFB507 && W(BLOCK, 31) == 0x5898E048
  {
    Schedule0();
    Word(16, 0x00000000, 0x00000000, 0x00000000, 0x61626380, 0xC2C4C700);
    Word(17, 0x00000000, 0x00000000, 0x00000000, 0x00000000, 0x00000000);
    Word(18, 0x00000018, 0x00000000, 0x00000000, 0x00000000, 0x00000030);
    Word(19, 0xC2C4C700, 0x00000000, 0x00000000, 0x00000000, 0x85898E01);
    Word(20, 0x00000000, 0x00000000, 0x00000000, 0x00000000, 0x00000000);
    Word(21, 0x00000030, 0x00000000, 0x00000000, 0x00000000, 0x00000060);
    Word(22, 0x85898E01, 0x00000000, 0x00000000, 0x00000000, 0x0B131C03);
    Word(23, 0x00000000, 0x00000018, 0x00000000, 0x00000000, 0x00000030);
    Word(24, 0x00000060, 0xC2C4C700, 0x00000000, 0x00000000, 0x85898EC1);
    Word(25, 0x0B131C03, 0x00000000, 0x00000000, 0x00000000, 0x16263806);
    Word(26, 0x00000030, 0x00000030, 0x00000000, 0x00000000, 0x00000000);
    Word(27, 0x85898EC1, 0x85898E01, 0x00000000, 0x00000000, 0x00000180);
    Word(28, 0x16263806, 0x00000000, 0x00000000, 0x00000000, 0x2C4C700C);
    Word(29, 0x00000000, 0x00000060, 0x00000018, 0x00000000, 0x000000F0);
    Word(30, 0x00000180, 0x0B131C03, 0xC2C4C700, 0x00000000, 0x93AFB507);
    Word(31, 0x2C4C700C, 0x00000030, 0x00000000, 0x00000018, 0x5898E048);
  }

  lemma Schedule32()
    ensures W(BLOCK, 32) == 0x8E9A9202 && W(BLOCK, 33) == 0x00000600 && W(BLOCK, 34) == 0xB131C0F0 && W(BLOCK, 35) == 0x16263BC6
    ensures W(BLOCK, 36) == 0x4EBED41E && W(BLOCK, 37) == 0x626380A1 && W(BLOCK, 38) == 0x16263806 && W(BLOCK, 39) == 0x000018C0
    ensures W(BLOCK, 40) == 0xD2E138C4 && W(BLOCK, 41) == 0x00000F00 && W(BLOCK, 42) == 0x3AFB5079 && W(BLOCK, 43) == 0x898E04E5
    ensures W(BLOCK, 44) == 0xE2BA3C2B && W(BLOCK, 45) == 0x000060C0 && W(BLOCK, 46) == 0x053A37CD && W(BLOCK, 47) == 0x74458547
  {
    Schedule16();
    Word(32, 0x000000F0, 0x85898EC1, 0x00000030, 0xC2C4C700, 0x8E9A9202);
    Word(33, 0x93AFB507, 0x16263806, 0x85898E01, 0x00000000, 0x00000600);
    Word(34, 0x5898E048, 0x00000000, 0x00000000, 0x00000030, 0xB131C0F0);
    Word(35, 0x8E9A9202, 0x00000180, 0x00000060, 0x85898E01, 0x16263BC6);
    Word(36, 0x00000600, 0x2C4C700C, 0x0B131C03, 0x00000000, 0x4EBED41E);
    Word(37, 0xB131C0F0, 0x000000F0, 0x00000030, 0x00000060, 0x626380A1);
    Word(38, 0x16263BC6, 0x93AFB507, 0x85898EC1, 0x0B131C03, 0x16263806);
    Word(39, 0x4EBED41E, 0x5898E048, 0x16263806, 0x00000030, 0x000018C0);
    Word(40, 0x626380A1, 0x8E9A9202, 0x00000000, 0x85898EC1, 0xD2E138C4);
    Word(41, 0x16263806, 0x00000600, 0x00000180, 0x16263806, 0x00000F00);
    Word(42, 0x000018C0, 0xB131C0F0, 0x2C4C700C, 0x00000000, 0x3AFB5079);
    Word(43, 0xD2E138C4, 0x16263BC6, 0x000000F0, 0x00000180, 0x898E04E5);
    Word(44, 0x00000F00, 0x4EBED41E, 0x93AFB507, 0x2C4C700C, 0xE2BA3C2B);
    Word(45, 0x3AFB5079, 0x626380A1, 0x5898E048, 0x000000F0, 0x000060C0);
    Word(46, 0x898E04E5, 0x16263806, 0x8E9A9202, 0x93AFB507, 0x053A37CD);
    Word(47, 0xE2BA3C2B, 0x000018C0, 0x00000600, 0x5898E048, 0x74458547);
  }

  lemma Schedule48()
    ensures W(BLOCK, 48) == 0xDA9415ED && W(BLOCK, 49) == 0x26380A16 && W(BLOCK, 50) == 0x626383A1 && W(BLOCK, 51) == 0x4EBF54DE
    ensures W(BLOCK, 52) == 0x3835B44B && W(BLOCK, 53) == 0x0000F600 && W(BLOCK, 54) == 0x1E84C7A3 && W(BLOCK, 55) == 0x98E04D98
    ensures W(BLOCK, 56) == 0x651D16A0 && W(BLOCK, 57) == 0x62658CA1 && W(BLOCK, 58) == 0x458544D6 && W(BLOCK, 59) == 0x44584CB7
    ensures W(BLOCK, 60) == 0x7BA06619 && W(BLOCK, 61) == 0x6380AEA2 && W(BLOCK, 62) == 0x0AE55269 && W(BLOCK, 63) == 0x627B49A1
  {
    Schedule32();
    Word(48, 0x000060C0, 0xD2E138C4, 0xB131C0F0, 0x8E9A9202, 0xDA9415ED);
    Word(49, 0x053A37CD, 0x00000F00, 0x16263BC6, 0x00000600, 0x26380A16);
    Word(50, 0x74458547, 0x3AFB5079, 0x4EBED41E, 0xB131C0F0, 0x626383A1);
    Word(51, 0xDA9415ED, 0x898E04E5, 0x626380A1, 0x16263BC6, 0x4EBF54DE);
    Word(52, 0x26380A16, 0xE2BA3C2B, 0x16263806, 0x4EBED41E, 0x3835B44B);
    Word(53, 0x626383A1, 0x000060C0, 0x000018C0, 0x626380A1, 0x0000F600);
    Word(54, 0x4EBF54DE, 0x053A37CD, 0xD2E138C4, 0x16263806, 0x1E84C7A3);
    Word(55, 0x3835B44B, 0x74458547, 0x00000F00, 0x000018C0, 0x98E04D98);
    Word(56, 0x0000F600, 0xDA9415ED, 0x3AFB5079, 0xD2E138C4, 0x651D16A0);
    Word(57, 0x1E84C7A3, 0x26380A16, 0x898E04E5, 0x00000F00, 0x62658CA1);
    Word(58, 0x98E04D98, 0x626383A1, 0xE2BA3C2B, 0x3AFB5079, 0x458544D6);
    Word(59, 0x651D16A0, 0x4EBF54DE, 0x000060C0, 0x898E04E5, 0x44584CB7);
    Word(60, 0x62658CA1, 0x3835B44B, 0x053A37CD, 0xE2BA3C2B, 0x7BA06619);
    Word(61, 0x458544D6, 0x0000F600, 0x74458547, 0x000060C0, 0x6380AEA2);
    Word(62, 0x44584CB7, 0x1E84C7A3, 0xDA9415ED, 0x053A37CD, 0x0AE55269);
    Word(63, 0x7BA06619, 0x98E04D98, 0x26380A16, 0x74458547, 0x627B49A1);
  }

  lemma Schedule64()
    ensures W(BLOCK, 64) == 0x7CD45C9D && W(BLOCK, 65) == 0x000F0000 && W(BLOCK, 66) == 0xFB50753A && W(BLOCK, 67) == 0xEC6765E8
    ensures W(BLOCK, 68) == 0xBA3C2BE2 && W(BLOCK, 69) == 0x0060C000 && W(BLOCK, 70) == 0x3A37CD05 && W(BLOCK, 71) == 0x458546F4
    ensures W(BLOCK, 72) == 0xB8599DD6 && W(BLOCK, 73) == 0x380A1A26 && W(BLOCK, 74) == 0x01E02203 && W(BLOCK, 75) == 0xE7CC3456
    ensures W(BLOCK, 76) == 0xE6E60B69 && W(BLOCK, 77) == 0x00F60A00 && W(BLOCK, 78) == 0x5795EF4F && W(BLOCK, 79) == 0x822E0879
  {
    Schedule48();
    Word(64, 0x6380AEA2, 0x651D16A0, 0x626383A1, 0xDA9415ED, 0x7CD45C9D);
    Word(65, 0x0AE55269, 0x62658CA1, 0x4EBF54DE, 0x26380A16, 0x000F0000);
    Word(66, 0x627B49A1, 0x458544D6, 0x3835B44B, 0x626383A1, 0xFB50753A);
    Word(67, 0x7CD45C9D, 0x44584CB7, 0x0000F600, 0x4EBF54DE, 0xEC6765E8);
    Word(68, 0x000F0000, 0x7BA06619, 0x1E84C7A3, 0x3835B44B, 0xBA3C2BE2);
    Word(69, 0xFB50753A, 0x6380AEA2, 0x98E04D98, 0x0000F600, 0x0060C000);
    Word(70, 0xEC6765E8, 0x0AE55269, 0x651D16A0, 0x1E84C7A3, 0x3A37CD05);
    Word(71, 0xBA3C2BE2, 0x627B49A1, 0x62658CA1, 0x98E04D98, 0x458546F4);
    Word(72, 0x0060C000, 0x7CD45C9D, 0x458544D6, 0x651D16A0, 0xB8599DD6);
    Word(73, 0x3A37CD05, 0x000F0000, 0x44584CB7, 0x62658CA1, 0x380A1A26);
    Word(74, 0x458546F4, 0xFB50753A, 0x7BA06619, 0x458544D6, 0x01E02203);
    Word(75, 0xB8599DD6, 0xEC6765E8, 0x6380AEA2, 0x44584CB7, 0xE7CC3456);
    Word(76, 0x380A1A26, 0xBA3C2BE2, 0x0AE55269, 0x7BA06619, 0xE6E60B69);
    Word(77, 0x01E02203, 0x0060C000, 0x627B49A1, 0x6380AEA2, 0x00F60A00);
    Word(78, 0xE7CC3456, 0x3A37CD05, 0x7CD45C9D, 0x0AE55269, 0x5795EF4F);
    Word(79, 0xE6E60B69, 0x458546F4, 0x000F0000, 0x627B49A1, 0x822E0879);
  }

  lemma Steps0()
    ensures Rounds(BLOCK, H0, 10) == Regs(0x8351F929, 0x4B6AE328, 0x27A301F5, 0x664F8C30, 0x0FF1F290)
  {
    Schedule0();
    Go(0, 0x67452301, 0xEFCDAB89, 0x98BADCFE, 0x10325476, 0xC3D2E1F0, 0x61626380, 0x0116FC33, 0x7BF36AE2);
    Go(1, 0x0116FC33, 0x67452301, 0x7BF36AE2, 0x98BADCFE, 0x10325476, 0x00000000, 0x8990536D, 0x59D148C0);
    Go(2, 0x8990536D, 0x0116FC33, 0x59D148C0, 0x7BF36AE2, 0x98BADCFE, 0x00000000, 0xA1390F08, 0xC045BF0C);
    Go(3, 0xA1390F08, 0x8990536D, 0xC045BF0C, 0x59D148C0, 0x7BF36AE2, 0x00000000, 0xCDD8E11B, 0x626414DB);
    Go(4, 0xCDD8E11B, 0xA1390F08, 0x626414DB, 0xC045BF0C, 0x59D148C0, 0x00000000, 0xCFD499DE, 0x284E43C2);
    Go(5, 0xCFD499DE, 0xCDD8E11B, 0x284E43C2, 0x626414DB, 0xC045BF0C, 0x00000000, 0x3FC7CA40, 0xF3763846);
    Go(6, 0x3FC7CA40, 0xCFD499DE, 0xF3763846, 0x284E43C2, 0x626414DB, 0x00000000, 0x993E30C1, 0xB3F52677);
    Go(7, 0x993E30C1, 0x3FC7CA40, 0xB3F52677, 0xF3763846, 0x284E43C2, 0x00000000, 0x9E8C07D4, 0x0FF1F290);
    Go(8, 0x9E8C07D4, 0x993E30C1, 0x0FF1F290, 0xB3F52677, 0xF3763846, 0x00000000, 0x4B6AE328, 0x664F8C30);
    Go(9, 0x4B6AE328, 0x9E8C07D4, 0x664F8C30, 0x0FF1F290, 0xB3F52677, 0x00000000, 0x8351F929, 0x27A301F5);
  }

  lemma Steps10()
    ensures Rounds(BLOCK, H0, 20) == Regs(0xFD9E1D7D, 0xDC64901D, 0x20AA99CA, 0xD3A49608, 0xC82F758B)
  {
    Steps0();
    Schedule0();
    Schedule16();
    Go(10, 0x8351F929, 0x4B6AE328, 0x27A301F5, 0x664F8C30, 0x0FF1F290, 0x00000000, 0xFBDA9E89, 0x12DAB8CA);
    Go(11, 0xFBDA9E89, 0x8351F929, 0x12DAB8CA, 0x27A301F5, 0x664F8C30, 0x00000000, 0x63188FE4, 0x60D47E4A);
    Go(12, 0x63188FE4, 0xFBDA9E89, 0x60D47E4A, 0x12DAB8CA, 0x27A301F5, 0x00000000, 0x4607B664, 0x7EF6A7A2);
    Go(13, 0x4607B664, 0x63188FE4, 0x7EF6A7A2, 0x60D47E4A, 0x12DAB8CA, 0x00000000, 0x9128F695, 0x18C623F9);
    Go(14, 0x9128F695, 0x4607B664, 0x18C623F9, 0x7EF6A7A2, 0x60D47E4A, 0x00000000, 0x196BEE77, 0x1181ED99);
    Go(15, 0x196BEE77, 0x9128F695, 0x1181ED99, 0x18C623F9, 0x7EF6A7A2, 0x00000018, 0x20BDD62F, 0x644A3DA5);
    Go(16, 0x20BDD62F, 0x196BEE77, 0x644A3DA5, 0x1181ED99, 0x18C623F9, 0xC2C4C700, 0x4E925823, 0xC65AFB9D);
    Go(17, 0x4E925823, 0x20BDD62F, 0xC65AFB9D, 0x644A3DA5, 0x1181ED99, 0x00000000, 0x82AA6728, 0xC82F758B);
    Go(18, 0x82AA6728, 0x4E925823, 0xC82F758B, 0xC65AFB9D, 0x644A3DA5, 0x00000030, 0xDC64901D, 0xD3A49608);
    Go(19, 0xDC64901D, 0x82AA6728, 0xD3A49608, 0xC82F758B, 0xC65AFB9D, 0x85898E01, 0xFD9E1D7D, 0x20AA99CA);
  }

  lemma Steps20()
    ensures Rounds(BLOCK, H0, 30) == Regs(0xC5FBAF5D, 0x8370B52E, 0xD2AA1365, 0x6F8D7EF5, 0x12104EE9)
  {
    Steps10();
    Schedule16();
    Go(20, 0xFD9E1D7D, 0xDC64901D, 0x20AA99CA, 0xD3A49608, 0xC82F758B, 0x00000000, 0x1A37B0CA, 0x77192407);
    Go(21, 0x1A37B0CA, 0xFD9E1D7D, 0x77192407, 0x20AA99CA, 0xD3A49608, 0x00000060, 0x33A23BFC, 0x7F67875F);
    Go(22, 0x33A23BFC, 0x1A37B0CA, 0x7F67875F, 0x77192407, 0x20AA99CA, 0x0B131C03, 0x21283486, 0x868DEC32);
    Go(23, 0x21283486, 0x33A23BFC, 0x868DEC32, 0x7F67875F, 0x77192407, 0x00000030, 0xD541F12D, 0x0CE88EFF);
    Go(24, 0xD541F12D, 0x21283486, 0x0CE88EFF, 0x868DEC32, 0x7F67875F, 0x85898EC1, 0xC7567DC6, 0x884A0D21);
    Go(25, 0xC7567DC6, 0xD541F12D, 0x884A0D21, 0x0CE88EFF, 0x868DEC32, 0x16263806, 0x48413BA4, 0x75507C4B);
    Go(26, 0x48413BA4, 0xC7567DC6, 0x75507C4B, 0x884A0D21, 0x0CE88EFF, 0x00000000, 0xBE35FBD5, 0xB1D59F71);
    Go(27, 0xBE35FBD5, 0x48413BA4, 0xB1D59F71, 0x75507C4B, 0x884A0D21, 0x00000180, 0x4AA84D97, 0x12104EE9);
    Go(28, 0x4AA84D97, 0xBE35FBD5, 0x12104EE9, 0xB1D59F71, 0x75507C4B, 0x2C4C700C, 0x8370B52E, 0x6F8D7EF5);
    Go(29, 0x8370B52E, 0x4AA84D97, 0x6F8D7EF5, 0x12104EE9, 0xB1D59F71, 0x000000F0, 0xC5FBAF5D, 0xD2AA1365);
  }

  lemma Steps30()
    ensures Rounds(BLOCK, H0, 40) == Regs(0x32DE1CBA, 0x4C986405, 0xF718E5CF, 0x03D447F6, 0xF72EEC32)
  {
    Steps20();
    Schedule16();
    Schedule32();
    Go(30, 0xC5FBAF5D, 0x8370B52E, 0xD2AA1365, 0x6F8D7EF5, 0x12104EE9, 0x93AFB507, 0x1267B407, 0xA0DC2D4B);
    Go(31, 0x1267B407, 0xC5FBAF5D, 0xA0DC2D4B, 0xD2AA1365, 0x6F8D7EF5, 0x5898E048, 0x3B845D33, 0x717EEBD7);
    Go(32, 0x3B845D33, 0x1267B407, 0x717EEBD7, 0xA0DC2D4B, 0xD2AA1365, 0x8E9A9202, 0x046FAA0A, 0xC499ED01);
    Go(33, 0x046FAA0A, 0x3B845D33, 0xC499ED01, 0x717EEBD7, 0xA0DC2D4B, 0x00000600, 0x2C0EBC11, 0xCEE1174C);
    Go(34, 0x2C0EBC11, 0x046FAA0A, 0xCEE1174C, 0xC499ED01, 0x717EEBD7, 0xB131C0F0, 0x21796AD4, 0x811BEA82);
    Go(35, 0x21796AD4, 0x2C0EBC11, 0x811BEA82, 0xCEE1174C, 0xC499ED01, 0x16263BC6, 0xDCBBB0CB, 0x4B03AF04);
    Go(36, 0xDCBBB0CB, 0x21796AD4, 0x4B03AF04, 0x811BEA82, 0xCEE1174C, 0x4EBED41E, 0x0F511FD8, 0x085E5AB5);
    Go(37, 0x0F511FD8, 0xDCBBB0CB, 0x085E5AB5, 0x4B03AF04, 0x811BEA82, 0x626380A1, 0xDC63973F, 0xF72EEC32);
    Go(38, 0xDC63973F, 0x0F511FD8, 0xF72EEC32, 0x085E5AB5, 0x4B03AF04, 0x16263806, 0x4C986405, 0x03D447F6);
    Go(39, 0x4C986405, 0xDC63973F, 0x03D447F6, 0xF72EEC32, 0x085E5AB5, 0x000018C0, 0x32DE1CBA, 0xF718E5CF);
  }

  lemma Steps40()
    ensures Rounds(BLOCK, H0, 50) == Regs(0x120731C5, 0xBAF39337, 0xAFAB40B2, 0x2806E11B, 0x8714787C)
  {
    Steps30();
    Schedule32();
    Schedule48();
    Go(40, 0x32DE1CBA, 0x4C986405, 0xF718E5CF, 0x03D447F6, 0xF72EEC32, 0xD2E138C4, 0xFC87DEDF, 0x53261901);
    Go(41, 0xFC87DEDF, 0x32DE1CBA, 0x53261901, 0xF718E5CF, 0x03D447F6, 0x00000F00, 0x970A0D5C, 0x8CB7872E);
    Go(42, 0x970A0D5C, 0xFC87DEDF, 0x8CB7872E, 0x53261901, 0xF718E5CF, 0x3AFB5079, 0x7F193DC5, 0xFF21F7B7);
    Go(43, 0x7F193DC5, 0x970A0D5C, 0xFF21F7B7, 0x8CB7872E, 0x53261901, 0x898E04E5, 0xEE1B1AAF, 0x25C28357);
    Go(44, 0xEE1B1AAF, 0x7F193DC5, 0x25C28357, 0xFF21F7B7, 0x8CB7872E, 0xE2BA3C2B, 0x40F28E09, 0x5FC64F71);
    Go(45, 0x40F28E09, 0xEE1B1AAF, 0x5FC64F71, 0x25C28357, 0xFF21F7B7, 0x000060C0, 0x1C51E1F2, 0xFB86C6AB);
    Go(46, 0x1C51E1F2, 0x40F28E09, 0xFB86C6AB, 0x5FC64F71, 0x25C28357, 0x053A37CD, 0xA01B846C, 0x503CA382);
    Go(47, 0xA01B846C, 0x1C51E1F2, 0x503CA382, 0xFB86C6AB, 0x5FC64F71, 0x74458547, 0xBEAD02CA, 0x8714787C);
    Go(48, 0xBEAD02CA, 0xA01B846C, 0x8714787C, 0x503CA382, 0xFB86C6AB, 0xDA9415ED, 0xBAF39337, 0x2806E11B);
    Go(49, 0xBAF39337, 0xBEAD02CA, 0x2806E11B, 0x8714787C, 0x503CA382, 0x26380A16, 0x120731C5, 0xAFAB40B2);
  }

  lemma Steps50()
    ensures Rounds(BLOCK, H0, 60) == Regs(0x3F52DE5A, 0x09D785FD, 0x3498BFD4, 0xF211824F, 0xD79915AB)
  {
    Steps40();
    Schedule48();
    Go(50, 0x120731C5, 0xBAF39337, 0xAFAB40B2, 0x2806E11B, 0x8714787C, 0x626383A1, 0x641DB2CE, 0xEEBCE4CD);
    Go(51, 0x641DB2CE, 0x120731C5, 0xEEBCE4CD, 0xAFAB40B2, 0x2806E11B, 0x4EBF54DE, 0x3847AD66, 0x4481CC71);
    Go(52, 0x3847AD66, 0x641DB2CE, 0x4481CC71, 0xEEBCE4CD, 0xAFAB40B2, 0x3835B44B, 0xE490436D, 0x99076CB3);
    Go(53, 0xE490436D, 0x3847AD66, 0x99076CB3, 0x4481CC71, 0xEEBCE4CD, 0x0000F600, 0x27E9F1D8, 0x8E11EB59);
    Go(54, 0x27E9F1D8, 0xE490436D, 0x8E11EB59, 0x99076CB3, 0x4481CC71, 0x1E84C7A3, 0x7B71F76D, 0x792410DB);
    Go(55, 0x7B71F76D, 0x27E9F1D8, 0x792410DB, 0x8E11EB59, 0x99076CB3, 0x98E04D98, 0x5E6456AF, 0x09FA7C76);
    Go(56, 0x5E6456AF, 0x7B71F76D, 0x09FA7C76, 0x792410DB, 0x8E11EB59, 0x651D16A0, 0xC846093F, 0x5EDC7DDB);
    Go(57, 0xC846093F, 0x5E6456AF, 0x5EDC7DDB, 0x09FA7C76, 0x792410DB, 0x62658CA1, 0xD262FF50, 0xD79915AB);
    Go(58, 0xD262FF50, 0xC846093F, 0xD79915AB, 0x5EDC7DDB, 0x09FA7C76, 0x458544D6, 0x09D785FD, 0xF211824F);
    Go(59, 0x09D785FD, 0xD262FF50, 0xF211824F, 0xD79915AB, 0x5EDC7DDB, 0x44584CB7, 0x3F52DE5A, 0x3498BFD4);
  }

  lemma Steps60()
    ensures Rounds(BLOCK, H0, 70) == Regs(0x3F2588C2, 0x497093C0, 0xDE37534A, 0x030F7CAD, 0x4405957E)
  {
    Steps50();
    Schedule48();
    Schedule64();
    Go(60, 0x3F52DE5A, 0x09D785FD, 0x3498BFD4, 0xF211824F, 0xD79915AB, 0x7BA06619, 0xD756C147, 0x4275E17F);
    Go(61, 0xD756C147, 0x3F52DE5A, 0x4275E17F, 0x3498BFD4, 0xF211824F, 0x6380AEA2, 0x548C9CB2, 0x8FD4B796);
    Go(62, 0x548C9CB2, 0xD756C147, 0x8FD4B796, 0x4275E17F, 0x3498BFD4, 0x0AE55269, 0xB66C020B, 0xF5D5B051);
    Go(63, 0xB66C020B, 0x548C9CB2, 0xF5D5B051, 0x8FD4B796, 0x4275E17F, 0x627B49A1, 0x6B61C9E1, 0x9523272C);
    Go(64, 0x6B61C9E1, 0xB66C020B, 0x9523272C, 0xF5D5B051, 0x8FD4B796, 0x7CD45C9D, 0x19DFA7AC, 0xED9B0082);
    Go(65, 0x19DFA7AC, 0x6B61C9E1, 0xED9B0082, 0x9523272C, 0xF5D5B051, 0x000F0000, 0x101655F9, 0x5AD87278);
    Go(66, 0x101655F9, 0x19DFA7AC, 0x5AD87278, 0xED9B0082, 0x9523272C, 0xFB50753A, 0x0C3DF2B4, 0x0677E9EB);
    Go(67, 0x0C3DF2B4, 0x101655F9, 0x0677E9EB, 0x5AD87278, 0xED9B0082, 0xEC6765E8, 0x78DD4D2B, 0x4405957E);
    Go(68, 0x78DD4D2B, 0x0C3DF2B4, 0x4405957E, 0x0677E9EB, 0x5AD87278, 0xBA3C2BE2, 0x497093C0, 0x030F7CAD);
    Go(69, 0x497093C0, 0x78DD4D2B, 0x030F7CAD, 0x4405957E, 0x0677E9EB, 0x0060C000, 0x3F2588C2, 0xDE37534A);
  }

  lemma Steps70()
    ensures Rounds(BLOCK, H0, 80) == Regs(0x42541B35, 0x5738D5E1, 0x21834873, 0x681E6DF6, 0xD8FDF6AD)
  {
    Steps60();
    Schedule64();
    Go(70, 0x3F2588C2, 0x497093C0, 0xDE37534A, 0x030F7CAD, 0x4405957E, 0x3A37CD05, 0xC199F8C7, 0x125C24F0);
    Go(71, 0xC199F8C7, 0x3F2588C2, 0x125C24F0, 0xDE37534A, 0x030F7CAD, 0x458546F4, 0x39859DE7, 0x8FC96230);
    Go(72, 0x39859DE7, 0xC199F8C7, 0x8FC96230, 0x125C24F0, 0xDE37534A, 0xB8599DD6, 0xEDB42DE4, 0xF0667E31);
    Go(73, 0xEDB42DE4, 0x39859DE7, 0xF0667E31, 0x8FC96230, 0x125C24F0, 0x380A1A26, 0x11793F6F, 0xCE616779);
    Go(74, 0x11793F6F, 0xEDB42DE4, 0xCE616779, 0xF0667E31, 0x8FC96230, 0x01E02203, 0x5EE76897, 0x3B6D0B79);
    Go(75, 0x5EE76897, 0x11793F6F, 0x3B6D0B79, 0xCE616779, 0xF0667E31, 0xE7CC3456, 0x63F7DAB7, 0xC45E4FDB);
    Go(76, 0x63F7DAB7, 0x5EE76897, 0xC45E4FDB, 0x3B6D0B79, 0xCE616779, 0xE6E60B69, 0xA079B7D9, 0xD7B9DA25);
    Go(77, 0xA079B7D9, 0x63F7DAB7, 0xD7B9DA25, 0xC45E4FDB, 0x3B6D0B79, 0x00F60A00, 0x860D21CC, 0xD8FDF6AD);
    Go(78, 0x860D21CC, 0xA079B7D9, 0xD8FDF6AD, 0xD7B9DA25, 0xC45E4FDB, 0x5795EF4F, 0x5738D5E1, 0x681E6DF6);
    Go(79, 0x5738D5E1, 0x860D21CC, 0x681E6DF6, 0xD8FDF6AD, 0xD7B9DA25, 0x822E0879, 0x42541B35, 0x21834873);
  }

  lemma AbcBlock()
    ensures |Pad(ABC)| == 64 && Parse(Pad(ABC)) == BLOCK
  {
    PadAbc();
    var p := Pad(ABC);
    var zeros := Zeros(52);
    forall i | 0 <= i < 16 ensures BigEndian(p, 4 * i) == BLOCK[i] {
      assert 1 <= i < 15 ==> p[4 * i] == 0 && p[4 * i + 1] == 0 && p[4 * i + 2] == 0 && p[4 * i + 3] == 0;
    }
  }

  /** 0x80, zeros and the length in bits. */
  lemma PadAbc()
    ensures var p := Pad(ABC);
      && |p| == 64 && p[..4] == [0x61, 0x62, 0x63, 0x80] && p[63] == 24
      && forall i :: 4 <= i < 63 ==> p[i] == 0
  {
    var f := LengthField(24);
    assert NumberByte(24, 0) == 24;
    assert Pad(ABC) == ABC + [0x80] + Zeros(52) + f;
    forall i | 0 <= i < 7 ensures f[i] == 0 { SmallNumber(7 - i); }
  }

  lemma {:induction false} SmallNumber(i: nat)
    requires i > 0
    ensures NumberByte(24, i) == 0
  {
    ZeroNumber(i - 1);
  }

  lemma {:induction false} ZeroNumber(i: nat)
    ensures NumberByte(0, i) == 0
  {
    if i > 0 { ZeroNumber(i - 1); }
  }

  /** The published digest. */
  lemma {:induction false} DigestOfAbc()
    ensures Sha1(ABC) == DIGEST
  {
    AbcBlock();
    Steps70();
    OneBlock(Pad(ABC));
    AbcBytes();
  }

  lemma OneBlock(p: seq<Byte>)
    requires |p| == 64
    ensures Hash(p) == AddRegs(H0, Rounds(Parse(p), H0, 80))
  {
    hide Rounds, Parse, AddRegs;
    assert p[..0] == [] && p[0..] == p;
    assert Hash(p[..0]) == H0;
  }

  lemma AbcBytes()
    ensures Digest(AddRegs(H0, Regs(0x42541B35, 0x5738D5E1, 0x21834873, 0x681E6DF6, 0xD8FDF6AD))) == DIGEST
  {
    assert AddRegs(H0, Regs(0x42541B35, 0x5738D5E1, 0x21834873, 0x681E6DF6, 0xD8FDF6AD)) == Regs(0xA9993E36, 0x4706816A, 0xBA3E2571, 0x7850C26C, 0x9CD0D89D);
    assert WordBytes(0xA9993E36) == DIGEST[..4] && WordBytes(0x4706816A) == DIGEST[4..8] && WordBytes(0xBA3E2571) == DIGEST[8..12];
    assert WordBytes(0x7850C26C) == DIGEST[12..16] && WordBytes(0x9CD0D89D) == DIGEST[16..];
  }

  /** The three rotations. */
  lemma Rotations(x: Word)
    ensures Rotl1(x) == x.RotateLeft(1) && Rotl5(x) == x.RotateLeft(5) && Rotl30(x) == x.RotateLeft(30)
  {
  }

  // ------------------------------------------------------------------
  // The length field
  // ------------------------------------------------------------------

  function Power256(k: nat): (p: nat)
    ensures p > 0
  {
    if k == 0 then 1 else 0x100 * Power256(k - 1)
  }

  /** Dividing by 256 and then by p is dividing by 256 * p. */
  lemma DivideTwice(n: nat, p: nat)
    requires p > 0
    ensures n / 0x100 / p == n / (0x100 * p)
  {
    var q, rest := n / 0x100 / p, n / 0x100 % p;
    assert n / 0x100 == p * q + rest;
    var low := 0x100 * rest + n % 0x100;
    assert n == (0x100 * p) * q + low && low < 0x100 * p;
    Quotient(n, 0x100 * p, q, low);
  }

  lemma NotBelow(p: nat, q: nat, rest: nat, x: nat, y: nat)
    requires p * x + y == p * q + rest && rest < p
    ensures x <= q
  {
    assert p * (q + 1) == p * q + p;
    assert x >= q + 1 ==> p * x >= p * (q + 1);
  }

  lemma Quotient(n: nat, p: nat, q: nat, rest: nat)
    requires n == p * q + rest && rest < p
    ensures n / p == q
  {
    var x, y := n / p, n % p;
    NotBelow(p, q, rest, x, y);
    NotBelow(p, x, y, q, rest);
  }

  lemma {:induction false} NumberByteIs(n: nat, i: nat)
    ensures NumberByte(n, i) == (n / Power256(i) % 0x100) as Byte
  {
    if i > 0 {
      NumberByteIs(n / 0x100, i - 1);
      DivideTwice(n, Power256(i - 1));
    }
  }

  /** Section 5.1.1: the field holds the number of bits, high byte first. */
  lemma {:induction false} LengthFieldIsNumber(bits: nat, i: nat)
    requires i < 8
    ensures LengthField(bits)[i] == (bits / Power256(7 - i) % 0x100) as Byte
  {
    NumberByteIs(bits, 7 - i);
  }
}
