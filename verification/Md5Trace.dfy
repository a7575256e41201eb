/**
 The 64 steps on the block of the message "abc". A line holds the round, the step, the four registers, the
 function of the round, the upper and the lower bits of the sum that is rotated, and the new register.
 */
module Md5Trace {
  import opened Md5Block
  import opened Md5Bytes
  import opened Md5Rounds
  import opened Md5Turns

  lemma Steps0(x: seq<Word>)
    requires AbcBlock(x)
    ensures TwoTurns(x, 0, 0, 0x67452301, 0xefcdab89, 0x98badcfe, 0x10325476, 0xd6d117b4, 0x344a8432)
  {
    Turn(x, 0, 0, 0x67452301, 0xefcdab89, 0x98badcfe, 0x10325476, 0x98badcfe, 0x2b, 0x1ce06d8, 0xd6d117b4);
    Turn(x, 0, 1, 0x10325476, 0xd6d117b4, 0xefcdab89, 0x98badcfe, 0xceebcbca, 0xc7e, 0x5d796, 0x344a8432);
  }

  lemma Steps2(x: seq<Word>)
    requires AbcBlock(x)
    ensures TwoTurns(x, 0, 2, 0x98badcfe, 0x344a8432, 0xd6d117b4, 0xefcdab89, 0x2f6fbd72, 0x7ad956f2)
  {
    Turn(x, 0, 2, 0x98badcfe, 0x344a8432, 0xd6d117b4, 0xefcdab89, 0xdfc52fb9, 0x13940, 0x7d92, 0x2f6fbd72);
    Turn(x, 0, 3, 0xefcdab89, 0x2f6fbd72, 0x344a8432, 0xd6d117b4, 0xf4da86b6, 0x299980, 0x12d, 0x7ad956f2);
  }

  lemma Steps4(x: seq<Word>)
    requires AbcBlock(x)
    ensures TwoTurns(x, 0, 4, 0xd6d117b4, 0x7ad956f2, 0x2f6fbd72, 0x344a8432, 0xc73741ef, 0x8bac3051)
  {
    Turn(x, 0, 4, 0xd6d117b4, 0x7ad956f2, 0x2f6fbd72, 0x344a8432, 0x2e4b9472, 0x7d, 0x98bbd5, 0xc73741ef);
    Turn(x, 0, 5, 0x344a8432, 0xc73741ef, 0x7ad956f2, 0x2f6fbd72, 0x6a59fcf2, 0xe62, 0xc474e, 0x8bac3051);
  }

  lemma Steps6(x: seq<Word>)
    requires AbcBlock(x)
    ensures TwoTurns(x, 0, 6, 0x2f6fbd72, 0x8bac3051, 0xc73741ef, 0x7ad956f2, 0x207dc67b, 0x928d99f6)
  {
    Turn(x, 0, 6, 0x2f6fbd72, 0x8bac3051, 0xc73741ef, 0x7ad956f2, 0xf37546e3, 0x1962a, 0x4a68, 0x207dc67b);
    Turn(x, 0, 7, 0x7ad956f2, 0x207dc67b, 0x8bac3051, 0xc73741ef, 0xc72e01d5, 0xfd37b, 0x1c8, 0x928d99f6);
  }

  lemma EightSteps0(x: seq<Word>)
    requires AbcBlock(x)
    ensures Goes(RFC, x, 0, 0, 8, Regs(Number, 0x67452301, 0xefcdab89, 0x98badcfe, 0x10325476),
                 Regs(Number, 0xc73741ef, 0x928d99f6, 0x207dc67b, 0x8bac3051))
  {
    Steps0(x);
    Steps2(x);
    Steps4(x);
    Steps6(x);
    EightTurns(Whole, Number, x, 0, 0, 2, 4, 6, 0x67452301, 0xefcdab89, 0x98badcfe, 0x10325476,
               0xd6d117b4, 0x7ad956f2, 0x2f6fbd72, 0x344a8432, 0xc73741ef, 0x928d99f6, 0x207dc67b, 0x8bac3051);
  }

  lemma Steps8(x: seq<Word>)
    requires AbcBlock(x)
    ensures TwoTurns(x, 0, 8, 0xc73741ef, 0x928d99f6, 0x207dc67b, 0x8bac3051, 0x854b3712, 0x74e2f284)
  {
    Turn(x, 0, 8, 0xc73741ef, 0x928d99f6, 0x207dc67b, 0x8bac3051, 0x092da073, 0x1c, 0x1e57b3a, 0x854b3712);
    Turn(x, 0, 9, 0x8bac3051, 0x854b3712, 0x928d99f6, 0x207dc67b, 0xa03dd17b, 0xb72, 0xef97b, 0x74e2f284);
  }

  lemma Steps10(x: seq<Word>)
    requires AbcBlock(x)
    ensures TwoTurns(x, 0, 10, 0x207dc67b, 0x74e2f284, 0x854b3712, 0x928d99f6, 0x3020401c, 0x5ed49596)
  {
    Turn(x, 0, 10, 0x207dc67b, 0x74e2f284, 0x854b3712, 0x928d99f6, 0x864f3b72, 0x14d98, 0x5d9e, 0x3020401c);
    Turn(x, 0, 11, 0x928d99f6, 0x3020401c, 0x74e2f284, 0x854b3712, 0xb56b7706, 0x34557a, 0xba, 0x5ed49596);
  }

  lemma Steps12(x: seq<Word>)
    requires AbcBlock(x)
    ensures TwoTurns(x, 0, 12, 0x854b3712, 0x5ed49596, 0x3020401c, 0x74e2f284, 0xdda9b9a6, 0xa1051895)
  {
    Turn(x, 0, 12, 0x854b3712, 0x5ed49596, 0x3020401c, 0x74e2f284, 0x30226214, 0x10, 0xfdaa48, 0xdda9b9a6);
    Turn(x, 0, 13, 0x74e2f284, 0xdda9b9a6, 0x5ed49596, 0x3020401c, 0x7c80d19e, 0xeef, 0xc35b5, 0xa1051895);
  }

  lemma Steps14(x: seq<Word>)
    requires AbcBlock(x)
    ensures TwoTurns(x, 0, 14, 0x3020401c, 0xa1051895, 0xdda9b9a6, 0x5ed49596, 0xe396856b, 0x72aff2e0)
  {
    Turn(x, 0, 14, 0x3020401c, 0xa1051895, 0xdda9b9a6, 0x5ed49596, 0xdfd19d86, 0x16cd6, 0x2148, 0xe396856b);
    Turn(x, 0, 15, 0x5ed49596, 0xe396856b, 0xa1051895, 0xdda9b9a6, 0xbd2d3885, 0x196d75, 0x23c, 0x72aff2e0);
  }

  lemma EightSteps8(x: seq<Word>)
    requires AbcBlock(x)
    ensures Goes(RFC, x, 0, 8, 8, Regs(Number, 0xc73741ef, 0x928d99f6, 0x207dc67b, 0x8bac3051),
                 Regs(Number, 0xdda9b9a6, 0x72aff2e0, 0xe396856b, 0xa1051895))
  {
    Steps8(x);
    Steps10(x);
    Steps12(x);
    Steps14(x);
    EightTurns(Whole, Number, x, 0, 8, 10, 12, 14, 0xc73741ef, 0x928d99f6, 0x207dc67b, 0x8bac3051,
               0x854b3712, 0x5ed49596, 0x3020401c, 0x74e2f284, 0xdda9b9a6, 0x72aff2e0, 0xe396856b, 0xa1051895);
  }

  lemma Steps16(x: seq<Word>)
    requires AbcBlock(x)
    ensures TwoTurns(x, 1, 0, 0xdda9b9a6, 0x72aff2e0, 0xe396856b, 0xa1051895, 0x3e9e9126, 0x4a1d804e)
  {
    Turn(x, 1, 0, 0xdda9b9a6, 0x72aff2e0, 0xe396856b, 0xa1051895, 0x629795ea, 0x6, 0x65f74f2, 0x3e9e9126);
    Turn(x, 1, 1, 0xa1051895, 0x3e9e9126, 0x72aff2e0, 0xe396856b, 0x32bff3a2, 0x128, 0x5bf77, 0x4a1d804e);
  }

  lemma Steps18(x: seq<Word>)
    requires AbcBlock(x)
    ensures TwoTurns(x, 1, 2, 0xe396856b, 0x4a1d804e, 0x3e9e9126, 0x72aff2e0, 0xe25e1652, 0xb5b204e4)
  {
    Turn(x, 1, 2, 0xe396856b, 0x4a1d804e, 0x3e9e9126, 0x72aff2e0, 0x4e1d8146, 0x1604, 0x26102, 0xe25e1652);
    Turn(x, 1, 3, 0x72aff2e0, 0xe25e1652, 0x4a1d804e, 0x3e9e9126, 0x621f104a, 0x3ee92, 0xd35, 0xb5b204e4);
  }

  lemma Steps20(x: seq<Word>)
    requires AbcBlock(x)
    ensures TwoTurns(x, 1, 4, 0x3e9e9126, 0xb5b204e4, 0xe25e1652, 0x4a1d804e, 0x59a8ffda, 0x6d002f1e)
  {
    Turn(x, 1, 4, 0x3e9e9126, 0xb5b204e4, 0xe25e1652, 0x4a1d804e, 0xa0521654, 0x16, 0x51fb7d7, 0x59a8ffda);
    Turn(x, 1, 5, 0x4a1d804e, 0x59a8ffda, 0xb5b204e4, 0xe25e1652, 0x55a816f6, 0x144, 0x9ab97, 0x6d002f1e);
  }

  lemma Steps22(x: seq<Word>)
    requires AbcBlock(x)
    ensures TwoTurns(x, 1, 6, 0xe25e1652, 0x6d002f1e, 0x59a8ffda, 0xb5b204e4, 0xabfc7920, 0x47092c07)
  {
    Turn(x, 1, 6, 0xe25e1652, 0x6d002f1e, 0x59a8ffda, 0xb5b204e4, 0x6d08ff1e, 0xa02, 0xfbf1, 0xabfc7920);
    Turn(x, 1, 7, 0xb5b204e4, 0xabfc7920, 0x6d002f1e, 0x59a8ffda, 0x2da87904, 0xcb2e7, 0x9b0, 0x47092c07);
  }

  lemma EightSteps16(x: seq<Word>)
    requires AbcBlock(x)
    ensures Goes(RFC, x, 1, 0, 8, Regs(Number, 0xdda9b9a6, 0x72aff2e0, 0xe396856b, 0xa1051895),
                 Regs(Number, 0x59a8ffda, 0x47092c07, 0xabfc7920, 0x6d002f1e))
  {
    Steps16(x);
    Steps18(x);
    Steps20(x);
    Steps22(x);
    EightTurns(Whole, Number, x, 1, 0, 2, 4, 6, 0xdda9b9a6, 0x72aff2e0, 0xe396856b, 0xa1051895,
               0x3e9e9126, 0xb5b204e4, 0xe25e1652, 0x4a1d804e, 0x59a8ffda, 0x47092c07, 0xabfc7920, 0x6d002f1e);
  }

  lemma Steps24(x: seq<Word>)
    requires AbcBlock(x)
    ensures TwoTurns(x, 1, 8, 0x59a8ffda, 0x47092c07, 0xabfc7920, 0x6d002f1e, 0xb7f268cf, 0x09388eff)
  {
    Turn(x, 1, 8, 0x59a8ffda, 0x47092c07, 0xabfc7920, 0x6d002f1e, 0xc7fc7c26, 0x8, 0x38749e6, 0xb7f268cf);
    Turn(x, 1, 9, 0x6d002f1e, 0xb7f268cf, 0x47092c07, 0xabfc7920, 0xe7f16c07, 0x30, 0x28a313, 0x09388eff);
  }

  lemma Steps26(x: seq<Word>)
    requires AbcBlock(x)
    ensures TwoTurns(x, 1, 10, 0xabfc7920, 0x09388eff, 0xb7f268cf, 0x47092c07, 0xfe1623b1, 0x786acb8f)
  {
    Turn(x, 1, 10, 0xabfc7920, 0x09388eff, 0xb7f268cf, 0x47092c07, 0xb1fa4ccf, 0x14b2, 0x3d376, 0xfe1623b1);
    Turn(x, 1, 11, 0x47092c07, 0xfe1623b1, 0x09388eff, 0xb7f268cf, 0xbe1aa6b1, 0x4a7de, 0x7a5, 0x786acb8f);
  }

  lemma Steps28(x: seq<Word>)
    requires AbcBlock(x)
    ensures TwoTurns(x, 1, 12, 0xb7f268cf, 0x786acb8f, 0xfe1623b1, 0x09388eff, 0x790a77fb, 0x9f47e4f8)
  {
    Turn(x, 1, 12, 0xb7f268cf, 0x786acb8f, 0xfe1623b1, 0x09388eff, 0xfe2eab8f, 0xc, 0x4fd63, 0x790a77fb);
    Turn(x, 1, 13, 0x09388eff, 0x790a77fb, 0x786acb8f, 0xfe1623b1, 0x786aebbf, 0xfd, 0x131eb6, 0x9f47e4f8);
  }

  lemma Steps30(x: seq<Word>)
    requires AbcBlock(x)
    ensures TwoTurns(x, 1, 14, 0xfe1623b1, 0x9f47e4f8, 0x790a77fb, 0x786acb8f, 0xa62884aa, 0x726342d3)
  {
    Turn(x, 1, 14, 0xfe1623b1, 0x9f47e4f8, 0x790a77fb, 0x786acb8f, 0x1942f4f8, 0x1fb2, 0x1b82, 0xa62884aa);
    Turn(x, 1, 15, 0x786acb8f, 0xa62884aa, 0x9f47e4f8, 0x790a77fb, 0xa64d84aa, 0xabe29, 0xcc3, 0x726342d3);
  }

  lemma EightSteps24(x: seq<Word>)
    requires AbcBlock(x)
    ensures Goes(RFC, x, 1, 8, 8, Regs(Number, 0x59a8ffda, 0x47092c07, 0xabfc7920, 0x6d002f1e),
                 Regs(Number, 0x790a77fb, 0x726342d3, 0xa62884aa, 0x9f47e4f8))
  {
    Steps24(x);
    Steps26(x);
    Steps28(x);
    Steps30(x);
    EightTurns(Whole, Number, x, 1, 8, 10, 12, 14, 0x59a8ffda, 0x47092c07, 0xabfc7920, 0x6d002f1e,
               0xb7f268cf, 0x786acb8f, 0xfe1623b1, 0x09388eff, 0x790a77fb, 0x726342d3, 0xa62884aa, 0x9f47e4f8);
  }

  lemma Steps32(x: seq<Word>)
    requires AbcBlock(x)
    ensures TwoTurns(x, 2, 0, 0x790a77fb, 0x726342d3, 0xa62884aa, 0x9f47e4f8, 0xb3707ebf, 0x60127b2e)
  {
    Turn(x, 2, 0, 0x790a77fb, 0x726342d3, 0xa62884aa, 0x9f47e4f8, 0x4b0c2281, 0xc, 0x410d3be, 0xb3707ebf);
    Turn(x, 2, 1, 0x9f47e4f8, 0xb3707ebf, 0x726342d3, 0xa62884aa, 0x673bb8c6, 0x46f, 0x15943f, 0x60127b2e);
  }

  lemma Steps34(x: seq<Word>)
    requires AbcBlock(x)
    ensures TwoTurns(x, 2, 2, 0xa62884aa, 0x60127b2e, 0xb3707ebf, 0x726342d3, 0x8d212ff5, 0x3b0875c7)
  {
    Turn(x, 2, 2, 0xa62884aa, 0x60127b2e, 0xb3707ebf, 0x726342d3, 0xa1014742, 0xb4c7, 0x2d0e, 0x8d212ff5);
    Turn(x, 2, 3, 0x726342d3, 0x8d212ff5, 0x60127b2e, 0xb3707ebf, 0x5e432a64, 0x6745d2, 0x15b, 0x3b0875c7);
  }

  lemma Steps36(x: seq<Word>)
    requires AbcBlock(x)
    ensures TwoTurns(x, 2, 4, 0xb3707ebf, 0x3b0875c7, 0x8d212ff5, 0x60127b2e, 0x21b117b9, 0x6e7429d5)
  {
    Turn(x, 2, 4, 0xb3707ebf, 0x3b0875c7, 0x8d212ff5, 0x60127b2e, 0xd63b211c, 0x2, 0xe6a8a1f, 0x21b117b9);
    Turn(x, 2, 5, 0x60127b2e, 0x21b117b9, 0x3b0875c7, 0x8d212ff5, 0x97984d8b, 0x21c, 0x99862, 0x6e7429d5);
  }

  lemma Steps38(x: seq<Word>)
    requires AbcBlock(x)
    ensures TwoTurns(x, 2, 6, 0x8d212ff5, 0x6e7429d5, 0x21b117b9, 0x3b0875c7, 0x3575227e, 0x5a2f5ea5)
  {
    Turn(x, 2, 6, 0x8d212ff5, 0x6e7429d5, 0x21b117b9, 0x3b0875c7, 0x74cd4bab, 0xf8a9, 0xc700, 0x3575227e);
    Turn(x, 2, 7, 0x3b0875c7, 0x3575227e, 0x6e7429d5, 0x21b117b9, 0x7ab01c12, 0x3a3c27, 0x49, 0x5a2f5ea5);
  }

  lemma EightSteps32(x: seq<Word>)
    requires AbcBlock(x)
    ensures Goes(RFC, x, 2, 0, 8, Regs(Number, 0x790a77fb, 0x726342d3, 0xa62884aa, 0x9f47e4f8),
                 Regs(Number, 0x21b117b9, 0x5a2f5ea5, 0x3575227e, 0x6e7429d5))
  {
    Steps32(x);
    Steps34(x);
    Steps36(x);
    Steps38(x);
    EightTurns(Whole, Number, x, 2, 0, 2, 4, 6, 0x790a77fb, 0x726342d3, 0xa62884aa, 0x9f47e4f8,
               0xb3707ebf, 0x3b0875c7, 0x8d212ff5, 0x60127b2e, 0x21b117b9, 0x5a2f5ea5, 0x3575227e, 0x6e7429d5);
  }

  lemma Steps40(x: seq<Word>)
    requires AbcBlock(x)
    ensures TwoTurns(x, 2, 8, 0x21b117b9, 0x5a2f5ea5, 0x3575227e, 0x6e7429d5, 0x11de1779, 0xfadcaa38)
  {
    Turn(x, 2, 8, 0x21b117b9, 0x5a2f5ea5, 0x3575227e, 0x6e7429d5, 0x012e550e, 0x4, 0xb7aeb8d, 0x11de1779);
    Turn(x, 2, 9, 0x6e7429d5, 0x11de1779, 0x5a2f5ea5, 0x3575227e, 0x7e846ba2, 0x2bf, 0x1d1fd2, 0xfadcaa38);
  }

  lemma Steps42(x: seq<Word>)
    requires AbcBlock(x)
    ensures TwoTurns(x, 2, 10, 0x3575227e, 0xfadcaa38, 0x11de1779, 0x5a2f5ea5, 0x31c465ca, 0x4c6124f4)
  {
    Turn(x, 2, 10, 0x3575227e, 0xfadcaa38, 0x11de1779, 0x5a2f5ea5, 0xb12de3e4, 0xbb92, 0x36e7, 0x31c465ca);
    Turn(x, 2, 11, 0x5a2f5ea5, 0x31c465ca, 0xfadcaa38, 0x11de1779, 0xdac6d88b, 0x1cbf2a, 0x35, 0x4c6124f4);
  }

  lemma Steps44(x: seq<Word>)
    requires AbcBlock(x)
    ensures TwoTurns(x, 2, 12, 0x11de1779, 0x4c6124f4, 0x31c465ca, 0xfadcaa38, 0x7f2e507b, 0x99d9679d)
  {
    Turn(x, 2, 12, 0x11de1779, 0x4c6124f4, 0x31c465ca, 0xfadcaa38, 0x8779eb06, 0x7, 0x32cd2b8, 0x7f2e507b);
    Turn(x, 2, 13, 0xfadcaa38, 0x7f2e507b, 0x4c6124f4, 0x31c465ca, 0x028b1145, 0x722, 0x35562, 0x99d9679d);
  }

  lemma Steps46(x: seq<Word>)
    requires AbcBlock(x)
    ensures TwoTurns(x, 2, 14, 0x31c465ca, 0x99d9679d, 0x7f2e507b, 0x4c6124f4, 0x8fae6399, 0x7beb9700)
  {
    Turn(x, 2, 14, 0x31c465ca, 0x99d9679d, 0x7f2e507b, 0x4c6124f4, 0xaa961312, 0xfbfc, 0xf5d4, 0x8fae6399);
    Turn(x, 2, 15, 0x4c6124f4, 0x8fae6399, 0x99d9679d, 0x7f2e507b, 0x6959547f, 0x3d3367, 0x1d8, 0x7beb9700);
  }

  lemma EightSteps40(x: seq<Word>)
    requires AbcBlock(x)
    ensures Goes(RFC, x, 2, 8, 8, Regs(Number, 0x21b117b9, 0x5a2f5ea5, 0x3575227e, 0x6e7429d5),
                 Regs(Number, 0x7f2e507b, 0x7beb9700, 0x8fae6399, 0x99d9679d))
  {
    Steps40(x);
    Steps42(x);
    Steps44(x);
    Steps46(x);
    EightTurns(Whole, Number, x, 2, 8, 10, 12, 14, 0x21b117b9, 0x5a2f5ea5, 0x3575227e, 0x6e7429d5,
               0x11de1779, 0x4c6124f4, 0x31c465ca, 0xfadcaa38, 0x7f2e507b, 0x7beb9700, 0x8fae6399, 0x99d9679d);
  }

  lemma Steps48(x: seq<Word>)
    requires AbcBlock(x)
    ensures TwoTurns(x, 3, 0, 0x7f2e507b, 0x7beb9700, 0x8fae6399, 0x99d9679d, 0x7b201df8, 0xf4e8e96e)
  {
    Turn(x, 3, 0, 0x7f2e507b, 0x7beb9700, 0x8fae6399, 0x99d9679d, 0xf041fcfb, 0x38, 0x3fcd21b, 0x7b201df8);
    Turn(x, 3, 1, 0x99d9679d, 0x7b201df8, 0x7beb9700, 0x8fae6399, 0x009a0afe, 0x376, 0x1e7232, 0xf4e8e96e);
  }

  lemma Steps50(x: seq<Word>)
    requires AbcBlock(x)
    ensures TwoTurns(x, 3, 2, 0x8fae6399, 0xf4e8e96e, 0x7b201df8, 0x7beb9700, 0xb298cefd, 0x8bf025c4)
  {
    Turn(x, 3, 2, 0x8fae6399, 0xf4e8e96e, 0x7b201df8, 0x7beb9700, 0x8fdcf407, 0x658f, 0x17b5f, 0xb298cefd);
    Turn(x, 3, 3, 0x7beb9700, 0xb298cefd, 0xf4e8e96e, 0x7b201df8, 0x42370791, 0x1756c7, 0x6ca, 0x8bf025c4);
  }

  lemma Steps52(x: seq<Word>)
    requires AbcBlock(x)
    ensures TwoTurns(x, 3, 4, 0x7b201df8, 0x8bf025c4, 0xb298cefd, 0xf4e8e96e, 0x06cc5e8a, 0x5b0d97aa)
  {
    Turn(x, 3, 4, 0x7b201df8, 0x8bf025c4, 0xb298cefd, 0xf4e8e96e, 0x396ff928, 0x6, 0x1eb70e3, 0x06cc5e8a);
    Turn(x, 3, 5, 0xf4e8e96e, 0x06cc5e8a, 0x8bf025c4, 0xb298cefd, 0xc41f5a4e, 0x120, 0x15104e, 0x5b0d97aa);
  }

  lemma Steps54(x: seq<Word>)
    requires AbcBlock(x)
    ensures TwoTurns(x, 3, 6, 0xb298cefd, 0x5b0d97aa, 0x06cc5e8a, 0x8bf025c4, 0x7d632dd0, 0x3bfa2c27)
  {
    Turn(x, 3, 6, 0xb298cefd, 0x5b0d97aa, 0x06cc5e8a, 0x8bf025c4, 0x79c38131, 0x1626, 0x44ab, 0x7d632dd0);
    Turn(x, 3, 7, 0x8bf025c4, 0x7d632dd0, 0x5b0d97aa, 0x06cc5e8a, 0xa67e3a5f, 0x16fe57, 0x5f4, 0x3bfa2c27);
  }

  lemma EightSteps48(x: seq<Word>)
    requires AbcBlock(x)
    ensures Goes(RFC, x, 3, 0, 8, Regs(Number, 0x7f2e507b, 0x7beb9700, 0x8fae6399, 0x99d9679d),
                 Regs(Number, 0x06cc5e8a, 0x3bfa2c27, 0x7d632dd0, 0x5b0d97aa))
  {
    Steps48(x);
    Steps50(x);
    Steps52(x);
    Steps54(x);
    EightTurns(Whole, Number, x, 3, 0, 2, 4, 6, 0x7f2e507b, 0x7beb9700, 0x8fae6399, 0x99d9679d,
               0x7b201df8, 0x8bf025c4, 0xb298cefd, 0xf4e8e96e, 0x06cc5e8a, 0x3bfa2c27, 0x7d632dd0, 0x5b0d97aa);
  }

  lemma Steps56(x: seq<Word>)
    requires AbcBlock(x)
    ensures TwoTurns(x, 3, 8, 0x06cc5e8a, 0x3bfa2c27, 0x7d632dd0, 0x5b0d97aa, 0x7f81cc35, 0x094454ab)
  {
    Turn(x, 3, 8, 0x06cc5e8a, 0x3bfa2c27, 0x7d632dd0, 0x5b0d97aa, 0xc29941a7, 0xe, 0x10e1e80, 0x7f81cc35);
    Turn(x, 3, 9, 0x5b0d97aa, 0x7f81cc35, 0x3bfa2c27, 0x7d632dd0, 0xc467f218, 0x76, 0x2270a2, 0x094454ab);
  }

  lemma Steps58(x: seq<Word>)
    requires AbcBlock(x)
    ensures TwoTurns(x, 3, 10, 0x7d632dd0, 0x094454ab, 0x7f81cc35, 0x3bfa2c27, 0x4f9dbe3f, 0x7327d604)
  {
    Turn(x, 3, 10, 0x7d632dd0, 0x094454ab, 0x7f81cc35, 0x3bfa2c27, 0xb2c41bce, 0x6994, 0x8cb2, 0x4f9dbe3f);
    Turn(x, 3, 11, 0x3bfa2c27, 0x4f9dbe3f, 0x094454ab, 0x7f81cc35, 0xc6bbeb54, 0xa17c5, 0x11c, 0x7327d604);
  }

  lemma Steps60(x: seq<Word>)
    requires AbcBlock(x)
    ensures TwoTurns(x, 3, 12, 0x7f81cc35, 0x7327d604, 0x4f9dbe3f, 0x094454ab, 0x310ade8f, 0x624d8cb2)
  {
    Turn(x, 3, 12, 0x7f81cc35, 0x7327d604, 0x4f9dbe3f, 0x094454ab, 0xb822416b, 0xb, 0x2f78c22, 0x310ade8f);
    Turn(x, 3, 13, 0x094454ab, 0x310ade8f, 0x7327d604, 0x4f9dbe3f, 0xc24d09cb, 0x223, 0xc50ab, 0x624d8cb2);
  }

  lemma Steps62(x: seq<Word>)
    requires AbcBlock(x)
    ensures TwoTurns(x, 3, 14, 0x4f9dbe3f, 0x624d8cb2, 0x310ade8f, 0x7327d604, 0xe484b9d8, 0xc08226b3)
  {
    Turn(x, 3, 14, 0x4f9dbe3f, 0x624d8cb2, 0x310ade8f, 0x7327d604, 0xdfd77374, 0x2d26, 0x1046e, 0xe484b9d8);
    Turn(x, 3, 15, 0x7327d604, 0xe484b9d8, 0x624d8cb2, 0x310ade8f, 0x8cb8354a, 0x1d6cdb, 0x6df, 0xc08226b3);
  }

  lemma EightSteps56(x: seq<Word>)
    requires AbcBlock(x)
    ensures Goes(RFC, x, 3, 8, 8, Regs(Number, 0x06cc5e8a, 0x3bfa2c27, 0x7d632dd0, 0x5b0d97aa),
                 Regs(Number, 0x310ade8f, 0xc08226b3, 0xe484b9d8, 0x624d8cb2))
  {
    Steps56(x);
    Steps58(x);
    Steps60(x);
    Steps62(x);
    EightTurns(Whole, Number, x, 3, 8, 10, 12, 14, 0x06cc5e8a, 0x3bfa2c27, 0x7d632dd0, 0x5b0d97aa,
               0x7f81cc35, 0x7327d604, 0x4f9dbe3f, 0x094454ab, 0x310ade8f, 0xc08226b3, 0xe484b9d8, 0x624d8cb2);
  }

  lemma Round0OfAbc(x: seq<Word>)
    requires AbcBlock(x)
    ensures Steps(RFC, x, Regs(Number, 0x67452301, 0xefcdab89, 0x98badcfe, 0x10325476), 0, |x|) ==
      Regs(Number, 0xdda9b9a6, 0x72aff2e0, 0xe396856b, 0xa1051895)
  {
    EightSteps0(x);
    EightSteps8(x);
    SixteenSteps(RFC, x, 0, Regs(Number, 0x67452301, 0xefcdab89, 0x98badcfe, 0x10325476),
                 Regs(Number, 0xc73741ef, 0x928d99f6, 0x207dc67b, 0x8bac3051),
                 Regs(Number, 0xdda9b9a6, 0x72aff2e0, 0xe396856b, 0xa1051895));
  }

  lemma Round1OfAbc(x: seq<Word>)
    requires AbcBlock(x)
    ensures Steps(RFC, x, Regs(Number, 0xdda9b9a6, 0x72aff2e0, 0xe396856b, 0xa1051895), 1, |x|) ==
      Regs(Number, 0x790a77fb, 0x726342d3, 0xa62884aa, 0x9f47e4f8)
  {
    EightSteps16(x);
    EightSteps24(x);
    SixteenSteps(RFC, x, 1, Regs(Number, 0xdda9b9a6, 0x72aff2e0, 0xe396856b, 0xa1051895),
                 Regs(Number, 0x59a8ffda, 0x47092c07, 0xabfc7920, 0x6d002f1e),
                 Regs(Number, 0x790a77fb, 0x726342d3, 0xa62884aa, 0x9f47e4f8));
  }

  lemma Round2OfAbc(x: seq<Word>)
    requires AbcBlock(x)
    ensures Steps(RFC, x, Regs(Number, 0x790a77fb, 0x726342d3, 0xa62884aa, 0x9f47e4f8), 2, |x|) ==
      Regs(Number, 0x7f2e507b, 0x7beb9700, 0x8fae6399, 0x99d9679d)
  {
    EightSteps32(x);
    EightSteps40(x);
    SixteenSteps(RFC, x, 2, Regs(Number, 0x790a77fb, 0x726342d3, 0xa62884aa, 0x9f47e4f8),
                 Regs(Number, 0x21b117b9, 0x5a2f5ea5, 0x3575227e, 0x6e7429d5),
                 Regs(Number, 0x7f2e507b, 0x7beb9700, 0x8fae6399, 0x99d9679d));
  }

  lemma Round3OfAbc(x: seq<Word>)
    requires AbcBlock(x)
    ensures Steps(RFC, x, Regs(Number, 0x7f2e507b, 0x7beb9700, 0x8fae6399, 0x99d9679d), 3, |x|) ==
      Regs(Number, 0x310ade8f, 0xc08226b3, 0xe484b9d8, 0x624d8cb2)
  {
    EightSteps48(x);
    EightSteps56(x);
    SixteenSteps(RFC, x, 3, Regs(Number, 0x7f2e507b, 0x7beb9700, 0x8fae6399, 0x99d9679d),
                 Regs(Number, 0x06cc5e8a, 0x3bfa2c27, 0x7d632dd0, 0x5b0d97aa),
                 Regs(Number, 0x310ade8f, 0xc08226b3, 0xe484b9d8, 0x624d8cb2));
  }
}
