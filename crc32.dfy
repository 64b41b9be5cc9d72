/**
 * The bit-level definition of the CRC-32 the ZIP writer uses (section 4.4.7
 * of the PKWARE ZIP APPNOTE): the reflected polynomial 0xEDB88320, divided
 * one bit at a time.
 */
module CrcBits {
  type Byte = bv8

  /** The reflected CRC-32 polynomial. */
  const POLYNOMIAL: bv32 := 0xEDB88320

  /**
   * One bit step of the reflected division, in branch-free form: shift right,
   * and XOR in the polynomial when the bit shifted out was set.
   */
  function Round(c: bv32): bv32
  {
    (c >> 1) ^ (POLYNOMIAL & (0 - (c & 1)))
  }

  /** `Round` is the source's `(c & 1) ? 0xEDB88320 ^ (c >> 1) : c >> 1`. */
  lemma RoundIsConditional(c: bv32)
    ensures Round(c) == if c & 1 == 1 then POLYNOMIAL ^ (c >> 1) else c >> 1
  {
    if c & 1 == 1 {
      assert 0 - (c & 1) == 0xFFFF_FFFF;
    } else {
      assert c & 1 == 0;
    }
  }

  /** `n` bit steps. */
  function Rounds(c: bv32, n: nat): bv32
    decreases n
  {
    if n == 0 then c else Rounds(Round(c), n - 1)
  }

  /** What entry `i` of the table is defined to be: eight bit steps from `i`. */
  function Entry(i: Byte): bv32
  {
    Rounds(i as bv32, 8)
  }

  lemma EntryRow0()
    ensures Entry(0) == 0x00000000
    ensures Entry(1) == 0x77073096
    ensures Entry(2) == 0xEE0E612C
    ensures Entry(3) == 0x990951BA
    ensures Entry(4) == 0x076DC419
    ensures Entry(5) == 0x706AF48F
    ensures Entry(6) == 0xE963A535
    ensures Entry(7) == 0x9E6495A3
  {
  }

  lemma EntryRow1()
    ensures Entry(8) == 0x0EDB8832
    ensures Entry(9) == 0x79DCB8A4
    ensures Entry(10) == 0xE0D5E91E
    ensures Entry(11) == 0x97D2D988
    ensures Entry(12) == 0x09B64C2B
    ensures Entry(13) == 0x7EB17CBD
    ensures Entry(14) == 0xE7B82D07
    ensures Entry(15) == 0x90BF1D91
  {
  }

  lemma EntryRow2()
    ensures Entry(16) == 0x1DB71064
    ensures Entry(17) == 0x6AB020F2
    ensures Entry(18) == 0xF3B97148
    ensures Entry(19) == 0x84BE41DE
    ensures Entry(20) == 0x1ADAD47D
    ensures Entry(21) == 0x6DDDE4EB
    ensures Entry(22) == 0xF4D4B551
    ensures Entry(23) == 0x83D385C7
  {
  }

  lemma EntryRow3()
    ensures Entry(24) == 0x136C9856
    ensures Entry(25) == 0x646BA8C0
    ensures Entry(26) == 0xFD62F97A
    ensures Entry(27) == 0x8A65C9EC
    ensures Entry(28) == 0x14015C4F
    ensures Entry(29) == 0x63066CD9
    ensures Entry(30) == 0xFA0F3D63
    ensures Entry(31) == 0x8D080DF5
  {
  }

  lemma EntryRow4()
    ensures Entry(32) == 0x3B6E20C8
    ensures Entry(33) == 0x4C69105E
    ensures Entry(34) == 0xD56041E4
    ensures Entry(35) == 0xA2677172
    ensures Entry(36) == 0x3C03E4D1
    ensures Entry(37) == 0x4B04D447
    ensures Entry(38) == 0xD20D85FD
    ensures Entry(39) == 0xA50AB56B
  {
  }

  lemma EntryRow5()
    ensures Entry(40) == 0x35B5A8FA
    ensures Entry(41) == 0x42B2986C
    ensures Entry(42) == 0xDBBBC9D6
    ensures Entry(43) == 0xACBCF940
    ensures Entry(44) == 0x32D86CE3
    ensures Entry(45) == 0x45DF5C75
    ensures Entry(46) == 0xDCD60DCF
    ensures Entry(47) == 0xABD13D59
  {
  }

  lemma EntryRow6()
    ensures Entry(48) == 0x26D930AC
    ensures Entry(49) == 0x51DE003A
    ensures Entry(50) == 0xC8D75180
    ensures Entry(51) == 0xBFD06116
    ensures Entry(52) == 0x21B4F4B5
    ensures Entry(53) == 0x56B3C423
    ensures Entry(54) == 0xCFBA9599
    ensures Entry(55) == 0xB8BDA50F
  {
  }

  lemma EntryRow7()
    ensures Entry(56) == 0x2802B89E
    ensures Entry(57) == 0x5F058808
    ensures Entry(58) == 0xC60CD9B2
    ensures Entry(59) == 0xB10BE924
    ensures Entry(60) == 0x2F6F7C87
    ensures Entry(61) == 0x58684C11
    ensures Entry(62) == 0xC1611DAB
    ensures Entry(63) == 0xB6662D3D
  {
  }

  lemma EntryRow8()
    ensures Entry(64) == 0x76DC4190
    ensures Entry(65) == 0x01DB7106
    ensures Entry(66) == 0x98D220BC
    ensures Entry(67) == 0xEFD5102A
    ensures Entry(68) == 0x71B18589
    ensures Entry(69) == 0x06B6B51F
    ensures Entry(70) == 0x9FBFE4A5
    ensures Entry(71) == 0xE8B8D433
  {
  }

  lemma EntryRow9()
    ensures Entry(72) == 0x7807C9A2
    ensures Entry(73) == 0x0F00F934
    ensures Entry(74) == 0x9609A88E
    ensures Entry(75) == 0xE10E9818
    ensures Entry(76) == 0x7F6A0DBB
    ensures Entry(77) == 0x086D3D2D
    ensures Entry(78) == 0x91646C97
    ensures Entry(79) == 0xE6635C01
  {
  }

  lemma EntryRow10()
    ensures Entry(80) == 0x6B6B51F4
    ensures Entry(81) == 0x1C6C6162
    ensures Entry(82) == 0x856530D8
    ensures Entry(83) == 0xF262004E
    ensures Entry(84) == 0x6C0695ED
    ensures Entry(85) == 0x1B01A57B
    ensures Entry(86) == 0x8208F4C1
    ensures Entry(87) == 0xF50FC457
  {
  }

  lemma EntryRow11()
    ensures Entry(88) == 0x65B0D9C6
    ensures Entry(89) == 0x12B7E950
    ensures Entry(90) == 0x8BBEB8EA
    ensures Entry(91) == 0xFCB9887C
    ensures Entry(92) == 0x62DD1DDF
    ensures Entry(93) == 0x15DA2D49
    ensures Entry(94) == 0x8CD37CF3
    ensures Entry(95) == 0xFBD44C65
  {
  }

  lemma EntryRow12()
    ensures Entry(96) == 0x4DB26158
    ensures Entry(97) == 0x3AB551CE
    ensures Entry(98) == 0xA3BC0074
    ensures Entry(99) == 0xD4BB30E2
    ensures Entry(100) == 0x4ADFA541
    ensures Entry(101) == 0x3DD895D7
    ensures Entry(102) == 0xA4D1C46D
    ensures Entry(103) == 0xD3D6F4FB
  {
  }

  lemma EntryRow13()
    ensures Entry(104) == 0x4369E96A
    ensures Entry(105) == 0x346ED9FC
    ensures Entry(106) == 0xAD678846
    ensures Entry(107) == 0xDA60B8D0
    ensures Entry(108) == 0x44042D73
    ensures Entry(109) == 0x33031DE5
    ensures Entry(110) == 0xAA0A4C5F
    ensures Entry(111) == 0xDD0D7CC9
  {
  }

  lemma EntryRow14()
    ensures Entry(112) == 0x5005713C
    ensures Entry(113) == 0x270241AA
    ensures Entry(114) == 0xBE0B1010
    ensures Entry(115) == 0xC90C2086
    ensures Entry(116) == 0x5768B525
    ensures Entry(117) == 0x206F85B3
    ensures Entry(118) == 0xB966D409
    ensures Entry(119) == 0xCE61E49F
  {
  }

  lemma EntryRow15()
    ensures Entry(120) == 0x5EDEF90E
    ensures Entry(121) == 0x29D9C998
    ensures Entry(122) == 0xB0D09822
    ensures Entry(123) == 0xC7D7A8B4
    ensures Entry(124) == 0x59B33D17
    ensures Entry(125) == 0x2EB40D81
    ensures Entry(126) == 0xB7BD5C3B
    ensures Entry(127) == 0xC0BA6CAD
  {
  }

  lemma EntryRow16()
    ensures Entry(128) == 0xEDB88320
    ensures Entry(129) == 0x9ABFB3B6
    ensures Entry(130) == 0x03B6E20C
    ensures Entry(131) == 0x74B1D29A
    ensures Entry(132) == 0xEAD54739
    ensures Entry(133) == 0x9DD277AF
    ensures Entry(134) == 0x04DB2615
    ensures Entry(135) == 0x73DC1683
  {
  }

  lemma EntryRow17()
    ensures Entry(136) == 0xE3630B12
    ensures Entry(137) == 0x94643B84
    ensures Entry(138) == 0x0D6D6A3E
    ensures Entry(139) == 0x7A6A5AA8
    ensures Entry(140) == 0xE40ECF0B
    ensures Entry(141) == 0x9309FF9D
    ensures Entry(142) == 0x0A00AE27
    ensures Entry(143) == 0x7D079EB1
  {
  }

  lemma EntryRow18()
    ensures Entry(144) == 0xF00F9344
    ensures Entry(145) == 0x8708A3D2
    ensures Entry(146) == 0x1E01F268
    ensures Entry(147) == 0x6906C2FE
    ensures Entry(148) == 0xF762575D
    ensures Entry(149) == 0x806567CB
    ensures Entry(150) == 0x196C3671
    ensures Entry(151) == 0x6E6B06E7
  {
  }

  lemma EntryRow19()
    ensures Entry(152) == 0xFED41B76
    ensures Entry(153) == 0x89D32BE0
    ensures Entry(154) == 0x10DA7A5A
    ensures Entry(155) == 0x67DD4ACC
    ensures Entry(156) == 0xF9B9DF6F
    ensures Entry(157) == 0x8EBEEFF9
    ensures Entry(158) == 0x17B7BE43
    ensures Entry(159) == 0x60B08ED5
  {
  }

  lemma EntryRow20()
    ensures Entry(160) == 0xD6D6A3E8
    ensures Entry(161) == 0xA1D1937E
    ensures Entry(162) == 0x38D8C2C4
    ensures Entry(163) == 0x4FDFF252
    ensures Entry(164) == 0xD1BB67F1
    ensures Entry(165) == 0xA6BC5767
    ensures Entry(166) == 0x3FB506DD
    ensures Entry(167) == 0x48B2364B
  {
  }

  lemma EntryRow21()
    ensures Entry(168) == 0xD80D2BDA
    ensures Entry(169) == 0xAF0A1B4C
    ensures Entry(170) == 0x36034AF6
    ensures Entry(171) == 0x41047A60
    ensures Entry(172) == 0xDF60EFC3
    ensures Entry(173) == 0xA867DF55
    ensures Entry(174) == 0x316E8EEF
    ensures Entry(175) == 0x4669BE79
  {
  }

  lemma EntryRow22()
    ensures Entry(176) == 0xCB61B38C
    ensures Entry(177) == 0xBC66831A
    ensures Entry(178) == 0x256FD2A0
    ensures Entry(179) == 0x5268E236
    ensures Entry(180) == 0xCC0C7795
    ensures Entry(181) == 0xBB0B4703
    ensures Entry(182) == 0x220216B9
    ensures Entry(183) == 0x5505262F
  {
  }

  lemma EntryRow23()
    ensures Entry(184) == 0xC5BA3BBE
    ensures Entry(185) == 0xB2BD0B28
    ensures Entry(186) == 0x2BB45A92
    ensures Entry(187) == 0x5CB36A04
    ensures Entry(188) == 0xC2D7FFA7
    ensures Entry(189) == 0xB5D0CF31
    ensures Entry(190) == 0x2CD99E8B
    ensures Entry(191) == 0x5BDEAE1D
  {
  }

  lemma EntryRow24()
    ensures Entry(192) == 0x9B64C2B0
    ensures Entry(193) == 0xEC63F226
    ensures Entry(194) == 0x756AA39C
    ensures Entry(195) == 0x026D930A
    ensures Entry(196) == 0x9C0906A9
    ensures Entry(197) == 0xEB0E363F
    ensures Entry(198) == 0x72076785
    ensures Entry(199) == 0x05005713
  {
  }

  lemma EntryRow25()
    ensures Entry(200) == 0x95BF4A82
    ensures Entry(201) == 0xE2B87A14
    ensures Entry(202) == 0x7BB12BAE
    ensures Entry(203) == 0x0CB61B38
    ensures Entry(204) == 0x92D28E9B
    ensures Entry(205) == 0xE5D5BE0D
    ensures Entry(206) == 0x7CDCEFB7
    ensures Entry(207) == 0x0BDBDF21
  {
  }

  lemma EntryRow26()
    ensures Entry(208) == 0x86D3D2D4
    ensures Entry(209) == 0xF1D4E242
    ensures Entry(210) == 0x68DDB3F8
    ensures Entry(211) == 0x1FDA836E
    ensures Entry(212) == 0x81BE16CD
    ensures Entry(213) == 0xF6B9265B
    ensures Entry(214) == 0x6FB077E1
    ensures Entry(215) == 0x18B74777
  {
  }

  lemma EntryRow27()
    ensures Entry(216) == 0x88085AE6
    ensures Entry(217) == 0xFF0F6A70
    ensures Entry(218) == 0x66063BCA
    ensures Entry(219) == 0x11010B5C
    ensures Entry(220) == 0x8F659EFF
    ensures Entry(221) == 0xF862AE69
    ensures Entry(222) == 0x616BFFD3
    ensures Entry(223) == 0x166CCF45
  {
  }

  lemma EntryRow28()
    ensures Entry(224) == 0xA00AE278
    ensures Entry(225) == 0xD70DD2EE
    ensures Entry(226) == 0x4E048354
    ensures Entry(227) == 0x3903B3C2
    ensures Entry(228) == 0xA7672661
    ensures Entry(229) == 0xD06016F7
    ensures Entry(230) == 0x4969474D
    ensures Entry(231) == 0x3E6E77DB
  {
  }

  lemma EntryRow29()
    ensures Entry(232) == 0xAED16A4A
    ensures Entry(233) == 0xD9D65ADC
    ensures Entry(234) == 0x40DF0B66
    ensures Entry(235) == 0x37D83BF0
    ensures Entry(236) == 0xA9BCAE53
    ensures Entry(237) == 0xDEBB9EC5
    ensures Entry(238) == 0x47B2CF7F
    ensures Entry(239) == 0x30B5FFE9
  {
  }

  lemma EntryRow30()
    ensures Entry(240) == 0xBDBDF21C
    ensures Entry(241) == 0xCABAC28A
    ensures Entry(242) == 0x53B39330
    ensures Entry(243) == 0x24B4A3A6
    ensures Entry(244) == 0xBAD03605
    ensures Entry(245) == 0xCDD70693
    ensures Entry(246) == 0x54DE5729
    ensures Entry(247) == 0x23D967BF
  {
  }

  lemma EntryRow31()
    ensures Entry(248) == 0xB3667A2E
    ensures Entry(249) == 0xC4614AB8
    ensures Entry(250) == 0x5D681B02
    ensures Entry(251) == 0x2A6F2B94
    ensures Entry(252) == 0xB40BBE37
    ensures Entry(253) == 0xC30C8EA1
    ensures Entry(254) == 0x5A05DF1B
    ensures Entry(255) == 0x2D02EF8D
  {
  }
}

/** `crc32_table`, and the proof that each entry is eight bit steps from its index. */
module CrcTable {
  import opened CrcBits

  /** `crc32_table`, written out as in the source. */
  const CrcTable: seq<bv32> :=
    (
      (
        (
          (
            (
              [0x00000000, 0x77073096, 0xEE0E612C, 0x990951BA, 0x076DC419, 0x706AF48F, 0xE963A535, 0x9E6495A3] +
              [0x0EDB8832, 0x79DCB8A4, 0xE0D5E91E, 0x97D2D988, 0x09B64C2B, 0x7EB17CBD, 0xE7B82D07, 0x90BF1D91]
            ) +
            (
              [0x1DB71064, 0x6AB020F2, 0xF3B97148, 0x84BE41DE, 0x1ADAD47D, 0x6DDDE4EB, 0xF4D4B551, 0x83D385C7] +
              [0x136C9856, 0x646BA8C0, 0xFD62F97A, 0x8A65C9EC, 0x14015C4F, 0x63066CD9, 0xFA0F3D63, 0x8D080DF5]
            )
          ) +
          (
            (
              [0x3B6E20C8, 0x4C69105E, 0xD56041E4, 0xA2677172, 0x3C03E4D1, 0x4B04D447, 0xD20D85FD, 0xA50AB56B] +
              [0x35B5A8FA, 0x42B2986C, 0xDBBBC9D6, 0xACBCF940, 0x32D86CE3, 0x45DF5C75, 0xDCD60DCF, 0xABD13D59]
            ) +
            (
              [0x26D930AC, 0x51DE003A, 0xC8D75180, 0xBFD06116, 0x21B4F4B5, 0x56B3C423, 0xCFBA9599, 0xB8BDA50F] +
              [0x2802B89E, 0x5F058808, 0xC60CD9B2, 0xB10BE924, 0x2F6F7C87, 0x58684C11, 0xC1611DAB, 0xB6662D3D]
            )
          )
        ) +
        (
          (
            (
              [0x76DC4190, 0x01DB7106, 0x98D220BC, 0xEFD5102A, 0x71B18589, 0x06B6B51F, 0x9FBFE4A5, 0xE8B8D433] +
              [0x7807C9A2, 0x0F00F934, 0x9609A88E, 0xE10E9818, 0x7F6A0DBB, 0x086D3D2D, 0x91646C97, 0xE6635C01]
            ) +
            (
              [0x6B6B51F4, 0x1C6C6162, 0x856530D8, 0xF262004E, 0x6C0695ED, 0x1B01A57B, 0x8208F4C1, 0xF50FC457] +
              [0x65B0D9C6, 0x12B7E950, 0x8BBEB8EA, 0xFCB9887C, 0x62DD1DDF, 0x15DA2D49, 0x8CD37CF3, 0xFBD44C65]
            )
          ) +
          (
            (
              [0x4DB26158, 0x3AB551CE, 0xA3BC0074, 0xD4BB30E2, 0x4ADFA541, 0x3DD895D7, 0xA4D1C46D, 0xD3D6F4FB] +
              [0x4369E96A, 0x346ED9FC, 0xAD678846, 0xDA60B8D0, 0x44042D73, 0x33031DE5, 0xAA0A4C5F, 0xDD0D7CC9]
            ) +
            (
              [0x5005713C, 0x270241AA, 0xBE0B1010, 0xC90C2086, 0x5768B525, 0x206F85B3, 0xB966D409, 0xCE61E49F] +
              [0x5EDEF90E, 0x29D9C998, 0xB0D09822, 0xC7D7A8B4, 0x59B33D17, 0x2EB40D81, 0xB7BD5C3B, 0xC0BA6CAD]
            )
          )
        )
      ) +
      (
        (
          (
            (
              [0xEDB88320, 0x9ABFB3B6, 0x03B6E20C, 0x74B1D29A, 0xEAD54739, 0x9DD277AF, 0x04DB2615, 0x73DC1683] +
              [0xE3630B12, 0x94643B84, 0x0D6D6A3E, 0x7A6A5AA8, 0xE40ECF0B, 0x9309FF9D, 0x0A00AE27, 0x7D079EB1]
            ) +
            (
              [0xF00F9344, 0x8708A3D2, 0x1E01F268, 0x6906C2FE, 0xF762575D, 0x806567CB, 0x196C3671, 0x6E6B06E7] +
              [0xFED41B76, 0x89D32BE0, 0x10DA7A5A, 0x67DD4ACC, 0xF9B9DF6F, 0x8EBEEFF9, 0x17B7BE43, 0x60B08ED5]
            )
          ) +
          (
            (
              [0xD6D6A3E8, 0xA1D1937E, 0x38D8C2C4, 0x4FDFF252, 0xD1BB67F1, 0xA6BC5767, 0x3FB506DD, 0x48B2364B] +
              [0xD80D2BDA, 0xAF0A1B4C, 0x36034AF6, 0x41047A60, 0xDF60EFC3, 0xA867DF55, 0x316E8EEF, 0x4669BE79]
            ) +
            (
              [0xCB61B38C, 0xBC66831A, 0x256FD2A0, 0x5268E236, 0xCC0C7795, 0xBB0B4703, 0x220216B9, 0x5505262F] +
              [0xC5BA3BBE, 0xB2BD0B28, 0x2BB45A92, 0x5CB36A04, 0xC2D7FFA7, 0xB5D0CF31, 0x2CD99E8B, 0x5BDEAE1D]
            )
          )
        ) +
        (
          (
            (
              [0x9B64C2B0, 0xEC63F226, 0x756AA39C, 0x026D930A, 0x9C0906A9, 0xEB0E363F, 0x72076785, 0x05005713] +
              [0x95BF4A82, 0xE2B87A14, 0x7BB12BAE, 0x0CB61B38, 0x92D28E9B, 0xE5D5BE0D, 0x7CDCEFB7, 0x0BDBDF21]
            ) +
            (
              [0x86D3D2D4, 0xF1D4E242, 0x68DDB3F8, 0x1FDA836E, 0x81BE16CD, 0xF6B9265B, 0x6FB077E1, 0x18B74777] +
              [0x88085AE6, 0xFF0F6A70, 0x66063BCA, 0x11010B5C, 0x8F659EFF, 0xF862AE69, 0x616BFFD3, 0x166CCF45]
            )
          ) +
          (
            (
              [0xA00AE278, 0xD70DD2EE, 0x4E048354, 0x3903B3C2, 0xA7672661, 0xD06016F7, 0x4969474D, 0x3E6E77DB] +
              [0xAED16A4A, 0xD9D65ADC, 0x40DF0B66, 0x37D83BF0, 0xA9BCAE53, 0xDEBB9EC5, 0x47B2CF7F, 0x30B5FFE9]
            ) +
            (
              [0xBDBDF21C, 0xCABAC28A, 0x53B39330, 0x24B4A3A6, 0xBAD03605, 0xCDD70693, 0x54DE5729, 0x23D967BF] +
              [0xB3667A2E, 0xC4614AB8, 0x5D681B02, 0x2A6F2B94, 0xB40BBE37, 0xC30C8EA1, 0x5A05DF1B, 0x2D02EF8D]
            )
          )
        )
      )
    )

  lemma ConstRow0()
    ensures CrcTable[0] == 0x00000000
    ensures CrcTable[1] == 0x77073096
    ensures CrcTable[2] == 0xEE0E612C
    ensures CrcTable[3] == 0x990951BA
    ensures CrcTable[4] == 0x076DC419
    ensures CrcTable[5] == 0x706AF48F
    ensures CrcTable[6] == 0xE963A535
    ensures CrcTable[7] == 0x9E6495A3
  {
  }

  lemma ConstRow1()
    ensures CrcTable[8] == 0x0EDB8832
    ensures CrcTable[9] == 0x79DCB8A4
    ensures CrcTable[10] == 0xE0D5E91E
    ensures CrcTable[11] == 0x97D2D988
    ensures CrcTable[12] == 0x09B64C2B
    ensures CrcTable[13] == 0x7EB17CBD
    ensures CrcTable[14] == 0xE7B82D07
    ensures CrcTable[15] == 0x90BF1D91
  {
  }

  lemma ConstRow2()
    ensures CrcTable[16] == 0x1DB71064
    ensures CrcTable[17] == 0x6AB020F2
    ensures CrcTable[18] == 0xF3B97148
    ensures CrcTable[19] == 0x84BE41DE
    ensures CrcTable[20] == 0x1ADAD47D
    ensures CrcTable[21] == 0x6DDDE4EB
    ensures CrcTable[22] == 0xF4D4B551
    ensures CrcTable[23] == 0x83D385C7
  {
  }

  lemma ConstRow3()
    ensures CrcTable[24] == 0x136C9856
    ensures CrcTable[25] == 0x646BA8C0
    ensures CrcTable[26] == 0xFD62F97A
    ensures CrcTable[27] == 0x8A65C9EC
    ensures CrcTable[28] == 0x14015C4F
    ensures CrcTable[29] == 0x63066CD9
    ensures CrcTable[30] == 0xFA0F3D63
    ensures CrcTable[31] == 0x8D080DF5
  {
  }

  lemma ConstRow4()
    ensures CrcTable[32] == 0x3B6E20C8
    ensures CrcTable[33] == 0x4C69105E
    ensures CrcTable[34] == 0xD56041E4
    ensures CrcTable[35] == 0xA2677172
    ensures CrcTable[36] == 0x3C03E4D1
    ensures CrcTable[37] == 0x4B04D447
    ensures CrcTable[38] == 0xD20D85FD
    ensures CrcTable[39] == 0xA50AB56B
  {
  }

  lemma ConstRow5()
    ensures CrcTable[40] == 0x35B5A8FA
    ensures CrcTable[41] == 0x42B2986C
    ensures CrcTable[42] == 0xDBBBC9D6
    ensures CrcTable[43] == 0xACBCF940
    ensures CrcTable[44] == 0x32D86CE3
    ensures CrcTable[45] == 0x45DF5C75
    ensures CrcTable[46] == 0xDCD60DCF
    ensures CrcTable[47] == 0xABD13D59
  {
  }

  lemma ConstRow6()
    ensures CrcTable[48] == 0x26D930AC
    ensures CrcTable[49] == 0x51DE003A
    ensures CrcTable[50] == 0xC8D75180
    ensures CrcTable[51] == 0xBFD06116
    ensures CrcTable[52] == 0x21B4F4B5
    ensures CrcTable[53] == 0x56B3C423
    ensures CrcTable[54] == 0xCFBA9599
    ensures CrcTable[55] == 0xB8BDA50F
  {
  }

  lemma ConstRow7()
    ensures CrcTable[56] == 0x2802B89E
    ensures CrcTable[57] == 0x5F058808
    ensures CrcTable[58] == 0xC60CD9B2
    ensures CrcTable[59] == 0xB10BE924
    ensures CrcTable[60] == 0x2F6F7C87
    ensures CrcTable[61] == 0x58684C11
    ensures CrcTable[62] == 0xC1611DAB
    ensures CrcTable[63] == 0xB6662D3D
  {
  }

  lemma ConstRow8()
    ensures CrcTable[64] == 0x76DC4190
    ensures CrcTable[65] == 0x01DB7106
    ensures CrcTable[66] == 0x98D220BC
    ensures CrcTable[67] == 0xEFD5102A
    ensures CrcTable[68] == 0x71B18589
    ensures CrcTable[69] == 0x06B6B51F
    ensures CrcTable[70] == 0x9FBFE4A5
    ensures CrcTable[71] == 0xE8B8D433
  {
  }

  lemma ConstRow9()
    ensures CrcTable[72] == 0x7807C9A2
    ensures CrcTable[73] == 0x0F00F934
    ensures CrcTable[74] == 0x9609A88E
    ensures CrcTable[75] == 0xE10E9818
    ensures CrcTable[76] == 0x7F6A0DBB
    ensures CrcTable[77] == 0x086D3D2D
    ensures CrcTable[78] == 0x91646C97
    ensures CrcTable[79] == 0xE6635C01
  {
  }

  lemma ConstRow10()
    ensures CrcTable[80] == 0x6B6B51F4
    ensures CrcTable[81] == 0x1C6C6162
    ensures CrcTable[82] == 0x856530D8
    ensures CrcTable[83] == 0xF262004E
    ensures CrcTable[84] == 0x6C0695ED
    ensures CrcTable[85] == 0x1B01A57B
    ensures CrcTable[86] == 0x8208F4C1
    ensures CrcTable[87] == 0xF50FC457
  {
  }

  lemma ConstRow11()
    ensures CrcTable[88] == 0x65B0D9C6
    ensures CrcTable[89] == 0x12B7E950
    ensures CrcTable[90] == 0x8BBEB8EA
    ensures CrcTable[91] == 0xFCB9887C
    ensures CrcTable[92] == 0x62DD1DDF
    ensures CrcTable[93] == 0x15DA2D49
    ensures CrcTable[94] == 0x8CD37CF3
    ensures CrcTable[95] == 0xFBD44C65
  {
  }

  lemma ConstRow12()
    ensures CrcTable[96] == 0x4DB26158
    ensures CrcTable[97] == 0x3AB551CE
    ensures CrcTable[98] == 0xA3BC0074
    ensures CrcTable[99] == 0xD4BB30E2
    ensures CrcTable[100] == 0x4ADFA541
    ensures CrcTable[101] == 0x3DD895D7
    ensures CrcTable[102] == 0xA4D1C46D
    ensures CrcTable[103] == 0xD3D6F4FB
  {
  }

  lemma ConstRow13()
    ensures CrcTable[104] == 0x4369E96A
    ensures CrcTable[105] == 0x346ED9FC
    ensures CrcTable[106] == 0xAD678846
    ensures CrcTable[107] == 0xDA60B8D0
    ensures CrcTable[108] == 0x44042D73
    ensures CrcTable[109] == 0x33031DE5
    ensures CrcTable[110] == 0xAA0A4C5F
    ensures CrcTable[111] == 0xDD0D7CC9
  {
  }

  lemma ConstRow14()
    ensures CrcTable[112] == 0x5005713C
    ensures CrcTable[113] == 0x270241AA
    ensures CrcTable[114] == 0xBE0B1010
    ensures CrcTable[115] == 0xC90C2086
    ensures CrcTable[116] == 0x5768B525
    ensures CrcTable[117] == 0x206F85B3
    ensures CrcTable[118] == 0xB966D409
    ensures CrcTable[119] == 0xCE61E49F
  {
  }

  lemma ConstRow15()
    ensures CrcTable[120] == 0x5EDEF90E
    ensures CrcTable[121] == 0x29D9C998
    ensures CrcTable[122] == 0xB0D09822
    ensures CrcTable[123] == 0xC7D7A8B4
    ensures CrcTable[124] == 0x59B33D17
    ensures CrcTable[125] == 0x2EB40D81
    ensures CrcTable[126] == 0xB7BD5C3B
    ensures CrcTable[127] == 0xC0BA6CAD
  {
  }

  lemma ConstRow16()
    ensures CrcTable[128] == 0xEDB88320
    ensures CrcTable[129] == 0x9ABFB3B6
    ensures CrcTable[130] == 0x03B6E20C
    ensures CrcTable[131] == 0x74B1D29A
    ensures CrcTable[132] == 0xEAD54739
    ensures CrcTable[133] == 0x9DD277AF
    ensures CrcTable[134] == 0x04DB2615
    ensures CrcTable[135] == 0x73DC1683
  {
  }

  lemma ConstRow17()
    ensures CrcTable[136] == 0xE3630B12
    ensures CrcTable[137] == 0x94643B84
    ensures CrcTable[138] == 0x0D6D6A3E
    ensures CrcTable[139] == 0x7A6A5AA8
    ensures CrcTable[140] == 0xE40ECF0B
    ensures CrcTable[141] == 0x9309FF9D
    ensures CrcTable[142] == 0x0A00AE27
    ensures CrcTable[143] == 0x7D079EB1
  {
  }

  lemma ConstRow18()
    ensures CrcTable[144] == 0xF00F9344
    ensures CrcTable[145] == 0x8708A3D2
    ensures CrcTable[146] == 0x1E01F268
    ensures CrcTable[147] == 0x6906C2FE
    ensures CrcTable[148] == 0xF762575D
    ensures CrcTable[149] == 0x806567CB
    ensures CrcTable[150] == 0x196C3671
    ensures CrcTable[151] == 0x6E6B06E7
  {
  }

  lemma ConstRow19()
    ensures CrcTable[152] == 0xFED41B76
    ensures CrcTable[153] == 0x89D32BE0
    ensures CrcTable[154] == 0x10DA7A5A
    ensures CrcTable[155] == 0x67DD4ACC
    ensures CrcTable[156] == 0xF9B9DF6F
    ensures CrcTable[157] == 0x8EBEEFF9
    ensures CrcTable[158] == 0x17B7BE43
    ensures CrcTable[159] == 0x60B08ED5
  {
  }

  lemma ConstRow20()
    ensures CrcTable[160] == 0xD6D6A3E8
    ensures CrcTable[161] == 0xA1D1937E
    ensures CrcTable[162] == 0x38D8C2C4
    ensures CrcTable[163] == 0x4FDFF252
    ensures CrcTable[164] == 0xD1BB67F1
    ensures CrcTable[165] == 0xA6BC5767
    ensures CrcTable[166] == 0x3FB506DD
    ensures CrcTable[167] == 0x48B2364B
  {
  }

  lemma ConstRow21()
    ensures CrcTable[168] == 0xD80D2BDA
    ensures CrcTable[169] == 0xAF0A1B4C
    ensures CrcTable[170] == 0x36034AF6
    ensures CrcTable[171] == 0x41047A60
    ensures CrcTable[172] == 0xDF60EFC3
    ensures CrcTable[173] == 0xA867DF55
    ensures CrcTable[174] == 0x316E8EEF
    ensures CrcTable[175] == 0x4669BE79
  {
  }

  lemma ConstRow22()
    ensures CrcTable[176] == 0xCB61B38C
    ensures CrcTable[177] == 0xBC66831A
    ensures CrcTable[178] == 0x256FD2A0
    ensures CrcTable[179] == 0x5268E236
    ensures CrcTable[180] == 0xCC0C7795
    ensures CrcTable[181] == 0xBB0B4703
    ensures CrcTable[182] == 0x220216B9
    ensures CrcTable[183] == 0x5505262F
  {
  }

  lemma ConstRow23()
    ensures CrcTable[184] == 0xC5BA3BBE
    ensures CrcTable[185] == 0xB2BD0B28
    ensures CrcTable[186] == 0x2BB45A92
    ensures CrcTable[187] == 0x5CB36A04
    ensures CrcTable[188] == 0xC2D7FFA7
    ensures CrcTable[189] == 0xB5D0CF31
    ensures CrcTable[190] == 0x2CD99E8B
    ensures CrcTable[191] == 0x5BDEAE1D
  {
  }

  lemma ConstRow24()
    ensures CrcTable[192] == 0x9B64C2B0
    ensures CrcTable[193] == 0xEC63F226
    ensures CrcTable[194] == 0x756AA39C
    ensures CrcTable[195] == 0x026D930A
    ensures CrcTable[196] == 0x9C0906A9
    ensures CrcTable[197] == 0xEB0E363F
    ensures CrcTable[198] == 0x72076785
    ensures CrcTable[199] == 0x05005713
  {
  }

  lemma ConstRow25()
    ensures CrcTable[200] == 0x95BF4A82
    ensures CrcTable[201] == 0xE2B87A14
    ensures CrcTable[202] == 0x7BB12BAE
    ensures CrcTable[203] == 0x0CB61B38
    ensures CrcTable[204] == 0x92D28E9B
    ensures CrcTable[205] == 0xE5D5BE0D
    ensures CrcTable[206] == 0x7CDCEFB7
    ensures CrcTable[207] == 0x0BDBDF21
  {
  }

  lemma ConstRow26()
    ensures CrcTable[208] == 0x86D3D2D4
    ensures CrcTable[209] == 0xF1D4E242
    ensures CrcTable[210] == 0x68DDB3F8
    ensures CrcTable[211] == 0x1FDA836E
    ensures CrcTable[212] == 0x81BE16CD
    ensures CrcTable[213] == 0xF6B9265B
    ensures CrcTable[214] == 0x6FB077E1
    ensures CrcTable[215] == 0x18B74777
  {
  }

  lemma ConstRow27()
    ensures CrcTable[216] == 0x88085AE6
    ensures CrcTable[217] == 0xFF0F6A70
    ensures CrcTable[218] == 0x66063BCA
    ensures CrcTable[219] == 0x11010B5C
    ensures CrcTable[220] == 0x8F659EFF
    ensures CrcTable[221] == 0xF862AE69
    ensures CrcTable[222] == 0x616BFFD3
    ensures CrcTable[223] == 0x166CCF45
  {
  }

  lemma ConstRow28()
    ensures CrcTable[224] == 0xA00AE278
    ensures CrcTable[225] == 0xD70DD2EE
    ensures CrcTable[226] == 0x4E048354
    ensures CrcTable[227] == 0x3903B3C2
    ensures CrcTable[228] == 0xA7672661
    ensures CrcTable[229] == 0xD06016F7
    ensures CrcTable[230] == 0x4969474D
    ensures CrcTable[231] == 0x3E6E77DB
  {
  }

  lemma ConstRow29()
    ensures CrcTable[232] == 0xAED16A4A
    ensures CrcTable[233] == 0xD9D65ADC
    ensures CrcTable[234] == 0x40DF0B66
    ensures CrcTable[235] == 0x37D83BF0
    ensures CrcTable[236] == 0xA9BCAE53
    ensures CrcTable[237] == 0xDEBB9EC5
    ensures CrcTable[238] == 0x47B2CF7F
    ensures CrcTable[239] == 0x30B5FFE9
  {
  }

  lemma ConstRow30()
    ensures CrcTable[240] == 0xBDBDF21C
    ensures CrcTable[241] == 0xCABAC28A
    ensures CrcTable[242] == 0x53B39330
    ensures CrcTable[243] == 0x24B4A3A6
    ensures CrcTable[244] == 0xBAD03605
    ensures CrcTable[245] == 0xCDD70693
    ensures CrcTable[246] == 0x54DE5729
    ensures CrcTable[247] == 0x23D967BF
  {
  }

  lemma ConstRow31()
    ensures CrcTable[248] == 0xB3667A2E
    ensures CrcTable[249] == 0xC4614AB8
    ensures CrcTable[250] == 0x5D681B02
    ensures CrcTable[251] == 0x2A6F2B94
    ensures CrcTable[252] == 0xB40BBE37
    ensures CrcTable[253] == 0xC30C8EA1
    ensures CrcTable[254] == 0x5A05DF1B
    ensures CrcTable[255] == 0x2D02EF8D
  {
  }


  lemma Row0(x: Byte)
    requires 0 <= x < 8
    ensures CrcTable[x] == Entry(x)
  {
    EntryRow0();
    ConstRow0();
    if x < 4 {
      if x < 2 {
        if x < 1 {
          assert x == 0;
        } else {
          assert x == 1;
        }
      } else {
        if x < 3 {
          assert x == 2;
        } else {
          assert x == 3;
        }
      }
    } else {
      if x < 6 {
        if x < 5 {
          assert x == 4;
        } else {
          assert x == 5;
        }
      } else {
        if x < 7 {
          assert x == 6;
        } else {
          assert x == 7;
        }
      }
    }
  }


  lemma Row1(x: Byte)
    requires 8 <= x < 16
    ensures CrcTable[x] == Entry(x)
  {
    EntryRow1();
    ConstRow1();
    if x < 12 {
      if x < 10 {
        if x < 9 {
          assert x == 8;
        } else {
          assert x == 9;
        }
      } else {
        if x < 11 {
          assert x == 10;
        } else {
          assert x == 11;
        }
      }
    } else {
      if x < 14 {
        if x < 13 {
          assert x == 12;
        } else {
          assert x == 13;
        }
      } else {
        if x < 15 {
          assert x == 14;
        } else {
          assert x == 15;
        }
      }
    }
  }


  lemma Row2(x: Byte)
    requires 16 <= x < 24
    ensures CrcTable[x] == Entry(x)
  {
    EntryRow2();
    ConstRow2();
    if x < 20 {
      if x < 18 {
        if x < 17 {
          assert x == 16;
        } else {
          assert x == 17;
        }
      } else {
        if x < 19 {
          assert x == 18;
        } else {
          assert x == 19;
        }
      }
    } else {
      if x < 22 {
        if x < 21 {
          assert x == 20;
        } else {
          assert x == 21;
        }
      } else {
        if x < 23 {
          assert x == 22;
        } else {
          assert x == 23;
        }
      }
    }
  }


  lemma Row3(x: Byte)
    requires 24 <= x < 32
    ensures CrcTable[x] == Entry(x)
  {
    EntryRow3();
    ConstRow3();
    if x < 28 {
      if x < 26 {
        if x < 25 {
          assert x == 24;
        } else {
          assert x == 25;
        }
      } else {
        if x < 27 {
          assert x == 26;
        } else {
          assert x == 27;
        }
      }
    } else {
      if x < 30 {
        if x < 29 {
          assert x == 28;
        } else {
          assert x == 29;
        }
      } else {
        if x < 31 {
          assert x == 30;
        } else {
          assert x == 31;
        }
      }
    }
  }


  lemma Row4(x: Byte)
    requires 32 <= x < 40
    ensures CrcTable[x] == Entry(x)
  {
    EntryRow4();
    ConstRow4();
    if x < 36 {
      if x < 34 {
        if x < 33 {
          assert x == 32;
        } else {
          assert x == 33;
        }
      } else {
        if x < 35 {
          assert x == 34;
        } else {
          assert x == 35;
        }
      }
    } else {
      if x < 38 {
        if x < 37 {
          assert x == 36;
        } else {
          assert x == 37;
        }
      } else {
        if x < 39 {
          assert x == 38;
        } else {
          assert x == 39;
        }
      }
    }
  }


  lemma Row5(x: Byte)
    requires 40 <= x < 48
    ensures CrcTable[x] == Entry(x)
  {
    EntryRow5();
    ConstRow5();
    if x < 44 {
      if x < 42 {
        if x < 41 {
          assert x == 40;
        } else {
          assert x == 41;
        }
      } else {
        if x < 43 {
          assert x == 42;
        } else {
          assert x == 43;
        }
      }
    } else {
      if x < 46 {
        if x < 45 {
          assert x == 44;
        } else {
          assert x == 45;
        }
      } else {
        if x < 47 {
          assert x == 46;
        } else {
          assert x == 47;
        }
      }
    }
  }


  lemma Row6(x: Byte)
    requires 48 <= x < 56
    ensures CrcTable[x] == Entry(x)
  {
    EntryRow6();
    ConstRow6();
    if x < 52 {
      if x < 50 {
        if x < 49 {
          assert x == 48;
        } else {
          assert x == 49;
        }
      } else {
        if x < 51 {
          assert x == 50;
        } else {
          assert x == 51;
        }
      }
    } else {
      if x < 54 {
        if x < 53 {
          assert x == 52;
        } else {
          assert x == 53;
        }
      } else {
        if x < 55 {
          assert x == 54;
        } else {
          assert x == 55;
        }
      }
    }
  }


  lemma Row7(x: Byte)
    requires 56 <= x < 64
    ensures CrcTable[x] == Entry(x)
  {
    EntryRow7();
    ConstRow7();
    if x < 60 {
      if x < 58 {
        if x < 57 {
          assert x == 56;
        } else {
          assert x == 57;
        }
      } else {
        if x < 59 {
          assert x == 58;
        } else {
          assert x == 59;
        }
      }
    } else {
      if x < 62 {
        if x < 61 {
          assert x == 60;
        } else {
          assert x == 61;
        }
      } else {
        if x < 63 {
          assert x == 62;
        } else {
          assert x == 63;
        }
      }
    }
  }


  lemma Row8(x: Byte)
    requires 64 <= x < 72
    ensures CrcTable[x] == Entry(x)
  {
    EntryRow8();
    ConstRow8();
    if x < 68 {
      if x < 66 {
        if x < 65 {
          assert x == 64;
        } else {
          assert x == 65;
        }
      } else {
        if x < 67 {
          assert x == 66;
        } else {
          assert x == 67;
        }
      }
    } else {
      if x < 70 {
        if x < 69 {
          assert x == 68;
        } else {
          assert x == 69;
        }
      } else {
        if x < 71 {
          assert x == 70;
        } else {
          assert x == 71;
        }
      }
    }
  }


  lemma Row9(x: Byte)
    requires 72 <= x < 80
    ensures CrcTable[x] == Entry(x)
  {
    EntryRow9();
    ConstRow9();
    if x < 76 {
      if x < 74 {
        if x < 73 {
          assert x == 72;
        } else {
          assert x == 73;
        }
      } else {
        if x < 75 {
          assert x == 74;
        } else {
          assert x == 75;
        }
      }
    } else {
      if x < 78 {
        if x < 77 {
          assert x == 76;
        } else {
          assert x == 77;
        }
      } else {
        if x < 79 {
          assert x == 78;
        } else {
          assert x == 79;
        }
      }
    }
  }


  lemma Row10(x: Byte)
    requires 80 <= x < 88
    ensures CrcTable[x] == Entry(x)
  {
    EntryRow10();
    ConstRow10();
    if x < 84 {
      if x < 82 {
        if x < 81 {
          assert x == 80;
        } else {
          assert x == 81;
        }
      } else {
        if x < 83 {
          assert x == 82;
        } else {
          assert x == 83;
        }
      }
    } else {
      if x < 86 {
        if x < 85 {
          assert x == 84;
        } else {
          assert x == 85;
        }
      } else {
        if x < 87 {
          assert x == 86;
        } else {
          assert x == 87;
        }
      }
    }
  }


  lemma Row11(x: Byte)
    requires 88 <= x < 96
    ensures CrcTable[x] == Entry(x)
  {
    EntryRow11();
    ConstRow11();
    if x < 92 {
      if x < 90 {
        if x < 89 {
          assert x == 88;
        } else {
          assert x == 89;
        }
      } else {
        if x < 91 {
          assert x == 90;
        } else {
          assert x == 91;
        }
      }
    } else {
      if x < 94 {
        if x < 93 {
          assert x == 92;
        } else {
          assert x == 93;
        }
      } else {
        if x < 95 {
          assert x == 94;
        } else {
          assert x == 95;
        }
      }
    }
  }


  lemma Row12(x: Byte)
    requires 96 <= x < 104
    ensures CrcTable[x] == Entry(x)
  {
    EntryRow12();
    ConstRow12();
    if x < 100 {
      if x < 98 {
        if x < 97 {
          assert x == 96;
        } else {
          assert x == 97;
        }
      } else {
        if x < 99 {
          assert x == 98;
        } else {
          assert x == 99;
        }
      }
    } else {
      if x < 102 {
        if x < 101 {
          assert x == 100;
        } else {
          assert x == 101;
        }
      } else {
        if x < 103 {
          assert x == 102;
        } else {
          assert x == 103;
        }
      }
    }
  }


  lemma Row13(x: Byte)
    requires 104 <= x < 112
    ensures CrcTable[x] == Entry(x)
  {
    EntryRow13();
    ConstRow13();
    if x < 108 {
      if x < 106 {
        if x < 105 {
          assert x == 104;
        } else {
          assert x == 105;
        }
      } else {
        if x < 107 {
          assert x == 106;
        } else {
          assert x == 107;
        }
      }
    } else {
      if x < 110 {
        if x < 109 {
          assert x == 108;
        } else {
          assert x == 109;
        }
      } else {
        if x < 111 {
          assert x == 110;
        } else {
          assert x == 111;
        }
      }
    }
  }


  lemma Row14(x: Byte)
    requires 112 <= x < 120
    ensures CrcTable[x] == Entry(x)
  {
    EntryRow14();
    ConstRow14();
    if x < 116 {
      if x < 114 {
        if x < 113 {
          assert x == 112;
        } else {
          assert x == 113;
        }
      } else {
        if x < 115 {
          assert x == 114;
        } else {
          assert x == 115;
        }
      }
    } else {
      if x < 118 {
        if x < 117 {
          assert x == 116;
        } else {
          assert x == 117;
        }
      } else {
        if x < 119 {
          assert x == 118;
        } else {
          assert x == 119;
        }
      }
    }
  }


  lemma Row15(x: Byte)
    requires 120 <= x < 128
    ensures CrcTable[x] == Entry(x)
  {
    EntryRow15();
    ConstRow15();
    if x < 124 {
      if x < 122 {
        if x < 121 {
          assert x == 120;
        } else {
          assert x == 121;
        }
      } else {
        if x < 123 {
          assert x == 122;
        } else {
          assert x == 123;
        }
      }
    } else {
      if x < 126 {
        if x < 125 {
          assert x == 124;
        } else {
          assert x == 125;
        }
      } else {
        if x < 127 {
          assert x == 126;
        } else {
          assert x == 127;
        }
      }
    }
  }


  lemma Row16(x: Byte)
    requires 128 <= x < 136
    ensures CrcTable[x] == Entry(x)
  {
    EntryRow16();
    ConstRow16();
    if x < 132 {
      if x < 130 {
        if x < 129 {
          assert x == 128;
        } else {
          assert x == 129;
        }
      } else {
        if x < 131 {
          assert x == 130;
        } else {
          assert x == 131;
        }
      }
    } else {
      if x < 134 {
        if x < 133 {
          assert x == 132;
        } else {
          assert x == 133;
        }
      } else {
        if x < 135 {
          assert x == 134;
        } else {
          assert x == 135;
        }
      }
    }
  }


  lemma Row17(x: Byte)
    requires 136 <= x < 144
    ensures CrcTable[x] == Entry(x)
  {
    EntryRow17();
    ConstRow17();
    if x < 140 {
      if x < 138 {
        if x < 137 {
          assert x == 136;
        } else {
          assert x == 137;
        }
      } else {
        if x < 139 {
          assert x == 138;
        } else {
          assert x == 139;
        }
      }
    } else {
      if x < 142 {
        if x < 141 {
          assert x == 140;
        } else {
          assert x == 141;
        }
      } else {
        if x < 143 {
          assert x == 142;
        } else {
          assert x == 143;
        }
      }
    }
  }


  lemma Row18(x: Byte)
    requires 144 <= x < 152
    ensures CrcTable[x] == Entry(x)
  {
    EntryRow18();
    ConstRow18();
    if x < 148 {
      if x < 146 {
        if x < 145 {
          assert x == 144;
        } else {
          assert x == 145;
        }
      } else {
        if x < 147 {
          assert x == 146;
        } else {
          assert x == 147;
        }
      }
    } else {
      if x < 150 {
        if x < 149 {
          assert x == 148;
        } else {
          assert x == 149;
        }
      } else {
        if x < 151 {
          assert x == 150;
        } else {
          assert x == 151;
        }
      }
    }
  }


  lemma Row19(x: Byte)
    requires 152 <= x < 160
    ensures CrcTable[x] == Entry(x)
  {
    EntryRow19();
    ConstRow19();
    if x < 156 {
      if x < 154 {
        if x < 153 {
          assert x == 152;
        } else {
          assert x == 153;
        }
      } else {
        if x < 155 {
          assert x == 154;
        } else {
          assert x == 155;
        }
      }
    } else {
      if x < 158 {
        if x < 157 {
          assert x == 156;
        } else {
          assert x == 157;
        }
      } else {
        if x < 159 {
          assert x == 158;
        } else {
          assert x == 159;
        }
      }
    }
  }


  lemma Row20(x: Byte)
    requires 160 <= x < 168
    ensures CrcTable[x] == Entry(x)
  {
    EntryRow20();
    ConstRow20();
    if x < 164 {
      if x < 162 {
        if x < 161 {
          assert x == 160;
        } else {
          assert x == 161;
        }
      } else {
        if x < 163 {
          assert x == 162;
        } else {
          assert x == 163;
        }
      }
    } else {
      if x < 166 {
        if x < 165 {
          assert x == 164;
        } else {
          assert x == 165;
        }
      } else {
        if x < 167 {
          assert x == 166;
        } else {
          assert x == 167;
        }
      }
    }
  }


  lemma Row21(x: Byte)
    requires 168 <= x < 176
    ensures CrcTable[x] == Entry(x)
  {
    EntryRow21();
    ConstRow21();
    if x < 172 {
      if x < 170 {
        if x < 169 {
          assert x == 168;
        } else {
          assert x == 169;
        }
      } else {
        if x < 171 {
          assert x == 170;
        } else {
          assert x == 171;
        }
      }
    } else {
      if x < 174 {
        if x < 173 {
          assert x == 172;
        } else {
          assert x == 173;
        }
      } else {
        if x < 175 {
          assert x == 174;
        } else {
          assert x == 175;
        }
      }
    }
  }


  lemma Row22(x: Byte)
    requires 176 <= x < 184
    ensures CrcTable[x] == Entry(x)
  {
    EntryRow22();
    ConstRow22();
    if x < 180 {
      if x < 178 {
        if x < 177 {
          assert x == 176;
        } else {
          assert x == 177;
        }
      } else {
        if x < 179 {
          assert x == 178;
        } else {
          assert x == 179;
        }
      }
    } else {
      if x < 182 {
        if x < 181 {
          assert x == 180;
        } else {
          assert x == 181;
        }
      } else {
        if x < 183 {
          assert x == 182;
        } else {
          assert x == 183;
        }
      }
    }
  }


  lemma Row23(x: Byte)
    requires 184 <= x < 192
    ensures CrcTable[x] == Entry(x)
  {
    EntryRow23();
    ConstRow23();
    if x < 188 {
      if x < 186 {
        if x < 185 {
          assert x == 184;
        } else {
          assert x == 185;
        }
      } else {
        if x < 187 {
          assert x == 186;
        } else {
          assert x == 187;
        }
      }
    } else {
      if x < 190 {
        if x < 189 {
          assert x == 188;
        } else {
          assert x == 189;
        }
      } else {
        if x < 191 {
          assert x == 190;
        } else {
          assert x == 191;
        }
      }
    }
  }


  lemma Row24(x: Byte)
    requires 192 <= x < 200
    ensures CrcTable[x] == Entry(x)
  {
    EntryRow24();
    ConstRow24();
    if x < 196 {
      if x < 194 {
        if x < 193 {
          assert x == 192;
        } else {
          assert x == 193;
        }
      } else {
        if x < 195 {
          assert x == 194;
        } else {
          assert x == 195;
        }
      }
    } else {
      if x < 198 {
        if x < 197 {
          assert x == 196;
        } else {
          assert x == 197;
        }
      } else {
        if x < 199 {
          assert x == 198;
        } else {
          assert x == 199;
        }
      }
    }
  }


  lemma Row25(x: Byte)
    requires 200 <= x < 208
    ensures CrcTable[x] == Entry(x)
  {
    EntryRow25();
    ConstRow25();
    if x < 204 {
      if x < 202 {
        if x < 201 {
          assert x == 200;
        } else {
          assert x == 201;
        }
      } else {
        if x < 203 {
          assert x == 202;
        } else {
          assert x == 203;
        }
      }
    } else {
      if x < 206 {
        if x < 205 {
          assert x == 204;
        } else {
          assert x == 205;
        }
      } else {
        if x < 207 {
          assert x == 206;
        } else {
          assert x == 207;
        }
      }
    }
  }


  lemma Row26(x: Byte)
    requires 208 <= x < 216
    ensures CrcTable[x] == Entry(x)
  {
    EntryRow26();
    ConstRow26();
    if x < 212 {
      if x < 210 {
        if x < 209 {
          assert x == 208;
        } else {
          assert x == 209;
        }
      } else {
        if x < 211 {
          assert x == 210;
        } else {
          assert x == 211;
        }
      }
    } else {
      if x < 214 {
        if x < 213 {
          assert x == 212;
        } else {
          assert x == 213;
        }
      } else {
        if x < 215 {
          assert x == 214;
        } else {
          assert x == 215;
        }
      }
    }
  }


  lemma Row27(x: Byte)
    requires 216 <= x < 224
    ensures CrcTable[x] == Entry(x)
  {
    EntryRow27();
    ConstRow27();
    if x < 220 {
      if x < 218 {
        if x < 217 {
          assert x == 216;
        } else {
          assert x == 217;
        }
      } else {
        if x < 219 {
          assert x == 218;
        } else {
          assert x == 219;
        }
      }
    } else {
      if x < 222 {
        if x < 221 {
          assert x == 220;
        } else {
          assert x == 221;
        }
      } else {
        if x < 223 {
          assert x == 222;
        } else {
          assert x == 223;
        }
      }
    }
  }


  lemma Row28(x: Byte)
    requires 224 <= x < 232
    ensures CrcTable[x] == Entry(x)
  {
    EntryRow28();
    ConstRow28();
    if x < 228 {
      if x < 226 {
        if x < 225 {
          assert x == 224;
        } else {
          assert x == 225;
        }
      } else {
        if x < 227 {
          assert x == 226;
        } else {
          assert x == 227;
        }
      }
    } else {
      if x < 230 {
        if x < 229 {
          assert x == 228;
        } else {
          assert x == 229;
        }
      } else {
        if x < 231 {
          assert x == 230;
        } else {
          assert x == 231;
        }
      }
    }
  }


  lemma Row29(x: Byte)
    requires 232 <= x < 240
    ensures CrcTable[x] == Entry(x)
  {
    EntryRow29();
    ConstRow29();
    if x < 236 {
      if x < 234 {
        if x < 233 {
          assert x == 232;
        } else {
          assert x == 233;
        }
      } else {
        if x < 235 {
          assert x == 234;
        } else {
          assert x == 235;
        }
      }
    } else {
      if x < 238 {
        if x < 237 {
          assert x == 236;
        } else {
          assert x == 237;
        }
      } else {
        if x < 239 {
          assert x == 238;
        } else {
          assert x == 239;
        }
      }
    }
  }


  lemma Row30(x: Byte)
    requires 240 <= x < 248
    ensures CrcTable[x] == Entry(x)
  {
    EntryRow30();
    ConstRow30();
    if x < 244 {
      if x < 242 {
        if x < 241 {
          assert x == 240;
        } else {
          assert x == 241;
        }
      } else {
        if x < 243 {
          assert x == 242;
        } else {
          assert x == 243;
        }
      }
    } else {
      if x < 246 {
        if x < 245 {
          assert x == 244;
        } else {
          assert x == 245;
        }
      } else {
        if x < 247 {
          assert x == 246;
        } else {
          assert x == 247;
        }
      }
    }
  }


  lemma Row31(x: Byte)
    requires 248 <= x
    ensures CrcTable[x] == Entry(x)
  {
    EntryRow31();
    ConstRow31();
    if x < 252 {
      if x < 250 {
        if x < 249 {
          assert x == 248;
        } else {
          assert x == 249;
        }
      } else {
        if x < 251 {
          assert x == 250;
        } else {
          assert x == 251;
        }
      }
    } else {
      if x < 254 {
        if x < 253 {
          assert x == 252;
        } else {
          assert x == 253;
        }
      } else {
        if x < 255 {
          assert x == 254;
        } else {
          assert x == 255;
        }
      }
    }
  }

  /** Every table entry is eight bit steps from its index; for example entry 128 is the polynomial. */
  lemma TableAt(x: Byte)
    ensures CrcTable[x] == Entry(x)
  {
    if x < 128 {
      if x < 64 {
        if x < 32 {
          if x < 16 {
            if x < 8 {
              Row0(x);
            } else {
              Row1(x);
            }
          } else {
            if x < 24 {
              Row2(x);
            } else {
              Row3(x);
            }
          }
        } else {
          if x < 48 {
            if x < 40 {
              Row4(x);
            } else {
              Row5(x);
            }
          } else {
            if x < 56 {
              Row6(x);
            } else {
              Row7(x);
            }
          }
        }
      } else {
        if x < 96 {
          if x < 80 {
            if x < 72 {
              Row8(x);
            } else {
              Row9(x);
            }
          } else {
            if x < 88 {
              Row10(x);
            } else {
              Row11(x);
            }
          }
        } else {
          if x < 112 {
            if x < 104 {
              Row12(x);
            } else {
              Row13(x);
            }
          } else {
            if x < 120 {
              Row14(x);
            } else {
              Row15(x);
            }
          }
        }
      }
    } else {
      if x < 192 {
        if x < 160 {
          if x < 144 {
            if x < 136 {
              Row16(x);
            } else {
              Row17(x);
            }
          } else {
            if x < 152 {
              Row18(x);
            } else {
              Row19(x);
            }
          }
        } else {
          if x < 176 {
            if x < 168 {
              Row20(x);
            } else {
              Row21(x);
            }
          } else {
            if x < 184 {
              Row22(x);
            } else {
              Row23(x);
            }
          }
        }
      } else {
        if x < 224 {
          if x < 208 {
            if x < 200 {
              Row24(x);
            } else {
              Row25(x);
            }
          } else {
            if x < 216 {
              Row26(x);
            } else {
              Row27(x);
            }
          }
        } else {
          if x < 240 {
            if x < 232 {
              Row28(x);
            } else {
              Row29(x);
            }
          } else {
            if x < 248 {
              Row30(x);
            } else {
              Row31(x);
            }
          }
        }
      }
    }
  }

  /** Entry 128 is the polynomial itself. */
  lemma Entry128()
    ensures CrcTable[128] == POLYNOMIAL && Entry(128) == POLYNOMIAL
  {
    TableAt(128);
    EntryRow16();
  }

  /** `crc32_table[x]`. */
  method Lookup(x: Byte) returns (e: bv32)
    ensures e == Entry(x)
  {
    e := CrcTable[x];
    TableAt(x);
  }
}

/**
 * `calculate_crc32`: register preset to 0xFFFFFFFF, one table-driven step per
 * byte, final complement.
 */
module Crc32 {
  import opened CrcBits
  import opened CrcTable

  /** The table index for register `c` and input byte `b`: `(crc ^ byte) & 0xFF`. */
  function Index(c: bv32, b: Byte): Byte
  {
    ((c ^ (b as bv32)) & 0xFF) as Byte
  }

  /** One table-driven step of `calculate_crc32`: the table entry for the index, XOR the shifted register. */
  function Update(c: bv32, b: Byte): bv32
  {
    Entry(Index(c, b)) ^ (c >> 8)
  }

  /** The register after feeding `data` to register `c`, one byte at a time from the left. */
  function Register(c: bv32, data: seq<Byte>): bv32
  {
    if data == [] then c else Update(Register(c, data[..|data| - 1]), data[|data| - 1])
  }

  /** The CRC-32 of `data`: preset to all ones, fold, complement. */
  function Crc(data: seq<Byte>): (r: bv32)
    ensures data == [] ==> r == 0
  {
    Register(0xFFFF_FFFF, data) ^ 0xFFFF_FFFF
  }

  /** One more byte: the register of a longer prefix is one `Update` away. */
  lemma RegisterStep(c: bv32, data: seq<Byte>, i: nat)
    requires i < |data|
    ensures Register(c, data[..i + 1]) == Update(Register(c, data[..i]), data[i])
  {
    assert data[..i + 1][..i] == data[..i];
  }

  /** The loop of `calculate_crc32`: feeds every byte to the register `c`. */
  method Fold(c: bv32, data: seq<Byte>) returns (crc: bv32)
    ensures crc == Register(c, data)
  {
    crc := c;
    var i := 0;
    while i < |data|
      invariant i <= |data|
      invariant crc == Register(c, data[..i])
    {
      ghost var prev := crc;
      var e := Lookup(Index(crc, data[i]));
      RegisterStep(c, data, i);
      crc := e ^ (crc >> 8);
      assert crc == Update(prev, data[i]);
      i := i + 1;
    }
    assert data[..i] == data;
  }

  /** `calculate_crc32`: preset, fold, complement. */
  method CalculateCrc32(data: seq<Byte>) returns (crc: bv32)
    ensures crc == Crc(data)
  {
    crc := Fold(0xFFFF_FFFF, data);
    crc := crc ^ 0xFFFF_FFFF;
  }

  /** The empty input has CRC 0. */
  lemma CrcEmpty()
    ensures Crc([]) == 0
  {
  }

  /** Feeding `a ++ b` is feeding `b` to the register left by `a`. */
  lemma {:induction false} RegisterAppend(c: bv32, a: seq<Byte>, b: seq<Byte>)
    ensures Register(c, a + b) == Register(Register(c, a), b)
  {
    if b == [] {
      assert a + b == a;
    } else {
      var ab := a + b;
      assert ab[..|ab| - 1] == a + b[..|b| - 1];
      assert ab[|ab| - 1] == b[|b| - 1];
      RegisterAppend(c, a, b[..|b| - 1]);
    }
  }

  /** The ASCII digits `123456789`, the standard CRC-32 check input. */
  const CHECK_INPUT: seq<Byte> := [0x31, 0x32, 0x33, 0x34, 0x35, 0x36, 0x37, 0x38, 0x39]

  /** The registers after each byte of the check input. */
  lemma CheckSteps()
    ensures Update(0xFFFFFFFF, 0x31) == 0x7C231048
    ensures Update(0x7C231048, 0x32) == 0xB0ACBB32
    ensures Update(0xB0ACBB32, 0x33) == 0x77B79C2D
    ensures Update(0x77B79C2D, 0x34) == 0x641C1F5C
    ensures Update(0x641C1F5C, 0x35) == 0x340AC5E3
    ensures Update(0x340AC5E3, 0x36) == 0xF68D2C9E
    ensures Update(0xF68D2C9E, 0x37) == 0xAFFC9660
    ensures Update(0xAFFC9660, 0x38) == 0x651F2550
    ensures Update(0x651F2550, 0x39) == 0x340BC6D9
  {
    EntryRow25();
    EntryRow15();
    EntryRow0();
    EntryRow3();
    EntryRow13();
    EntryRow26();
    EntryRow21();
    EntryRow11();
    EntryRow13();
  }

  /** A known register after `k` bytes and a known step give the register after `k + 1`. */
  lemma StepFrom(c: bv32, data: seq<Byte>, k: nat, r: bv32, r': bv32)
    requires k < |data| && Register(c, data[..k]) == r && Update(r, data[k]) == r'
    ensures Register(c, data[..k + 1]) == r'
  {
    RegisterStep(c, data, k);
  }

  lemma CheckChain(d: seq<Byte>)
    requires d == CHECK_INPUT
    ensures Crc(d) == 0xCBF4_3926
  {
    CheckSteps();
    assert d[..0] == [];
    StepFrom(0xFFFF_FFFF, d, 0, 0xFFFFFFFF, 0x7C231048);
    StepFrom(0xFFFF_FFFF, d, 1, 0x7C231048, 0xB0ACBB32);
    StepFrom(0xFFFF_FFFF, d, 2, 0xB0ACBB32, 0x77B79C2D);
    StepFrom(0xFFFF_FFFF, d, 3, 0x77B79C2D, 0x641C1F5C);
    StepFrom(0xFFFF_FFFF, d, 4, 0x641C1F5C, 0x340AC5E3);
    StepFrom(0xFFFF_FFFF, d, 5, 0x340AC5E3, 0xF68D2C9E);
    StepFrom(0xFFFF_FFFF, d, 6, 0xF68D2C9E, 0xAFFC9660);
    StepFrom(0xFFFF_FFFF, d, 7, 0xAFFC9660, 0x651F2550);
    StepFrom(0xFFFF_FFFF, d, 8, 0x651F2550, 0x340BC6D9);
    assert d[..9] == d;
  }

  /** The CRC-32 of `123456789` is the standard check value 0xCBF43926. */
  lemma CheckValue()
    ensures Crc(CHECK_INPUT) == 0xCBF4_3926
  {
    CheckChain(CHECK_INPUT);
  }
}
