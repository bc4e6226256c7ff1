/** The FCS lookup table of the tool's checksum routine, and the proof that
    every entry is what the bit-serial CRC register (reflected polynomial
    0x8408, i.e. x^16 + x^12 + x^5 + 1) produces from that index in eight
    shifts. The table is written one constant per line of eight entries, in
    the order of the original table. */
module CrcTable {

  /** One shift of the reflected CRC-16/X-25 register. */
  function ShiftRound(c: bv16): bv16
  {
    if c & 1 == 1 then (c >> 1) ^ 0x8408 else c >> 1
  }

  /** Eight shifts: the effect of one input byte on the register. */
  function EightRounds(c: bv16): bv16
  {
    ShiftRound(ShiftRound(ShiftRound(ShiftRound(ShiftRound(ShiftRound(ShiftRound(ShiftRound(c))))))))
  }

  const FcsRow00: seq<bv16> := [0x0000, 0x1189, 0x2312, 0x329b, 0x4624, 0x57ad, 0x6536, 0x74bf]
  const FcsRow01: seq<bv16> := [0x8c48, 0x9dc1, 0xaf5a, 0xbed3, 0xca6c, 0xdbe5, 0xe97e, 0xf8f7]
  const FcsRow02: seq<bv16> := [0x1081, 0x0108, 0x3393, 0x221a, 0x56a5, 0x472c, 0x75b7, 0x643e]
  const FcsRow03: seq<bv16> := [0x9cc9, 0x8d40, 0xbfdb, 0xae52, 0xdaed, 0xcb64, 0xf9ff, 0xe876]
  const FcsRow04: seq<bv16> := [0x2102, 0x308b, 0x0210, 0x1399, 0x6726, 0x76af, 0x4434, 0x55bd]
  const FcsRow05: seq<bv16> := [0xad4a, 0xbcc3, 0x8e58, 0x9fd1, 0xeb6e, 0xfae7, 0xc87c, 0xd9f5]
  const FcsRow06: seq<bv16> := [0x3183, 0x200a, 0x1291, 0x0318, 0x77a7, 0x662e, 0x54b5, 0x453c]
  const FcsRow07: seq<bv16> := [0xbdcb, 0xac42, 0x9ed9, 0x8f50, 0xfbef, 0xea66, 0xd8fd, 0xc974]
  const FcsRow08: seq<bv16> := [0x4204, 0x538d, 0x6116, 0x709f, 0x0420, 0x15a9, 0x2732, 0x36bb]
  const FcsRow09: seq<bv16> := [0xce4c, 0xdfc5, 0xed5e, 0xfcd7, 0x8868, 0x99e1, 0xab7a, 0xbaf3]
  const FcsRow10: seq<bv16> := [0x5285, 0x430c, 0x7197, 0x601e, 0x14a1, 0x0528, 0x37b3, 0x263a]
  const FcsRow11: seq<bv16> := [0xdecd, 0xcf44, 0xfddf, 0xec56, 0x98e9, 0x8960, 0xbbfb, 0xaa72]
  const FcsRow12: seq<bv16> := [0x6306, 0x728f, 0x4014, 0x519d, 0x2522, 0x34ab, 0x0630, 0x17b9]
  const FcsRow13: seq<bv16> := [0xef4e, 0xfec7, 0xcc5c, 0xddd5, 0xa96a, 0xb8e3, 0x8a78, 0x9bf1]
  const FcsRow14: seq<bv16> := [0x7387, 0x620e, 0x5095, 0x411c, 0x35a3, 0x242a, 0x16b1, 0x0738]
  const FcsRow15: seq<bv16> := [0xffcf, 0xee46, 0xdcdd, 0xcd54, 0xb9eb, 0xa862, 0x9af9, 0x8b70]
  const FcsRow16: seq<bv16> := [0x8408, 0x9581, 0xa71a, 0xb693, 0xc22c, 0xd3a5, 0xe13e, 0xf0b7]
  const FcsRow17: seq<bv16> := [0x0840, 0x19c9, 0x2b52, 0x3adb, 0x4e64, 0x5fed, 0x6d76, 0x7cff]
  const FcsRow18: seq<bv16> := [0x9489, 0x8500, 0xb79b, 0xa612, 0xd2ad, 0xc324, 0xf1bf, 0xe036]
  const FcsRow19: seq<bv16> := [0x18c1, 0x0948, 0x3bd3, 0x2a5a, 0x5ee5, 0x4f6c, 0x7df7, 0x6c7e]
  const FcsRow20: seq<bv16> := [0xa50a, 0xb483, 0x8618, 0x9791, 0xe32e, 0xf2a7, 0xc03c, 0xd1b5]
  const FcsRow21: seq<bv16> := [0x2942, 0x38cb, 0x0a50, 0x1bd9, 0x6f66, 0x7eef, 0x4c74, 0x5dfd]
  const FcsRow22: seq<bv16> := [0xb58b, 0xa402, 0x9699, 0x8710, 0xf3af, 0xe226, 0xd0bd, 0xc134]
  const FcsRow23: seq<bv16> := [0x39c3, 0x284a, 0x1ad1, 0x0b58, 0x7fe7, 0x6e6e, 0x5cf5, 0x4d7c]
  const FcsRow24: seq<bv16> := [0xc60c, 0xd785, 0xe51e, 0xf497, 0x8028, 0x91a1, 0xa33a, 0xb2b3]
  const FcsRow25: seq<bv16> := [0x4a44, 0x5bcd, 0x6956, 0x78df, 0x0c60, 0x1de9, 0x2f72, 0x3efb]
  const FcsRow26: seq<bv16> := [0xd68d, 0xc704, 0xf59f, 0xe416, 0x90a9, 0x8120, 0xb3bb, 0xa232]
  const FcsRow27: seq<bv16> := [0x5ac5, 0x4b4c, 0x79d7, 0x685e, 0x1ce1, 0x0d68, 0x3ff3, 0x2e7a]
  const FcsRow28: seq<bv16> := [0xe70e, 0xf687, 0xc41c, 0xd595, 0xa12a, 0xb0a3, 0x8238, 0x93b1]
  const FcsRow29: seq<bv16> := [0x6b46, 0x7acf, 0x4854, 0x59dd, 0x2d62, 0x3ceb, 0x0e70, 0x1ff9]
  const FcsRow30: seq<bv16> := [0xf78f, 0xe606, 0xd49d, 0xc514, 0xb1ab, 0xa022, 0x92b9, 0x8330]
  const FcsRow31: seq<bv16> := [0x7bc7, 0x6a4e, 0x58d5, 0x495c, 0x3de3, 0x2c6a, 0x1ef1, 0x0f78]

  /** `fcstable`: the 256 entries above, in order. */
  const FcsTable: seq<bv16> :=
    (((((FcsRow00 + FcsRow01) + (FcsRow02 + FcsRow03)) + ((FcsRow04 + FcsRow05) + (FcsRow06 + FcsRow07))) + (((FcsRow08 + FcsRow09) + (FcsRow10 + FcsRow11)) + ((FcsRow12 + FcsRow13) + (FcsRow14 + FcsRow15)))) + ((((FcsRow16 + FcsRow17) + (FcsRow18 + FcsRow19)) + ((FcsRow20 + FcsRow21) + (FcsRow22 + FcsRow23))) + (((FcsRow24 + FcsRow25) + (FcsRow26 + FcsRow27)) + ((FcsRow28 + FcsRow29) + (FcsRow30 + FcsRow31)))))

  /** Every entry of the table is generated from its index by the register. */
  lemma {:induction false} TableIsGenerated(x: bv8)
    ensures |FcsTable| == 256
    ensures FcsTable[x as int] == EightRounds(x as bv16)
  {
    if x < 128 {
      if x < 64 {
        if x < 32 {
          if x < 16 {
            if x < 8 {
              TableRow00(x);
            } else {
              TableRow01(x);
            }
          } else {
            if x < 24 {
              TableRow02(x);
            } else {
              TableRow03(x);
            }
          }
        } else {
          if x < 48 {
            if x < 40 {
              TableRow04(x);
            } else {
              TableRow05(x);
            }
          } else {
            if x < 56 {
              TableRow06(x);
            } else {
              TableRow07(x);
            }
          }
        }
      } else {
        if x < 96 {
          if x < 80 {
            if x < 72 {
              TableRow08(x);
            } else {
              TableRow09(x);
            }
          } else {
            if x < 88 {
              TableRow10(x);
            } else {
              TableRow11(x);
            }
          }
        } else {
          if x < 112 {
            if x < 104 {
              TableRow12(x);
            } else {
              TableRow13(x);
            }
          } else {
            if x < 120 {
              TableRow14(x);
            } else {
              TableRow15(x);
            }
          }
        }
      }
    } else {
      if x < 192 {
        if x < 160 {
          if x < 144 {
            if x < 136 {
              TableRow16(x);
            } else {
              TableRow17(x);
            }
          } else {
            if x < 152 {
              TableRow18(x);
            } else {
              TableRow19(x);
            }
          }
        } else {
          if x < 176 {
            if x < 168 {
              TableRow20(x);
            } else {
              TableRow21(x);
            }
          } else {
            if x < 184 {
              TableRow22(x);
            } else {
              TableRow23(x);
            }
          }
        }
      } else {
        if x < 224 {
          if x < 208 {
            if x < 200 {
              TableRow24(x);
            } else {
              TableRow25(x);
            }
          } else {
            if x < 216 {
              TableRow26(x);
            } else {
              TableRow27(x);
            }
          }
        } else {
          if x < 240 {
            if x < 232 {
              TableRow28(x);
            } else {
              TableRow29(x);
            }
          } else {
            if x < 248 {
              TableRow30(x);
            } else {
              TableRow31(x);
            }
          }
        }
      }
    }
  }

  /** Entries 0 to 7 of the table are row 00. */
  lemma TableRow00(x: bv8)
    requires 0 <= x < 8
    ensures FcsTable[x as int] == EightRounds(x as bv16)
  {
    Row00(x);
  }

  lemma Row00(x: bv8)
    requires 0 <= x < 8
    ensures FcsRow00[(x - 0) as int] == EightRounds(x as bv16)
  {
    if x < 4 {
      if x < 2 {
        if x < 1 {
          assert x == 0 && EightRounds(0) == 0x0000;
        } else {
          assert x == 1 && EightRounds(1) == 0x1189;
        }
      } else {
        if x < 3 {
          assert x == 2 && EightRounds(2) == 0x2312;
        } else {
          assert x == 3 && EightRounds(3) == 0x329b;
        }
      }
    } else {
      if x < 6 {
        if x < 5 {
          assert x == 4 && EightRounds(4) == 0x4624;
        } else {
          assert x == 5 && EightRounds(5) == 0x57ad;
        }
      } else {
        if x < 7 {
          assert x == 6 && EightRounds(6) == 0x6536;
        } else {
          assert x == 7 && EightRounds(7) == 0x74bf;
        }
      }
    }
  }

  /** Entries 8 to 15 of the table are row 01. */
  lemma TableRow01(x: bv8)
    requires 8 <= x < 16
    ensures FcsTable[x as int] == EightRounds(x as bv16)
  {
    Row01(x);
  }

  lemma Row01(x: bv8)
    requires 8 <= x < 16
    ensures FcsRow01[(x - 8) as int] == EightRounds(x as bv16)
  {
    if x < 12 {
      if x < 10 {
        if x < 9 {
          assert x == 8 && EightRounds(8) == 0x8c48;
        } else {
          assert x == 9 && EightRounds(9) == 0x9dc1;
        }
      } else {
        if x < 11 {
          assert x == 10 && EightRounds(10) == 0xaf5a;
        } else {
          assert x == 11 && EightRounds(11) == 0xbed3;
        }
      }
    } else {
      if x < 14 {
        if x < 13 {
          assert x == 12 && EightRounds(12) == 0xca6c;
        } else {
          assert x == 13 && EightRounds(13) == 0xdbe5;
        }
      } else {
        if x < 15 {
          assert x == 14 && EightRounds(14) == 0xe97e;
        } else {
          assert x == 15 && EightRounds(15) == 0xf8f7;
        }
      }
    }
  }

  /** Entries 16 to 23 of the table are row 02. */
  lemma TableRow02(x: bv8)
    requires 16 <= x < 24
    ensures FcsTable[x as int] == EightRounds(x as bv16)
  {
    Row02(x);
  }

  lemma Row02(x: bv8)
    requires 16 <= x < 24
    ensures FcsRow02[(x - 16) as int] == EightRounds(x as bv16)
  {
    if x < 20 {
      if x < 18 {
        if x < 17 {
          assert x == 16 && EightRounds(16) == 0x1081;
        } else {
          assert x == 17 && EightRounds(17) == 0x0108;
        }
      } else {
        if x < 19 {
          assert x == 18 && EightRounds(18) == 0x3393;
        } else {
          assert x == 19 && EightRounds(19) == 0x221a;
        }
      }
    } else {
      if x < 22 {
        if x < 21 {
          assert x == 20 && EightRounds(20) == 0x56a5;
        } else {
          assert x == 21 && EightRounds(21) == 0x472c;
        }
      } else {
        if x < 23 {
          assert x == 22 && EightRounds(22) == 0x75b7;
        } else {
          assert x == 23 && EightRounds(23) == 0x643e;
        }
      }
    }
  }

  /** Entries 24 to 31 of the table are row 03. */
  lemma TableRow03(x: bv8)
    requires 24 <= x < 32
    ensures FcsTable[x as int] == EightRounds(x as bv16)
  {
    Row03(x);
  }

  lemma Row03(x: bv8)
    requires 24 <= x < 32
    ensures FcsRow03[(x - 24) as int] == EightRounds(x as bv16)
  {
    if x < 28 {
      if x < 26 {
        if x < 25 {
          assert x == 24 && EightRounds(24) == 0x9cc9;
        } else {
          assert x == 25 && EightRounds(25) == 0x8d40;
        }
      } else {
        if x < 27 {
          assert x == 26 && EightRounds(26) == 0xbfdb;
        } else {
          assert x == 27 && EightRounds(27) == 0xae52;
        }
      }
    } else {
      if x < 30 {
        if x < 29 {
          assert x == 28 && EightRounds(28) == 0xdaed;
        } else {
          assert x == 29 && EightRounds(29) == 0xcb64;
        }
      } else {
        if x < 31 {
          assert x == 30 && EightRounds(30) == 0xf9ff;
        } else {
          assert x == 31 && EightRounds(31) == 0xe876;
        }
      }
    }
  }

  /** Entries 32 to 39 of the table are row 04. */
  lemma TableRow04(x: bv8)
    requires 32 <= x < 40
    ensures FcsTable[x as int] == EightRounds(x as bv16)
  {
    Row04(x);
  }

  lemma Row04(x: bv8)
    requires 32 <= x < 40
    ensures FcsRow04[(x - 32) as int] == EightRounds(x as bv16)
  {
    if x < 36 {
      if x < 34 {
        if x < 33 {
          assert x == 32 && EightRounds(32) == 0x2102;
        } else {
          assert x == 33 && EightRounds(33) == 0x308b;
        }
      } else {
        if x < 35 {
          assert x == 34 && EightRounds(34) == 0x0210;
        } else {
          assert x == 35 && EightRounds(35) == 0x1399;
        }
      }
    } else {
      if x < 38 {
        if x < 37 {
          assert x == 36 && EightRounds(36) == 0x6726;
        } else {
          assert x == 37 && EightRounds(37) == 0x76af;
        }
      } else {
        if x < 39 {
          assert x == 38 && EightRounds(38) == 0x4434;
        } else {
          assert x == 39 && EightRounds(39) == 0x55bd;
        }
      }
    }
  }

  /** Entries 40 to 47 of the table are row 05. */
  lemma TableRow05(x: bv8)
    requires 40 <= x < 48
    ensures FcsTable[x as int] == EightRounds(x as bv16)
  {
    Row05(x);
  }

  lemma Row05(x: bv8)
    requires 40 <= x < 48
    ensures FcsRow05[(x - 40) as int] == EightRounds(x as bv16)
  {
    if x < 44 {
      if x < 42 {
        if x < 41 {
          assert x == 40 && EightRounds(40) == 0xad4a;
        } else {
          assert x == 41 && EightRounds(41) == 0xbcc3;
        }
      } else {
        if x < 43 {
          assert x == 42 && EightRounds(42) == 0x8e58;
        } else {
          assert x == 43 && EightRounds(43) == 0x9fd1;
        }
      }
    } else {
      if x < 46 {
        if x < 45 {
          assert x == 44 && EightRounds(44) == 0xeb6e;
        } else {
          assert x == 45 && EightRounds(45) == 0xfae7;
        }
      } else {
        if x < 47 {
          assert x == 46 && EightRounds(46) == 0xc87c;
        } else {
          assert x == 47 && EightRounds(47) == 0xd9f5;
        }
      }
    }
  }

  /** Entries 48 to 55 of the table are row 06. */
  lemma TableRow06(x: bv8)
    requires 48 <= x < 56
    ensures FcsTable[x as int] == EightRounds(x as bv16)
  {
    Row06(x);
  }

  lemma Row06(x: bv8)
    requires 48 <= x < 56
    ensures FcsRow06[(x - 48) as int] == EightRounds(x as bv16)
  {
    if x < 52 {
      if x < 50 {
        if x < 49 {
          assert x == 48 && EightRounds(48) == 0x3183;
        } else {
          assert x == 49 && EightRounds(49) == 0x200a;
        }
      } else {
        if x < 51 {
          assert x == 50 && EightRounds(50) == 0x1291;
        } else {
          assert x == 51 && EightRounds(51) == 0x0318;
        }
      }
    } else {
      if x < 54 {
        if x < 53 {
          assert x == 52 && EightRounds(52) == 0x77a7;
        } else {
          assert x == 53 && EightRounds(53) == 0x662e;
        }
      } else {
        if x < 55 {
          assert x == 54 && EightRounds(54) == 0x54b5;
        } else {
          assert x == 55 && EightRounds(55) == 0x453c;
        }
      }
    }
  }

  /** Entries 56 to 63 of the table are row 07. */
  lemma TableRow07(x: bv8)
    requires 56 <= x < 64
    ensures FcsTable[x as int] == EightRounds(x as bv16)
  {
    Row07(x);
  }

  lemma Row07(x: bv8)
    requires 56 <= x < 64
    ensures FcsRow07[(x - 56) as int] == EightRounds(x as bv16)
  {
    if x < 60 {
      if x < 58 {
        if x < 57 {
          assert x == 56 && EightRounds(56) == 0xbdcb;
        } else {
          assert x == 57 && EightRounds(57) == 0xac42;
        }
      } else {
        if x < 59 {
          assert x == 58 && EightRounds(58) == 0x9ed9;
        } else {
          assert x == 59 && EightRounds(59) == 0x8f50;
        }
      }
    } else {
      if x < 62 {
        if x < 61 {
          assert x == 60 && EightRounds(60) == 0xfbef;
        } else {
          assert x == 61 && EightRounds(61) == 0xea66;
        }
      } else {
        if x < 63 {
          assert x == 62 && EightRounds(62) == 0xd8fd;
        } else {
          assert x == 63 && EightRounds(63) == 0xc974;
        }
      }
    }
  }

  /** Entries 64 to 71 of the table are row 08. */
  lemma TableRow08(x: bv8)
    requires 64 <= x < 72
    ensures FcsTable[x as int] == EightRounds(x as bv16)
  {
    Row08(x);
  }

  lemma Row08(x: bv8)
    requires 64 <= x < 72
    ensures FcsRow08[(x - 64) as int] == EightRounds(x as bv16)
  {
    if x < 68 {
      if x < 66 {
        if x < 65 {
          assert x == 64 && EightRounds(64) == 0x4204;
        } else {
          assert x == 65 && EightRounds(65) == 0x538d;
        }
      } else {
        if x < 67 {
          assert x == 66 && EightRounds(66) == 0x6116;
        } else {
          assert x == 67 && EightRounds(67) == 0x709f;
        }
      }
    } else {
      if x < 70 {
        if x < 69 {
          assert x == 68 && EightRounds(68) == 0x0420;
        } else {
          assert x == 69 && EightRounds(69) == 0x15a9;
        }
      } else {
        if x < 71 {
          assert x == 70 && EightRounds(70) == 0x2732;
        } else {
          assert x == 71 && EightRounds(71) == 0x36bb;
        }
      }
    }
  }

  /** Entries 72 to 79 of the table are row 09. */
  lemma TableRow09(x: bv8)
    requires 72 <= x < 80
    ensures FcsTable[x as int] == EightRounds(x as bv16)
  {
    Row09(x);
  }

  lemma Row09(x: bv8)
    requires 72 <= x < 80
    ensures FcsRow09[(x - 72) as int] == EightRounds(x as bv16)
  {
    if x < 76 {
      if x < 74 {
        if x < 73 {
          assert x == 72 && EightRounds(72) == 0xce4c;
        } else {
          assert x == 73 && EightRounds(73) == 0xdfc5;
        }
      } else {
        if x < 75 {
          assert x == 74 && EightRounds(74) == 0xed5e;
        } else {
          assert x == 75 && EightRounds(75) == 0xfcd7;
        }
      }
    } else {
      if x < 78 {
        if x < 77 {
          assert x == 76 && EightRounds(76) == 0x8868;
        } else {
          assert x == 77 && EightRounds(77) == 0x99e1;
        }
      } else {
        if x < 79 {
          assert x == 78 && EightRounds(78) == 0xab7a;
        } else {
          assert x == 79 && EightRounds(79) == 0xbaf3;
        }
      }
    }
  }

  /** Entries 80 to 87 of the table are row 10. */
  lemma TableRow10(x: bv8)
    requires 80 <= x < 88
    ensures FcsTable[x as int] == EightRounds(x as bv16)
  {
    Row10(x);
  }

  lemma Row10(x: bv8)
    requires 80 <= x < 88
    ensures FcsRow10[(x - 80) as int] == EightRounds(x as bv16)
  {
    if x < 84 {
      if x < 82 {
        if x < 81 {
          assert x == 80 && EightRounds(80) == 0x5285;
        } else {
          assert x == 81 && EightRounds(81) == 0x430c;
        }
      } else {
        if x < 83 {
          assert x == 82 && EightRounds(82) == 0x7197;
        } else {
          assert x == 83 && EightRounds(83) == 0x601e;
        }
      }
    } else {
      if x < 86 {
        if x < 85 {
          assert x == 84 && EightRounds(84) == 0x14a1;
        } else {
          assert x == 85 && EightRounds(85) == 0x0528;
        }
      } else {
        if x < 87 {
          assert x == 86 && EightRounds(86) == 0x37b3;
        } else {
          assert x == 87 && EightRounds(87) == 0x263a;
        }
      }
    }
  }

  /** Entries 88 to 95 of the table are row 11. */
  lemma TableRow11(x: bv8)
    requires 88 <= x < 96
    ensures FcsTable[x as int] == EightRounds(x as bv16)
  {
    Row11(x);
  }

  lemma Row11(x: bv8)
    requires 88 <= x < 96
    ensures FcsRow11[(x - 88) as int] == EightRounds(x as bv16)
  {
    if x < 92 {
      if x < 90 {
        if x < 89 {
          assert x == 88 && EightRounds(88) == 0xdecd;
        } else {
          assert x == 89 && EightRounds(89) == 0xcf44;
        }
      } else {
        if x < 91 {
          assert x == 90 && EightRounds(90) == 0xfddf;
        } else {
          assert x == 91 && EightRounds(91) == 0xec56;
        }
      }
    } else {
      if x < 94 {
        if x < 93 {
          assert x == 92 && EightRounds(92) == 0x98e9;
        } else {
          assert x == 93 && EightRounds(93) == 0x8960;
        }
      } else {
        if x < 95 {
          assert x == 94 && EightRounds(94) == 0xbbfb;
        } else {
          assert x == 95 && EightRounds(95) == 0xaa72;
        }
      }
    }
  }

  /** Entries 96 to 103 of the table are row 12. */
  lemma TableRow12(x: bv8)
    requires 96 <= x < 104
    ensures FcsTable[x as int] == EightRounds(x as bv16)
  {
    Row12(x);
  }

  lemma Row12(x: bv8)
    requires 96 <= x < 104
    ensures FcsRow12[(x - 96) as int] == EightRounds(x as bv16)
  {
    if x < 100 {
      if x < 98 {
        if x < 97 {
          assert x == 96 && EightRounds(96) == 0x6306;
        } else {
          assert x == 97 && EightRounds(97) == 0x728f;
        }
      } else {
        if x < 99 {
          assert x == 98 && EightRounds(98) == 0x4014;
        } else {
          assert x == 99 && EightRounds(99) == 0x519d;
        }
      }
    } else {
      if x < 102 {
        if x < 101 {
          assert x == 100 && EightRounds(100) == 0x2522;
        } else {
          assert x == 101 && EightRounds(101) == 0x34ab;
        }
      } else {
        if x < 103 {
          assert x == 102 && EightRounds(102) == 0x0630;
        } else {
          assert x == 103 && EightRounds(103) == 0x17b9;
        }
      }
    }
  }

  /** Entries 104 to 111 of the table are row 13. */
  lemma TableRow13(x: bv8)
    requires 104 <= x < 112
    ensures FcsTable[x as int] == EightRounds(x as bv16)
  {
    Row13(x);
  }

  lemma Row13(x: bv8)
    requires 104 <= x < 112
    ensures FcsRow13[(x - 104) as int] == EightRounds(x as bv16)
  {
    if x < 108 {
      if x < 106 {
        if x < 105 {
          assert x == 104 && EightRounds(104) == 0xef4e;
        } else {
          assert x == 105 && EightRounds(105) == 0xfec7;
        }
      } else {
        if x < 107 {
          assert x == 106 && EightRounds(106) == 0xcc5c;
        } else {
          assert x == 107 && EightRounds(107) == 0xddd5;
        }
      }
    } else {
      if x < 110 {
        if x < 109 {
          assert x == 108 && EightRounds(108) == 0xa96a;
        } else {
          assert x == 109 && EightRounds(109) == 0xb8e3;
        }
      } else {
        if x < 111 {
          assert x == 110 && EightRounds(110) == 0x8a78;
        } else {
          assert x == 111 && EightRounds(111) == 0x9bf1;
        }
      }
    }
  }

  /** Entries 112 to 119 of the table are row 14. */
  lemma TableRow14(x: bv8)
    requires 112 <= x < 120
    ensures FcsTable[x as int] == EightRounds(x as bv16)
  {
    Row14(x);
  }

  lemma Row14(x: bv8)
    requires 112 <= x < 120
    ensures FcsRow14[(x - 112) as int] == EightRounds(x as bv16)
  {
    if x < 116 {
      if x < 114 {
        if x < 113 {
          assert x == 112 && EightRounds(112) == 0x7387;
        } else {
          assert x == 113 && EightRounds(113) == 0x620e;
        }
      } else {
        if x < 115 {
          assert x == 114 && EightRounds(114) == 0x5095;
        } else {
          assert x == 115 && EightRounds(115) == 0x411c;
        }
      }
    } else {
      if x < 118 {
        if x < 117 {
          assert x == 116 && EightRounds(116) == 0x35a3;
        } else {
          assert x == 117 && EightRounds(117) == 0x242a;
        }
      } else {
        if x < 119 {
          assert x == 118 && EightRounds(118) == 0x16b1;
        } else {
          assert x == 119 && EightRounds(119) == 0x0738;
        }
      }
    }
  }

  /** Entries 120 to 127 of the table are row 15. */
  lemma TableRow15(x: bv8)
    requires 120 <= x < 128
    ensures FcsTable[x as int] == EightRounds(x as bv16)
  {
    Row15(x);
  }

  lemma Row15(x: bv8)
    requires 120 <= x < 128
    ensures FcsRow15[(x - 120) as int] == EightRounds(x as bv16)
  {
    if x < 124 {
      if x < 122 {
        if x < 121 {
          assert x == 120 && EightRounds(120) == 0xffcf;
        } else {
          assert x == 121 && EightRounds(121) == 0xee46;
        }
      } else {
        if x < 123 {
          assert x == 122 && EightRounds(122) == 0xdcdd;
        } else {
          assert x == 123 && EightRounds(123) == 0xcd54;
        }
      }
    } else {
      if x < 126 {
        if x < 125 {
          assert x == 124 && EightRounds(124) == 0xb9eb;
        } else {
          assert x == 125 && EightRounds(125) == 0xa862;
        }
      } else {
        if x < 127 {
          assert x == 126 && EightRounds(126) == 0x9af9;
        } else {
          assert x == 127 && EightRounds(127) == 0x8b70;
        }
      }
    }
  }

  /** Entries 128 to 135 of the table are row 16. */
  lemma TableRow16(x: bv8)
    requires 128 <= x < 136
    ensures FcsTable[x as int] == EightRounds(x as bv16)
  {
    Row16(x);
  }

  lemma Row16(x: bv8)
    requires 128 <= x < 136
    ensures FcsRow16[(x - 128) as int] == EightRounds(x as bv16)
  {
    if x < 132 {
      if x < 130 {
        if x < 129 {
          assert x == 128 && EightRounds(128) == 0x8408;
        } else {
          assert x == 129 && EightRounds(129) == 0x9581;
        }
      } else {
        if x < 131 {
          assert x == 130 && EightRounds(130) == 0xa71a;
        } else {
          assert x == 131 && EightRounds(131) == 0xb693;
        }
      }
    } else {
      if x < 134 {
        if x < 133 {
          assert x == 132 && EightRounds(132) == 0xc22c;
        } else {
          assert x == 133 && EightRounds(133) == 0xd3a5;
        }
      } else {
        if x < 135 {
          assert x == 134 && EightRounds(134) == 0xe13e;
        } else {
          assert x == 135 && EightRounds(135) == 0xf0b7;
        }
      }
    }
  }

  /** Entries 136 to 143 of the table are row 17. */
  lemma TableRow17(x: bv8)
    requires 136 <= x < 144
    ensures FcsTable[x as int] == EightRounds(x as bv16)
  {
    Row17(x);
  }

  lemma Row17(x: bv8)
    requires 136 <= x < 144
    ensures FcsRow17[(x - 136) as int] == EightRounds(x as bv16)
  {
    if x < 140 {
      if x < 138 {
        if x < 137 {
          assert x == 136 && EightRounds(136) == 0x0840;
        } else {
          assert x == 137 && EightRounds(137) == 0x19c9;
        }
      } else {
        if x < 139 {
          assert x == 138 && EightRounds(138) == 0x2b52;
        } else {
          assert x == 139 && EightRounds(139) == 0x3adb;
        }
      }
    } else {
      if x < 142 {
        if x < 141 {
          assert x == 140 && EightRounds(140) == 0x4e64;
        } else {
          assert x == 141 && EightRounds(141) == 0x5fed;
        }
      } else {
        if x < 143 {
          assert x == 142 && EightRounds(142) == 0x6d76;
        } else {
          assert x == 143 && EightRounds(143) == 0x7cff;
        }
      }
    }
  }

  /** Entries 144 to 151 of the table are row 18. */
  lemma TableRow18(x: bv8)
    requires 144 <= x < 152
    ensures FcsTable[x as int] == EightRounds(x as bv16)
  {
    Row18(x);
  }

  lemma Row18(x: bv8)
    requires 144 <= x < 152
    ensures FcsRow18[(x - 144) as int] == EightRounds(x as bv16)
  {
    if x < 148 {
      if x < 146 {
        if x < 145 {
          assert x == 144 && EightRounds(144) == 0x9489;
        } else {
          assert x == 145 && EightRounds(145) == 0x8500;
        }
      } else {
        if x < 147 {
          assert x == 146 && EightRounds(146) == 0xb79b;
        } else {
          assert x == 147 && EightRounds(147) == 0xa612;
        }
      }
    } else {
      if x < 150 {
        if x < 149 {
          assert x == 148 && EightRounds(148) == 0xd2ad;
        } else {
          assert x == 149 && EightRounds(149) == 0xc324;
        }
      } else {
        if x < 151 {
          assert x == 150 && EightRounds(150) == 0xf1bf;
        } else {
          assert x == 151 && EightRounds(151) == 0xe036;
        }
      }
    }
  }

  /** Entries 152 to 159 of the table are row 19. */
  lemma TableRow19(x: bv8)
    requires 152 <= x < 160
    ensures FcsTable[x as int] == EightRounds(x as bv16)
  {
    Row19(x);
  }

  lemma Row19(x: bv8)
    requires 152 <= x < 160
    ensures FcsRow19[(x - 152) as int] == EightRounds(x as bv16)
  {
    if x < 156 {
      if x < 154 {
        if x < 153 {
          assert x == 152 && EightRounds(152) == 0x18c1;
        } else {
          assert x == 153 && EightRounds(153) == 0x0948;
        }
      } else {
        if x < 155 {
          assert x == 154 && EightRounds(154) == 0x3bd3;
        } else {
          assert x == 155 && EightRounds(155) == 0x2a5a;
        }
      }
    } else {
      if x < 158 {
        if x < 157 {
          assert x == 156 && EightRounds(156) == 0x5ee5;
        } else {
          assert x == 157 && EightRounds(157) == 0x4f6c;
        }
      } else {
        if x < 159 {
          assert x == 158 && EightRounds(158) == 0x7df7;
        } else {
          assert x == 159 && EightRounds(159) == 0x6c7e;
        }
      }
    }
  }

  /** Entries 160 to 167 of the table are row 20. */
  lemma TableRow20(x: bv8)
    requires 160 <= x < 168
    ensures FcsTable[x as int] == EightRounds(x as bv16)
  {
    Row20(x);
  }

  lemma Row20(x: bv8)
    requires 160 <= x < 168
    ensures FcsRow20[(x - 160) as int] == EightRounds(x as bv16)
  {
    if x < 164 {
      if x < 162 {
        if x < 161 {
          assert x == 160 && EightRounds(160) == 0xa50a;
        } else {
          assert x == 161 && EightRounds(161) == 0xb483;
        }
      } else {
        if x < 163 {
          assert x == 162 && EightRounds(162) == 0x8618;
        } else {
          assert x == 163 && EightRounds(163) == 0x9791;
        }
      }
    } else {
      if x < 166 {
        if x < 165 {
          assert x == 164 && EightRounds(164) == 0xe32e;
        } else {
          assert x == 165 && EightRounds(165) == 0xf2a7;
        }
      } else {
        if x < 167 {
          assert x == 166 && EightRounds(166) == 0xc03c;
        } else {
          assert x == 167 && EightRounds(167) == 0xd1b5;
        }
      }
    }
  }

  /** Entries 168 to 175 of the table are row 21. */
  lemma TableRow21(x: bv8)
    requires 168 <= x < 176
    ensures FcsTable[x as int] == EightRounds(x as bv16)
  {
    Row21(x);
  }

  lemma Row21(x: bv8)
    requires 168 <= x < 176
    ensures FcsRow21[(x - 168) as int] == EightRounds(x as bv16)
  {
    if x < 172 {
      if x < 170 {
        if x < 169 {
          assert x == 168 && EightRounds(168) == 0x2942;
        } else {
          assert x == 169 && EightRounds(169) == 0x38cb;
        }
      } else {
        if x < 171 {
          assert x == 170 && EightRounds(170) == 0x0a50;
        } else {
          assert x == 171 && EightRounds(171) == 0x1bd9;
        }
      }
    } else {
      if x < 174 {
        if x < 173 {
          assert x == 172 && EightRounds(172) == 0x6f66;
        } else {
          assert x == 173 && EightRounds(173) == 0x7eef;
        }
      } else {
        if x < 175 {
          assert x == 174 && EightRounds(174) == 0x4c74;
        } else {
          assert x == 175 && EightRounds(175) == 0x5dfd;
        }
      }
    }
  }

  /** Entries 176 to 183 of the table are row 22. */
  lemma TableRow22(x: bv8)
    requires 176 <= x < 184
    ensures FcsTable[x as int] == EightRounds(x as bv16)
  {
    Row22(x);
  }

  lemma Row22(x: bv8)
    requires 176 <= x < 184
    ensures FcsRow22[(x - 176) as int] == EightRounds(x as bv16)
  {
    if x < 180 {
      if x < 178 {
        if x < 177 {
          assert x == 176 && EightRounds(176) == 0xb58b;
        } else {
          assert x == 177 && EightRounds(177) == 0xa402;
        }
      } else {
        if x < 179 {
          assert x == 178 && EightRounds(178) == 0x9699;
        } else {
          assert x == 179 && EightRounds(179) == 0x8710;
        }
      }
    } else {
      if x < 182 {
        if x < 181 {
          assert x == 180 && EightRounds(180) == 0xf3af;
        } else {
          assert x == 181 && EightRounds(181) == 0xe226;
        }
      } else {
        if x < 183 {
          assert x == 182 && EightRounds(182) == 0xd0bd;
        } else {
          assert x == 183 && EightRounds(183) == 0xc134;
        }
      }
    }
  }

  /** Entries 184 to 191 of the table are row 23. */
  lemma TableRow23(x: bv8)
    requires 184 <= x < 192
    ensures FcsTable[x as int] == EightRounds(x as bv16)
  {
    Row23(x);
  }

  lemma Row23(x: bv8)
    requires 184 <= x < 192
    ensures FcsRow23[(x - 184) as int] == EightRounds(x as bv16)
  {
    if x < 188 {
      if x < 186 {
        if x < 185 {
          assert x == 184 && EightRounds(184) == 0x39c3;
        } else {
          assert x == 185 && EightRounds(185) == 0x284a;
        }
      } else {
        if x < 187 {
          assert x == 186 && EightRounds(186) == 0x1ad1;
        } else {
          assert x == 187 && EightRounds(187) == 0x0b58;
        }
      }
    } else {
      if x < 190 {
        if x < 189 {
          assert x == 188 && EightRounds(188) == 0x7fe7;
        } else {
          assert x == 189 && EightRounds(189) == 0x6e6e;
        }
      } else {
        if x < 191 {
          assert x == 190 && EightRounds(190) == 0x5cf5;
        } else {
          assert x == 191 && EightRounds(191) == 0x4d7c;
        }
      }
    }
  }

  /** Entries 192 to 199 of the table are row 24. */
  lemma TableRow24(x: bv8)
    requires 192 <= x < 200
    ensures FcsTable[x as int] == EightRounds(x as bv16)
  {
    Row24(x);
  }

  lemma Row24(x: bv8)
    requires 192 <= x < 200
    ensures FcsRow24[(x - 192) as int] == EightRounds(x as bv16)
  {
    if x < 196 {
      if x < 194 {
        if x < 193 {
          assert x == 192 && EightRounds(192) == 0xc60c;
        } else {
          assert x == 193 && EightRounds(193) == 0xd785;
        }
      } else {
        if x < 195 {
          assert x == 194 && EightRounds(194) == 0xe51e;
        } else {
          assert x == 195 && EightRounds(195) == 0xf497;
        }
      }
    } else {
      if x < 198 {
        if x < 197 {
          assert x == 196 && EightRounds(196) == 0x8028;
        } else {
          assert x == 197 && EightRounds(197) == 0x91a1;
        }
      } else {
        if x < 199 {
          assert x == 198 && EightRounds(198) == 0xa33a;
        } else {
          assert x == 199 && EightRounds(199) == 0xb2b3;
        }
      }
    }
  }

  /** Entries 200 to 207 of the table are row 25. */
  lemma TableRow25(x: bv8)
    requires 200 <= x < 208
    ensures FcsTable[x as int] == EightRounds(x as bv16)
  {
    Row25(x);
  }

  lemma Row25(x: bv8)
    requires 200 <= x < 208
    ensures FcsRow25[(x - 200) as int] == EightRounds(x as bv16)
  {
    if x < 204 {
      if x < 202 {
        if x < 201 {
          assert x == 200 && EightRounds(200) == 0x4a44;
        } else {
          assert x == 201 && EightRounds(201) == 0x5bcd;
        }
      } else {
        if x < 203 {
          assert x == 202 && EightRounds(202) == 0x6956;
        } else {
          assert x == 203 && EightRounds(203) == 0x78df;
        }
      }
    } else {
      if x < 206 {
        if x < 205 {
          assert x == 204 && EightRounds(204) == 0x0c60;
        } else {
          assert x == 205 && EightRounds(205) == 0x1de9;
        }
      } else {
        if x < 207 {
          assert x == 206 && EightRounds(206) == 0x2f72;
        } else {
          assert x == 207 && EightRounds(207) == 0x3efb;
        }
      }
    }
  }

  /** Entries 208 to 215 of the table are row 26. */
  lemma TableRow26(x: bv8)
    requires 208 <= x < 216
    ensures FcsTable[x as int] == EightRounds(x as bv16)
  {
    Row26(x);
  }

  lemma Row26(x: bv8)
    requires 208 <= x < 216
    ensures FcsRow26[(x - 208) as int] == EightRounds(x as bv16)
  {
    if x < 212 {
      if x < 210 {
        if x < 209 {
          assert x == 208 && EightRounds(208) == 0xd68d;
        } else {
          assert x == 209 && EightRounds(209) == 0xc704;
        }
      } else {
        if x < 211 {
          assert x == 210 && EightRounds(210) == 0xf59f;
        } else {
          assert x == 211 && EightRounds(211) == 0xe416;
        }
      }
    } else {
      if x < 214 {
        if x < 213 {
          assert x == 212 && EightRounds(212) == 0x90a9;
        } else {
          assert x == 213 && EightRounds(213) == 0x8120;
        }
      } else {
        if x < 215 {
          assert x == 214 && EightRounds(214) == 0xb3bb;
        } else {
          assert x == 215 && EightRounds(215) == 0xa232;
        }
      }
    }
  }

  /** Entries 216 to 223 of the table are row 27. */
  lemma TableRow27(x: bv8)
    requires 216 <= x < 224
    ensures FcsTable[x as int] == EightRounds(x as bv16)
  {
    Row27(x);
  }

  lemma Row27(x: bv8)
    requires 216 <= x < 224
    ensures FcsRow27[(x - 216) as int] == EightRounds(x as bv16)
  {
    if x < 220 {
      if x < 218 {
        if x < 217 {
          assert x == 216 && EightRounds(216) == 0x5ac5;
        } else {
          assert x == 217 && EightRounds(217) == 0x4b4c;
        }
      } else {
        if x < 219 {
          assert x == 218 && EightRounds(218) == 0x79d7;
        } else {
          assert x == 219 && EightRounds(219) == 0x685e;
        }
      }
    } else {
      if x < 222 {
        if x < 221 {
          assert x == 220 && EightRounds(220) == 0x1ce1;
        } else {
          assert x == 221 && EightRounds(221) == 0x0d68;
        }
      } else {
        if x < 223 {
          assert x == 222 && EightRounds(222) == 0x3ff3;
        } else {
          assert x == 223 && EightRounds(223) == 0x2e7a;
        }
      }
    }
  }

  /** Entries 224 to 231 of the table are row 28. */
  lemma TableRow28(x: bv8)
    requires 224 <= x < 232
    ensures FcsTable[x as int] == EightRounds(x as bv16)
  {
    Row28(x);
  }

  lemma Row28(x: bv8)
    requires 224 <= x < 232
    ensures FcsRow28[(x - 224) as int] == EightRounds(x as bv16)
  {
    if x < 228 {
      if x < 226 {
        if x < 225 {
          assert x == 224 && EightRounds(224) == 0xe70e;
        } else {
          assert x == 225 && EightRounds(225) == 0xf687;
        }
      } else {
        if x < 227 {
          assert x == 226 && EightRounds(226) == 0xc41c;
        } else {
          assert x == 227 && EightRounds(227) == 0xd595;
        }
      }
    } else {
      if x < 230 {
        if x < 229 {
          assert x == 228 && EightRounds(228) == 0xa12a;
        } else {
          assert x == 229 && EightRounds(229) == 0xb0a3;
        }
      } else {
        if x < 231 {
          assert x == 230 && EightRounds(230) == 0x8238;
        } else {
          assert x == 231 && EightRounds(231) == 0x93b1;
        }
      }
    }
  }

  /** Entries 232 to 239 of the table are row 29. */
  lemma TableRow29(x: bv8)
    requires 232 <= x < 240
    ensures FcsTable[x as int] == EightRounds(x as bv16)
  {
    Row29(x);
  }

  lemma Row29(x: bv8)
    requires 232 <= x < 240
    ensures FcsRow29[(x - 232) as int] == EightRounds(x as bv16)
  {
    if x < 236 {
      if x < 234 {
        if x < 233 {
          assert x == 232 && EightRounds(232) == 0x6b46;
        } else {
          assert x == 233 && EightRounds(233) == 0x7acf;
        }
      } else {
        if x < 235 {
          assert x == 234 && EightRounds(234) == 0x4854;
        } else {
          assert x == 235 && EightRounds(235) == 0x59dd;
        }
      }
    } else {
      if x < 238 {
        if x < 237 {
          assert x == 236 && EightRounds(236) == 0x2d62;
        } else {
          assert x == 237 && EightRounds(237) == 0x3ceb;
        }
      } else {
        if x < 239 {
          assert x == 238 && EightRounds(238) == 0x0e70;
        } else {
          assert x == 239 && EightRounds(239) == 0x1ff9;
        }
      }
    }
  }

  /** Entries 240 to 247 of the table are row 30. */
  lemma TableRow30(x: bv8)
    requires 240 <= x < 248
    ensures FcsTable[x as int] == EightRounds(x as bv16)
  {
    Row30(x);
  }

  lemma Row30(x: bv8)
    requires 240 <= x < 248
    ensures FcsRow30[(x - 240) as int] == EightRounds(x as bv16)
  {
    if x < 244 {
      if x < 242 {
        if x < 241 {
          assert x == 240 && EightRounds(240) == 0xf78f;
        } else {
          assert x == 241 && EightRounds(241) == 0xe606;
        }
      } else {
        if x < 243 {
          assert x == 242 && EightRounds(242) == 0xd49d;
        } else {
          assert x == 243 && EightRounds(243) == 0xc514;
        }
      }
    } else {
      if x < 246 {
        if x < 245 {
          assert x == 244 && EightRounds(244) == 0xb1ab;
        } else {
          assert x == 245 && EightRounds(245) == 0xa022;
        }
      } else {
        if x < 247 {
          assert x == 246 && EightRounds(246) == 0x92b9;
        } else {
          assert x == 247 && EightRounds(247) == 0x8330;
        }
      }
    }
  }

  /** Entries 248 to 255 of the table are row 31. */
  lemma TableRow31(x: bv8)
    requires 248 <= x
    ensures FcsTable[x as int] == EightRounds(x as bv16)
  {
    Row31(x);
  }

  lemma Row31(x: bv8)
    requires 248 <= x
    ensures FcsRow31[(x - 248) as int] == EightRounds(x as bv16)
  {
    if x < 252 {
      if x < 250 {
        if x < 249 {
          assert x == 248 && EightRounds(248) == 0x7bc7;
        } else {
          assert x == 249 && EightRounds(249) == 0x6a4e;
        }
      } else {
        if x < 251 {
          assert x == 250 && EightRounds(250) == 0x58d5;
        } else {
          assert x == 251 && EightRounds(251) == 0x495c;
        }
      }
    } else {
      if x < 254 {
        if x < 253 {
          assert x == 252 && EightRounds(252) == 0x3de3;
        } else {
          assert x == 253 && EightRounds(253) == 0x2c6a;
        }
      } else {
        if x < 255 {
          assert x == 254 && EightRounds(254) == 0x1ef1;
        } else {
          assert x == 255 && EightRounds(255) == 0x0f78;
        }
      }
    }
  }
}
