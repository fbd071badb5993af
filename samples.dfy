/** Worked streams, each followed through the loops of `Scan` one
    character at a time. */
module Samples {
  import opened Packing
  import opened Scan

  const NoHeader := HeaderState(false, Unset, Unset, Unset)

  /** A run of zeros is a token of value 0. */
  lemma ZeroRun(num: seq<char>)
    requires forall k :: 0 <= k < |num| ==> num[k] == '0'
    ensures AllDigits(num) && Atoi(num) == 0
  {
    if num != [] {
      ZeroRun(num[..|num| - 1]);
    }
  }

  // One character of each loop, for the worked streams below.

  lemma HeaderDelim(s: seq<char>, pos: nat, h: HeaderState, num: seq<char>)
    requires pos < |s| && IsDelimiter(s[pos]) && DigitBuffer(num) && |num| <= MaxDigits && !h.Complete()
    ensures Atoi(num) != 0 ==> HeaderScan(s, pos, h, num) == HeaderScan(s, pos + 1, Assign(h, Atoi(num)), [])
    ensures Atoi(num) == 0 ==> HeaderScan(s, pos, h, num) == HeaderScan(s, pos + 1, h, num)
  {
  }

  lemma HeaderDigit(s: seq<char>, pos: nat, h: HeaderState, num: seq<char>)
    requires pos < |s| && IsDigit(s[pos]) && DigitBuffer(num) && |num| < BufferSize && !h.Complete()
    ensures HeaderScan(s, pos, h, num) == HeaderScan(s, pos + 1, h, num + [s[pos]])
  {
  }

  lemma HeaderOverflow(s: seq<char>, pos: nat, h: HeaderState, num: seq<char>)
    requires pos < |s| && IsDigit(s[pos]) && DigitBuffer(num) && |num| == BufferSize && !h.Complete()
    ensures HeaderScan(s, pos, h, num) == Overflowed(h)
  {
  }

  lemma HeaderOverflowDelim(s: seq<char>, pos: nat, h: HeaderState, num: seq<char>)
    requires pos < |s| && IsDelimiter(s[pos]) && DigitBuffer(num) && |num| == BufferSize && !h.Complete()
    ensures HeaderScan(s, pos, h, num) == Overflowed(h)
  {
  }

  lemma HeaderDone(s: seq<char>, pos: nat, h: HeaderState, num: seq<char>)
    requires pos <= |s| && DigitBuffer(num) && h.Complete()
    ensures HeaderScan(s, pos, h, num) == Scanned(h, pos, num)
  {
  }

  lemma PixelDelim(s: seq<char>, pos: nat, maxVal: int, r: int, g: int, num: seq<char>, j: nat, buf: seq<bv32>)
    requires pos < |s| && IsDelimiter(s[pos]) && DigitBuffer(num) && |num| <= MaxDigits && j < |buf|
    ensures var v := Min(Atoi(num), maxVal);
      PixelScan(s, pos, true, maxVal, r, g, Unset, num, j, buf)
      == if r == Unset then PixelScan(s, pos + 1, true, maxVal, v, g, Unset, [], j, buf)
         else if g == Unset then PixelScan(s, pos + 1, true, maxVal, r, v, Unset, [], j, buf)
         else PixelScan(s, pos + 1, true, maxVal, Unset, Unset, Unset, [], j + 1, buf[j := Pack(r, g, v)])
  {
  }

  lemma PixelDigit(s: seq<char>, pos: nat, maxVal: int, r: int, g: int, num: seq<char>, j: nat, buf: seq<bv32>)
    requires pos < |s| && IsDigit(s[pos]) && DigitBuffer(num) && |num| < BufferSize && j <= |buf|
    ensures PixelScan(s, pos, true, maxVal, r, g, Unset, num, j, buf)
         == PixelScan(s, pos + 1, true, maxVal, r, g, Unset, num + [s[pos]], j, buf)
  {
  }

  /** The header loop over the two-pixel stream, one character at a time. */
  lemma TwoPixelsHeader1(s: seq<char>)
    requires |s| == 27 && s[2] == '\n'
    ensures HeaderScan(s, 2, HeaderState(true, Unset, Unset, Unset), [])
         == HeaderScan(s, 3, HeaderState(true, Unset, Unset, Unset), [])
  {
    HeaderDelim(s, 2, HeaderState(true, Unset, Unset, Unset), []);
  }

  lemma TwoPixelsHeader2(s: seq<char>)
    requires |s| == 27 && s[3] == '2'
    ensures HeaderScan(s, 3, HeaderState(true, Unset, Unset, Unset), [])
         == HeaderScan(s, 4, HeaderState(true, Unset, Unset, Unset), "2")
  {
    HeaderDigit(s, 3, HeaderState(true, Unset, Unset, Unset), []);
    assert "" + ['2'] == "2";
  }

  lemma TwoPixelsHeader3(s: seq<char>)
    requires |s| == 27 && s[4] == ' '
    ensures HeaderScan(s, 4, HeaderState(true, Unset, Unset, Unset), "2")
         == HeaderScan(s, 5, HeaderState(true, 2, Unset, Unset), [])
  {
    HeaderDelim(s, 4, HeaderState(true, Unset, Unset, Unset), "2");
  }

  lemma TwoPixelsHeader4(s: seq<char>)
    requires |s| == 27 && s[5] == '1'
    ensures HeaderScan(s, 5, HeaderState(true, 2, Unset, Unset), [])
         == HeaderScan(s, 6, HeaderState(true, 2, Unset, Unset), "1")
  {
    HeaderDigit(s, 5, HeaderState(true, 2, Unset, Unset), []);
    assert "" + ['1'] == "1";
  }

  lemma TwoPixelsHeader5(s: seq<char>)
    requires |s| == 27 && s[6] == ' '
    ensures HeaderScan(s, 6, HeaderState(true, 2, Unset, Unset), "1")
         == HeaderScan(s, 7, HeaderState(true, 2, 1, Unset), [])
  {
    HeaderDelim(s, 6, HeaderState(true, 2, Unset, Unset), "1");
  }

  lemma TwoPixelsHeader6(s: seq<char>)
    requires |s| == 27 && s[7] == '2'
    ensures HeaderScan(s, 7, HeaderState(true, 2, 1, Unset), [])
         == HeaderScan(s, 8, HeaderState(true, 2, 1, Unset), "2")
  {
    HeaderDigit(s, 7, HeaderState(true, 2, 1, Unset), []);
    assert "" + ['2'] == "2";
  }

  lemma TwoPixelsHeader7(s: seq<char>)
    requires |s| == 27 && s[8] == '5'
    ensures HeaderScan(s, 8, HeaderState(true, 2, 1, Unset), "2")
         == HeaderScan(s, 9, HeaderState(true, 2, 1, Unset), "25")
  {
    HeaderDigit(s, 8, HeaderState(true, 2, 1, Unset), "2");
    assert "2" + ['5'] == "25";
  }

  lemma TwoPixelsHeader8(s: seq<char>)
    requires |s| == 27 && s[9] == '5'
    ensures HeaderScan(s, 9, HeaderState(true, 2, 1, Unset), "25")
         == HeaderScan(s, 10, HeaderState(true, 2, 1, Unset), "255")
  {
    HeaderDigit(s, 9, HeaderState(true, 2, 1, Unset), "25");
    assert "25" + ['5'] == "255";
  }

  lemma TwoPixelsHeader9(s: seq<char>)
    requires |s| == 27 && s[10] == '\n'
    ensures HeaderScan(s, 10, HeaderState(true, 2, 1, Unset), "255")
         == HeaderScan(s, 11, HeaderState(true, 2, 1, 255), [])
  {
    HeaderDelim(s, 10, HeaderState(true, 2, 1, Unset), "255");
  }

  lemma TwoPixelsHeader10(s: seq<char>)
    requires |s| == 27
    ensures HeaderScan(s, 11, HeaderState(true, 2, 1, 255), [])
         == Scanned(HeaderState(true, 2, 1, 255), 11, [])
  {
    HeaderDone(s, 11, HeaderState(true, 2, 1, 255), []);
  }

  /** The pixel loop over the two-pixel stream. */
  lemma TwoPixelsPixels1(s: seq<char>)
    requires |s| == 27 && s[11] == '2'
    ensures PixelScan(s, 11, true, 255, Unset, Unset, Unset, [], 0, Zeros(2))
         == PixelScan(s, 12, true, 255, Unset, Unset, Unset, "2", 0, Zeros(2))
  {
    PixelDigit(s, 11, 255, Unset, Unset, [], 0, Zeros(2));
    assert "" + ['2'] == "2";
  }

  lemma TwoPixelsPixels2(s: seq<char>)
    requires |s| == 27 && s[12] == '5'
    ensures PixelScan(s, 12, true, 255, Unset, Unset, Unset, "2", 0, Zeros(2))
         == PixelScan(s, 13, true, 255, Unset, Unset, Unset, "25", 0, Zeros(2))
  {
    PixelDigit(s, 12, 255, Unset, Unset, "2", 0, Zeros(2));
    assert "2" + ['5'] == "25";
  }

  lemma TwoPixelsPixels3(s: seq<char>)
    requires |s| == 27 && s[13] == '5'
    ensures PixelScan(s, 13, true, 255, Unset, Unset, Unset, "25", 0, Zeros(2))
         == PixelScan(s, 14, true, 255, Unset, Unset, Unset, "255", 0, Zeros(2))
  {
    PixelDigit(s, 13, 255, Unset, Unset, "25", 0, Zeros(2));
    assert "25" + ['5'] == "255";
  }

  lemma TwoPixelsPixels4(s: seq<char>)
    requires |s| == 27 && s[14] == ' '
    ensures PixelScan(s, 14, true, 255, Unset, Unset, Unset, "255", 0, Zeros(2))
         == PixelScan(s, 15, true, 255, 255, Unset, Unset, [], 0, Zeros(2))
  {
    PixelDelim(s, 14, 255, Unset, Unset, "255", 0, Zeros(2));
  }

  lemma TwoPixelsPixels5(s: seq<char>)
    requires |s| == 27 && s[15] == '0'
    ensures PixelScan(s, 15, true, 255, 255, Unset, Unset, [], 0, Zeros(2))
         == PixelScan(s, 16, true, 255, 255, Unset, Unset, "0", 0, Zeros(2))
  {
    PixelDigit(s, 15, 255, 255, Unset, [], 0, Zeros(2));
    assert "" + ['0'] == "0";
  }

  lemma TwoPixelsPixels6(s: seq<char>)
    requires |s| == 27 && s[16] == ' '
    ensures PixelScan(s, 16, true, 255, 255, Unset, Unset, "0", 0, Zeros(2))
         == PixelScan(s, 17, true, 255, 255, 0, Unset, [], 0, Zeros(2))
  {
    PixelDelim(s, 16, 255, 255, Unset, "0", 0, Zeros(2));
  }

  lemma TwoPixelsPixels7(s: seq<char>)
    requires |s| == 27 && s[17] == '0'
    ensures PixelScan(s, 17, true, 255, 255, 0, Unset, [], 0, Zeros(2))
         == PixelScan(s, 18, true, 255, 255, 0, Unset, "0", 0, Zeros(2))
  {
    PixelDigit(s, 17, 255, 255, 0, [], 0, Zeros(2));
    assert "" + ['0'] == "0";
  }

  lemma TwoPixelsPixels8(s: seq<char>)
    requires |s| == 27 && s[18] == ' '
    ensures PixelScan(s, 18, true, 255, 255, 0, Unset, "0", 0, Zeros(2))
         == PixelScan(s, 19, true, 255, Unset, Unset, Unset, [], 1, Zeros(2)[0 := Pack(255, 0, 0)])
  {
    PixelDelim(s, 18, 255, 255, 0, "0", 0, Zeros(2));
  }

  lemma TwoPixelsPixels9(s: seq<char>)
    requires |s| == 27 && s[19] == '0'
    ensures PixelScan(s, 19, true, 255, Unset, Unset, Unset, [], 1, Zeros(2)[0 := Pack(255, 0, 0)])
         == PixelScan(s, 20, true, 255, Unset, Unset, Unset, "0", 1, Zeros(2)[0 := Pack(255, 0, 0)])
  {
    PixelDigit(s, 19, 255, Unset, Unset, [], 1, Zeros(2)[0 := Pack(255, 0, 0)]);
    assert "" + ['0'] == "0";
  }

  lemma TwoPixelsPixels10(s: seq<char>)
    requires |s| == 27 && s[20] == ' '
    ensures PixelScan(s, 20, true, 255, Unset, Unset, Unset, "0", 1, Zeros(2)[0 := Pack(255, 0, 0)])
         == PixelScan(s, 21, true, 255, 0, Unset, Unset, [], 1, Zeros(2)[0 := Pack(255, 0, 0)])
  {
    PixelDelim(s, 20, 255, Unset, Unset, "0", 1, Zeros(2)[0 := Pack(255, 0, 0)]);
  }

  lemma TwoPixelsPixels11(s: seq<char>)
    requires |s| == 27 && s[21] == '2'
    ensures PixelScan(s, 21, true, 255, 0, Unset, Unset, [], 1, Zeros(2)[0 := Pack(255, 0, 0)])
         == PixelScan(s, 22, true, 255, 0, Unset, Unset, "2", 1, Zeros(2)[0 := Pack(255, 0, 0)])
  {
    PixelDigit(s, 21, 255, 0, Unset, [], 1, Zeros(2)[0 := Pack(255, 0, 0)]);
    assert "" + ['2'] == "2";
  }

  lemma TwoPixelsPixels12(s: seq<char>)
    requires |s| == 27 && s[22] == '5'
    ensures PixelScan(s, 22, true, 255, 0, Unset, Unset, "2", 1, Zeros(2)[0 := Pack(255, 0, 0)])
         == PixelScan(s, 23, true, 255, 0, Unset, Unset, "25", 1, Zeros(2)[0 := Pack(255, 0, 0)])
  {
    PixelDigit(s, 22, 255, 0, Unset, "2", 1, Zeros(2)[0 := Pack(255, 0, 0)]);
    assert "2" + ['5'] == "25";
  }

  lemma TwoPixelsPixels13(s: seq<char>)
    requires |s| == 27 && s[23] == '5'
    ensures PixelScan(s, 23, true, 255, 0, Unset, Unset, "25", 1, Zeros(2)[0 := Pack(255, 0, 0)])
         == PixelScan(s, 24, true, 255, 0, Unset, Unset, "255", 1, Zeros(2)[0 := Pack(255, 0, 0)])
  {
    PixelDigit(s, 23, 255, 0, Unset, "25", 1, Zeros(2)[0 := Pack(255, 0, 0)]);
    assert "25" + ['5'] == "255";
  }

  lemma TwoPixelsPixels14(s: seq<char>)
    requires |s| == 27 && s[24] == ' '
    ensures PixelScan(s, 24, true, 255, 0, Unset, Unset, "255", 1, Zeros(2)[0 := Pack(255, 0, 0)])
         == PixelScan(s, 25, true, 255, 0, 255, Unset, [], 1, Zeros(2)[0 := Pack(255, 0, 0)])
  {
    PixelDelim(s, 24, 255, 0, Unset, "255", 1, Zeros(2)[0 := Pack(255, 0, 0)]);
  }

  lemma TwoPixelsPixels15(s: seq<char>)
    requires |s| == 27 && s[25] == '0'
    ensures PixelScan(s, 25, true, 255, 0, 255, Unset, [], 1, Zeros(2)[0 := Pack(255, 0, 0)])
         == PixelScan(s, 26, true, 255, 0, 255, Unset, "0", 1, Zeros(2)[0 := Pack(255, 0, 0)])
  {
    PixelDigit(s, 25, 255, 0, 255, [], 1, Zeros(2)[0 := Pack(255, 0, 0)]);
    assert "" + ['0'] == "0";
  }

  lemma TwoPixelsPixels16(s: seq<char>)
    requires |s| == 27 && s[26] == '\n'
    ensures PixelScan(s, 26, true, 255, 0, 255, Unset, "0", 1, Zeros(2)[0 := Pack(255, 0, 0)])
         == PixelScan(s, 27, true, 255, Unset, Unset, Unset, [], 2, Zeros(2)[0 := Pack(255, 0, 0)][1 := Pack(0, 255, 0)])
  {
    PixelDelim(s, 26, 255, 0, 255, "0", 1, Zeros(2)[0 := Pack(255, 0, 0)]);
  }

  lemma TwoPixelsPixels17(s: seq<char>)
    requires |s| == 27
    ensures PixelScan(s, 27, true, 255, Unset, Unset, Unset, [], 2, Zeros(2)[0 := Pack(255, 0, 0)][1 := Pack(0, 255, 0)])
         == Ok(Zeros(2)[0 := Pack(255, 0, 0)][1 := Pack(0, 255, 0)])
  {
  }

  /** The header loop over the stream with a value above max_val. */
  lemma ClampedHeader1(s: seq<char>)
    requires |s| == 15 && s[2] == ' '
    ensures HeaderScan(s, 2, HeaderState(true, Unset, Unset, Unset), [])
         == HeaderScan(s, 3, HeaderState(true, Unset, Unset, Unset), [])
  {
    HeaderDelim(s, 2, HeaderState(true, Unset, Unset, Unset), []);
  }

  lemma ClampedHeader2(s: seq<char>)
    requires |s| == 15 && s[3] == '1'
    ensures HeaderScan(s, 3, HeaderState(true, Unset, Unset, Unset), [])
         == HeaderScan(s, 4, HeaderState(true, Unset, Unset, Unset), "1")
  {
    HeaderDigit(s, 3, HeaderState(true, Unset, Unset, Unset), []);
    assert "" + ['1'] == "1";
  }

  lemma ClampedHeader3(s: seq<char>)
    requires |s| == 15 && s[4] == ' '
    ensures HeaderScan(s, 4, HeaderState(true, Unset, Unset, Unset), "1")
         == HeaderScan(s, 5, HeaderState(true, 1, Unset, Unset), [])
  {
    HeaderDelim(s, 4, HeaderState(true, Unset, Unset, Unset), "1");
  }

  lemma ClampedHeader4(s: seq<char>)
    requires |s| == 15 && s[5] == '1'
    ensures HeaderScan(s, 5, HeaderState(true, 1, Unset, Unset), [])
         == HeaderScan(s, 6, HeaderState(true, 1, Unset, Unset), "1")
  {
    HeaderDigit(s, 5, HeaderState(true, 1, Unset, Unset), []);
    assert "" + ['1'] == "1";
  }

  lemma ClampedHeader5(s: seq<char>)
    requires |s| == 15 && s[6] == ' '
    ensures HeaderScan(s, 6, HeaderState(true, 1, Unset, Unset), "1")
         == HeaderScan(s, 7, HeaderState(true, 1, 1, Unset), [])
  {
    HeaderDelim(s, 6, HeaderState(true, 1, Unset, Unset), "1");
  }

  lemma ClampedHeader6(s: seq<char>)
    requires |s| == 15 && s[7] == '5'
    ensures HeaderScan(s, 7, HeaderState(true, 1, 1, Unset), [])
         == HeaderScan(s, 8, HeaderState(true, 1, 1, Unset), "5")
  {
    HeaderDigit(s, 7, HeaderState(true, 1, 1, Unset), []);
    assert "" + ['5'] == "5";
  }

  lemma ClampedHeader7(s: seq<char>)
    requires |s| == 15 && s[8] == '\n'
    ensures HeaderScan(s, 8, HeaderState(true, 1, 1, Unset), "5")
         == HeaderScan(s, 9, HeaderState(true, 1, 1, 5), [])
  {
    HeaderDelim(s, 8, HeaderState(true, 1, 1, Unset), "5");
  }

  lemma ClampedHeader8(s: seq<char>)
    requires |s| == 15
    ensures HeaderScan(s, 9, HeaderState(true, 1, 1, 5), [])
         == Scanned(HeaderState(true, 1, 1, 5), 9, [])
  {
    HeaderDone(s, 9, HeaderState(true, 1, 1, 5), []);
  }

  /** Its pixel loop. */
  lemma ClampedPixels1(s: seq<char>)
    requires |s| == 15 && s[9] == '9'
    ensures PixelScan(s, 9, true, 5, Unset, Unset, Unset, [], 0, Zeros(1))
         == PixelScan(s, 10, true, 5, Unset, Unset, Unset, "9", 0, Zeros(1))
  {
    PixelDigit(s, 9, 5, Unset, Unset, [], 0, Zeros(1));
    assert "" + ['9'] == "9";
  }

  lemma ClampedPixels2(s: seq<char>)
    requires |s| == 15 && s[10] == ' '
    ensures PixelScan(s, 10, true, 5, Unset, Unset, Unset, "9", 0, Zeros(1))
         == PixelScan(s, 11, true, 5, 5, Unset, Unset, [], 0, Zeros(1))
  {
    PixelDelim(s, 10, 5, Unset, Unset, "9", 0, Zeros(1));
  }

  lemma ClampedPixels3(s: seq<char>)
    requires |s| == 15 && s[11] == '0'
    ensures PixelScan(s, 11, true, 5, 5, Unset, Unset, [], 0, Zeros(1))
         == PixelScan(s, 12, true, 5, 5, Unset, Unset, "0", 0, Zeros(1))
  {
    PixelDigit(s, 11, 5, 5, Unset, [], 0, Zeros(1));
    assert "" + ['0'] == "0";
  }

  lemma ClampedPixels4(s: seq<char>)
    requires |s| == 15 && s[12] == ' '
    ensures PixelScan(s, 12, true, 5, 5, Unset, Unset, "0", 0, Zeros(1))
         == PixelScan(s, 13, true, 5, 5, 0, Unset, [], 0, Zeros(1))
  {
    PixelDelim(s, 12, 5, 5, Unset, "0", 0, Zeros(1));
  }

  lemma ClampedPixels5(s: seq<char>)
    requires |s| == 15 && s[13] == '7'
    ensures PixelScan(s, 13, true, 5, 5, 0, Unset, [], 0, Zeros(1))
         == PixelScan(s, 14, true, 5, 5, 0, Unset, "7", 0, Zeros(1))
  {
    PixelDigit(s, 13, 5, 5, 0, [], 0, Zeros(1));
    assert "" + ['7'] == "7";
  }

  lemma ClampedPixels6(s: seq<char>)
    requires |s| == 15 && s[14] == '\n'
    ensures PixelScan(s, 14, true, 5, 5, 0, Unset, "7", 0, Zeros(1))
         == PixelScan(s, 15, true, 5, Unset, Unset, Unset, [], 1, Zeros(1)[0 := Pack(5, 0, 5)])
  {
    PixelDelim(s, 14, 5, 5, 0, "7", 0, Zeros(1));
  }

  lemma ClampedPixels7(s: seq<char>)
    requires |s| == 15
    ensures PixelScan(s, 15, true, 5, Unset, Unset, Unset, [], 1, Zeros(1)[0 := Pack(5, 0, 5)])
         == Ok(Zeros(1)[0 := Pack(5, 0, 5)])
  {
  }

  /** The header loop over a P6 stream with one character after the header. */
  lemma BinaryHeader1(s: seq<char>)
    requires |s| == 10 && s[2] == ' '
    ensures HeaderScan(s, 2, HeaderState(false, Unset, Unset, Unset), [])
         == HeaderScan(s, 3, HeaderState(false, Unset, Unset, Unset), [])
  {
    HeaderDelim(s, 2, HeaderState(false, Unset, Unset, Unset), []);
  }

  lemma BinaryHeader2(s: seq<char>)
    requires |s| == 10 && s[3] == '1'
    ensures HeaderScan(s, 3, HeaderState(false, Unset, Unset, Unset), [])
         == HeaderScan(s, 4, HeaderState(false, Unset, Unset, Unset), "1")
  {
    HeaderDigit(s, 3, HeaderState(false, Unset, Unset, Unset), []);
    assert "" + ['1'] == "1";
  }

  lemma BinaryHeader3(s: seq<char>)
    requires |s| == 10 && s[4] == ' '
    ensures HeaderScan(s, 4, HeaderState(false, Unset, Unset, Unset), "1")
         == HeaderScan(s, 5, HeaderState(false, 1, Unset, Unset), [])
  {
    HeaderDelim(s, 4, HeaderState(false, Unset, Unset, Unset), "1");
  }

  lemma BinaryHeader4(s: seq<char>)
    requires |s| == 10 && s[5] == '1'
    ensures HeaderScan(s, 5, HeaderState(false, 1, Unset, Unset), [])
         == HeaderScan(s, 6, HeaderState(false, 1, Unset, Unset), "1")
  {
    HeaderDigit(s, 5, HeaderState(false, 1, Unset, Unset), []);
    assert "" + ['1'] == "1";
  }

  lemma BinaryHeader5(s: seq<char>)
    requires |s| == 10 && s[6] == ' '
    ensures HeaderScan(s, 6, HeaderState(false, 1, Unset, Unset), "1")
         == HeaderScan(s, 7, HeaderState(false, 1, 1, Unset), [])
  {
    HeaderDelim(s, 6, HeaderState(false, 1, Unset, Unset), "1");
  }

  lemma BinaryHeader6(s: seq<char>)
    requires |s| == 10 && s[7] == '5'
    ensures HeaderScan(s, 7, HeaderState(false, 1, 1, Unset), [])
         == HeaderScan(s, 8, HeaderState(false, 1, 1, Unset), "5")
  {
    HeaderDigit(s, 7, HeaderState(false, 1, 1, Unset), []);
    assert "" + ['5'] == "5";
  }

  lemma BinaryHeader7(s: seq<char>)
    requires |s| == 10 && s[8] == '\n'
    ensures HeaderScan(s, 8, HeaderState(false, 1, 1, Unset), "5")
         == HeaderScan(s, 9, HeaderState(false, 1, 1, 5), [])
  {
    HeaderDelim(s, 8, HeaderState(false, 1, 1, Unset), "5");
  }

  lemma BinaryHeader8(s: seq<char>)
    requires |s| == 10
    ensures HeaderScan(s, 9, HeaderState(false, 1, 1, 5), [])
         == Scanned(HeaderState(false, 1, 1, 5), 9, [])
  {
    HeaderDone(s, 9, HeaderState(false, 1, 1, 5), []);
  }

  /** The header loop over two runs of zeros, then a delimiter or the end of the stream. */
  lemma ZeroDigitsHeader1(s: seq<char>)
    requires 14 <= |s| && s[2] == ' '
    ensures HeaderScan(s, 2, HeaderState(true, Unset, Unset, Unset), [])
         == HeaderScan(s, 3, HeaderState(true, Unset, Unset, Unset), [])
  {
    HeaderDelim(s, 2, HeaderState(true, Unset, Unset, Unset), []);
  }

  lemma ZeroDigitsHeader2(s: seq<char>)
    requires 14 <= |s| && s[3] == '0'
    ensures HeaderScan(s, 3, HeaderState(true, Unset, Unset, Unset), [])
         == HeaderScan(s, 4, HeaderState(true, Unset, Unset, Unset), "0")
  {
    HeaderDigit(s, 3, HeaderState(true, Unset, Unset, Unset), []);
    assert "" + ['0'] == "0";
  }

  lemma ZeroDigitsHeader3(s: seq<char>)
    requires 14 <= |s| && s[4] == '0'
    ensures HeaderScan(s, 4, HeaderState(true, Unset, Unset, Unset), "0")
         == HeaderScan(s, 5, HeaderState(true, Unset, Unset, Unset), "00")
  {
    HeaderDigit(s, 4, HeaderState(true, Unset, Unset, Unset), "0");
    assert "0" + ['0'] == "00";
  }

  lemma ZeroDigitsHeader4(s: seq<char>)
    requires 14 <= |s| && s[5] == '0'
    ensures HeaderScan(s, 5, HeaderState(true, Unset, Unset, Unset), "00")
         == HeaderScan(s, 6, HeaderState(true, Unset, Unset, Unset), "000")
  {
    HeaderDigit(s, 5, HeaderState(true, Unset, Unset, Unset), "00");
    assert "00" + ['0'] == "000";
  }

  lemma ZeroDigitsHeader5(s: seq<char>)
    requires 14 <= |s| && s[6] == '0'
    ensures HeaderScan(s, 6, HeaderState(true, Unset, Unset, Unset), "000")
         == HeaderScan(s, 7, HeaderState(true, Unset, Unset, Unset), "0000")
  {
    HeaderDigit(s, 6, HeaderState(true, Unset, Unset, Unset), "000");
    assert "000" + ['0'] == "0000";
  }

  lemma ZeroDigitsHeader6(s: seq<char>)
    requires 14 <= |s| && s[7] == ' '
    ensures HeaderScan(s, 7, HeaderState(true, Unset, Unset, Unset), "0000")
         == HeaderScan(s, 8, HeaderState(true, Unset, Unset, Unset), "0000")
  {
    HeaderDelim(s, 7, HeaderState(true, Unset, Unset, Unset), "0000");
    ZeroRun("0000");
  }

  lemma ZeroDigitsHeader7(s: seq<char>)
    requires 14 <= |s| && s[8] == '0'
    ensures HeaderScan(s, 8, HeaderState(true, Unset, Unset, Unset), "0000")
         == HeaderScan(s, 9, HeaderState(true, Unset, Unset, Unset), "00000")
  {
    HeaderDigit(s, 8, HeaderState(true, Unset, Unset, Unset), "0000");
    assert "0000" + ['0'] == "00000";
  }

  lemma ZeroDigitsHeader8(s: seq<char>)
    requires 14 <= |s| && s[9] == '0'
    ensures HeaderScan(s, 9, HeaderState(true, Unset, Unset, Unset), "00000")
         == HeaderScan(s, 10, HeaderState(true, Unset, Unset, Unset), "000000")
  {
    HeaderDigit(s, 9, HeaderState(true, Unset, Unset, Unset), "00000");
    assert "00000" + ['0'] == "000000";
  }

  lemma ZeroDigitsHeader9(s: seq<char>)
    requires 14 <= |s| && s[10] == '0'
    ensures HeaderScan(s, 10, HeaderState(true, Unset, Unset, Unset), "000000")
         == HeaderScan(s, 11, HeaderState(true, Unset, Unset, Unset), "0000000")
  {
    HeaderDigit(s, 10, HeaderState(true, Unset, Unset, Unset), "000000");
    assert "000000" + ['0'] == "0000000";
  }

  lemma ZeroDigitsHeader10(s: seq<char>)
    requires 14 <= |s| && s[11] == '0'
    ensures HeaderScan(s, 11, HeaderState(true, Unset, Unset, Unset), "0000000")
         == HeaderScan(s, 12, HeaderState(true, Unset, Unset, Unset), "00000000")
  {
    HeaderDigit(s, 11, HeaderState(true, Unset, Unset, Unset), "0000000");
    assert "0000000" + ['0'] == "00000000";
  }

  lemma ZeroDigitsHeader11(s: seq<char>)
    requires 14 <= |s| && s[12] == '0'
    ensures HeaderScan(s, 12, HeaderState(true, Unset, Unset, Unset), "00000000")
         == HeaderScan(s, 13, HeaderState(true, Unset, Unset, Unset), "000000000")
  {
    HeaderDigit(s, 12, HeaderState(true, Unset, Unset, Unset), "00000000");
    assert "00000000" + ['0'] == "000000000";
  }

  lemma ZeroDigitsHeader12(s: seq<char>)
    requires 14 <= |s| && s[13] == '0'
    ensures HeaderScan(s, 13, HeaderState(true, Unset, Unset, Unset), "000000000")
         == HeaderScan(s, 14, HeaderState(true, Unset, Unset, Unset), "0000000000")
  {
    HeaderDigit(s, 13, HeaderState(true, Unset, Unset, Unset), "000000000");
    assert "000000000" + ['0'] == "0000000000";
  }

  lemma ZeroDigitsHeader13(s: seq<char>)
    requires |s| == 15 && s[14] == ' '
    ensures HeaderScan(s, 14, HeaderState(true, Unset, Unset, Unset), "0000000000")
         == Overflowed(HeaderState(true, Unset, Unset, Unset))
  {
    HeaderOverflowDelim(s, 14, HeaderState(true, Unset, Unset, Unset), "0000000000");
  }

  /** The header loop at the end of a stream of two runs of zeros. */
  lemma TenDigitsEnd(s: seq<char>)
    requires |s| == 14
    ensures HeaderScan(s, 14, HeaderState(true, Unset, Unset, Unset), "0000000000")
         == Scanned(HeaderState(true, Unset, Unset, Unset), 14, "0000000000")
  {
  }

  /** The header loop over a token of eleven digits. */
  lemma ElevenDigitsHeader1(s: seq<char>)
    requires |s| == 14 && s[2] == ' '
    ensures HeaderScan(s, 2, HeaderState(true, Unset, Unset, Unset), [])
         == HeaderScan(s, 3, HeaderState(true, Unset, Unset, Unset), [])
  {
    HeaderDelim(s, 2, HeaderState(true, Unset, Unset, Unset), []);
  }

  lemma ElevenDigitsHeader2(s: seq<char>)
    requires |s| == 14 && s[3] == '1'
    ensures HeaderScan(s, 3, HeaderState(true, Unset, Unset, Unset), [])
         == HeaderScan(s, 4, HeaderState(true, Unset, Unset, Unset), "1")
  {
    HeaderDigit(s, 3, HeaderState(true, Unset, Unset, Unset), []);
    assert "" + ['1'] == "1";
  }

  lemma ElevenDigitsHeader3(s: seq<char>)
    requires |s| == 14 && s[4] == '2'
    ensures HeaderScan(s, 4, HeaderState(true, Unset, Unset, Unset), "1")
         == HeaderScan(s, 5, HeaderState(true, Unset, Unset, Unset), "12")
  {
    HeaderDigit(s, 4, HeaderState(true, Unset, Unset, Unset), "1");
    assert "1" + ['2'] == "12";
  }

  lemma ElevenDigitsHeader4(s: seq<char>)
    requires |s| == 14 && s[5] == '3'
    ensures HeaderScan(s, 5, HeaderState(true, Unset, Unset, Unset), "12")
         == HeaderScan(s, 6, HeaderState(true, Unset, Unset, Unset), "123")
  {
    HeaderDigit(s, 5, HeaderState(true, Unset, Unset, Unset), "12");
    assert "12" + ['3'] == "123";
  }

  lemma ElevenDigitsHeader5(s: seq<char>)
    requires |s| == 14 && s[6] == '4'
    ensures HeaderScan(s, 6, HeaderState(true, Unset, Unset, Unset), "123")
         == HeaderScan(s, 7, HeaderState(true, Unset, Unset, Unset), "1234")
  {
    HeaderDigit(s, 6, HeaderState(true, Unset, Unset, Unset), "123");
    assert "123" + ['4'] == "1234";
  }

  lemma ElevenDigitsHeader6(s: seq<char>)
    requires |s| == 14 && s[7] == '5'
    ensures HeaderScan(s, 7, HeaderState(true, Unset, Unset, Unset), "1234")
         == HeaderScan(s, 8, HeaderState(true, Unset, Unset, Unset), "12345")
  {
    HeaderDigit(s, 7, HeaderState(true, Unset, Unset, Unset), "1234");
    assert "1234" + ['5'] == "12345";
  }

  lemma ElevenDigitsHeader7(s: seq<char>)
    requires |s| == 14 && s[8] == '6'
    ensures HeaderScan(s, 8, HeaderState(true, Unset, Unset, Unset), "12345")
         == HeaderScan(s, 9, HeaderState(true, Unset, Unset, Unset), "123456")
  {
    HeaderDigit(s, 8, HeaderState(true, Unset, Unset, Unset), "12345");
    assert "12345" + ['6'] == "123456";
  }

  lemma ElevenDigitsHeader8(s: seq<char>)
    requires |s| == 14 && s[9] == '7'
    ensures HeaderScan(s, 9, HeaderState(true, Unset, Unset, Unset), "123456")
         == HeaderScan(s, 10, HeaderState(true, Unset, Unset, Unset), "1234567")
  {
    HeaderDigit(s, 9, HeaderState(true, Unset, Unset, Unset), "123456");
    assert "123456" + ['7'] == "1234567";
  }

  lemma ElevenDigitsHeader9(s: seq<char>)
    requires |s| == 14 && s[10] == '8'
    ensures HeaderScan(s, 10, HeaderState(true, Unset, Unset, Unset), "1234567")
         == HeaderScan(s, 11, HeaderState(true, Unset, Unset, Unset), "12345678")
  {
    HeaderDigit(s, 10, HeaderState(true, Unset, Unset, Unset), "1234567");
    assert "1234567" + ['8'] == "12345678";
  }

  lemma ElevenDigitsHeader10(s: seq<char>)
    requires |s| == 14 && s[11] == '9'
    ensures HeaderScan(s, 11, HeaderState(true, Unset, Unset, Unset), "12345678")
         == HeaderScan(s, 12, HeaderState(true, Unset, Unset, Unset), "123456789")
  {
    HeaderDigit(s, 11, HeaderState(true, Unset, Unset, Unset), "12345678");
    assert "12345678" + ['9'] == "123456789";
  }

  lemma ElevenDigitsHeader11(s: seq<char>)
    requires |s| == 14 && s[12] == '0'
    ensures HeaderScan(s, 12, HeaderState(true, Unset, Unset, Unset), "123456789")
         == HeaderScan(s, 13, HeaderState(true, Unset, Unset, Unset), "1234567890")
  {
    HeaderDigit(s, 12, HeaderState(true, Unset, Unset, Unset), "123456789");
    assert "123456789" + ['0'] == "1234567890";
  }

  lemma ElevenDigitsHeader12(s: seq<char>)
    requires |s| == 14 && s[13] == '1'
    ensures HeaderScan(s, 13, HeaderState(true, Unset, Unset, Unset), "1234567890")
         == Overflowed(HeaderState(true, Unset, Unset, Unset))
  {
    HeaderOverflow(s, 13, HeaderState(true, Unset, Unset, Unset), "1234567890");
  }

  /** The stream `P3\n2 1 255\n255 0 0 0 255 0\n`, spelled out character by
      character: a two-pixel image, a red pixel and then a green one. */
  lemma TwoPixels(c0: char, s: seq<char>)
    requires |s| == 27 && s[0] == 'P' && s[1] == '3' && s[2] == '\n' && s[3] == '2' && s[4] == ' '
          && s[5] == '1' && s[6] == ' ' && s[7] == '2' && s[8] == '5' && s[9] == '5' && s[10] == '\n'
          && s[11] == '2' && s[12] == '5' && s[13] == '5' && s[14] == ' ' && s[15] == '0' && s[16] == ' '
          && s[17] == '0' && s[18] == ' ' && s[19] == '0' && s[20] == ' ' && s[21] == '2' && s[22] == '5'
          && s[23] == '5' && s[24] == ' ' && s[25] == '0' && s[26] == '\n'
    ensures Parse(true, c0, s, 0, NoHeader)
         == Run(HeaderState(true, 2, 1, 255), Ok([0xFF00_00FF, 0xFF00_FF00]))
  {
    TwoPixelsHeader1(s);
    TwoPixelsHeader2(s);
    TwoPixelsHeader3(s);
    TwoPixelsHeader4(s);
    TwoPixelsHeader5(s);
    TwoPixelsHeader6(s);
    TwoPixelsHeader7(s);
    TwoPixelsHeader8(s);
    TwoPixelsHeader9(s);
    TwoPixelsHeader10(s);
    TwoPixelsPixels1(s);
    TwoPixelsPixels2(s);
    TwoPixelsPixels3(s);
    TwoPixelsPixels4(s);
    TwoPixelsPixels5(s);
    TwoPixelsPixels6(s);
    TwoPixelsPixels7(s);
    TwoPixelsPixels8(s);
    TwoPixelsPixels9(s);
    TwoPixelsPixels10(s);
    TwoPixelsPixels11(s);
    TwoPixelsPixels12(s);
    TwoPixelsPixels13(s);
    TwoPixelsPixels14(s);
    TwoPixelsPixels15(s);
    TwoPixelsPixels16(s);
    TwoPixelsPixels17(s);
    PackExample();
    assert Zeros(2)[0 := Pack(255, 0, 0)][1 := Pack(0, 255, 0)] == [0xFF00_00FF, 0xFF00_FF00];
  }

  /** The stream `P3 1 1 5\n9 0 7\n`: a value above max_val is clamped
      before the pixel is packed. */
  lemma ClampedPixel(c0: char, s: seq<char>)
    requires |s| == 15 && s[0] == 'P' && s[1] == '3' && s[2] == ' ' && s[3] == '1' && s[4] == ' '
          && s[5] == '1' && s[6] == ' ' && s[7] == '5' && s[8] == '\n' && s[9] == '9' && s[10] == ' '
          && s[11] == '0' && s[12] == ' ' && s[13] == '7' && s[14] == '\n'
    ensures Parse(true, c0, s, 0, NoHeader)
         == Run(HeaderState(true, 1, 1, 5), Ok([0xFF05_0005]))
  {
    ClampedHeader1(s);
    ClampedHeader2(s);
    ClampedHeader3(s);
    ClampedHeader4(s);
    ClampedHeader5(s);
    ClampedHeader6(s);
    ClampedHeader7(s);
    ClampedHeader8(s);
    ClampedPixels1(s);
    ClampedPixels2(s);
    ClampedPixels3(s);
    ClampedPixels4(s);
    ClampedPixels5(s);
    ClampedPixels6(s);
    ClampedPixels7(s);
    assert Pack(5, 0, 5) == 0xFF05_0005;
    assert Zeros(1)[0 := Pack(5, 0, 5)] == [0xFF05_0005];
  }

  /** A lone '3' is taken as the selector (the failed second read keeps it
      in `c`), and the header that never completes gives one zero pixel. */
  lemma OnlySelector(c0: char)
    ensures Parse(true, c0, "3", 0, NoHeader) == Run(HeaderState(true, Unset, Unset, Unset), Ok([0]))
  {
    assert Zeros(1) == [0];
  }

  /** The stream `P6 1 1 5\nx`: a P6 header followed by any character gives no image. */
  lemma BinaryData(c0: char, s: seq<char>)
    requires |s| == 10 && s[0] == 'P' && s[1] == '6' && s[2] == ' ' && s[3] == '1' && s[4] == ' '
          && s[5] == '1' && s[6] == ' ' && s[7] == '5' && s[8] == '\n' && s[9] == 'x'
    ensures Parse(true, c0, s, 0, NoHeader) == Run(HeaderState(false, 1, 1, 5), Err(BinaryPixelData))
  {
    BinaryHeader1(s);
    BinaryHeader2(s);
    BinaryHeader3(s);
    BinaryHeader4(s);
    BinaryHeader5(s);
    BinaryHeader6(s);
    BinaryHeader7(s);
    BinaryHeader8(s);
  }

  /** The stream `P3 0000 000000 `: a token of value 0 is not cleared from
      the buffer, so after the second run of zeros it holds ten digits, and
      the delimiter that follows has `atoi` read past them. */
  lemma ZeroDigitsKept(c0: char, s: seq<char>)
    requires |s| == 15 && s[0] == 'P' && s[1] == '3' && s[2] == ' ' && s[3] == '0' && s[4] == '0'
          && s[5] == '0' && s[6] == '0' && s[7] == ' ' && s[8] == '0' && s[9] == '0' && s[10] == '0'
          && s[11] == '0' && s[12] == '0' && s[13] == '0' && s[14] == ' '
    ensures Parse(true, c0, s, 0, NoHeader)
         == Run(HeaderState(true, Unset, Unset, Unset), Err(TokenOverflow))
  {
    ZeroDigitsHeader1(s);
    ZeroDigitsHeader2(s);
    ZeroDigitsHeader3(s);
    ZeroDigitsHeader4(s);
    ZeroDigitsHeader5(s);
    ZeroDigitsHeader6(s);
    ZeroDigitsHeader7(s);
    ZeroDigitsHeader8(s);
    ZeroDigitsHeader9(s);
    ZeroDigitsHeader10(s);
    ZeroDigitsHeader11(s);
    ZeroDigitsHeader12(s);
    ZeroDigitsHeader13(s);
  }

  /** The stream `P3 0000 000000`: the same ten digits at the end of the
      stream are never handed to `atoi`, and the header that never completes
      gives one zero pixel. */
  lemma TenDigitsAtEnd(c0: char, s: seq<char>)
    requires |s| == 14 && s[0] == 'P' && s[1] == '3' && s[2] == ' ' && s[3] == '0' && s[4] == '0'
          && s[5] == '0' && s[6] == '0' && s[7] == ' ' && s[8] == '0' && s[9] == '0' && s[10] == '0'
          && s[11] == '0' && s[12] == '0' && s[13] == '0'
    ensures Parse(true, c0, s, 0, NoHeader)
         == Run(HeaderState(true, Unset, Unset, Unset), Ok([0]))
  {
    ZeroDigitsHeader1(s);
    ZeroDigitsHeader2(s);
    ZeroDigitsHeader3(s);
    ZeroDigitsHeader4(s);
    ZeroDigitsHeader5(s);
    ZeroDigitsHeader6(s);
    ZeroDigitsHeader7(s);
    ZeroDigitsHeader8(s);
    ZeroDigitsHeader9(s);
    ZeroDigitsHeader10(s);
    ZeroDigitsHeader11(s);
    ZeroDigitsHeader12(s);
    TenDigitsEnd(s);
    assert Zeros(1) == [0];
  }

  /** The stream `P3 12345678901`: ten digits fill the buffer, and the
      eleventh would be written past it. */
  lemma ElevenDigits(c0: char, s: seq<char>)
    requires |s| == 14 && s[0] == 'P' && s[1] == '3' && s[2] == ' ' && s[3] == '1' && s[4] == '2'
          && s[5] == '3' && s[6] == '4' && s[7] == '5' && s[8] == '6' && s[9] == '7' && s[10] == '8'
          && s[11] == '9' && s[12] == '0' && s[13] == '1'
    ensures Parse(true, c0, s, 0, NoHeader)
         == Run(HeaderState(true, Unset, Unset, Unset), Err(TokenOverflow))
  {
    ElevenDigitsHeader1(s);
    ElevenDigitsHeader2(s);
    ElevenDigitsHeader3(s);
    ElevenDigitsHeader4(s);
    ElevenDigitsHeader5(s);
    ElevenDigitsHeader6(s);
    ElevenDigitsHeader7(s);
    ElevenDigitsHeader8(s);
    ElevenDigitsHeader9(s);
    ElevenDigitsHeader10(s);
    ElevenDigitsHeader11(s);
    ElevenDigitsHeader12(s);
  }
}
