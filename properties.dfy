/** What `ParsePPM` returns, stated through the token reading of `Reading`:
    the header is the first three non-zero values, and a P3 pixmap holds the
    clamped, packed triples that follow, then zeros. */
module Properties {
  import opened Packing
  import opened Scan
  import opened Reading
  import opened Meaning

  /** A header as `Header h;` leaves it: no size set yet. */
  predicate Fresh(h: HeaderState) {
    h.width == Unset && h.height == Unset && h.maxVal == Unset
  }

  /** The closed tokens from `pos` on. */
  function TokensFrom(s: seq<char>, pos: nat): (ts: seq<seq<char>>)
    requires pos <= |s|
    ensures forall k :: 0 <= k < |ts| ==> AllDigits(ts[k])
  {
    Tokens(Events(s, pos), [])
  }

  /** The digits after the last delimiter. */
  function PendingFrom(s: seq<char>, pos: nat): seq<char>
    requires pos <= |s|
  {
    Pending(Events(s, pos), [])
  }

  /** The values the header may take its fields from: every non-zero one. */
  function HeaderValues(s: seq<char>, pos: nat): (nz: seq<int>)
    requires pos <= |s|
    ensures forall k :: 0 <= k < |nz| ==> nz[k] >= 1
  {
    NonZero(Values(TokensFrom(s, pos)))
  }

  /** The tokens after the third non-zero value. */
  function BodyTokens(s: seq<char>, pos: nat): seq<seq<char>>
    requires pos <= |s|
  {
    var ts := TokensFrom(s, pos);
    ts[Consumed(Values(ts), 3)..]
  }

  /** The digit buffer holds out until the header is complete (or the stream ends). */
  predicate HeaderOk(s: seq<char>, pos: nat)
    requires pos <= |s|
  {
    HeaderFits(TokensFrom(s, pos), PendingFrom(s, pos), 3, 0)
  }

  lemma FreshFields(h: HeaderState)
    requires Fresh(h)
    ensures InOrder(h) && Fields(h) == []
  {
  }

  /** Fields read from the first three of at least three values. */
  lemma CompleteFields(h: HeaderState, nz: seq<int>)
    requires InOrder(h) && |nz| >= 3 && Fields(h) == nz[..Min(3, |nz|)]
    ensures h.Complete() && h.width == nz[0] && h.height == nz[1] && h.maxVal == nz[2]
  {
    assert Min(3, |nz|) == 3;
    assert |Fields(h)| == 3;
    assert Fields(h)[0] == nz[0] && Fields(h)[1] == nz[1] && Fields(h)[2] == nz[2];
  }

  /** Fields read from fewer than three values. */
  lemma ShortFields(h: HeaderState, nz: seq<int>)
    requires InOrder(h) && |nz| < 3 && Fields(h) == nz[..Min(3, |nz|)]
    ensures |nz| == 0 ==> h.width == Unset && h.height == Unset
    ensures |nz| == 1 ==> h.width == nz[0] && h.height == Unset
    ensures |nz| == 2 ==> h.width == nz[0] && h.height == nz[1]
  {
    assert Fields(h) == nz;
    if |nz| > 0 {
      assert Fields(h)[0] == nz[0];
    }
    if |nz| == 2 {
      assert Fields(h)[1] == nz[1];
    }
  }

  lemma ProductPositive(a: int, b: int)
    requires a >= 1 && b >= 1
    ensures a * b >= 1
  {
  }

  /** The pixmap buffer after the pixels `px` were written from slot 0. */
  lemma FillZeros(px: seq<bv32>, n: nat)
    requires |px| <= n
    ensures Zeros(n)[..0] + px + Zeros(n)[|px|..] == Fill(px, n)
  {
    assert Zeros(n)[|px|..] == Zeros(n - |px|);
  }

  /** The header loop of a stream whose selector is '3' or '6', run from a
      fresh header, in the terms of the token reading. */
  lemma HeaderRead(s: seq<char>, pos: nat, h: HeaderState)
    requires pos <= |s| && Fresh(h)
    ensures var e := HeaderScan(s, pos, h, []);
      var nz := HeaderValues(s, pos);
      && e.h.isAscii == h.isAscii
      && (e.Overflowed? <==> !HeaderOk(s, pos))
      && (e.Scanned? ==> InOrder(e.h) && Fields(e.h) == nz[..Min(3, |nz|)])
      && (e.Scanned? && e.h.Complete() ==>
            e.num == [] && TokensFrom(s, e.pos) == BodyTokens(s, pos) && PendingFrom(s, e.pos) == PendingFrom(s, pos))
      && (e.Scanned? && !e.h.Complete() ==> e.pos == |s|)
  {
    FreshFields(h);
    HeaderScanMeaning(s, pos, h, [], []);
    var none: seq<char> := [];
    assert none + none == none;
  }

  /** Whatever the selector, the header ends up with the first three
      non-zero values in the order width, height, max_val, unless a token
      overflows the digit buffer first. */
  lemma ParseHeader(c0: char, s: seq<char>, start: nat, h0: HeaderState)
    requires start <= |s| && (Selector(s, start, c0) == '3' || Selector(s, start, c0) == '6') && Fresh(h0)
    ensures var run := Parse(true, c0, s, start, h0);
      var nz := HeaderValues(s, HeaderStart(s, start));
      && run.header.isAscii == (Selector(s, start, c0) == '3')
      && (!HeaderOk(s, HeaderStart(s, start)) ==> run.pixmap == Err(TokenOverflow))
      && (HeaderOk(s, HeaderStart(s, start)) ==> Fields(run.header) == nz[..Min(3, |nz|)])
  {
    HeaderRead(s, HeaderStart(s, start), h0.(isAscii := Selector(s, start, c0) == '3'));
  }

  /** A pixmap result of `n` slots holding the pixels `px` from slot 0 and
      zeros after them, when the tokens `fit` and `px` fits in the slots;
      otherwise the error of the limit that was reached. */
  predicate ImageOutcome(p: Result<seq<bv32>>, n: nat, px: seq<bv32>, fits: bool) {
    && (p.Ok? <==> fits && |px| <= n)
    && (p.Ok? ==> |px| <= n && p.value == Fill(px, n))
    && (p.Err? && fits ==> p.failure == PixmapOverrun)
    && (p.Err? && |px| <= n ==> p.failure == TokenOverflow)
  }

  /** The pixel loop after a complete P3 header. */
  lemma FinishP3(s: seq<char>, e: HeaderEnd)
    requires e.Scanned? && e.pos <= |s| && e.num == [] && e.h.isAscii && e.h.maxVal >= 1
    requires e.h.width >= 1 && e.h.height >= 1 && e.h.width * e.h.height <= IntMax
    ensures ImageOutcome(Finish(s, e).pixmap, e.h.width * e.h.height,
                         Packed(Clamp(Values(TokensFrom(s, e.pos)), e.h.maxVal)),
                         AllFit(TokensFrom(s, e.pos), PendingFrom(s, e.pos)))
  {
    ProductPositive(e.h.width, e.h.height);
    var n := e.h.width * e.h.height;
    var px := Packed(Clamp(Values(TokensFrom(s, e.pos)), e.h.maxVal));
    PixelScanMeaning(s, e.pos, e.h.maxVal, Unset, Unset, [], 0, Zeros(n));
    assert PixelValues(s, e.pos, e.h.maxVal, Unset, Unset, []) == Clamp(Values(TokensFrom(s, e.pos)), e.h.maxVal);
    if |px| <= n {
      FillZeros(px, n);
    }
  }

  /** The pixel loop of a P6 stream stops at the first character. */
  lemma FinishP6(s: seq<char>, e: HeaderEnd)
    requires e.Scanned? && e.pos <= |s| && DigitBuffer(e.num) && !e.h.isAscii
    requires e.h.width >= 1 && e.h.height >= 1 && e.h.width * e.h.height <= IntMax
    ensures var n := e.h.width * e.h.height;
      && (Finish(s, e).pixmap.Ok? <==> e.pos == |s|)
      && (Finish(s, e).pixmap.Ok? ==> Finish(s, e).pixmap.value == Zeros(n))
      && (Finish(s, e).pixmap.Err? ==> Finish(s, e).pixmap.failure == BinaryPixelData)
  {
    ProductPositive(e.h.width, e.h.height);
  }

  /** A header loop that ran to the end of the stream leaves only the allocation. */
  lemma FinishAtEnd(s: seq<char>, e: HeaderEnd)
    requires e.Scanned? && e.pos == |s| && DigitBuffer(e.num)
    ensures var n := e.h.width * e.h.height;
      Finish(s, e).pixmap == if n < 0 || n > IntMax then Err(BadPixmapSize) else Ok(Zeros(n))
  {
  }

  /** A header that the stream ends before completing gives a zero pixmap
      when the allocation size is valid: one zero pixel when no size was
      read ((-1) * (-1) == 1), and `width * height` zero pixels when only
      max_val is missing and that product fits an `int`. A lone width makes
      the size negative, and a product above `INT_MAX` overflows: both are
      `BadPixmapSize`. */
  lemma ParseShortHeader(c0: char, s: seq<char>, start: nat, h0: HeaderState)
    requires start <= |s| && (Selector(s, start, c0) == '3' || Selector(s, start, c0) == '6') && Fresh(h0)
    requires HeaderOk(s, HeaderStart(s, start)) && |HeaderValues(s, HeaderStart(s, start))| < 3
    ensures var run := Parse(true, c0, s, start, h0);
      var nz := HeaderValues(s, HeaderStart(s, start));
      && (|nz| == 0 ==> run.pixmap == Ok([0]))
      && (|nz| == 1 ==> run.pixmap == Err(BadPixmapSize))
      && (|nz| == 2 && nz[0] * nz[1] <= IntMax ==> run.pixmap == Ok(Zeros(nz[0] * nz[1])))
      && (|nz| == 2 && nz[0] * nz[1] > IntMax ==> run.pixmap == Err(BadPixmapSize))
  {
    var nz := HeaderValues(s, HeaderStart(s, start));
    var h := h0.(isAscii := Selector(s, start, c0) == '3');
    HeaderRead(s, HeaderStart(s, start), h);
    var e := HeaderScan(s, HeaderStart(s, start), h, []);
    ShortFields(e.h, nz);
    FieldsComplete(e.h);
    FinishAtEnd(s, e);
    if |nz| == 0 {
      assert Zeros(1) == [0];
    } else if |nz| == 2 {
      ProductPositive(nz[0], nz[1]);
    }
  }

  /** A stream too short to hold the magic number's two characters: the
      selector is the one character there is, or `c` when there is none, the
      header loop reads nothing, and the pixmap is one zero pixel. */
  lemma ParseTooShort(c0: char, s: seq<char>, start: nat, h0: HeaderState)
    requires start <= |s| < start + 2 && (Selector(s, start, c0) == '3' || Selector(s, start, c0) == '6')
    requires Fresh(h0)
    ensures Parse(true, c0, s, start, h0) == Run(h0.(isAscii := Selector(s, start, c0) == '3'), Ok([0]))
  {
    assert Zeros(1) == [0];
  }

  /** A complete P3 header: with `n = width * height` slots the pixmap holds
      the packed triples of the values after the header, each clamped to
      max_val, followed by zeros; it fails exactly when a token is too long
      or the triples do not fit in the `n` slots. */
  lemma ParseP3(c0: char, s: seq<char>, start: nat, h0: HeaderState)
    requires start <= |s| && Selector(s, start, c0) == '3' && Fresh(h0)
    requires HeaderOk(s, HeaderStart(s, start)) && |HeaderValues(s, HeaderStart(s, start))| >= 3
    ensures var run := Parse(true, c0, s, start, h0);
      var nz := HeaderValues(s, HeaderStart(s, start));
      var n := nz[0] * nz[1];
      var rest := BodyTokens(s, HeaderStart(s, start));
      && run.header == HeaderState(true, nz[0], nz[1], nz[2])
      && n >= 1
      && (n > IntMax ==> run.pixmap == Err(BadPixmapSize))
      && (n <= IntMax ==>
            ImageOutcome(run.pixmap, n, Packed(Clamp(Values(rest), nz[2])), AllFit(rest, PendingFrom(s, HeaderStart(s, start)))))
  {
    var nz := HeaderValues(s, HeaderStart(s, start));
    var h := h0.(isAscii := true);
    HeaderRead(s, HeaderStart(s, start), h);
    var e := HeaderScan(s, HeaderStart(s, start), h, []);
    CompleteFields(e.h, nz);
    ProductPositive(nz[0], nz[1]);
    if nz[0] * nz[1] <= IntMax {
      FinishP3(s, e);
    }
  }

  /** P6 pixel data is never decoded: a complete P6 header gives a pixmap of
      zeros only when no token follows it, and any other outcome is the
      binary-data failure. */
  lemma ParseP6(c0: char, s: seq<char>, start: nat, h0: HeaderState)
    requires start <= |s| && Selector(s, start, c0) == '6' && Fresh(h0)
    requires HeaderOk(s, HeaderStart(s, start)) && |HeaderValues(s, HeaderStart(s, start))| >= 3
    ensures var run := Parse(true, c0, s, start, h0);
      var nz := HeaderValues(s, HeaderStart(s, start));
      var n := nz[0] * nz[1];
      && run.header == HeaderState(false, nz[0], nz[1], nz[2])
      && (n > IntMax ==> run.pixmap == Err(BadPixmapSize))
      && (n <= IntMax && run.pixmap.Ok? ==>
            run.pixmap.value == Zeros(n) && BodyTokens(s, HeaderStart(s, start)) == [] && PendingFrom(s, HeaderStart(s, start)) == [])
      && (n <= IntMax && run.pixmap.Err? ==> run.pixmap.failure == BinaryPixelData)
      && (n <= IntMax && (BodyTokens(s, HeaderStart(s, start)) != [] || PendingFrom(s, HeaderStart(s, start)) != []) ==>
            run.pixmap == Err(BinaryPixelData))
  {
    var nz := HeaderValues(s, HeaderStart(s, start));
    var h := h0.(isAscii := false);
    HeaderRead(s, HeaderStart(s, start), h);
    var e := HeaderScan(s, HeaderStart(s, start), h, []);
    CompleteFields(e.h, nz);
    ProductPositive(nz[0], nz[1]);
    if nz[0] * nz[1] <= IntMax {
      FinishP6(s, e);
    }
  }

  /** Pixel `k` is the packing of the `k`-th triple. */
  lemma {:induction false} PackedAt(all: seq<int>, k: nat)
    requires k < |all| / 3
    ensures Packed(all)[k] == Pack(all[3 * k], all[3 * k + 1], all[3 * k + 2])
    decreases k
  {
    if k > 0 {
      PackedAt(all[3..], k - 1);
      assert Packed(all)[k] == Packed(all[3..])[k - 1];
      assert all[3..][3 * (k - 1)] == all[3 * k];
    }
  }

  /** Every packed pixel carries its triple of channels, read back byte by byte. */
  lemma PackedChannels(all: seq<int>, k: nat)
    requires forall i :: 0 <= i < |all| ==> IsByte(all[i])
    requires k < |all| / 3
    ensures AlphaOf(Packed(all)[k]) == 0xFF
    ensures Red(Packed(all)[k]) == all[3 * k] && Green(Packed(all)[k]) == all[3 * k + 1]
         && Blue(Packed(all)[k]) == all[3 * k + 2]
  {
    PackedAt(all, k);
    PackChannels(all[3 * k], all[3 * k + 1], all[3 * k + 2]);
  }

  /** With max_val at most 255, pixel `k` of a P3 image reads back as the
      `k`-th triple of values, each clamped to max_val. */
  lemma ClampedChannels(vs: seq<int>, m: int, k: nat)
    requires 0 <= m <= 255 && k < |vs| / 3
    requires forall i :: 0 <= i < |vs| ==> vs[i] >= 0
    ensures var px := Packed(Clamp(vs, m));
      && k < |px| && AlphaOf(px[k]) == 0xFF
      && Red(px[k]) == Min(vs[3 * k], m) && Green(px[k]) == Min(vs[3 * k + 1], m)
      && Blue(px[k]) == Min(vs[3 * k + 2], m)
  {
    var cs := Clamp(vs, m);
    assert forall i :: 0 <= i < |cs| ==> cs[i] == Min(vs[i], m) && IsByte(cs[i]);
    PackedChannels(cs, k);
  }

  /** A stream that is not open, or whose selector is neither '3' nor '6',
      gives no image and leaves the header as it was. */
  lemma ParseRejects(isOpen: bool, c0: char, s: seq<char>, start: nat, h0: HeaderState)
    requires start <= |s|
    ensures var run := Parse(isOpen, c0, s, start, h0);
      var d := Selector(s, start, c0);
      && (!isOpen ==> run == Run(h0, Err(CannotOpenFile)))
      && (isOpen ==> (run.pixmap == Err(UnsupportedFormat) <==> d != '3' && d != '6'))
      && (isOpen && d != '3' && d != '6' ==> run.header == h0)
  {
  }

  // ---------------------------------------------------------------------
  // The first character is never checked

  /** `t` has the characters of `s` from `pos` on, and the same length. */
  predicate SameFrom(s: seq<char>, t: seq<char>, pos: nat) {
    |s| == |t| && forall k :: pos <= k < |s| ==> s[k] == t[k]
  }

  lemma {:induction false} SkipCommentFrame(s: seq<char>, t: seq<char>, k: nat)
    requires k <= |s| && SameFrom(s, t, k)
    ensures SkipComment(s, k) == SkipComment(t, k)
    decreases |s| - k
  {
    if k < |s| && s[k] != '\n' {
      SkipCommentFrame(s, t, k + 1);
    }
  }

  lemma {:induction false} HeaderScanFrame(s: seq<char>, t: seq<char>, pos: nat, h: HeaderState, num: seq<char>)
    requires pos <= |s| && DigitBuffer(num) && SameFrom(s, t, pos)
    ensures HeaderScan(s, pos, h, num) == HeaderScan(t, pos, h, num)
    decreases |s| - pos
  {
    if !h.Complete() && pos < |s| {
      var c := s[pos];
      if c == '#' {
        SkipCommentFrame(s, t, pos + 1);
        HeaderScanFrame(s, t, SkipComment(s, pos + 1), h, num);
      } else if IsDelimiter(c) {
        if |num| == BufferSize {
        } else if Atoi(num) != 0 {
          HeaderScanFrame(s, t, pos + 1, Assign(h, Atoi(num)), []);
        } else {
          HeaderScanFrame(s, t, pos + 1, h, num);
        }
      } else if IsDigit(c) {
        if |num| < BufferSize {
          HeaderScanFrame(s, t, pos + 1, h, num + [c]);
        }
      } else {
        HeaderScanFrame(s, t, pos + 1, h, num);
      }
    }
  }

  lemma {:induction false} PixelScanFrame(s: seq<char>, t: seq<char>, pos: nat, isAscii: bool, maxVal: int,
                                          r: int, g: int, num: seq<char>, j: nat, buf: seq<bv32>)
    requires pos <= |s| && DigitBuffer(num) && j <= |buf| && SameFrom(s, t, pos)
    ensures PixelScan(s, pos, isAscii, maxVal, r, g, Unset, num, j, buf)
         == PixelScan(t, pos, isAscii, maxVal, r, g, Unset, num, j, buf)
    decreases |s| - pos
  {
    if isAscii && pos < |s| {
      var c := s[pos];
      if c == '#' {
        SkipCommentFrame(s, t, pos + 1);
        PixelScanFrame(s, t, SkipComment(s, pos + 1), isAscii, maxVal, r, g, num, j, buf);
      } else if IsDelimiter(c) {
        var v := Min(Atoi(num), maxVal);
        if |num| == BufferSize {
        } else if r == Unset {
          PixelScanFrame(s, t, pos + 1, isAscii, maxVal, v, g, [], j, buf);
        } else if g == Unset {
          PixelScanFrame(s, t, pos + 1, isAscii, maxVal, r, v, [], j, buf);
        } else if j < |buf| {
          PixelScanFrame(s, t, pos + 1, isAscii, maxVal, Unset, Unset, [], j + 1, buf[j := Pack(r, g, v)]);
        }
      } else if IsDigit(c) {
        if |num| < BufferSize {
          PixelScanFrame(s, t, pos + 1, isAscii, maxVal, r, g, num + [c], j, buf);
        }
      } else {
        PixelScanFrame(s, t, pos + 1, isAscii, maxVal, r, g, num, j, buf);
      }
    }
  }

  /** The character before the selector is read but never checked, and the
      indeterminate `c0` is never seen once two characters can be read:
      streams that agree from the selector on parse alike. */
  lemma MagicIgnored(isOpen: bool, c0: char, c1: char, s: seq<char>, t: seq<char>, start: nat, h0: HeaderState)
    requires start + 1 < |s| && SameFrom(s, t, start + 1)
    ensures Parse(isOpen, c0, s, start, h0) == Parse(isOpen, c1, t, start, h0)
  {
    if isOpen {
      var d := s[start + 1];
      if d == '3' || d == '6' {
        var h := h0.(isAscii := d == '3');
        HeaderScanFrame(s, t, start + 2, h, []);
        match HeaderScan(s, start + 2, h, [])
        case Overflowed(_) =>
        case Scanned(h', p, num) =>
          var n := h'.width * h'.height;
          if 0 <= n <= IntMax {
            PixelScanFrame(s, t, p, h'.isAscii, h'.maxVal, Unset, Unset, num, 0, Zeros(n));
          }
      }
    }
  }
}
