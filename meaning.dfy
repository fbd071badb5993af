/** What the two loops of `ParsePPM` compute, stated in the token reading of
    module `Reading`. */
module Meaning {
  import opened Packing
  import opened Scan
  import opened Reading

  // ---------------------------------------------------------------------
  // Facts about the token reading

  lemma TokensDelim(ev: seq<Event>, acc: seq<char>)
    requires DigitEvents(ev) && AllDigits(acc)
    ensures DigitEvents([Delim] + ev)
    ensures Tokens([Delim] + ev, acc) == [acc] + Tokens(ev, [])
    ensures Pending([Delim] + ev, acc) == Pending(ev, [])
  {
    assert ([Delim] + ev)[1..] == ev;
  }

  lemma TokensDigit(d: char, ev: seq<Event>, acc: seq<char>)
    requires IsDigit(d) && DigitEvents(ev) && AllDigits(acc)
    ensures DigitEvents([Digit(d)] + ev)
    ensures Tokens([Digit(d)] + ev, acc) == Tokens(ev, acc + [d])
    ensures Pending([Digit(d)] + ev, acc) == Pending(ev, acc + [d])
  {
    assert ([Digit(d)] + ev)[1..] == ev;
  }

  /** The first token, or else the pending digits, starts with `acc`. */
  lemma {:induction false} FirstTokenHolds(ev: seq<Event>, acc: seq<char>)
    requires DigitEvents(ev) && AllDigits(acc)
    ensures |Tokens(ev, acc)| > 0 ==> |Tokens(ev, acc)[0]| >= |acc|
    ensures |Tokens(ev, acc)| == 0 ==> |Pending(ev, acc)| >= |acc|
    decreases |ev|
  {
    if ev != [] {
      assert ev == [ev[0]] + ev[1..];
      match ev[0]
      case Delim =>
        TokensDelim(ev[1..], acc);
      case Digit(d) =>
        TokensDigit(d, ev[1..], acc);
        FirstTokenHolds(ev[1..], acc + [d]);
    }
  }

  /** Digits beyond the buffer's capacity never fit, whatever follows them. */
  lemma LongTokenDoesNotFit(ev: seq<Event>, acc: seq<char>)
    requires DigitEvents(ev) && AllDigits(acc) && |acc| > BufferSize
    ensures !Fits(ev, acc)
  {
    FirstTokenHolds(ev, acc);
  }

  /** Leading zero digits do not change the value `atoi` reads. */
  lemma {:induction false} AtoiZeroPrefix(z: seq<char>, t: seq<char>)
    requires AllDigits(z) && AllDigits(t) && Atoi(z) == 0
    ensures AllDigits(z + t) && Atoi(z + t) == Atoi(t)
    decreases |t|
  {
    assert AllDigits(z + t) by {
      forall k | 0 <= k < |z + t|
        ensures IsDigit((z + t)[k])
      {
        if k < |z| { assert (z + t)[k] == z[k]; } else { assert (z + t)[k] == t[k - |z|]; }
      }
    }
    if t == [] {
      assert z + t == z;
    } else {
      var t' := t[..|t| - 1];
      assert (z + t)[..|z + t| - 1] == z + t';
      AtoiZeroPrefix(z, t');
    }
  }

  lemma ValuesCons(t: seq<char>, ts: seq<seq<char>>)
    requires AllDigits(t) && forall k :: 0 <= k < |ts| ==> AllDigits(ts[k])
    ensures Values([t] + ts) == [Atoi(t)] + Values(ts)
  {
    assert ([t] + ts)[1..] == ts;
  }

  lemma ClampCons(v: int, vs: seq<int>, m: int)
    ensures Clamp([v] + vs, m) == [Min(v, m)] + Clamp(vs, m)
  {
    assert ([v] + vs)[1..] == vs;
  }

  lemma PackedCons(r: int, g: int, b: int, rest: seq<int>)
    ensures Packed([r, g, b] + rest) == [Pack(r, g, b)] + Packed(rest)
  {
    assert ([r, g, b] + rest)[3..] == rest;
  }

  lemma Regroup1(r: int, v: int, rest: seq<int>)
    ensures [r] + ([v] + rest) == [r, v] + rest
  {
  }

  lemma Regroup2(r: int, g: int, v: int, rest: seq<int>)
    ensures [r, g] + ([v] + rest) == [r, g, v] + rest
  {
  }

  lemma FitsDelim(ev: seq<Event>, acc: seq<char>)
    requires DigitEvents(ev) && AllDigits(acc)
    ensures DigitEvents([Delim] + ev)
    ensures Fits([Delim] + ev, acc) == (|acc| <= MaxDigits && Fits(ev, []))
  {
    TokensDelim(ev, acc);
    var ts := Tokens(ev, []);
    assert forall k :: 0 <= k < |ts| ==> ([acc] + ts)[k + 1] == ts[k];
    assert ([acc] + ts)[0] == acc;
  }

  lemma FitsDigit(d: char, ev: seq<Event>, acc: seq<char>)
    requires IsDigit(d) && DigitEvents(ev) && AllDigits(acc)
    ensures DigitEvents([Digit(d)] + ev)
    ensures Fits([Digit(d)] + ev, acc) == Fits(ev, acc + [d])
  {
    TokensDigit(d, ev, acc);
  }

  // ---------------------------------------------------------------------
  // The pixel loop

  /** The values the pixel loop reads from `pos` on, after the channels
      already set: every closed token, clamped to `max_val`. */
  function PixelValues(s: seq<char>, pos: nat, maxVal: int, r: int, g: int, num: seq<char>): seq<int>
    requires pos <= |s| && AllDigits(num)
  {
    Channels(r, g) + Clamp(Values(Tokens(Events(s, pos), num)), maxVal)
  }

  /** What the pixel loop of a P3 stream computes from a given state. It
      succeeds exactly when no token is longer than the digit buffer and the
      complete triples fit in the slots left; it then writes the packed
      triples into consecutive slots from `j` and leaves every other slot as
      it was. A last incomplete triple, and digits with no delimiter after
      them, write nothing. Which error comes out otherwise depends on which
      limit is reached first. */
  predicate PixelClaim(s: seq<char>, pos: nat, maxVal: int, r: int, g: int,
                       num: seq<char>, j: nat, buf: seq<bv32>)
    requires pos <= |s| && DigitBuffer(num) && j <= |buf|
  {
    Claim(PixelScan(s, pos, true, maxVal, r, g, Unset, num, j, buf), Fits(Events(s, pos), num),
          Packed(PixelValues(s, pos, maxVal, r, g, num)), j, buf)
  }

  /** `res` is what writing `px` from slot `j` of `buf` gives, when the tokens
      fit (`fits`) and `px` fits in the slots left. */
  predicate Claim(res: Result<seq<bv32>>, fits: bool, px: seq<bv32>, j: nat, buf: seq<bv32>)
    requires j <= |buf|
  {
    && (res.Ok? <==> fits && j + |px| <= |buf|)
    && (res.Ok? ==> res.value == buf[..j] + px + buf[j + |px|..])
    && (res.Err? && fits ==> res.failure == PixmapOverrun)
    && (res.Err? && j + |px| <= |buf| ==> res.failure == TokenOverflow)
  }

  /** A delimiter at `pos` closes the token `num`: what follows in the token reading. */
  lemma DelimValues(s: seq<char>, pos: nat, maxVal: int, r: int, g: int, num: seq<char>)
    requires pos < |s| && IsDelimiter(s[pos]) && DigitBuffer(num) && |num| <= MaxDigits
    ensures Events(s, pos) == [Delim] + Events(s, pos + 1)
    ensures Fits(Events(s, pos), num) == Fits(Events(s, pos + 1), [])
    ensures PixelValues(s, pos, maxVal, r, g, num)
         == Channels(r, g) + ([Min(Atoi(num), maxVal)] + Clamp(Values(Tokens(Events(s, pos + 1), [])), maxVal))
  {
    var ev' := Events(s, pos + 1);
    var ts' := Tokens(ev', []);
    TokensDelim(ev', num);
    FitsDelim(ev', num);
    ValuesCons(num, ts');
    ClampCons(Atoi(num), Values(ts'), maxVal);
  }

  /** Writing `x` into slot `j` and then `px` from slot `j + 1` is writing `[x] + px` from `j`. */
  lemma ClaimShift(res: Result<seq<bv32>>, fits: bool, x: bv32, px: seq<bv32>, j: nat, buf: seq<bv32>)
    requires j < |buf| && Claim(res, fits, px, j + 1, buf[j := x])
    ensures Claim(res, fits, [x] + px, j, buf)
  {
    if j + 1 + |px| <= |buf| {
      assert buf[j := x][..j + 1] + px + buf[j := x][j + 1 + |px|..]
          == buf[..j] + ([x] + px) + buf[j + 1 + |px|..];
    }
  }

  /** A delimiter after two set channels: the triple, then the values after it. */
  lemma TripleValues(s: seq<char>, pos: nat, maxVal: int, r: int, g: int, num: seq<char>)
    requires pos < |s| && IsDelimiter(s[pos]) && DigitBuffer(num) && |num| <= MaxDigits
    requires r != Unset && g != Unset
    ensures PixelValues(s, pos, maxVal, r, g, num)
         == [r, g, Min(Atoi(num), maxVal)] + PixelValues(s, pos + 1, maxVal, Unset, Unset, [])
  {
    var rest := Clamp(Values(Tokens(Events(s, pos + 1), [])), maxVal);
    var v := Min(Atoi(num), maxVal);
    DelimValues(s, pos, maxVal, r, g, num);
    assert PixelValues(s, pos + 1, maxVal, Unset, Unset, []) == rest;
    assert Channels(r, g) == [r, g];
    Regroup2(r, g, v, rest);
  }

  /** A delimiter that completes a triple, with a slot left for it. */
  lemma PixelTripleStep(s: seq<char>, pos: nat, maxVal: int, r: int, g: int,
                        num: seq<char>, j: nat, buf: seq<bv32>)
    requires pos < |s| && IsDelimiter(s[pos]) && DigitBuffer(num) && |num| <= MaxDigits && j < |buf|
    requires r != Unset && g != Unset
    requires PixelClaim(s, pos + 1, maxVal, Unset, Unset, [], j + 1, buf[j := Pack(r, g, Min(Atoi(num), maxVal))])
    ensures PixelClaim(s, pos, maxVal, r, g, num, j, buf)
  {
    var v := Min(Atoi(num), maxVal);
    var rest := PixelValues(s, pos + 1, maxVal, Unset, Unset, []);
    TripleValues(s, pos, maxVal, r, g, num);
    PackedCons(r, g, v, rest);
    DelimValues(s, pos, maxVal, r, g, num);
    var res := PixelScan(s, pos + 1, true, maxVal, Unset, Unset, Unset, [], j + 1, buf[j := Pack(r, g, v)]);
    assert PixelScan(s, pos, true, maxVal, r, g, Unset, num, j, buf) == res;
    ClaimShift(res, Fits(Events(s, pos + 1), []), Pack(r, g, v), Packed(rest), j, buf);
  }

  /** A delimiter that completes a triple when every slot is taken. */
  lemma PixelOverrunStep(s: seq<char>, pos: nat, maxVal: int, r: int, g: int,
                         num: seq<char>, buf: seq<bv32>)
    requires pos < |s| && IsDelimiter(s[pos]) && DigitBuffer(num) && |num| <= MaxDigits
    requires r != Unset && g != Unset
    ensures PixelClaim(s, pos, maxVal, r, g, num, |buf|, buf)
  {
    TripleValues(s, pos, maxVal, r, g, num);
    PackedCons(r, g, Min(Atoi(num), maxVal), PixelValues(s, pos + 1, maxVal, Unset, Unset, []));
    assert PixelScan(s, pos, true, maxVal, r, g, Unset, num, |buf|, buf) == Err(PixmapOverrun);
  }

  /** A delimiter that fills the red channel. */
  lemma PixelRedStep(s: seq<char>, pos: nat, maxVal: int, num: seq<char>, j: nat, buf: seq<bv32>)
    requires pos < |s| && IsDelimiter(s[pos]) && DigitBuffer(num) && |num| <= MaxDigits && j <= |buf| && maxVal >= 0
    requires PixelClaim(s, pos + 1, maxVal, Min(Atoi(num), maxVal), Unset, [], j, buf)
    ensures PixelClaim(s, pos, maxVal, Unset, Unset, num, j, buf)
  {
    var v := Min(Atoi(num), maxVal);
    DelimValues(s, pos, maxVal, Unset, Unset, num);
    assert PixelValues(s, pos, maxVal, Unset, Unset, num) == PixelValues(s, pos + 1, maxVal, v, Unset, []);
    assert PixelScan(s, pos, true, maxVal, Unset, Unset, Unset, num, j, buf)
        == PixelScan(s, pos + 1, true, maxVal, v, Unset, Unset, [], j, buf);
  }

  /** A delimiter after the red channel: red, then the values from the green one on. */
  lemma GreenValues(s: seq<char>, pos: nat, maxVal: int, r: int, num: seq<char>)
    requires pos < |s| && IsDelimiter(s[pos]) && DigitBuffer(num) && |num| <= MaxDigits && maxVal >= 0
    requires r != Unset
    ensures PixelValues(s, pos, maxVal, r, Unset, num)
         == PixelValues(s, pos + 1, maxVal, r, Min(Atoi(num), maxVal), [])
  {
    var rest := Clamp(Values(Tokens(Events(s, pos + 1), [])), maxVal);
    var v := Min(Atoi(num), maxVal);
    DelimValues(s, pos, maxVal, r, Unset, num);
    assert Channels(r, Unset) == [r];
    assert Channels(r, v) == [r, v];
    Regroup1(r, v, rest);
  }

  /** A delimiter that fills the green channel. */
  lemma PixelGreenStep(s: seq<char>, pos: nat, maxVal: int, r: int, num: seq<char>, j: nat, buf: seq<bv32>)
    requires pos < |s| && IsDelimiter(s[pos]) && DigitBuffer(num) && |num| <= MaxDigits && j <= |buf| && maxVal >= 0
    requires r != Unset
    requires PixelClaim(s, pos + 1, maxVal, r, Min(Atoi(num), maxVal), [], j, buf)
    ensures PixelClaim(s, pos, maxVal, r, Unset, num, j, buf)
  {
    var v := Min(Atoi(num), maxVal);
    DelimValues(s, pos, maxVal, r, Unset, num);
    GreenValues(s, pos, maxVal, r, num);
    assert PixelScan(s, pos, true, maxVal, r, Unset, Unset, num, j, buf)
        == PixelScan(s, pos + 1, true, maxVal, r, v, Unset, [], j, buf);
  }

  /** A delimiter after ten digits: `atoi` would read past the buffer. */
  lemma PixelOverflowStep(s: seq<char>, pos: nat, maxVal: int, r: int, g: int,
                          num: seq<char>, j: nat, buf: seq<bv32>)
    requires pos < |s| && IsDelimiter(s[pos]) && DigitBuffer(num) && |num| == BufferSize && j <= |buf|
    ensures PixelClaim(s, pos, maxVal, r, g, num, j, buf)
  {
    var ev' := Events(s, pos + 1);
    assert Events(s, pos) == [Delim] + ev';
    FitsDelim(ev', num);
  }

  /** A digit: collected, or one too many. */
  lemma PixelDigitStep(s: seq<char>, pos: nat, maxVal: int, r: int, g: int,
                       num: seq<char>, j: nat, buf: seq<bv32>)
    requires pos < |s| && IsDigit(s[pos]) && DigitBuffer(num) && j <= |buf|
    requires |num| < BufferSize ==> PixelClaim(s, pos + 1, maxVal, r, g, num + [s[pos]], j, buf)
    ensures PixelClaim(s, pos, maxVal, r, g, num, j, buf)
  {
    var ev' := Events(s, pos + 1);
    assert Events(s, pos) == [Digit(s[pos])] + ev';
    TokensDigit(s[pos], ev', num);
    FitsDigit(s[pos], ev', num);
    if |num| == BufferSize {
      LongTokenDoesNotFit(ev', num + [s[pos]]);
    } else {
      assert PixelValues(s, pos, maxVal, r, g, num) == PixelValues(s, pos + 1, maxVal, r, g, num + [s[pos]]);
    }
  }

  /** The pixel loop of a P3 stream, from any state it can reach: see `PixelClaim`. */
  lemma {:induction false} PixelScanMeaning(s: seq<char>, pos: nat, maxVal: int, r: int, g: int,
                                            num: seq<char>, j: nat, buf: seq<bv32>)
    requires pos <= |s| && DigitBuffer(num) && j <= |buf|
    requires maxVal >= 0 && (r == Unset ==> g == Unset)
    ensures PixelClaim(s, pos, maxVal, r, g, num, j, buf)
    decreases |s| - pos
  {
    if pos == |s| {
      assert buf[..j] + [] + buf[j..] == buf;
    } else if s[pos] == '#' {
      PixelScanMeaning(s, SkipComment(s, pos + 1), maxVal, r, g, num, j, buf);
    } else if IsDelimiter(s[pos]) {
      var v := Min(Atoi(num), maxVal);
      if |num| == BufferSize {
        PixelOverflowStep(s, pos, maxVal, r, g, num, j, buf);
      } else if r == Unset {
        PixelScanMeaning(s, pos + 1, maxVal, v, g, [], j, buf);
        PixelRedStep(s, pos, maxVal, num, j, buf);
      } else if g == Unset {
        PixelScanMeaning(s, pos + 1, maxVal, r, v, [], j, buf);
        PixelGreenStep(s, pos, maxVal, r, num, j, buf);
      } else if j < |buf| {
        PixelScanMeaning(s, pos + 1, maxVal, Unset, Unset, [], j + 1, buf[j := Pack(r, g, v)]);
        PixelTripleStep(s, pos, maxVal, r, g, num, j, buf);
      } else {
        PixelOverrunStep(s, pos, maxVal, r, g, num, buf);
      }
    } else if IsDigit(s[pos]) {
      if |num| < BufferSize {
        PixelScanMeaning(s, pos + 1, maxVal, r, g, num + [s[pos]], j, buf);
      }
      PixelDigitStep(s, pos, maxVal, r, g, num, j, buf);
    } else {
      PixelScanMeaning(s, pos + 1, maxVal, r, g, num, j, buf);
    }
  }

  // ---------------------------------------------------------------------
  // The header loop

  lemma FieldsComplete(h: HeaderState)
    requires InOrder(h)
    ensures h.Complete() <==> |Fields(h)| == 3
  {
  }

  /** `Assign` appends the value to the fields already set. */
  lemma AssignAppends(h: HeaderState, v: int)
    requires InOrder(h) && !h.Complete() && v != Unset
    ensures InOrder(Assign(h, v)) && Fields(Assign(h, v)) == Fields(h) + [v]
    ensures Assign(h, v).isAscii == h.isAscii
  {
  }

  lemma TakeCons(v: int, nz: seq<int>, k: nat)
    requires k <= |nz|
    ensures [v] + nz[..k] == ([v] + nz)[..k + 1]
  {
  }

  lemma DropCons<T>(t: T, ts: seq<T>, k: nat)
    requires k <= |ts|
    ensures ([t] + ts)[k + 1..] == ts[k..]
  {
  }

  lemma ZeroValue(vs: seq<int>, need: nat)
    requires need > 0
    ensures NonZero([0] + vs) == NonZero(vs) && Consumed([0] + vs, need) == 1 + Consumed(vs, need)
  {
    assert ([0] + vs)[1..] == vs;
  }

  lemma NonZeroValue(v: int, vs: seq<int>, need: nat)
    requires need > 0 && v != 0
    ensures NonZero([v] + vs) == [v] + NonZero(vs) && Consumed([v] + vs, need) == 1 + Consumed(vs, need - 1)
  {
    assert ([v] + vs)[1..] == vs;
  }

  /** `e` is where the header loop stops when the fields `f` were set and `need`
      more are wanted from the non-zero values `nz`: it overflows the digit
      buffer exactly when the tokens do not `fit`, and when it completes the
      header, the tokens after it are `rest` and the pending digits `pend`. */
  predicate HeaderClaim(s: seq<char>, e: HeaderEnd, fits: bool, f: seq<int>, nz: seq<int>, need: nat,
                        rest: seq<seq<char>>, pend: seq<char>)
  {
    && (e.Overflowed? <==> !fits)
    && (e.Scanned? ==>
          && InOrder(e.h) && Fields(e.h) == f + nz[..Min(need, |nz|)]
          && (e.h.Complete() ==>
                && e.num == [] && e.pos <= |s|
                && Tokens(Events(s, e.pos), []) == rest && Pending(Events(s, e.pos), []) == pend))
  }

  /** Setting one more field from the first of the non-zero values. */
  lemma HeaderClaimShift(s: seq<char>, e: HeaderEnd, fits: bool, f: seq<int>, v: int, nz: seq<int>, need: nat,
                         rest: seq<seq<char>>, pend: seq<char>)
    requires need > 0 && HeaderClaim(s, e, fits, f + [v], nz, need - 1, rest, pend)
    ensures HeaderClaim(s, e, fits, f, [v] + nz, need, rest, pend)
  {
    TakeCons(v, nz, Min(need - 1, |nz|));
  }

  /** The claim for the header loop started at `pos` with header `h` and the
      digit buffer holding `z + acc`, where `z` reads as 0. */
  predicate HeaderScanClaim(s: seq<char>, pos: nat, h: HeaderState, z: seq<char>, acc: seq<char>)
    requires pos <= |s| && AllDigits(acc) && DigitBuffer(z + acc)
  {
    var ev := Events(s, pos);
    var ts := Tokens(ev, acc);
    var vs := Values(ts);
    var need := 3 - |Fields(h)|;
    HeaderClaim(s, HeaderScan(s, pos, h, z + acc), HeaderFits(ts, Pending(ev, acc), need, |z|),
                Fields(h), NonZero(vs), need, ts[Consumed(vs, need)..], Pending(ev, acc))
  }

  /** A delimiter at `pos` closes the token `acc`. */
  lemma HeaderDelimTokens(s: seq<char>, pos: nat, acc: seq<char>)
    requires pos < |s| && IsDelimiter(s[pos]) && AllDigits(acc)
    ensures Tokens(Events(s, pos), acc) == [acc] + Tokens(Events(s, pos + 1), [])
    ensures Values(Tokens(Events(s, pos), acc)) == [Atoi(acc)] + Values(Tokens(Events(s, pos + 1), []))
    ensures Pending(Events(s, pos), acc) == Pending(Events(s, pos + 1), [])
  {
    var ev' := Events(s, pos + 1);
    TokensDelim(ev', acc);
    ValuesCons(acc, Tokens(ev', []));
  }

  /** A closed token of value 0 in front of the tokens `ts`. */
  lemma ZeroToken(acc: seq<char>, ts: seq<seq<char>>, pend: seq<char>, need: nat, carry: nat)
    requires AllDigits(acc) && Atoi(acc) == 0 && need > 0 && carry + |acc| <= MaxDigits
    requires forall k :: 0 <= k < |ts| ==> AllDigits(ts[k])
    ensures NonZero(Values([acc] + ts)) == NonZero(Values(ts))
    ensures ([acc] + ts)[Consumed(Values([acc] + ts), need)..] == ts[Consumed(Values(ts), need)..]
    ensures HeaderFits([acc] + ts, pend, need, carry) == HeaderFits(ts, pend, need, carry + |acc|)
  {
    ValuesCons(acc, ts);
    ZeroValue(Values(ts), need);
    DropCons(acc, ts, Consumed(Values(ts), need));
    assert ([acc] + ts)[1..] == ts;
  }

  lemma ZeroTokens(s: seq<char>, pos: nat, h: HeaderState, acc: seq<char>, carry: nat)
    requires pos < |s| && IsDelimiter(s[pos]) && AllDigits(acc)
    requires InOrder(h) && !h.Complete() && Atoi(acc) == 0 && carry + |acc| <= MaxDigits
    ensures var ts := Tokens(Events(s, pos), acc);
      var vs := Values(ts);
      var need := 3 - |Fields(h)|;
      var ts' := Tokens(Events(s, pos + 1), []);
      var vs' := Values(ts');
      && NonZero(vs) == NonZero(vs')
      && ts[Consumed(vs, need)..] == ts'[Consumed(vs', need)..]
      && Pending(Events(s, pos), acc) == Pending(Events(s, pos + 1), [])
      && HeaderFits(ts, Pending(Events(s, pos), acc), need, carry)
         == HeaderFits(ts', Pending(Events(s, pos + 1), []), need, carry + |acc|)
  {
    HeaderDelimTokens(s, pos, acc);
    FieldsComplete(h);
    ZeroToken(acc, Tokens(Events(s, pos + 1), []), Pending(Events(s, pos + 1), []), 3 - |Fields(h)|, carry);
  }

  lemma ZeroScanStep(s: seq<char>, pos: nat, h: HeaderState, num: seq<char>)
    requires pos < |s| && IsDelimiter(s[pos]) && DigitBuffer(num) && |num| <= MaxDigits
    requires !h.Complete() && Atoi(num) == 0
    ensures HeaderScan(s, pos, h, num) == HeaderScan(s, pos + 1, h, num)
  {
  }

  /** The claim after a delimiter that closed a token of value 0, in its parts. */
  lemma ZeroClaimParts(s: seq<char>, pos: nat, h: HeaderState, num: seq<char>)
    requires pos < |s| && DigitBuffer(num) && HeaderScanClaim(s, pos + 1, h, num, [])
    ensures var ts' := Tokens(Events(s, pos + 1), []);
      var vs' := Values(ts');
      var need := 3 - |Fields(h)|;
      HeaderClaim(s, HeaderScan(s, pos + 1, h, num), HeaderFits(ts', Pending(Events(s, pos + 1), []), need, |num|),
                  Fields(h), NonZero(vs'), need, ts'[Consumed(vs', need)..], Pending(Events(s, pos + 1), []))
  {
    assert num + [] == num;
  }

  /** A delimiter closing a token of value 0: the digits stay in the buffer. */
  lemma HeaderZeroStep(s: seq<char>, pos: nat, h: HeaderState, z: seq<char>, acc: seq<char>)
    requires pos < |s| && IsDelimiter(s[pos]) && AllDigits(z) && AllDigits(acc)
    requires DigitBuffer(z + acc) && |z + acc| <= MaxDigits && InOrder(h) && !h.Complete()
    requires Atoi(acc) == 0 && Atoi(z + acc) == 0
    requires HeaderScanClaim(s, pos + 1, h, z + acc, [])
    ensures HeaderScanClaim(s, pos, h, z, acc)
  {
    ZeroTokens(s, pos, h, acc, |z|);
    ZeroScanStep(s, pos, h, z + acc);
    ZeroClaimParts(s, pos, h, z + acc);
  }

  lemma FieldScanStep(s: seq<char>, pos: nat, h: HeaderState, z: seq<char>, acc: seq<char>)
    requires pos < |s| && IsDelimiter(s[pos]) && AllDigits(z) && AllDigits(acc)
    requires DigitBuffer(z + acc) && |z + acc| <= MaxDigits && !h.Complete()
    requires Atoi(acc) != 0 && Atoi(z + acc) == Atoi(acc)
    ensures HeaderScan(s, pos, h, z + acc) == HeaderScan(s, pos + 1, Assign(h, Atoi(acc)), [])
  {
  }

  /** A closed token of non-zero value in front of the tokens `ts`. */
  lemma FieldToken(acc: seq<char>, ts: seq<seq<char>>, pend: seq<char>, need: nat, carry: nat)
    requires AllDigits(acc) && Atoi(acc) != 0 && need > 0 && carry + |acc| <= MaxDigits
    requires forall k :: 0 <= k < |ts| ==> AllDigits(ts[k])
    ensures NonZero(Values([acc] + ts)) == [Atoi(acc)] + NonZero(Values(ts))
    ensures ([acc] + ts)[Consumed(Values([acc] + ts), need)..] == ts[Consumed(Values(ts), need - 1)..]
    ensures HeaderFits([acc] + ts, pend, need, carry) == HeaderFits(ts, pend, need - 1, 0)
  {
    ValuesCons(acc, ts);
    NonZeroValue(Atoi(acc), Values(ts), need);
    DropCons(acc, ts, Consumed(Values(ts), need - 1));
    assert ([acc] + ts)[1..] == ts;
  }

  lemma FieldTokens(s: seq<char>, pos: nat, h: HeaderState, acc: seq<char>, carry: nat)
    requires pos < |s| && IsDelimiter(s[pos]) && AllDigits(acc)
    requires InOrder(h) && !h.Complete() && Atoi(acc) != 0 && carry + |acc| <= MaxDigits
    ensures var ts := Tokens(Events(s, pos), acc);
      var vs := Values(ts);
      var need := 3 - |Fields(h)|;
      var ts' := Tokens(Events(s, pos + 1), []);
      var vs' := Values(ts');
      && need > 0
      && NonZero(vs) == [Atoi(acc)] + NonZero(vs')
      && ts[Consumed(vs, need)..] == ts'[Consumed(vs', need - 1)..]
      && Pending(Events(s, pos), acc) == Pending(Events(s, pos + 1), [])
      && HeaderFits(ts, Pending(Events(s, pos), acc), need, carry)
         == HeaderFits(ts', Pending(Events(s, pos + 1), []), need - 1, 0)
  {
    HeaderDelimTokens(s, pos, acc);
    FieldsComplete(h);
    FieldToken(acc, Tokens(Events(s, pos + 1), []), Pending(Events(s, pos + 1), []), 3 - |Fields(h)|, carry);
  }

  /** The claim after a delimiter that set a field, in its parts. */
  lemma FieldClaimParts(s: seq<char>, pos: nat, h': HeaderState)
    requires pos < |s| && HeaderScanClaim(s, pos + 1, h', [], [])
    ensures var ts' := Tokens(Events(s, pos + 1), []);
      var vs' := Values(ts');
      var need' := 3 - |Fields(h')|;
      HeaderClaim(s, HeaderScan(s, pos + 1, h', []), HeaderFits(ts', Pending(Events(s, pos + 1), []), need', 0),
                  Fields(h'), NonZero(vs'), need', ts'[Consumed(vs', need')..], Pending(Events(s, pos + 1), []))
  {
    var none: seq<char> := [];
    assert none + none == none;
  }

  /** The claim that a field set at `pos` leaves: the value joins the fields,
      in front of the non-zero values after it. */
  predicate FieldClaim(s: seq<char>, pos: nat, h: HeaderState, v: int)
    requires pos < |s|
  {
    var ts' := Tokens(Events(s, pos + 1), []);
    var vs' := Values(ts');
    var need := 3 - |Fields(h)|;
    need > 0 &&
    HeaderClaim(s, HeaderScan(s, pos + 1, Assign(h, v), []),
                HeaderFits(ts', Pending(Events(s, pos + 1), []), need - 1, 0),
                Fields(h), [v] + NonZero(vs'), need, ts'[Consumed(vs', need - 1)..], Pending(Events(s, pos + 1), []))
  }

  /** A delimiter closing a non-zero token sets the next field... */
  lemma HeaderFieldShift(s: seq<char>, pos: nat, h: HeaderState, v: int)
    requires pos < |s| && InOrder(h) && !h.Complete() && v != Unset
    requires HeaderScanClaim(s, pos + 1, Assign(h, v), [], [])
    ensures FieldClaim(s, pos, h, v)
  {
    var h' := Assign(h, v);
    var ts' := Tokens(Events(s, pos + 1), []);
    var vs' := Values(ts');
    AssignAppends(h, v);
    FieldsComplete(h);
    FieldClaimParts(s, pos, h');
    var need := 3 - |Fields(h)|;
    HeaderClaimShift(s, HeaderScan(s, pos + 1, h', []), HeaderFits(ts', Pending(Events(s, pos + 1), []), need - 1, 0),
                     Fields(h), v, NonZero(vs'), need, ts'[Consumed(vs', need - 1)..], Pending(Events(s, pos + 1), []));
  }

  /** ... and the value is the first non-zero token value read from `pos`. */
  lemma HeaderFieldFold(s: seq<char>, pos: nat, h: HeaderState, z: seq<char>, acc: seq<char>)
    requires pos < |s| && IsDelimiter(s[pos]) && AllDigits(z) && AllDigits(acc)
    requires DigitBuffer(z + acc) && |z + acc| <= MaxDigits && InOrder(h) && !h.Complete()
    requires Atoi(acc) != 0 && Atoi(z + acc) == Atoi(acc)
    requires FieldClaim(s, pos, h, Atoi(acc))
    ensures HeaderScanClaim(s, pos, h, z, acc)
  {
    FieldTokens(s, pos, h, acc, |z|);
    FieldScanStep(s, pos, h, z, acc);
  }

  /** A digit: collected, or one too many. */
  lemma HeaderDigitStep(s: seq<char>, pos: nat, h: HeaderState, z: seq<char>, acc: seq<char>)
    requires pos < |s| && IsDigit(s[pos]) && DigitBuffer(z + acc) && !h.Complete()
    requires AllDigits(acc)
    requires |z + acc| < BufferSize ==>
      DigitBuffer(z + (acc + [s[pos]])) && HeaderScanClaim(s, pos + 1, h, z, acc + [s[pos]])
    ensures HeaderScanClaim(s, pos, h, z, acc)
  {
    var ev' := Events(s, pos + 1);
    TokensDigit(s[pos], ev', acc);
    assert (z + acc) + [s[pos]] == z + (acc + [s[pos]]);
    if |z + acc| == BufferSize {
      FirstTokenHolds(ev', acc + [s[pos]]);
    }
  }

  lemma {:induction false} HeaderFieldCase(s: seq<char>, pos: nat, h: HeaderState, z: seq<char>, acc: seq<char>)
    requires pos < |s| && IsDelimiter(s[pos]) && AllDigits(z) && AllDigits(acc)
    requires DigitBuffer(z + acc) && |z + acc| <= MaxDigits && InOrder(h) && !h.Complete()
    requires Atoi(acc) != 0 && Atoi(z + acc) == Atoi(acc)
    ensures HeaderScanClaim(s, pos, h, z, acc)
    decreases |s| - pos, 0
  {
    AssignAppends(h, Atoi(acc));
    FieldsComplete(Assign(h, Atoi(acc)));
    var none: seq<char> := [];
    assert DigitBuffer(none + none);
    HeaderScanMeaning(s, pos + 1, Assign(h, Atoi(acc)), [], []);
    HeaderFieldShift(s, pos, h, Atoi(acc));
    HeaderFieldFold(s, pos, h, z, acc);
  }

  lemma {:induction false} HeaderZeroCase(s: seq<char>, pos: nat, h: HeaderState, z: seq<char>, acc: seq<char>)
    requires pos < |s| && IsDelimiter(s[pos]) && AllDigits(z) && AllDigits(acc)
    requires DigitBuffer(z + acc) && |z + acc| <= MaxDigits && InOrder(h) && !h.Complete()
    requires Atoi(acc) == 0 && AllDigits(z + acc) && Atoi(z + acc) == 0
    ensures HeaderScanClaim(s, pos, h, z, acc)
    decreases |s| - pos, 0
  {
    assert z + acc + [] == z + acc;
    HeaderScanMeaning(s, pos + 1, h, z + acc, []);
    HeaderZeroStep(s, pos, h, z, acc);
  }

  /** A delimiter after ten digits: `atoi` would read past the buffer. */
  lemma HeaderOverflowCase(s: seq<char>, pos: nat, h: HeaderState, z: seq<char>, acc: seq<char>)
    requires pos < |s| && IsDelimiter(s[pos]) && AllDigits(z) && AllDigits(acc)
    requires DigitBuffer(z + acc) && |z + acc| == BufferSize && InOrder(h) && !h.Complete()
    ensures HeaderScanClaim(s, pos, h, z, acc)
  {
    HeaderDelimTokens(s, pos, acc);
    FieldsComplete(h);
    assert ([acc] + Tokens(Events(s, pos + 1), []))[0] == acc;
  }

  lemma {:induction false} HeaderDigitCase(s: seq<char>, pos: nat, h: HeaderState, z: seq<char>, acc: seq<char>)
    requires pos < |s| && IsDigit(s[pos]) && AllDigits(z) && AllDigits(acc) && Atoi(z) == 0
    requires DigitBuffer(z + acc) && InOrder(h) && !h.Complete()
    ensures HeaderScanClaim(s, pos, h, z, acc)
    decreases |s| - pos, 0
  {
    if |z + acc| < BufferSize {
      assert (z + acc) + [s[pos]] == z + (acc + [s[pos]]);
      assert AllDigits(acc + [s[pos]]);
      HeaderScanMeaning(s, pos + 1, h, z, acc + [s[pos]]);
    }
    HeaderDigitStep(s, pos, h, z, acc);
  }

  /** The header loop, from any state it can reach: see `HeaderClaim`. The
      fields it sets are the first non-zero token values, in order; a token
      of value 0 is skipped but its digits stay in the buffer, in front of
      the next token's. The buffer overflows exactly when `HeaderFits` says
      so. When the header completes, the digit buffer is empty and the
      stream stands just after the delimiter of the third non-zero value. */
  lemma {:induction false} HeaderScanMeaning(s: seq<char>, pos: nat, h: HeaderState, z: seq<char>, acc: seq<char>)
    requires pos <= |s| && AllDigits(z) && AllDigits(acc) && DigitBuffer(z + acc) && Atoi(z) == 0
    requires InOrder(h) && (h.Complete() ==> z == [] && acc == [])
    ensures HeaderScanClaim(s, pos, h, z, acc)
    decreases |s| - pos, 1
  {
    FieldsComplete(h);
    if h.Complete() {
      assert z + acc == [];
    } else if pos == |s| {
    } else if s[pos] == '#' {
      HeaderScanMeaning(s, SkipComment(s, pos + 1), h, z, acc);
    } else if IsDelimiter(s[pos]) {
      AtoiZeroPrefix(z, acc);
      if |z + acc| == BufferSize {
        HeaderOverflowCase(s, pos, h, z, acc);
      } else if Atoi(acc) != 0 {
        HeaderFieldCase(s, pos, h, z, acc);
      } else {
        HeaderZeroCase(s, pos, h, z, acc);
      }
    } else if IsDigit(s[pos]) {
      HeaderDigitCase(s, pos, h, z, acc);
    } else {
      HeaderScanMeaning(s, pos + 1, h, z, acc);
    }
  }
}
