/** The reference semantics of `ParsePPM`: the two `while (file.get(c))` loops
    written as tail-recursive functions over absolute positions in the stream's
    characters. Each call consumes what one loop iteration consumes. */
module Scan {
  import opened Packing

  /** The sentinel of a header field or pixel channel that is not set yet. */
  const Unset := -1

  /** `char num[10]`: ten digits can be stored, but `atoi` needs a NUL
      after the digits, so it can read at most nine of them. */
  const BufferSize := 10
  const MaxDigits := BufferSize - 1

  const IntMax := 0x7FFF_FFFF

  /** The values of a `Header` record. */
  datatype HeaderState = HeaderState(isAscii: bool, width: int, height: int, maxVal: int)
  {
    predicate Complete() {
      width != Unset && height != Unset && maxVal != Unset
    }
  }

  /** The ways `ParsePPM` gives no image. The first three return `NULL`;
      the last three are where the code has undefined behaviour or throws,
      made explicit here. */
  datatype Failure =
    | CannotOpenFile     // the stream is not open
    | UnsupportedFormat  // the format selector is neither '3' nor '6'
    | BinaryPixelData    // P6, and a character follows the header
    | TokenOverflow      // `atoi` on ten digits with no NUL after them, or an eleventh digit stored past `num`
    | BadPixmapSize      // width * height is negative (new[] throws) or outside int
    | PixmapOverrun      // a triple completes when all width * height slots are full

  datatype Result<T> = Ok(value: T) | Err(failure: Failure)

  predicate IsDigit(c: char) { '0' <= c <= '9' }
  predicate IsDelimiter(c: char) { c == ' ' || c == '\n' }

  predicate AllDigits(num: seq<char>) {
    forall k :: 0 <= k < |num| ==> IsDigit(num[k])
  }

  function Min(a: int, b: int): int { if a <= b then a else b }

  function Pow10(n: nat): (p: nat)
    ensures p >= 1
  {
    if n == 0 then 1 else 10 * Pow10(n - 1)
  }

  /** The decimal value of a run of digits, what `atoi` returns for it; 0 for no digits. */
  function Atoi(num: seq<char>): (v: nat)
    requires AllDigits(num)
    ensures v < Pow10(|num|)
  {
    if num == [] then 0
    else 10 * Atoi(num[..|num| - 1]) + (num[|num| - 1] as int - '0' as int)
  }

  /** The position just after the first newline at or after `k`, or the end of
      the stream when there is none: where `while (file.get(c)) if (c == '\n') break;`
      leaves the stream. */
  function SkipComment(s: seq<char>, k: nat): (r: nat)
    requires k <= |s|
    ensures k <= r <= |s|
    ensures forall i :: k <= i < r - 1 ==> s[i] != '\n'
    ensures (k < r && s[r - 1] == '\n') || (r == |s| && forall i :: k <= i < |s| ==> s[i] != '\n')
    decreases |s| - k
  {
    if k == |s| then k
    else if s[k] == '\n' then k + 1
    else SkipComment(s, k + 1)
  }

  /** The first unset field, in the order width, height, max_val, receives `v`. */
  function Assign(h: HeaderState, v: int): HeaderState {
    if h.width == Unset then h.(width := v)
    else if h.height == Unset then h.(height := v)
    else if h.maxVal == Unset then h.(maxVal := v)
    else h
  }

  /** Where the header loop stops: the header, the stream position and the
      digits still held in `num`; or the digit buffer overflowed. */
  datatype HeaderEnd =
    | Scanned(h: HeaderState, pos: nat, num: seq<char>)
    | Overflowed(h: HeaderState)

  predicate DigitBuffer(num: seq<char>) {
    AllDigits(num) && |num| <= BufferSize
  }

  /** The header loop, from position `pos` with header `h` and digits `num`. */
  function HeaderScan(s: seq<char>, pos: nat, h: HeaderState, num: seq<char>): (r: HeaderEnd)
    requires pos <= |s| && DigitBuffer(num)
    ensures r.h.isAscii == h.isAscii
    ensures r.Scanned? ==> pos <= r.pos <= |s| && DigitBuffer(r.num)
    ensures r.Scanned? ==> r.h.Complete() || r.pos == |s|
    decreases |s| - pos
  {
    if h.Complete() || pos == |s| then Scanned(h, pos, num)
    else
      var c := s[pos];
      if c == '#' then HeaderScan(s, SkipComment(s, pos + 1), h, num)
      else if IsDelimiter(c) then
        if |num| == BufferSize then Overflowed(h)
        else
          var v := Atoi(num);
          if v != 0 then HeaderScan(s, pos + 1, Assign(h, v), [])
          else HeaderScan(s, pos + 1, h, num)
      else if IsDigit(c) then
        if |num| == BufferSize then Overflowed(h)
        else HeaderScan(s, pos + 1, h, num + [c])
      else HeaderScan(s, pos + 1, h, num)
  }

  /** The pixel loop, from position `pos` with the transient pixel `(r, g, b)`,
      digits `num`, next slot `j` and pixmap `buf`. */
  function PixelScan(s: seq<char>, pos: nat, isAscii: bool, maxVal: int,
                     r: int, g: int, b: int, num: seq<char>, j: nat, buf: seq<bv32>): (res: Result<seq<bv32>>)
    requires pos <= |s| && DigitBuffer(num) && j <= |buf|
    ensures res.Ok? ==> |res.value| == |buf| && res.value[..j] == buf[..j]
    ensures res.Err? ==> res.failure.BinaryPixelData? || res.failure.TokenOverflow? || res.failure.PixmapOverrun?
    decreases |s| - pos
  {
    if pos == |s| then Ok(buf)
    else if !isAscii then Err(BinaryPixelData)
    else
      var c := s[pos];
      if c == '#' then PixelScan(s, SkipComment(s, pos + 1), isAscii, maxVal, r, g, b, num, j, buf)
      else if IsDelimiter(c) then
        if |num| == BufferSize then Err(TokenOverflow)
        else
          var v := Min(Atoi(num), maxVal);
          if r == Unset then PixelScan(s, pos + 1, isAscii, maxVal, v, g, b, [], j, buf)
          else if g == Unset then PixelScan(s, pos + 1, isAscii, maxVal, r, v, b, [], j, buf)
          else if b == Unset then
            if j == |buf| then Err(PixmapOverrun)
            else
              var res := PixelScan(s, pos + 1, isAscii, maxVal, Unset, Unset, Unset, [], j + 1, buf[j := Pack(r, g, v)]);
              assert res.Ok? ==> res.value[..j] == res.value[..j + 1][..j];
              res
          else PixelScan(s, pos + 1, isAscii, maxVal, r, g, b, [], j, buf)
      else if IsDigit(c) then
        if |num| == BufferSize then Err(TokenOverflow)
        else PixelScan(s, pos + 1, isAscii, maxVal, r, g, b, num + [c], j, buf)
      else PixelScan(s, pos + 1, isAscii, maxVal, r, g, b, num, j, buf)
  }

  function Zeros(n: nat): (z: seq<bv32>)
    ensures |z| == n && forall k :: 0 <= k < n ==> z[k] == 0
  {
    seq(n, _ => 0)
  }

  /** What `ParsePPM` leaves in the header and returns, for a stream that is
      open or not, holds `s` and stands at position `start`; `c0` is the
      indeterminate value of the local `c`, seen only when nothing can be read. */
  datatype Run = Run(header: HeaderState, pixmap: Result<seq<bv32>>)

  /** The character in `c` after the second `file.get(c)`: each read that
      fails leaves `c` as it was. The first character is only reported when
      it is not 'P'. */
  function Selector(s: seq<char>, start: nat, c0: char): char {
    var first := if start < |s| then s[start] else c0;
    if start + 1 < |s| then s[start + 1] else first
  }

  /** What follows the header loop: the pixmap of `width * height` slots,
      filled by the pixel loop from where the header loop stopped. */
  function Finish(s: seq<char>, e: HeaderEnd): Run
    requires e.Scanned? ==> e.pos <= |s| && DigitBuffer(e.num)
  {
    match e
    case Overflowed(h) => Run(h, Err(TokenOverflow))
    case Scanned(h, p, num) =>
      var n := h.width * h.height;
      if n < 0 || n > IntMax then Run(h, Err(BadPixmapSize))
      else Run(h, PixelScan(s, p, h.isAscii, h.maxVal, Unset, Unset, Unset, num, 0, Zeros(n)))
  }

  /** Where the header loop starts: after the two characters of the magic
      number, or at the end of a stream too short to hold them. */
  function HeaderStart(s: seq<char>, start: nat): (pos: nat)
    requires start <= |s|
    ensures pos <= |s|
  {
    if start + 2 <= |s| then start + 2 else |s|
  }

  function Parse(isOpen: bool, c0: char, s: seq<char>, start: nat, h0: HeaderState): Run
    requires start <= |s|
  {
    if !isOpen then Run(h0, Err(CannotOpenFile))
    else
      var selector := Selector(s, start, c0);
      if selector != '3' && selector != '6' then Run(h0, Err(UnsupportedFormat))
      else
        Finish(s, HeaderScan(s, HeaderStart(s, start), h0.(isAscii := selector == '3'), []))
  }
}
