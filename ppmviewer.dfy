/** `ParsePPM` and the records it fills, as imperative code over objects and
    arrays, each loop proved to do what the reference functions of `Scan` say. */
module PpmViewer {
  import opened Packing
  import opened Scan

  /** `std::ifstream`, as far as `ParsePPM` uses it: whether the file was
      opened, its characters, and the read position. */
  class Stream {
    const isOpen: bool
    const data: seq<char>
    var pos: nat

    ghost predicate Valid()
      reads this
    {
      pos <= |data|
    }

    constructor (isOpen: bool, data: seq<char>)
      ensures Valid()
      ensures this.isOpen == isOpen && this.data == data && pos == 0
    {
      this.isOpen := isOpen;
      this.data := data;
      pos := 0;
    }

    /** `file.get(c)`: yields the next character, or fails at the end of the
        data (or on a stream that is not open) and leaves `c` as it was. */
    method Get(c: char) returns (ok: bool, c': char)
      requires Valid()
      modifies this`pos
      ensures Valid()
      ensures ok == (isOpen && old(pos) < |data|)
      ensures ok ==> c' == data[old(pos)] && pos == old(pos) + 1
      ensures !ok ==> c' == c && pos == old(pos)
    {
      ok := isOpen && pos < |data|;
      if ok {
        c' := data[pos];
        pos := pos + 1;
      } else {
        c' := c;
      }
    }
  }

  /** `struct Header`. */
  class Header {
    var isAscii: bool
    var width: int
    var height: int
    var maxVal: int

    /** `Header h;`: the three sizes start unset. `is_ascii` has no initialiser
        in the source; here it starts false. */
    constructor ()
      ensures width == Unset && height == Unset && maxVal == Unset
    {
      isAscii := false;
      width, height, maxVal := Unset, Unset, Unset;
    }

    function State(): HeaderState
      reads this
    {
      HeaderState(isAscii, width, height, maxVal)
    }
  }

  /** `struct Pixel`: the transient pixel whose channels fill in the order r, g, b. */
  class Pixel {
    var r: int
    var g: int
    var b: int

    constructor ()
      ensures r == Unset && g == Unset && b == Unset
    {
      r, g, b := Unset, Unset, Unset;
    }

    /** `rgb2bgr`: opaque alpha on top, then blue, green, red. */
    function Rgb2Bgr(): (p: bv32)
      reads this
      ensures AlphaOf(p) == 0xFF
      ensures IsByte(r) && IsByte(g) && IsByte(b) ==> Red(p) == r && Green(p) == g && Blue(p) == b
    {
      PackChannels(r, g, b);
      Pack(r, g, b)
    }

    /** `reset`: every channel is unset again, so the next value fills `r`. */
    method Reset()
      modifies this
      ensures r == Unset && g == Unset && b == Unset
    {
      r, g, b := Unset, Unset, Unset;
    }
  }

  /** `char num[10]` holding the digits `num[..i]`, and NUL in every later cell. */
  ghost predicate Holds(num: array<char>, i: nat)
    reads num
  {
    num.Length == BufferSize && i <= BufferSize && DigitBuffer(num[..i])
    && forall k :: i <= k < BufferSize ==> num[k] == '\0'
  }

  /** `memset(num, 0, sizeof(num))`. */
  method ClearDigits(num: array<char>)
    requires num.Length == BufferSize
    modifies num
    ensures Holds(num, 0)
  {
    forall k | 0 <= k < num.Length {
      num[k] := '\0';
    }
  }

  /** `atoi(num)`: reads digits until the first character that is not one,
      which needs a NUL inside the buffer after the digits. */
  method Atoi(num: array<char>, ghost i: nat) returns (v: int)
    requires Holds(num, i) && i <= MaxDigits
    ensures v == Scan.Atoi(num[..i])
  {
    v := 0;
    var k := 0;
    while k < num.Length && IsDigit(num[k])
      invariant 0 <= k <= i
      invariant v == Scan.Atoi(num[..k])
    {
      assert num[..k + 1][..k] == num[..k];
      v := 10 * v + (num[k] as int - '0' as int);
      k := k + 1;
    }
  }

  /** `while (file.get(c)) { if (c == '\n') break; }`: the rest of a comment. */
  method SkipLine(file: Stream, c: char) returns (c': char)
    requires file.Valid() && file.isOpen
    modifies file`pos
    ensures file.Valid() && file.pos == SkipComment(file.data, old(file.pos))
  {
    c' := c;
    while true
      invariant file.Valid()
      invariant SkipComment(file.data, file.pos) == SkipComment(file.data, old(file.pos))
      decreases |file.data| - file.pos
    {
      var ok;
      ok, c' := file.Get(c');
      if !ok || c' == '\n' {
        break;
      }
    }
  }

  /** The header loop of `ParsePPM`. */
  method ReadHeader(file: Stream, h: Header, num: array<char>, c: char)
    returns (c': char, i: nat, overflow: bool)
    requires file.Valid() && file.isOpen && Holds(num, 0)
    modifies file`pos, h, num
    ensures file.Valid()
    ensures var e := HeaderScan(file.data, old(file.pos), old(h.State()), []);
      && h.State() == e.h
      && (overflow <==> e.Overflowed?)
      && (e.Scanned? ==> file.pos == e.pos && Holds(num, i) && num[..i] == e.num)
  {
    c', i, overflow := c, 0, false;
    assert num[..0] == [];
    while h.width == Unset || h.height == Unset || h.maxVal == Unset
      invariant file.Valid() && Holds(num, i)
      invariant HeaderScan(file.data, file.pos, h.State(), num[..i])
             == HeaderScan(file.data, old(file.pos), old(h.State()), [])
      decreases |file.data| - file.pos
    {
      var ok;
      ok, c' := file.Get(c');
      if !ok {
        break;
      }
      if c' == '#' {
        c' := SkipLine(file, c');
      } else if c' == '\n' || c' == ' ' {
        if i == BufferSize {
          overflow := true;
          return;
        }
        var val := Atoi(num, i);
        if val != 0 {
          if h.width == Unset {
            h.width := val;
          } else if h.height == Unset {
            h.height := val;
          } else if h.maxVal == Unset {
            h.maxVal := val;
          }
          ClearDigits(num);
          i := 0;
          assert num[..0] == [];
        }
      } else if IsDigit(c') {
        if i == BufferSize {
          overflow := true;
          return;
        }
        ghost var held := num[..i];
        num[i] := c';
        i := i + 1;
        assert num[..i] == held + [c'];
      }
    }
  }

  /** One delimited pixel value `v`: it fills the first unset channel, and once
      `b` is filled the pixel is packed into slot `j` and reset. */
  method PutChannel(p: Pixel, pixmap: array<bv32>, j: nat, v: int) returns (j': nat, overrun: bool)
    requires p.b == Unset && j <= pixmap.Length
    modifies p, pixmap
    ensures !overrun ==> p.b == Unset && j' <= pixmap.Length
    ensures old(p.r) == Unset ==> !overrun && p.r == v && p.g == old(p.g) && j' == j && pixmap[..] == old(pixmap[..])
    ensures old(p.r) != Unset && old(p.g) == Unset ==>
      !overrun && p.r == old(p.r) && p.g == v && j' == j && pixmap[..] == old(pixmap[..])
    ensures old(p.r) != Unset && old(p.g) != Unset ==> (overrun <==> j == pixmap.Length)
    ensures old(p.r) != Unset && old(p.g) != Unset && !overrun ==>
      p.r == Unset && p.g == Unset && j' == j + 1 && pixmap[..] == old(pixmap[..])[j := Pack(old(p.r), old(p.g), v)]
  {
    j', overrun := j, false;
    if p.r == Unset {
      p.r := v;
    } else if p.g == Unset {
      p.g := v;
    } else if p.b == Unset {
      p.b := v;
      if j == pixmap.Length {
        return j, true;
      }
      pixmap[j] := p.Rgb2Bgr();
      j' := j + 1;
      p.Reset();
    }
  }

  /** The pixel loop of `ParsePPM`, filling `pixmap` from slot 0. */
  method ReadPixels(file: Stream, isAscii: bool, maxVal: int, num: array<char>, i: nat,
                    pixmap: array<bv32>, c: char)
    returns (outcome: Result<()>)
    requires file.Valid() && file.isOpen && Holds(num, i)
    requires num as object != pixmap as object
    modifies file`pos, num, pixmap
    ensures file.Valid()
    ensures var r := PixelScan(file.data, old(file.pos), isAscii, maxVal, Unset, Unset, Unset,
                               old(num[..i]), 0, old(pixmap[..]));
      && (outcome.Ok? <==> r.Ok?)
      && (r.Ok? ==> pixmap[..] == r.value && file.pos == |file.data|)
      && (r.Err? ==> outcome == Err(r.failure))
  {
    var c' := c;
    var p := new Pixel();
    var j: nat := 0;
    var k: nat := i;
    while true
      invariant file.Valid() && Holds(num, k) && j <= pixmap.Length
      invariant p.b == Unset
      invariant PixelScan(file.data, file.pos, isAscii, maxVal, p.r, p.g, p.b, num[..k], j, pixmap[..])
             == PixelScan(file.data, old(file.pos), isAscii, maxVal, Unset, Unset, Unset,
                          old(num[..i]), 0, old(pixmap[..]))
      decreases |file.data| - file.pos
    {
      var ok;
      ok, c' := file.Get(c');
      if !ok {
        break;
      }
      if !isAscii {
        return Err(BinaryPixelData);
      }
      if c' == '#' {
        c' := SkipLine(file, c');
      } else if c' == '\n' || c' == ' ' {
        if k == BufferSize {
          return Err(TokenOverflow);
        }
        var val := Atoi(num, k);
        var overrun;
        j, overrun := PutChannel(p, pixmap, j, Min(val, maxVal));
        if overrun {
          return Err(PixmapOverrun);
        }
        ClearDigits(num);
        k := 0;
        assert num[..0] == [];
      } else if IsDigit(c') {
        if k == BufferSize {
          return Err(TokenOverflow);
        }
        ghost var held := num[..k];
        num[k] := c';
        k := k + 1;
        assert num[..k] == held + [c'];
      }
    }
    return Ok(());
  }

  /** `ParsePPM(file, h)`: on success the pixmap of `width * height` packed
      pixels; `c0` stands for the value of the uninitialised local `c`. */
  method ParsePpm(file: Stream, h: Header, c0: char) returns (result: Result<array<bv32>>)
    requires file.Valid()
    modifies file`pos, h
    ensures file.Valid()
    ensures var run := Parse(file.isOpen, c0, file.data, old(file.pos), old(h.State()));
      && h.State() == run.header
      && (result.Ok? <==> run.pixmap.Ok?)
      && (result.Ok? ==> fresh(result.value) && result.value[..] == run.pixmap.value)
      && (result.Err? ==> run.pixmap == Err(result.failure))
  {
    var c := c0;
    if file.isOpen {
      var ok;
      ok, c := file.Get(c);
      if c != 'P' {
        // Only a diagnostic is printed here; parsing goes on.
      }
      ok, c := file.Get(c);
      if c == '3' {
        h.isAscii := true;
      } else if c == '6' {
        h.isAscii := false;
      } else {
        return Err(UnsupportedFormat);
      }

      var num := new char[BufferSize](_ => '\0');
      assert num[..0] == [];
      var i, overflow;
      c, i, overflow := ReadHeader(file, h, num, c);
      if overflow {
        return Err(TokenOverflow);
      }

      var n := h.width * h.height;
      if n < 0 || n > IntMax {
        return Err(BadPixmapSize);
      }
      var pixmap := new bv32[n](_ => 0);
      assert pixmap[..] == Zeros(n);
      var outcome := ReadPixels(file, h.isAscii, h.maxVal, num, i, pixmap, c);
      if outcome.Err? {
        return Err(outcome.failure);
      }
      return Ok(pixmap);
    } else {
      return Err(CannotOpenFile);
    }
  }
}
