/** A second, independent reading of a P3 stream: the characters become a
    list of events (comments and foreign characters dropped), the events
    become tokens (the digit runs closed by a delimiter), and the tokens
    become values. The lemmas of `Meaning` show that the loops of `Scan`
    compute exactly what this reading describes. */
module Reading {
  import opened Packing
  import opened Scan

  /** What the scanner reacts to: a delimiter (' ' or '\n') or a digit. */
  datatype Event = Delim | Digit(d: char)

  predicate DigitEvents(ev: seq<Event>) {
    forall k :: 0 <= k < |ev| ==> (ev[k].Digit? ==> IsDigit(ev[k].d))
  }

  /** The events of `s` from `pos`: a '#' hides everything up to and including
      the next newline, other characters that are neither digits nor
      delimiters are dropped. */
  function Events(s: seq<char>, pos: nat): (ev: seq<Event>)
    requires pos <= |s|
    ensures DigitEvents(ev)
    ensures |ev| <= |s| - pos
    decreases |s| - pos
  {
    if pos == |s| then []
    else if s[pos] == '#' then Events(s, SkipComment(s, pos + 1))
    else if IsDelimiter(s[pos]) then [Delim] + Events(s, pos + 1)
    else if IsDigit(s[pos]) then [Digit(s[pos])] + Events(s, pos + 1)
    else Events(s, pos + 1)
  }

  /** The digit runs that a delimiter closes, the first one starting with the
      digits `acc` already collected. An empty run is a token too. */
  function Tokens(ev: seq<Event>, acc: seq<char>): (ts: seq<seq<char>>)
    requires DigitEvents(ev) && AllDigits(acc)
    ensures forall k :: 0 <= k < |ts| ==> AllDigits(ts[k])
    ensures |ts| <= |ev|
  {
    if ev == [] then []
    else match ev[0]
      case Delim => [acc] + Tokens(ev[1..], [])
      case Digit(d) => Tokens(ev[1..], acc + [d])
  }

  /** The digits after the last delimiter: collected, but never closed. */
  function Pending(ev: seq<Event>, acc: seq<char>): (p: seq<char>)
    requires DigitEvents(ev) && AllDigits(acc)
    ensures AllDigits(p)
  {
    if ev == [] then acc
    else match ev[0]
      case Delim => Pending(ev[1..], [])
      case Digit(d) => Pending(ev[1..], acc + [d])
  }

  /** Every closed token of `ts` leaves room for the NUL that `atoi` needs,
      and the pending digits, which `atoi` never reads, fit the buffer. */
  predicate AllFit(ts: seq<seq<char>>, pending: seq<char>) {
    (forall k :: 0 <= k < |ts| ==> |ts[k]| <= MaxDigits) && |pending| <= BufferSize
  }

  predicate Fits(ev: seq<Event>, acc: seq<char>)
    requires DigitEvents(ev) && AllDigits(acc)
  {
    AllFit(Tokens(ev, acc), Pending(ev, acc))
  }

  /** The decimal value of each token. */
  function Values(ts: seq<seq<char>>): (vs: seq<nat>)
    requires forall k :: 0 <= k < |ts| ==> AllDigits(ts[k])
    ensures |vs| == |ts|
    ensures forall k :: 0 <= k < |ts| ==> vs[k] == Atoi(ts[k])
  {
    if ts == [] then [] else [Atoi(ts[0])] + Values(ts[1..])
  }

  /** `std::min(val, max_val)` for every value. */
  function Clamp(vs: seq<int>, m: int): (cs: seq<int>)
    ensures |cs| == |vs|
    ensures forall k :: 0 <= k < |vs| ==> cs[k] <= m && cs[k] <= vs[k]
    ensures forall k :: 0 <= k < |vs| ==> cs[k] == vs[k] || cs[k] == m
  {
    if vs == [] then [] else [Min(vs[0], m)] + Clamp(vs[1..], m)
  }

  /** The values the header keeps: every value except 0. */
  function NonZero(vs: seq<int>): (nz: seq<int>)
    ensures |nz| <= |vs|
    ensures forall k :: 0 <= k < |nz| ==> nz[k] != 0 && nz[k] in vs
  {
    if vs == [] then []
    else if vs[0] != 0 then [vs[0]] + NonZero(vs[1..])
    else NonZero(vs[1..])
  }

  /** How many values the header reads before it has found `need` non-zero ones. */
  function Consumed(vs: seq<int>, need: nat): (n: nat)
    ensures n <= |vs|
  {
    if need == 0 || vs == [] then 0
    else if vs[0] != 0 then 1 + Consumed(vs[1..], need - 1)
    else 1 + Consumed(vs[1..], need)
  }

  /** Whether the digit buffer holds out while the header reads `need` more
      non-zero values from `ts` (then `pending`). A token of value 0 is not
      cleared from the buffer, so its digits count against the next token's:
      `carry` is how many such digits the buffer already holds. A token that
      a delimiter closes must leave room for the NUL `atoi` needs; the digits
      the stream ends with are never read, so they need only fit the buffer. */
  predicate HeaderFits(ts: seq<seq<char>>, pending: seq<char>, need: nat, carry: nat)
    requires forall k :: 0 <= k < |ts| ==> AllDigits(ts[k])
  {
    if need == 0 then true
    else if ts == [] then carry + |pending| <= BufferSize
    else
      carry + |ts[0]| <= MaxDigits
      && if Atoi(ts[0]) != 0 then HeaderFits(ts[1..], pending, need - 1, 0)
         else HeaderFits(ts[1..], pending, need, carry + |ts[0]|)
  }

  /** The header fields already set, in the order width, height, max_val. */
  function Fields(h: HeaderState): (f: seq<int>)
    ensures |f| <= 3
  {
    if h.width == Unset then []
    else if h.height == Unset then [h.width]
    else if h.maxVal == Unset then [h.width, h.height]
    else [h.width, h.height, h.maxVal]
  }

  /** Header fields are set in order; a later one is never set before an earlier one. */
  predicate InOrder(h: HeaderState) {
    (h.width == Unset ==> h.height == Unset) && (h.height == Unset ==> h.maxVal == Unset)
  }

  /** The channels of the transient pixel already set, in the order r, g. */
  function Channels(r: int, g: int): (cs: seq<int>)
    ensures |cs| <= 2
  {
    if r == Unset then [] else if g == Unset then [r] else [r, g]
  }

  /** Every complete triple of values, packed; a last incomplete triple is dropped. */
  function Packed(all: seq<int>): (px: seq<bv32>)
    ensures |px| == |all| / 3
  {
    if |all| < 3 then [] else [Pack(all[0], all[1], all[2])] + Packed(all[3..])
  }

  /** The pixels written from slot 0, and zero in every slot after them. */
  function Fill(px: seq<bv32>, n: nat): (buf: seq<bv32>)
    requires |px| <= n
    ensures |buf| == n && buf[..|px|] == px
    ensures forall k :: |px| <= k < n ==> buf[k] == 0
  {
    px + Zeros(n - |px|)
  }
}
