# ppmviewer: the P3 pixmap parser

`ppmviewer` shows a Netpbm "P3" (plain-text Portable Pixmap) image in a
window. This project models the part that turns the file into pixels,
and proves properties of that model. That part is `ParsePPM`, together with
the `Header` and `Pixel` records and the helpers `Pixel::rgb2bgr` and
`Pixel::reset`. The window, the event loop and `main` are not modelled.

`ParsePPM` reads the file one character at a time, in two phases:

- **Header phase.** Digits collect into a ten-character buffer `num`. A `#`
  skips the rest of its line. At each space or newline, `atoi(num)` is
  taken. If it is not 0, it fills the first unset field in the order width,
  height, `max_val`, and the buffer is cleared. A value of 0 sets nothing
  and leaves the buffer as it is. The phase stops once all three fields
  are set.
- **Pixel phase.** A zeroed pixmap of `width * height` 32-bit slots is
  allocated. At each space or newline, the value `min(atoi(num), max_val)`
  fills the next unset channel r, g, b. A completed pixel is packed as
  `(255 << 24) | (b << 16) | (g << 8) | r`. It is stored in the next slot,
  and the pixel is reset. For a P6 file, the first character after the
  header ends the parse with no image.

## Layout

| file | module | contents |
|---|---|---|
| `packing.dfy` | `Packing` | `rgb2bgr`: a three-channel pixel packed into a `bv32` with shifts that wrap modulo 2^32, and the channels read back |
| `scan.dfy` | `Scan` | the reference semantics. The two loops of `ParsePPM` are tail-recursive functions over the character sequence, and `Parse` is the whole call |
| `reading.dfy` | `Reading` | a second, independent reading of a stream. The characters become events, the events become tokens and the tokens become values. On that reading: the header's non-zero values, the clamping, the packing of triples and the zero fill |
| `meaning.dfy` | `Meaning` | proofs by induction that the two loops of `Scan` compute what `Reading` describes |
| `ppmviewer.dfy` | `PpmViewer` | the program itself, imperative. `Stream` stands for `std::ifstream`, and `Header` and `Pixel` are classes with mutable fields. The method `ParsePpm` works on a `char` array `num` and writes into a heap array, and each loop of it is proved equal to its `Scan` function |
| `properties.dfy` | `Properties` | what `Parse` gives for every kind of stream, stated in the terms of `Reading` |
| `samples.dfy` | `Samples` | concrete streams followed through the loops one character at a time |

Results of the C++ `NULL` return become a `Failure` value.
`CannotOpenFile`, `UnsupportedFormat` and `BinaryPixelData` are the three
`NULL` returns of the source. `TokenOverflow`, `BadPixmapSize` and
`PixmapOverrun` name points where the C++ code has undefined behaviour, or
where its allocation throws. The model stops there with an explicit error,
as listed under "Left out".

Where the Netpbm format and this program disagree, the model follows the
program:

- a first character other than `P` is only reported, and parsing goes on;
- a header that the file ends before completing still yields a pixmap,
  provided the sizes read leave a size the allocation accepts. That is one
  zero pixel when no size was read, and `width * height` zeros when both
  sizes were read and their product fits an `int`. A lone width makes the
  size negative, where `new[]` throws; the model reports `BadPixmapSize`
  there, and for a product above `INT_MAX`;
- a P6 header with nothing after it yields an all-zero pixmap;
- an empty token in the pixel phase, as between two spaces, is a channel of value 0.

## Model

| member | source | states |
|---|---|---|
| `Packing.PackChannels` | ppmviewer.cpp:19-21 | The packed pixel always has alpha byte 0xFF. When r, g and b are in 0..255, the red, green and blue bytes read back as r, g and b |
| `Packing.PackInjective` | ppmviewer.cpp:19-21 | Two pixels with byte-valued channels pack to the same word only if their channels are equal |
| `Packing.PackExample` | ppmviewer.cpp:19-21 | (10, 20, 30) packs to 0xFF1E140A, (255, 0, 0) to 0xFF0000FF and (0, 255, 0) to 0xFF00FF00 |
| `Packing.BitsOfByte` | ppmviewer.cpp:20 | The 32-bit two's-complement image of an `int` in 0..255 is that value |
| `Scan.Atoi` | ppmviewer.cpp:98 | The value of a run of n digits is below 10^n |
| `Scan.SkipComment` | ppmviewer.cpp:92-94 | The comment skip stops just after the first newline from its start, or at the end of the stream when there is none; no newline lies in between |
| `Scan.HeaderScan` | ppmviewer.cpp:89-120 | The header loop keeps `is_ascii`. When it stops without overflowing, either all three fields are set or it has reached the end of the stream, and at most ten digits are held |
| `Scan.PixelScan` | ppmviewer.cpp:127-165 | The pixel loop keeps the pixmap's length and the slots before `j`. It fails only with binary data, a digit overflow or a slot past the end |
| `Scan.Zeros` | ppmviewer.cpp:122-124 | The zeroed pixmap has `n` slots, each 0 |
| `Reading.Events` | ppmviewer.cpp:91-95 | A stream yields at most one event per character, and every digit event carries a digit. Defined as: a `#` hides everything up to and including the next newline, and characters that are neither digits, space nor newline yield nothing |
| `Reading.Tokens` | ppmviewer.cpp:96-118 | Every token is a run of digits, and there is at most one token per event. Defined as: each space or newline closes one token, possibly empty |
| `Reading.Clamp` | ppmviewer.cpp:137-143 | Every clamped value is at most `max_val` and at most the token's value, and equals one of the two |
| `Reading.NonZero` | ppmviewer.cpp:99 | Every value the header keeps is non-zero and is one of the stream's values, and there are no more of them than values |
| `Reading.Packed` | ppmviewer.cpp:138-148 | There is one pixel per complete triple of values, and a last incomplete triple writes nothing |
| `Reading.Fill` | ppmviewer.cpp:122-124 | The pixmap has `n` slots, holds the written pixels from slot 0, and is 0 in every slot after them |
| `Meaning.PixelScanMeaning` | ppmviewer.cpp:127-165 | From any state the loop can reach (`max_val` not negative, `g` unset while `r` is, `b` unset), the P3 pixel loop succeeds exactly when every token fits the digit buffer and the complete triples fit the slots left. It then writes the packed, clamped triples into consecutive slots from `j`, and every other slot is unchanged. On failure it names the limit that was reached |
| `Meaning.HeaderScanMeaning` | ppmviewer.cpp:89-120 | A token of value 0 is not cleared, so its digits stay in the buffer ahead of the next token's. The header loop overflows exactly when a delimiter closes a token that, with those kept digits, has ten digits or more (`atoi` would find no NUL), or when the digits the stream ends with need an eleventh cell. Otherwise it has set the fields, in order, to the first non-zero values. Once complete, the digit buffer is empty and the rest of the stream reads as the tokens after the ones used |
| `Meaning.AssignAppends` | ppmviewer.cpp:99-106 | A non-zero value goes to the first unset field; the set fields grow by that value, in the order width, height, max_val |
| `Meaning.FieldsComplete` | ppmviewer.cpp:89 | The header loop's condition holds exactly when fewer than three fields are set |
| `PpmViewer.Stream.constructor` | ppmviewer.cpp:66 | An open or closed stream over the given characters, read from position 0 |
| `PpmViewer.Stream.Get` | ppmviewer.cpp:70 | `file.get(c)` succeeds exactly on an open stream before its end, yielding the next character. Otherwise it leaves `c` and the position as they were |
| `PpmViewer.Header.constructor` | ppmviewer.cpp:6-11 | A new header has width, height and max_val unset (-1) |
| `PpmViewer.Pixel.constructor` | ppmviewer.cpp:13-17 | A new pixel has r, g and b unset (-1) |
| `PpmViewer.Pixel.Rgb2Bgr` | ppmviewer.cpp:19-21 | The packed pixel has alpha 0xFF, and byte-valued channels are recoverable |
| `PpmViewer.Pixel.Reset` | ppmviewer.cpp:23-27 | Every channel is unset again |
| `PpmViewer.ClearDigits` | ppmviewer.cpp:87 | The digit buffer holds no digits and is NUL in every cell |
| `PpmViewer.Atoi` | ppmviewer.cpp:98 | `atoi` over the buffer reads exactly the digits held, which is the value `Scan.Atoi` gives them |
| `PpmViewer.SkipLine` | ppmviewer.cpp:92-94 | The inner comment loop leaves the stream just after the next newline, or at its end |
| `PpmViewer.ReadHeader` | ppmviewer.cpp:89-120 | The header loop leaves the header, read position and digit buffer exactly as `Scan.HeaderScan` says, and reports the overflow exactly when it does |
| `PpmViewer.PutChannel` | ppmviewer.cpp:138-148 | A value fills the first unset channel. The third one packs the pixel into slot `j`, moves `j` on and resets the pixel; it overruns exactly when `j` is past the pixmap's end |
| `PpmViewer.ReadPixels` | ppmviewer.cpp:127-165 | The pixel loop fills the pixmap exactly as `Scan.PixelScan` says, and returns the same error |
| `PpmViewer.ParsePpm` | ppmviewer.cpp:66-172 | The whole parse leaves the header as `Scan.Parse` says. It returns a fresh pixmap with its contents exactly when `Parse` succeeds, and otherwise the same error |
| `Properties.HeaderRead` | ppmviewer.cpp:89-120 | From a fresh header, the loop overflows exactly when the header tokens overflow the buffer. Otherwise the fields are the first non-zero values, in order. A complete header leaves the buffer empty and the stream at the body tokens; an incomplete one has read the whole stream |
| `Properties.ParseHeader` | ppmviewer.cpp:70-120 | For a stream of any length whose selector (the second character read, or what `c` kept) is '3' or '6': the selector decides `is_ascii`; the header holds the first non-zero values, or the parse fails on a token overflow |
| `Properties.FinishP3` | ppmviewer.cpp:122-165 | After a complete P3 header, the pixmap has `width * height` slots: the packed, clamped triples of the values after the header, then zeros. It fails exactly when a token is too long or too many triples follow |
| `Properties.FinishP6` | ppmviewer.cpp:161-163 | After a P6 header, the parse succeeds (with zeros) exactly when the stream ends there, and otherwise fails with binary data |
| `Properties.FinishAtEnd` | ppmviewer.cpp:122-127 | A header loop that read the whole stream leaves only the allocation: zeros, or a failure for a negative or too large size |
| `Properties.ParseShortHeader` | ppmviewer.cpp:122-127 | An incomplete header, in a stream of any length, gives a zero pixmap when the allocation size is valid. It is one zero pixel when no size was read, and `width * height` zeros when only max_val is missing and that product fits an `int`. It fails with `BadPixmapSize` when only the width was read, or when the product is above `INT_MAX` |
| `Properties.ParseTooShort` | ppmviewer.cpp:70-124 | A stream with fewer than two characters takes its selector from the one character there is, or from `c`; with '3' or '6' it reads no header and gives one zero pixel |
| `Properties.ParseP3` | ppmviewer.cpp:66-172 | For a complete P3 header, the header holds the first three non-zero values. With `n = width * height`, the pixmap holds the packed triples of the following values (each clamped to max_val) and then zeros. It fails exactly on a token that is too long or on more than `n` triples |
| `Properties.ParseP6` | ppmviewer.cpp:161-163 | With a complete P6 header, any token after it makes the parse fail with binary data; a success is all zeros with nothing after the header |
| `Properties.PackedAt` | ppmviewer.cpp:145 | Slot k holds the packing of the k-th triple of values |
| `Properties.PackedChannels` | ppmviewer.cpp:145 | For byte-valued channels, slot k reads back as the k-th triple, with alpha 0xFF |
| `Properties.ClampedChannels` | ppmviewer.cpp:137-145 | With max_val in 0..255, slot k reads back as the k-th triple of values, each clamped to max_val |
| `Properties.ParseRejects` | ppmviewer.cpp:69-82 | A stream that is not open fails and leaves the header. An open one fails with the unsupported format exactly when the selector is neither '3' nor '6', and then leaves the header too |
| `Properties.HeaderScanFrame` | ppmviewer.cpp:89-120 | The header loop depends only on the characters from its position on |
| `Properties.PixelScanFrame` | ppmviewer.cpp:127-165 | The pixel loop depends only on the characters from its position on |
| `Properties.MagicIgnored` | ppmviewer.cpp:70-74 | Once two characters can be read, neither the first character nor the uninitialised `c` changes the outcome. With fewer, the first character (or `c`) is the selector, as `Properties.ParseTooShort` states |
| `Samples.TwoPixels` | ppmviewer.cpp:66-172 | `P3\n2 1 255\n255 0 0 0 255 0\n` gives a 2x1 header and the pixmap [0xFF0000FF, 0xFF00FF00] |
| `Samples.ClampedPixel` | ppmviewer.cpp:137-145 | `P3 1 1 5\n9 0 7\n` clamps 9 and 7 to 5, giving [0xFF050005] |
| `Samples.OnlySelector` | ppmviewer.cpp:70-82 | The one-character stream `3` is read as a P3 selector (the failed second read keeps `c`), and gives one zero pixel |
| `Samples.BinaryData` | ppmviewer.cpp:161-163 | `P6 1 1 5\nx` fails with binary data after a complete header |
| `Samples.ZeroDigitsKept` | ppmviewer.cpp:96-117 | In `P3 0000 000000 ` the zero token's digits stay in the buffer, so the buffer holds ten digits when the last space has `atoi` read it, and the parse fails with `TokenOverflow` |
| `Samples.ElevenDigits` | ppmviewer.cpp:112-117 | In `P3 12345678901` ten digits fill the buffer, and the eleventh, which would be written past it, fails the parse with `TokenOverflow` |
| `Samples.TenDigitsAtEnd` | ppmviewer.cpp:89-127 | In `P3 0000 000000`, where the stream ends after the same ten digits, `atoi` never reads them, and the incomplete header gives one zero pixel |

## Left out

- SDL set-up and tear-down (`Init`, `Close`), the globals behind them, `main` with its argument handling, event loop and blit, and the final `delete`: they are calls into an external library or outside the parser.
- `printf` diagnostics: they have no effect on the result. The `c != 'P'` check in particular only prints.
- The stream's read position after an error return: the model returns the error and says nothing more about the stream. The header is stated on every path.
- A token of ten digits: once `num[9]` is written the buffer has no NUL left, so the `atoi` at the next space or newline reads past the array, and an eleventh digit is written past it. The model stops with `TokenOverflow` at that delimiter or at that eleventh digit. Ten digits that end the stream are never given to `atoi`, and the model lets them through.
- A triple beyond `width * height` slots writes outside the heap array: the model stops with `PixmapOverrun`.
- `new unsigned int[width * height]` with a negative size throws `std::bad_array_new_length`, and an `int` product above `INT_MAX` is signed overflow: the model stops with `BadPixmapSize`. Allocation failure (`std::bad_alloc`) for a large valid size is not modelled.
- `atoi` overflow: a token that reaches `atoi` holds at most nine digits, so the value is below 10^9 and fits an `int`.
- The uninitialised `is_ascii` of `Header` starts as false, and only its two assignments in `ParsePPM` are modelled. The uninitialised local `c` is the parameter `c0`; it shows only when the stream yields no character.
- `Packing.Pack`: shifts of values outside 0..255 are modelled modulo 2^32, as C++20 defines them. Earlier standards leave a shift into the sign bit undefined.
- Properties.ParseP6: the binary-data failure is stated for a stream with a token after the header. For a stream with only comments or other characters after it, `Properties.FinishP6` gives the exact condition (the stream ends right after the header).
