# qrplatba in Dafny

A model of the two modules of python-qrplatba that produce a Czech "QR Platba"
payment code:

- `qrplatba/spayd.py`, the **SPAYD encoder** (`QRPlatbaGenerator`). It builds
  the Short Payment Descriptor `SPD*1.0*ACC:…*AM:…*…`. The account is
  recognised with `RE_ACCOUNT`. A domestic account `number/bank` becomes an
  IBAN with ISO 7064 MOD 97-10 check digits. The amount is written with two
  decimals. A date due date is written as `YYYYMMDD`. Every present field
  becomes `NAME:value*`, in a fixed order. Trailing `*` are stripped.
- `qrplatba/svg.py`, the **SVG image** (`QRPlatbaSVGImage`). It records the
  dark modules reported by the QR library. Its geometry covers the canvas, a
  thin frame around the code with a gap in its bottom line, the "QR platba"
  caption in that gap, and one square per dark module.

Files:

- `strings.dfy` (module `Strings`): the Python string built-ins the encoder
  uses. These are `str(n)`, `int(s)`, `"{:0>w}"`, `join`, `rstrip('*')` and
  `replace(c, '')`, on ASCII text. It also has `split`, which the encoder
  does not call; the model uses it to read descriptors and comma lists back.
- `spayd.dfy` (module `Spayd`):
  - the recogniser that `RE_ACCOUNT.match` performs;
  - the IBAN conversion and the field formatters;
  - `get_text`;
  - `ParseDescriptor`, which reads a descriptor back into its fields;
    `DescriptorRoundTrip` proves that the output of `get_text` reads back as
    the present fields.
- `svg.dfy` (module `Svg`):
  - path commands as a datatype;
  - `Outlines`, which says which rectangle a closed subpath draws;
  - the class `QRPlatbaSvgImage`, with the mutable `points` set and root
    element, and the geometry as functions of its constant fields.

Where the repository's own documentation and tests disagree with the code,
the model follows the code:

- The docstring of `QRPlatbaGenerator` (qrplatba/spayd.py:20) offers the form
  `12-123456789/0300` for an account. That form never matches `RE_ACCOUNT`
  (see the next bullet), so such an account is written unchanged.
- The geometry uses `SCALE` (5) only. `box_size` is stored but never used, so
  the image does not scale with it. The tests in `tests/test_svg.py`
  (lines 46-47 and 64) expect `mm` units and box-size scaling, which this
  code does not produce.
- The pattern's prefix group `(?P<ba>\d+(?=-))` can never take part in a
  match. The lookahead does not consume the `-`, so the next group must
  begin at a `-`. An account written `prefix-number/bank` is therefore passed
  through unchanged, and the prefix in the IBAN is always `000000`.
- After construction `border` is `inside_border + border`
  (qrplatba/svg.py:31); the model keeps that sum.
- `AM` is the amount formatted with `{:.2f}`. The model takes it as a whole
  number of hundredths, which may be negative (Python prints a leading `-`).

## Model

| member | source | states |
|---|---|---|
| Spayd.LeadingDigits | qrplatba/spayd.py:12 | `\d+` is greedy: the result is the length of the maximal run of digits at the start |
| Spayd.LeadingDigitsUnique | qrplatba/spayd.py:12 | a run of digits followed by a non-digit is exactly the greedy run |
| Spayd.MatchAccountSpec | qrplatba/spayd.py:12 | `RE_ACCOUNT.match` succeeds exactly on text that starts with digits, `/` and four digits; the groups are that number and that bank code; the prefix group is never set |
| Spayd.PrefixedAccountNotConverted | qrplatba/spayd.py:12 | `prefix-number/bank` does not match, because the lookahead leaves the `-` unconsumed |
| Spayd.TrailingTextIgnored | qrplatba/spayd.py:12 | `match` anchors only at the start: text after the bank code does not change the match |
| Spayd.CheckDigitsFacts | qrplatba/spayd.py:71 | the check digits are two digits whose value is 98 − (crc mod 97) |
| Spayd.LettersToNumbersAppend | qrplatba/spayd.py:68 | the letter-to-number substitution works piece by piece |
| Spayd.LettersToNumbersDigits | qrplatba/spayd.py:68 | digits are left alone by the substitution |
| Spayd.CountryCodeNumbers | qrplatba/spayd.py:68 | `CZ` becomes `1235` (C = 12, Z = 35) |
| Spayd.LetterNumberIsStr | qrplatba/spayd.py:68 | a letter becomes the decimal spelling of its position plus 10 (A = 10 … Z = 35) |
| Spayd.MatchAccount | qrplatba/spayd.py:12 | a match yields a number of at least one digit, `/` and a four-digit bank code found at the start of the text, and never a prefix (the converse is MatchAccountSpec) |
| Spayd.MatchedGroups | qrplatba/spayd.py:56-66 | matched groups are all digits, the bank code has four, and the absent prefix is formatted as `0` |
| Spayd.IbanOfGroupsShape | qrplatba/spayd.py:61-73 | the IBAN is `CZ`, the check digits of the rearranged provisional number, then the BBAN |
| Spayd.BbanChecksum | qrplatba/spayd.py:61-73 | for any all-digit BBAN, `CZ` + the computed check digits + BBAN passes the MOD 97-10 check |
| Spayd.IbanLayout | qrplatba/spayd.py:56-73 | the IBAN is `CZ`, two check digits in 2..98, the bank code, `000000` and the number padded to 10; it has 24 characters iff the number has at most 10 digits |
| Spayd.IbanDigits | qrplatba/spayd.py:56-73 | every character of the IBAN after `CZ` is an ASCII digit |
| Spayd.IbanOfGroupsChecksum | qrplatba/spayd.py:61-73 | the produced IBAN satisfies ISO 7064 MOD 97-10: moved to the end and converted to digits, it is ≡ 1 (mod 97) |
| Spayd.ConvertToIban | qrplatba/spayd.py:56-73 | a matching domestic account becomes text starting with `CZ` that passes the ISO 7064 MOD 97-10 check |
| Spayd.FormatAccount | qrplatba/spayd.py:75-83 | a non-matching account is kept verbatim; a matching one becomes `CZ` followed only by digits, a valid IBAN by the MOD 97-10 check |
| Spayd.AccountFirst | qrplatba/spayd.py:75-83 | when an account is given, the first field is `ACC` with the formatted account |
| Spayd.AccountItem | qrplatba/spayd.py:75-83 | the ACC segment is the generic `ACC:value*` item of the formatted account, or empty |
| Spayd.FormatAccounts | qrplatba/spayd.py:88-93 | one formatted entry per alternate account |
| Spayd.FormatAccountsStep | qrplatba/spayd.py:88-93 | each loop iteration appends the next account's formatted value |
| Spayd.FormatAccountsEntries | qrplatba/spayd.py:88-93 | entry i is account i, converted to IBAN when it matches |
| Spayd.AlternateAccounts | qrplatba/spayd.py:85-95 | the loop builds exactly the ALT-ACC segment: `ALT-ACC:` + comma-joined entries + `*`, or empty when absent |
| Spayd.EmptyAlternateAccounts | qrplatba/spayd.py:85-95 | an empty list still gives `ALT-ACC:*` |
| Spayd.NoCommaInFormatted | qrplatba/spayd.py:88-93 | formatting adds no comma to an account |
| Spayd.AlternateAccountsSegment | qrplatba/spayd.py:85-95 | empty when absent; otherwise `ALT-ACC:` … `*`, and when the list is not empty and no entry has a comma, splitting the value at commas gives back the formatted entries, in order |
| Spayd.AlternateAccountsItem | qrplatba/spayd.py:85-95 | the ALT-ACC segment is the generic item of the comma-joined entries, or empty |
| Spayd.AmountText | qrplatba/spayd.py:97-101 | the AM value has exactly two decimals and reads back as the same number of hundredths, negative amounts included |
| Spayd.UnsignedRoundTrip | qrplatba/spayd.py:97-101 | for a non-negative amount: two decimals, no sign, reads back as the same value |
| Spayd.PartsRoundTrip | qrplatba/spayd.py:97-101 | `str(whole)` + `.` + two-digit hundredths reads back as whole·100 + hundredths |
| Spayd.UnsignedAmount | qrplatba/spayd.py:97-101 | digits, `.` and two digits read back as the whole part times 100 plus the fraction |
| Spayd.SignedRoundTrip | qrplatba/spayd.py:97-101 | a leading `-` negates the value read back and keeps the two decimals |
| Spayd.AmountItem | qrplatba/spayd.py:97-101 | the AM segment is the generic `AM:value*` item, or empty |
| Spayd.DateSegmentCompact | qrplatba/spayd.py:103-112 | removing `-` from `DT:YYYY-MM-DD*` leaves `DT:YYYYMMDD*` |
| Spayd.DateSegments | qrplatba/spayd.py:103-112 | a date and a datetime with the same day give the same compact segment |
| Spayd.DueDateSegment | qrplatba/spayd.py:103-112 | empty when absent; a value that is neither date nor datetime is written as given; a date or datetime in years 1..9999 gives `DT:` + 8 digits + `*` that read back as its year, month and day |
| Spayd.DueDateExample | qrplatba/spayd.py:103-110 | 2024-03-05 10:00 gives `DT:20240305*` |
| Spayd.DueDateItem | qrplatba/spayd.py:103-112 | the DT segment is the generic item of the compact date, or of the text given verbatim |
| Spayd.FormatItemReadsBack | qrplatba/spayd.py:114-117 | an absent item writes nothing; a present one ends in `*` and, without it, reads back as its name and value |
| Spayd.PresentFields | qrplatba/spayd.py:114-117 | every field comes from a present value under that value's name, and every present value gives its field |
| Spayd.Texts | qrplatba/spayd.py:114-117 | each field becomes `NAME:value` |
| Spayd.SegmentsAreItems | qrplatba/spayd.py:119-137 | the 17 template slots are the generic items for the fields in the order ACC, ALT-ACC, AM, CC, RF, RN, DT, PT, MSG, NT, NTA, X-PER, X-VS, X-SS, X-KS, X-ID, X-URL |
| Spayd.ConcatPresent | qrplatba/spayd.py:114-137 | concatenating the slots gives one `NAME:value*` per present field, absent fields leaving no trace |
| Spayd.GetText | qrplatba/spayd.py:119-138 | the descriptor is `SPD*1.0*`, then every present field terminated by `*`, with trailing `*` stripped; it starts with `SPD*1.0` and never ends in `*` |
| Spayd.HeaderKept | qrplatba/spayd.py:138 | `rstrip('*')` never removes the header `SPD*1.0` |
| Spayd.FieldNamesPlain | qrplatba/spayd.py:119-137 | field names are non-empty and contain neither `:` nor `*` |
| Spayd.DescriptorRoundTrip | qrplatba/spayd.py:119-138 | when no value contains `*`, reading the descriptor back gives exactly the present fields, names and values, in template order |
| Spayd.FieldsRoundTrip | qrplatba/spayd.py:119-138 | for any fields with plain names and values without `*`, the descriptor text reads back as those fields |
| Spayd.DescriptorIsJoin | qrplatba/spayd.py:138 | stripping the trailing `*` of star-terminated items leaves the `*`-join of the items |
| Svg.HorizontalLineOutline | qrplatba/svg.py:60 | the horizontal-line template draws the closed rectangle from (x0, y0) of size length × width |
| Svg.VerticalLineOutline | qrplatba/svg.py:61 | the vertical-line template draws the closed rectangle from (x0, y0) of size width × length |
| Svg.SquareOutline | qrplatba/svg.py:127 | the module template draws the closed square with corners (x0, y0) and (x1, y1) |
| Svg.QRPlatbaSvgImage.constructor | qrplatba/svg.py:23-31 | inside border 4, line 1/5 of SCALE, font height 2.5·SCALE, border = inside + outside, no points, an empty root of the computed size |
| Svg.QRPlatbaSvgImage.DrawRect | qrplatba/svg.py:33-35 | adds the pair (col, row) and nothing else; repeating a call changes nothing |
| Svg.QRPlatbaSvgImage.Root | qrplatba/svg.py:37-51 | width and height in px, viewBox `0 0 W H` with the same magnitudes, no children |
| Svg.QRPlatbaSvgImage.MakeBorder | qrplatba/svg.py:53-104 | five closed outlines: the top line, the bottom line left and right of the caption gap, and the two side lines of the frame |
| Svg.QRPlatbaSvgImage.MakeText | qrplatba/svg.py:106-116 | the caption "QR platba" with id `qrplatba-text`, font size 3.443101883·SCALE, at the computed position |
| Svg.QRPlatbaSvgImage.GenerateSubpaths | qrplatba/svg.py:118-132 | one subpath per recorded module, each the outline of that module's square, and no other subpath |
| Svg.QRPlatbaSvgImage.MakePath | qrplatba/svg.py:134-144 | the `qr-path` element holds exactly the module squares |
| Svg.QRPlatbaSvgImage.Write | qrplatba/svg.py:146-151 | appends the module path (exactly the module squares), the frame and the caption in this order, keeping the earlier children and the root's size |
| Svg.FrameMargins | qrplatba/svg.py:37-44 | the frame is square and centred across the canvas, with outside·SCALE of margin on each side |
| Svg.FrameCloses | qrplatba/svg.py:53-104 | the five pieces of the frame meet edge to edge at every corner |
| Svg.BottomGap | qrplatba/svg.py:72-86 | the bottom line has a gap of exactly 20 modules; its right piece has positive length iff the code is at least 14 modules wide |
| Svg.ModuleClearance | qrplatba/svg.py:118-132 | every module of the code lies inside the frame, at least inside·SCALE from each line, and exactly that far in the outer rows and columns |
| Svg.ModulesDisjoint | qrplatba/svg.py:118-132 | squares of different modules do not overlap |
| Svg.CaptionPlacement | qrplatba/svg.py:106-116 | the caption starts inside the gap; its baseline is font_height below the frame and (outside + 0.679)·SCALE above the canvas bottom |

## Left out

- `make_image` (spayd.py:140-151) is left out. It calls the `qrcode` library to pick a version, encode the text and report dark modules. The `qrcode` library is not part of this model. Its effect on the image is modelled by `DrawRect` and by the `width` and `border` the constructor receives.
- The base-class fields of `qrcode`'s `SvgFragmentImage` are not modelled: `pixel_size`, the `xmlns` attribute and the style strings. The XML serialisation to a stream is not modelled either.
- Numbers in SVG attributes are exact reals. Python's float arithmetic and its decimal spelling are not modelled. Nor is the text `h --x` that the templates would write for a negative length; that length is negative only for codes narrower than 14 modules.
- `_generate_subpaths` walks a Python set. The order of the squares is not modelled; the ensures speak of the set of subpaths.
- `AmountText` works on whole hundredths. The rounding of a float amount by `{:.2f}` is not modelled.
- Field values other than account, alternate accounts, amount and due date are taken as text. `str()` of other Python objects is not modelled.
- Digits are ASCII. Python's `\d` and `int()` also accept other Unicode digits; these are not modelled.
- `Spayd.DescriptorRoundTrip`: holds only when no field value contains `*`. The encoder does not escape `*`, so a value containing one cannot be recovered from the descriptor.
- `Spayd.AlternateAccountsSegment`: the split-back holds only for a non-empty list whose entries contain no `,`; the encoder does not escape `,`.
- `Spayd.DueDateSegment`: the read-back is stated for years 1..9999, the range of Python's `date`. A `Verbatim` due date (any other object) is written as given.
- The constructor assigns `border` once, its final value. The source first sets it to the outside border in the base class and then overwrites it. No member reads the intermediate value.
- `setup.py` and the tests are not part of this model.
