/** The QR-platba (SPAYD 1.0) payment descriptor encoder of QRPlatbaGenerator:
    the account recogniser RE_ACCOUNT, the Czech-account-to-IBAN conversion and
    the per-field formatters that get_text concatenates. */
module Spayd {
  import opened Strings

  datatype Option<T> = None | Some(value: T)

  // ------------------------------------------------------------ RE_ACCOUNT

  /** The groups RE_ACCOUNT captures: ba (the optional prefix), a (the number)
      and b (the four-digit bank code). */
  datatype AccountMatch = AccountMatch(prefix: Option<string>, number: string, bank: string)

  /** Length of the longest run of ASCII digits at the start of s. */
  function LeadingDigits(s: string): (n: nat)
    ensures n <= |s| && forall i | 0 <= i < n :: IsDigit(s[i])
    ensures n < |s| ==> !IsDigit(s[n])
  {
    if s == [] || !IsDigit(s[0]) then 0
    else
      var n := 1 + LeadingDigits(s[1..]);
      assert forall i | 1 <= i < n :: s[i] == s[1..][i - 1];
      n
  }

  /** `(?P<a>\d+)/(?P<b>\d{4})` tried at position start. A shorter run for the
      greedy `\d+` cannot be followed by '/', so only the longest run can match. */
  function MatchNumberAndBank(s: string, start: nat, prefix: Option<string>): (r: Option<AccountMatch>)
    requires start <= |s|
    ensures r.Some? ==> var m := r.value;
              m.prefix == prefix && 1 <= |m.number| && AllDigits(m.number) && |m.bank| == 4 && AllDigits(m.bank) &&
              start + |m.number| + 5 <= |s| && s[start..start + |m.number| + 5] == m.number + "/" + m.bank
  {
    var slash := start + LeadingDigits(s[start..]);
    if slash > start && slash + 5 <= |s| && s[slash] == '/' && AllDigits(s[slash + 1..slash + 5])
    then Some(AccountMatch(prefix, s[start..slash], s[slash + 1..slash + 5]))
    else None
  }

  /** RE_ACCOUNT.match(s): anchored at the start only. The optional group
      `(?P<ba>\d+(?=-))` can only be the whole leading digit run (a shorter
      run is followed by a digit, not '-'); the lookahead leaves the '-' in
      place, so the number group would have to start at '-'. When that branch
      fails the engine retries without the group. */
  function MatchAccount(s: string): (r: Option<AccountMatch>)
    ensures r.Some? ==> var m := r.value;
              m.prefix == None && 1 <= |m.number| && AllDigits(m.number) && |m.bank| == 4 && AllDigits(m.bank) &&
              |m.number| + 5 <= |s| && s[..|m.number| + 5] == m.number + "/" + m.bank
  {
    var k := LeadingDigits(s);
    var withPrefix := if 1 <= k < |s| && s[k] == '-' then MatchNumberAndBank(s, k, Some(s[..k])) else None;
    assert withPrefix == None by {
      if 1 <= k < |s| && s[k] == '-' {
        assert LeadingDigits(s[k..]) == 0;
      }
    }
    assert s[0..] == s;
    if withPrefix.Some? then withPrefix else MatchNumberAndBank(s, 0, None)
  }

  /** Independent description of the accounts the regex accepts: n >= 1 digits,
      then '/', then four digits; anything may follow. */
  ghost predicate AccountShape(s: string, n: nat)
  {
    1 <= n && n + 5 <= |s| && AllDigits(s[..n]) && s[n] == '/' && AllDigits(s[n + 1..n + 5])
  }

  lemma LeadingDigitsUnique(s: string, n: nat)
    requires n < |s| && AllDigits(s[..n]) && !IsDigit(s[n])
    ensures LeadingDigits(s) == n
  {
    assert forall i | 0 <= i < n :: IsDigit(s[i]) by {
      forall i | 0 <= i < n ensures IsDigit(s[i]) { assert s[i] == s[..n][i]; }
    }
  }

  /** The recogniser accepts exactly the strings of AccountShape, captures
      number and bank as the shape splits them, and never captures a prefix. */
  lemma MatchAccountSpec(s: string)
    ensures MatchAccount(s).Some? ==>
              var m := MatchAccount(s).value;
              m.prefix == None && AccountShape(s, |m.number|) &&
              m.number == s[..|m.number|] && m.bank == s[|m.number| + 1..|m.number| + 5]
    ensures forall n: nat | AccountShape(s, n) :: MatchAccount(s) == Some(AccountMatch(None, s[..n], s[n + 1..n + 5]))
  {
    var k := LeadingDigits(s);
    if 1 <= k < |s| && s[k] == '-' {
      assert LeadingDigits(s[k..]) == 0;
      assert MatchNumberAndBank(s, k, Some(s[..k])) == None;
    }
    assert s[0..] == s;
    forall n: nat | AccountShape(s, n)
      ensures MatchAccount(s) == Some(AccountMatch(None, s[..n], s[n + 1..n + 5]))
    {
      LeadingDigitsUnique(s, n);
    }
  }

  /** The documented form prefix-number/bank (e.g. 12-123456789/0300) is
      never recognised, so it is passed through unconverted. */
  lemma PrefixedAccountNotConverted(prefix: string, rest: string)
    requires |prefix| >= 1 && AllDigits(prefix)
    ensures MatchAccount(prefix + "-" + rest) == None
  {
    var s := prefix + "-" + rest;
    assert s[..|prefix|] == prefix;
    LeadingDigitsUnique(s, |prefix|);
    MatchAccountSpec(s);
    if MatchAccount(s).Some? {
      var n := |MatchAccount(s).value.number|;
      LeadingDigitsUnique(s, n);
      assert false;
    }
  }

  /** Text after the four-digit bank code is ignored by the match. */
  lemma TrailingTextIgnored(s: string, t: string)
    requires MatchAccount(s).Some?
    ensures MatchAccount(s + t) == MatchAccount(s)
  {
    MatchAccountSpec(s);
    var n := |MatchAccount(s).value.number|;
    var st := s + t;
    assert st[..n] == s[..n] && st[n + 1..n + 5] == s[n + 1..n + 5] && st[n] == s[n];
    assert AccountShape(st, n);
    MatchAccountSpec(st);
  }

  // ------------------------------------------------------------ _convert_to_iban

  /** `acc.group('ba') or 0`, as text. */
  function PrefixText(prefix: Option<string>): string
  {
    if prefix.Some? && prefix.value != "" then prefix.value else "0"
  }

  /** re.sub('[A-Z]', ord(letter) - 55, s): A becomes 10, ..., Z becomes 35. */
  function LettersToNumbers(s: string): string
  {
    if s == [] then ""
    else (if 'A' <= s[0] <= 'Z' then LetterNumber(s[0]) else [s[0]]) + LettersToNumbers(s[1..])
  }

  /** The two digits of ord(letter) - 55 (see LetterNumberIsStr). */
  function LetterNumber(c: char): string
    requires 'A' <= c <= 'Z'
  {
    var v := c as int - 55;
    [DigitChar(v / 10), DigitChar(v % 10)]
  }

  /** LetterNumber is str(ord(c) - 55). */
  lemma LetterNumberIsStr(c: char)
    requires 'A' <= c <= 'Z'
    ensures LetterNumber(c) == NatToDecimal(c as int - 55)
  {
    var v := c as int - 55;
    assert NatToDecimal(v / 10) == [DigitChar(v / 10)];
  }

  /** _convert_to_iban: callers only pass accounts that RE_ACCOUNT matches.
      The result is a CZ IBAN that passes the MOD 97-10 check. */
  function ConvertToIban(account: string): (iban: string)
    requires MatchAccount(account).Some?
    ensures |iban| >= 4 && iban[..2] == "CZ" && IbanChecksumValid(iban)
  {
    var m := MatchAccount(account).value;
    MatchedGroups(account);
    IbanOfGroupsShape(m);
    IbanOfGroupsChecksum(m);
    IbanOfGroups(m)
  }

  /** The body of _convert_to_iban once the groups are captured: the
      provisional IBAN with check digits 00, its rearranged numeric form, and
      the IBAN with the computed check digits. */
  function IbanOfGroups(m: AccountMatch): string
  {
    var provisional := "CZ00" + Bban(m);
    var crc := LettersToNumbers(provisional[4..] + provisional[..4]);
    provisional[..2] + CheckDigits(crc) + provisional[4..]
  }

  /** The bank code, padded prefix and padded number of 'CZ00{b}{ba:0>6}{a:0>10}'. */
  function Bban(m: AccountMatch): string
  {
    m.bank + PadLeft(PrefixText(m.prefix), 6) + PadLeft(m.number, 10)
  }

  /** "{:0>2}".format(98 - int(crc) % 97) */
  function CheckDigits(crc: string): string
  {
    PadLeft(NatToDecimal(98 - DecimalValue(crc) % 97), 2)
  }

  lemma CheckDigitsFacts(crc: string)
    ensures var d := CheckDigits(crc);
            |d| == 2 && AllDigits(d) && DecimalValue(d) == 98 - DecimalValue(crc) % 97
  {
    var v := 98 - DecimalValue(crc) % 97;
    PadLeftValue(NatToDecimal(v), 2);
    PadLeftDigits(NatToDecimal(v), 2);
  }

  /** The IBAN check of ISO 13616-1 with ISO 7064 MOD 97-10: move the first
      four characters to the end, replace letters by numbers, and the integer
      obtained must leave remainder 1 modulo 97. */
  predicate IbanChecksumValid(iban: string)
  {
    |iban| >= 4 && DecimalValue(LettersToNumbers(iban[4..] + iban[..4])) % 97 == 1
  }

  lemma {:induction false} LettersToNumbersAppend(x: string, y: string)
    ensures LettersToNumbers(x + y) == LettersToNumbers(x) + LettersToNumbers(y)
    decreases |x|
  {
    if x == [] {
      assert x + y == y;
    } else {
      assert (x + y)[0] == x[0] && (x + y)[1..] == x[1..] + y;
      LettersToNumbersAppend(x[1..], y);
    }
  }

  lemma {:induction false} LettersToNumbersDigits(s: string)
    requires AllDigits(s)
    ensures LettersToNumbers(s) == s
    decreases |s|
  {
    if s != [] {
      LettersToNumbersDigits(s[1..]);
      assert [s[0]] + s[1..] == s;
    }
  }

  lemma CountryCodeNumbers()
    ensures LettersToNumbers("CZ") == "1235"
  {
    assert "CZ"[1..] == "Z" && "Z"[1..] == "";
  }


  /** With crc = 100x and check digits 98 - crc % 97, the number x, then 00
      replaced by the check digits, is congruent to 1 modulo 97. */
  lemma CheckDigitArithmetic(x: int, crc: int, digits: int, total: int)
    requires x >= 0 && crc == x * 100 && digits == 98 - crc % 97 && total == x * 100 + digits
    ensures total % 97 == 1
  {
    var q := crc / 97;
    assert crc == 97 * q + crc % 97;
    assert total == 97 * (q + 1) + 1;
  }

  /** What a successful match guarantees of the captured groups. */
  predicate DigitGroups(m: AccountMatch)
  {
    |m.bank| == 4 && AllDigits(m.bank) && AllDigits(m.number) && AllDigits(PrefixText(m.prefix))
  }

  lemma MatchedGroups(account: string)
    requires MatchAccount(account).Some?
    ensures DigitGroups(MatchAccount(account).value)
    ensures PrefixText(MatchAccount(account).value.prefix) == "0"
  {
    MatchAccountSpec(account);
  }

  lemma BbanDigits(m: AccountMatch)
    requires DigitGroups(m)
    ensures AllDigits(Bban(m))
  {
    PadLeftDigits(PrefixText(m.prefix), 6);
    PadLeftDigits(m.number, 10);
  }

  /** Where the pieces of "CZ" + check digits + BBAN sit. */
  lemma IbanSplice(digits: string, b: string)
    requires |digits| == 2
    ensures var iban := "CZ" + digits + b;
            |iban| == 4 + |b| && iban[..2] == "CZ" && iban[2..4] == digits && iban[4..] == b &&
            iban[2..] == digits + b && iban[..4] == "CZ" + digits &&
            iban[4..] + iban[..4] == (b + "CZ") + digits
  {
  }

  /** The numeric form of the provisional IBAN: BBAN, CZ as 1235, then 00. */
  lemma ProvisionalNumber(b: string)
    requires AllDigits(b)
    ensures LettersToNumbers(b + "CZ00") == (b + "1235") + "00"
  {
    LettersToNumbersAppend(b, "CZ00");
    LettersToNumbersAppend("CZ", "00");
    LettersToNumbersDigits(b);
    LettersToNumbersDigits("00");
    CountryCodeNumbers();
  }

  /** The numeric form of an IBAN rearranged for checking: BBAN, 1235, check digits. */
  lemma RearrangedNumber(b: string, digits: string)
    requires AllDigits(b) && AllDigits(digits)
    ensures LettersToNumbers((b + "CZ") + digits) == (b + "1235") + digits
  {
    LettersToNumbersAppend(b + "CZ", digits);
    LettersToNumbersAppend(b, "CZ");
    LettersToNumbersDigits(b);
    LettersToNumbersDigits(digits);
    CountryCodeNumbers();
  }

  lemma TimesHundred(x: string)
    ensures DecimalValue(x + "00") == DecimalValue(x) * 100
  {
    DecimalValueAppend(x, "00");
    assert DecimalValue("00") == 0 by { assert "00"[..1] == "0"; assert "0"[..0] == ""; }
  }

  lemma IbanOfGroupsShape(m: AccountMatch)
    requires DigitGroups(m)
    ensures var iban := IbanOfGroups(m);
            var b := Bban(m);
            iban == "CZ" + CheckDigits(LettersToNumbers(b + "CZ00")) + b
  {
    var b := Bban(m);
    var provisional := "CZ00" + b;
    assert provisional[4..] == b && provisional[..4] == "CZ00" && provisional[..2] == "CZ";
  }

  lemma SixZeros()
    ensures PadLeft("0", 6) == "000000"
  {
    var r := PadLeft("0", 6);
    assert forall i | 0 <= i < 6 :: r[i] == "000000"[i];
  }

  /** The check digits and the layout of the converted IBAN: "CZ", two check
      digits between 02 and 98, the four-digit bank code, the prefix (always 0)
      padded to six digits and the number padded to ten; 24 characters exactly
      when the number has at most ten digits. */
  lemma IbanLayout(account: string)
    requires MatchAccount(account).Some?
    ensures var iban := ConvertToIban(account);
            var m := MatchAccount(account).value;
            |iban| >= 14 && iban[..2] == "CZ" && iban[4..] == m.bank + "000000" + PadLeft(m.number, 10) &&
            2 <= DecimalValue(iban[2..4]) <= 98 && (|iban| == 24 <==> |m.number| <= 10)
  {
    var m := MatchAccount(account).value;
    MatchedGroups(account);
    var b := Bban(m);
    var digits := CheckDigits(LettersToNumbers(b + "CZ00"));
    CheckDigitsFacts(LettersToNumbers(b + "CZ00"));
    IbanOfGroupsShape(m);
    IbanSplice(digits, b);
    SixZeros();
    var iban := ConvertToIban(account);
    assert iban[4..] == b;
  }

  /** Everything after "CZ" in the converted IBAN is an ASCII digit. */
  lemma IbanDigits(account: string)
    requires MatchAccount(account).Some?
    ensures var iban := ConvertToIban(account); |iban| >= 2 && AllDigits(iban[2..])
  {
    var m := MatchAccount(account).value;
    MatchedGroups(account);
    BbanDigits(m);
    var b := Bban(m);
    var digits := CheckDigits(LettersToNumbers(b + "CZ00"));
    CheckDigitsFacts(LettersToNumbers(b + "CZ00"));
    IbanOfGroupsShape(m);
    IbanSplice(digits, b);
    AllDigitsAppend(digits, b);
  }

  /** The IBAN built from digit groups passes the ISO 7064 MOD 97-10 check. */
  lemma IbanOfGroupsChecksum(m: AccountMatch)
    requires DigitGroups(m)
    ensures IbanChecksumValid(IbanOfGroups(m))
  {
    BbanDigits(m);
    IbanOfGroupsShape(m);
    BbanChecksum(Bban(m));
  }

  /** CZ, the check digits computed from a digit-only BBAN, then the BBAN:
      the check passes. */
  lemma BbanChecksum(b: string)
    requires AllDigits(b)
    ensures IbanChecksumValid("CZ" + CheckDigits(LettersToNumbers(b + "CZ00")) + b)
  {
    // int(crc) for the provisional IBAN
    var crc := LettersToNumbers(b + "CZ00");
    var x := DecimalValue(b + "1235");
    assert x >= 0 by {
      AllDigitsAppend(b, "1235");
      AllDigitsNonNegative(b + "1235");
    }
    assert DecimalValue(crc) == x * 100 by {
      ProvisionalNumber(b);
      TimesHundred(b + "1235");
    }
    // the IBAN and its rearranged numeric form
    var digits := CheckDigits(crc);
    assert |digits| == 2 && AllDigits(digits) && DecimalValue(digits) == 98 - DecimalValue(crc) % 97 by {
      CheckDigitsFacts(crc);
    }
    var iban := "CZ" + digits + b;
    assert |iban| >= 4 && iban[4..] + iban[..4] == (b + "CZ") + digits by {
      IbanSplice(digits, b);
    }
    var total := DecimalValue((b + "1235") + digits);
    assert LettersToNumbers(iban[4..] + iban[..4]) == (b + "1235") + digits by {
      RearrangedNumber(b, digits);
    }
    assert total == x * 100 + DecimalValue(digits) by {
      DecimalValueAppend(b + "1235", digits);
      assert Pow10(2) == 100;
    }
    CheckDigitArithmetic(x, DecimalValue(crc), DecimalValue(digits), total);
  }


  // ------------------------------------------------------------ _account, _alternate_accounts

  /** The per-account choice of _account and _alternate_accounts: convert what
      RE_ACCOUNT matches, pass anything else through verbatim. */
  function FormatAccount(account: string): (r: string)
    ensures MatchAccount(account).None? ==> r == account
    ensures MatchAccount(account).Some? ==> |r| >= 4 && r[..2] == "CZ" && AllDigits(r[2..]) && IbanChecksumValid(r)
  {
    if MatchAccount(account).Some? then
      IbanDigits(account);
      ConvertToIban(account)
    else account
  }

  function AccountSegment(account: Option<string>): string
  {
    match account
    case None => ""
    case Some(a) => "ACC:" + FormatAccount(a) + "*"
  }

  /** The list `formatted` that _alternate_accounts builds: each entry converted
      or passed through on its own, in input order. */
  function FormatAccounts(accounts: seq<string>): (r: seq<string>)
    ensures |r| == |accounts|
  {
    if accounts == [] then []
    else FormatAccounts(accounts[..|accounts| - 1]) + [FormatAccount(accounts[|accounts| - 1])]
  }

  lemma FormatAccountsStep(accounts: seq<string>, i: nat)
    requires i < |accounts|
    ensures FormatAccounts(accounts[..i + 1]) == FormatAccounts(accounts[..i]) + [FormatAccount(accounts[i])]
  {
    assert accounts[..i + 1][..i] == accounts[..i];
  }

  /** Entry i of the formatted list depends on input entry i alone. */
  lemma {:induction false} FormatAccountsEntries(accounts: seq<string>, i: nat)
    requires i < |accounts|
    ensures FormatAccounts(accounts)[i] == FormatAccount(accounts[i])
    decreases |accounts|
  {
    var n := |accounts| - 1;
    var formatted := FormatAccounts(accounts[..n]);
    assert FormatAccounts(accounts) == formatted + [FormatAccount(accounts[n])];
    if i < n {
      FormatAccountsEntries(accounts[..n], i);
      assert accounts[..n][i] == accounts[i];
      assert (formatted + [FormatAccount(accounts[n])])[i] == formatted[i];
    }
  }

  /** The ALT-ACC segment: absent for None; otherwise "ALT-ACC:", a value and
      '*', where the value splits back at ',' into the formatted entries in
      input order, provided there is an entry and no entry contains ','. */
  function AlternateAccountsSegment(alternateAccounts: Option<seq<string>>): (segment: string)
    ensures alternateAccounts.None? ==> segment == ""
    ensures alternateAccounts.Some? ==>
              |segment| >= 9 && segment[..8] == "ALT-ACC:" && segment[|segment| - 1] == '*'
    ensures alternateAccounts.Some? && |alternateAccounts.value| >= 1 &&
            (forall k | 0 <= k < |alternateAccounts.value| :: ',' !in alternateAccounts.value[k]) ==>
              Split(segment[8..|segment| - 1], ',') == FormatAccounts(alternateAccounts.value)
  {
    match alternateAccounts
    case None => ""
    case Some(accounts) =>
      var formatted := FormatAccounts(accounts);
      var value := Join(formatted, ',');
      var segment := "ALT-ACC:" + value + "*";
      assert segment[8..|segment| - 1] == value;
      assert |accounts| >= 1 && (forall k | 0 <= k < |accounts| :: ',' !in accounts[k]) ==> Split(value, ',') == formatted by {
        if |accounts| >= 1 && (forall k | 0 <= k < |accounts| :: ',' !in accounts[k]) {
          forall k | 0 <= k < |formatted| ensures ',' !in formatted[k] {
            FormatAccountsEntries(accounts, k);
            NoCommaInFormatted(accounts[k]);
          }
          SplitJoin(formatted, ',');
        }
      }
      segment
  }

  /** _alternate_accounts, with its loop. */
  method AlternateAccounts(alternateAccounts: Option<seq<string>>) returns (segment: string)
    ensures segment == AlternateAccountsSegment(alternateAccounts)
  {
    if alternateAccounts.None? {
      return "";
    }
    var accounts := alternateAccounts.value;
    var formatted: seq<string> := [];
    var i := 0;
    while i < |accounts|
      invariant 0 <= i <= |accounts|
      invariant formatted == FormatAccounts(accounts[..i])
    {
      var account := accounts[i];
      if MatchAccount(account).Some? {
        formatted := formatted + [ConvertToIban(account)];
      } else {
        formatted := formatted + [account];
      }
      FormatAccountsStep(accounts, i);
      i := i + 1;
    }
    assert accounts[..i] == accounts;
    segment := "ALT-ACC:" + Join(formatted, ',') + "*";
  }

  /** An empty list still yields the field, with an empty value. */
  lemma EmptyAlternateAccounts()
    ensures AlternateAccountsSegment(Some([])) == "ALT-ACC:*"
  {
  }

  lemma NoCommaInFormatted(a: string)
    requires ',' !in a
    ensures ',' !in FormatAccount(a)
  {
    if MatchAccount(a).Some? {
      NoCommaInIban(FormatAccount(a));
    }
  }

  lemma NoCommaInIban(r: string)
    requires |r| >= 2 && r[..2] == "CZ" && AllDigits(r[2..])
    ensures ',' !in r
  {
    forall j | 0 <= j < |r| ensures r[j] != ',' {
      if j < 2 {
        assert r[j] == r[..2][j];
      } else {
        assert r[j] == r[2..][j - 2];
      }
    }
  }

  // ------------------------------------------------------------ _amount

  /** "{:.2f}".format(amount) for an amount given in hundredths: exactly two
      digits after the point, and the text reads back as the same amount. */
  function AmountText(hundredths: int): (text: string)
    ensures ReadsBackAs(text, hundredths)
  {
    var magnitude: nat := if hundredths < 0 then -hundredths else hundredths;
    var body := UnsignedAmountText(magnitude);
    UnsignedRoundTrip(magnitude);
    if hundredths < 0 then
      SignedRoundTrip(body, magnitude);
      "-" + body
    else
      UnsignedReadsBack(body, magnitude);
      body
  }

  /** The digits of a non-negative amount: whole units, '.', two-digit hundredths. */
  function UnsignedAmountText(magnitude: nat): string
  {
    NatToDecimal(magnitude / 100) + "." + PadLeft(NatToDecimal(magnitude % 100), 2)
  }

  function AmountSegment(amount: Option<int>): string
  {
    match amount
    case None => ""
    case Some(a) => "AM:" + AmountText(a) + "*"
  }

  /** Reads back an amount written with exactly two fractional digits. */
  function ParseAmount(text: string): Option<int>
  {
    if |text| > 0 && text[0] == '-' then
      match ParseUnsigned(text[1..])
      case Some(v) => Some(-v)
      case None => None
    else ParseUnsigned(text)
  }

  function ParseUnsigned(body: string): Option<int>
  {
    var n := |body|;
    if n >= 4 && body[n - 3] == '.' && AllDigits(body[..n - 3]) && AllDigits(body[n - 2..])
    then Some(DecimalValue(body[..n - 3]) * 100 + DecimalValue(body[n - 2..]))
    else None
  }

  /** text has exactly two digits after its '.' and reads back as v hundredths. */
  predicate ReadsBackAs(text: string, v: int)
  {
    |text| >= 4 && text[|text| - 3] == '.' && AllDigits(text[|text| - 2..]) && ParseAmount(text) == Some(v)
  }

  /** body has no sign, exactly two digits after its '.', and its digits read back as v. */
  predicate UnsignedReadsBackAs(body: string, v: int)
  {
    |body| >= 4 && body[|body| - 3] == '.' && AllDigits(body[|body| - 2..]) && body[0] != '-' &&
    ParseUnsigned(body) == Some(v)
  }

  /** Text without a sign is read as it stands. */
  lemma UnsignedReadsBack(body: string, v: int)
    requires UnsignedReadsBackAs(body, v)
    ensures ReadsBackAs(body, v)
  {
  }

  lemma UnsignedRoundTrip(magnitude: nat)
    ensures UnsignedReadsBackAs(UnsignedAmountText(magnitude), magnitude)
  {
    var whole, cents := magnitude / 100, magnitude % 100;
    var body := NatToDecimal(whole) + "." + PadLeft(NatToDecimal(cents), 2);
    assert UnsignedAmountText(magnitude) == body;
    assert whole * 100 + cents == magnitude by {
      HundredsAndRest(magnitude, whole, cents);
    }
    assert UnsignedReadsBackAs(body, whole * 100 + cents) by {
      PartsRoundTrip(whole, cents);
    }
  }

  lemma HundredsAndRest(m: nat, q: int, r: int)
    requires q == m / 100 && r == m % 100
    ensures q * 100 + r == m
  {
  }

  /** Whole units and hundredths, written as str(whole) + "." + two digits,
      read back as whole * 100 + hundredths. */
  lemma PartsRoundTrip(whole: nat, cents: nat)
    requires cents < 100
    ensures UnsignedReadsBackAs(NatToDecimal(whole) + "." + PadLeft(NatToDecimal(cents), 2), whole * 100 + cents)
  {
    var wholeText := NatToDecimal(whole);
    var centsText := PadLeft(NatToDecimal(cents), 2);
    assert |centsText| == 2 && AllDigits(centsText) && DecimalValue(centsText) == cents by {
      assert Pow10(2) == 100;
      FixedWidthField(cents, 2);
    }
    UnsignedAmount(wholeText, centsText);
  }

  /** whole + "." + cents, both groups of digits, reads back as whole*100 + cents. */
  lemma UnsignedAmount(whole: string, cents: string)
    requires |whole| >= 1 && |cents| == 2 && AllDigits(whole) && AllDigits(cents)
    ensures UnsignedReadsBackAs(whole + "." + cents, DecimalValue(whole) * 100 + DecimalValue(cents))
  {
    PointSplits(whole, cents);
    assert IsDigit(whole[0]);
    SplitAtPoint(whole + "." + cents, whole, cents);
  }

  lemma PointSplits(whole: string, cents: string)
    requires |whole| >= 1 && |cents| == 2
    ensures var body := whole + "." + cents;
      (|body| == |whole| + 3 && body[..|body| - 3] == whole && body[|body| - 3] == '.' &&
       body[|body| - 2..] == cents && body[0] == whole[0])
  {
    var body := whole + "." + cents;
    assert body == whole + ("." + cents);
  }

  /** A text cut at its third-last character into digits, '.', two digits. */
  lemma SplitAtPoint(body: string, whole: string, cents: string)
    requires |body| >= 4 && body[..|body| - 3] == whole && body[|body| - 3] == '.' && body[|body| - 2..] == cents
    requires AllDigits(whole) && AllDigits(cents) && IsDigit(body[0])
    ensures UnsignedReadsBackAs(body, DecimalValue(whole) * 100 + DecimalValue(cents))
  {
  }

  /** The '-' sign is read back as a negation and leaves the fraction in place. */
  lemma SignedRoundTrip(body: string, v: int)
    requires UnsignedReadsBackAs(body, v)
    ensures ReadsBackAs("-" + body, -v)
  {
    var text := "-" + body;
    assert text[1..] == body && text[0] == '-';
    assert text[|text| - 2..] == body[|body| - 2..];
  }

  // ------------------------------------------------------------ _due_date

  /** A due date: a date, a datetime (whose time part is discarded) or any
      other value, emitted as its text. */
  datatype DueDate =
    | Date(year: nat, month: nat, day: nat)
    | DateTime(year: nat, month: nat, day: nat, hour: nat, minute: nat, second: nat)
    | Verbatim(text: string)

  /** date.isoformat(): "%04d-%02d-%02d". */
  function IsoDate(year: nat, month: nat, day: nat): string
  {
    PadLeft(NatToDecimal(year), 4) + "-" + PadLeft(NatToDecimal(month), 2) + "-" + PadLeft(NatToDecimal(day), 2)
  }

  /** _due_date: the datetime test comes first, as datetime is a subclass of
      date; the replace removes every '-' of the whole segment. */
  function DueDateSegment(dueDate: Option<DueDate>): (segment: string)
    ensures dueDate.None? ==> segment == ""
    ensures dueDate.Some? && dueDate.value.Verbatim? ==> segment == "DT:" + dueDate.value.text + "*"
    ensures dueDate.Some? && !dueDate.value.Verbatim? &&
            1 <= dueDate.value.year <= 9999 && 1 <= dueDate.value.month <= 12 && 1 <= dueDate.value.day <= 31 ==>
              CompactDateReadsBackAs(segment, dueDate.value.year, dueDate.value.month, dueDate.value.day)
  {
    match dueDate
    case None => ""
    case Some(DateTime(y, m, d, _, _, _)) =>
      CompactDateSegment(y, m, d);
      RemoveChar("DT:" + IsoDate(y, m, d) + "*", '-')
    case Some(Date(y, m, d)) =>
      CompactDateSegment(y, m, d);
      RemoveChar("DT:" + IsoDate(y, m, d) + "*", '-')
    case Some(Verbatim(t)) => "DT:" + t + "*"
  }

  /** s is DT:YYYYMMDD*, whose eight digits read back as y, m and d. */
  predicate CompactDateReadsBackAs(s: string, y: nat, m: nat, d: nat)
  {
    |s| == 12 && s[..3] == "DT:" && s[11] == '*' && AllDigits(s[3..11]) &&
    DecimalValue(s[3..7]) == y && DecimalValue(s[7..9]) == m && DecimalValue(s[9..11]) == d
  }

  /** Within the range of Python's date, the compact segment is DT:YYYYMMDD*. */
  lemma CompactDateSegment(y: nat, m: nat, d: nat)
    ensures 1 <= y <= 9999 && 1 <= m <= 12 && 1 <= d <= 31 ==>
              CompactDateReadsBackAs(RemoveChar("DT:" + IsoDate(y, m, d) + "*", '-'), y, m, d)
  {
    if 1 <= y <= 9999 && 1 <= m <= 12 && 1 <= d <= 31 {
      var ys, ms, ds := PadLeft(NatToDecimal(y), 4), PadLeft(NatToDecimal(m), 2), PadLeft(NatToDecimal(d), 2);
      DateSegmentCompact(y, m, d);
      assert Pow10(4) == 10000 && Pow10(2) == 100;
      FixedWidthField(y, 4);
      FixedWidthField(m, 2);
      FixedWidthField(d, 2);
      CompactLayout(ys, ms, ds);
    }
  }

  /** The '-' separators of the ISO date go, its digits stay. */
  lemma DateSegmentCompact(y: nat, m: nat, d: nat)
    ensures var ys, ms, ds := PadLeft(NatToDecimal(y), 4), PadLeft(NatToDecimal(m), 2), PadLeft(NatToDecimal(d), 2);
            RemoveChar("DT:" + IsoDate(y, m, d) + "*", '-') == "DT:" + (ys + ms + ds) + "*"
  {
    var ys, ms, ds := PadLeft(NatToDecimal(y), 4), PadLeft(NatToDecimal(m), 2), PadLeft(NatToDecimal(d), 2);
    assert AllDigits(ys) && AllDigits(ms) && AllDigits(ds) by {
      PadLeftDigits(NatToDecimal(y), 4);
      PadLeftDigits(NatToDecimal(m), 2);
      PadLeftDigits(NatToDecimal(d), 2);
    }
    assert IsoDate(y, m, d) == ys + "-" + ms + "-" + ds;
    CompactSegment(ys, ms, ds);
  }

  /** Removing '-' from DT:<digits>-<digits>-<digits>* joins the digit groups. */
  lemma CompactSegment(ys: string, ms: string, ds: string)
    requires AllDigits(ys) && AllDigits(ms) && AllDigits(ds)
    ensures RemoveChar("DT:" + (ys + "-" + ms + "-" + ds) + "*", '-') == "DT:" + (ys + ms + ds) + "*"
  {
    DigitsHaveNoDash(ys);
    DigitsHaveNoDash(ms);
    DigitsHaveNoDash(ds);
    RemoveDashes(ys, ms, ds);
    RemoveCharInside("DT:", ys + "-" + ms + "-" + ds, "*", '-');
  }

  /** Removing c from pre + x + post touches only x when pre and post lack c. */
  lemma RemoveCharInside(pre: string, x: string, post: string, c: char)
    requires c !in pre && c !in post
    ensures RemoveChar(pre + x + post, c) == pre + RemoveChar(x, c) + post
  {
    RemoveCharAppend(pre + x, post, c);
    RemoveCharAppend(pre, x, c);
    RemoveCharAbsent(pre, c);
    RemoveCharAbsent(post, c);
  }

  lemma RemoveDashes(ys: string, ms: string, ds: string)
    requires '-' !in ys && '-' !in ms && '-' !in ds
    ensures RemoveChar(ys + "-" + ms + "-" + ds, '-') == ys + ms + ds
  {
    assert ys + "-" + ms + "-" + ds == ys + ['-'] + (ms + ['-'] + ds);
    RemoveCharSeparator(ys, ms + ['-'] + ds, '-');
    RemoveCharSeparator(ms, ds, '-');
    RemoveCharAbsent(ds, '-');
  }

  lemma RemoveCharSeparator(x: string, y: string, c: char)
    requires c !in x
    ensures RemoveChar(x + [c] + y, c) == x + RemoveChar(y, c)
  {
    var xc := x + [c];
    assert RemoveChar(xc, c) == x by {
      RemoveCharAppend(x, [c], c);
      RemoveCharAbsent(x, c);
      assert RemoveChar([c], c) == "" by { assert [c][1..] == ""; }
    }
    RemoveCharAppend(xc, y, c);
  }

  lemma DigitsHaveNoDash(s: string)
    requires AllDigits(s)
    ensures '-' !in s
  {
    forall i | 0 <= i < |s| ensures s[i] != '-' {
      assert IsDigit(s[i]);
    }
  }

  lemma DateSegments(y: nat, m: nat, d: nat, hour: nat, minute: nat, second: nat)
    ensures var ys, ms, ds := PadLeft(NatToDecimal(y), 4), PadLeft(NatToDecimal(m), 2), PadLeft(NatToDecimal(d), 2);
            DueDateSegment(Some(Date(y, m, d))) == "DT:" + (ys + ms + ds) + "*" &&
            DueDateSegment(Some(DateTime(y, m, d, hour, minute, second))) == "DT:" + (ys + ms + ds) + "*"
  {
    var ys, ms, ds := PadLeft(NatToDecimal(y), 4), PadLeft(NatToDecimal(m), 2), PadLeft(NatToDecimal(d), 2);
    var segment := RemoveChar("DT:" + IsoDate(y, m, d) + "*", '-');
    assert segment == "DT:" + (ys + ms + ds) + "*" by {
      DateSegmentCompact(y, m, d);
    }
    assert DueDateSegment(Some(Date(y, m, d))) == segment;
    assert DueDateSegment(Some(DateTime(y, m, d, hour, minute, second))) == segment;
  }


  /** A value below 10^width is written in exactly width digits that read back as it. */
  lemma FixedWidthField(v: nat, width: nat)
    requires 1 <= width && v < Pow10(width)
    ensures var t := PadLeft(NatToDecimal(v), width);
            |t| == width && AllDigits(t) && DecimalValue(t) == v
  {
    var s := NatToDecimal(v);
    FitsWidth(s, v, width);
  }

  /** Padding the shortest spelling of v to a width where v fits. */
  lemma FitsWidth(s: string, v: nat, width: nat)
    requires 1 <= width && v < Pow10(width)
    requires 1 <= |s| && AllDigits(s) && DecimalValue(s) == v && (|s| > 1 ==> s[0] != '0')
    ensures var t := PadLeft(s, width); |t| == width && AllDigits(t) && DecimalValue(t) == v
  {
    if |s| > width {
      LeadingNonZeroLarge(s);
      Pow10Monotone(width, |s| - 1);
      assert false;
    }
    PadLeftDigits(s, width);
    PadLeftValue(s, width);
  }

  lemma {:induction false} Pow10Monotone(i: nat, j: nat)
    requires i <= j
    ensures Pow10(i) <= Pow10(j)
    decreases j
  {
    if i < j {
      Pow10Monotone(i, j - 1);
    }
  }

  lemma CompactLayout(ys: string, ms: string, ds: string)
    requires |ys| == 4 && |ms| == 2 && |ds| == 2 && AllDigits(ys) && AllDigits(ms) && AllDigits(ds)
    ensures var s := "DT:" + (ys + ms + ds) + "*";
            |s| == 12 && s[..3] == "DT:" && s[11] == '*' && AllDigits(s[3..11]) &&
            s[3..7] == ys && s[7..9] == ms && s[9..11] == ds
  {
    var s := "DT:" + (ys + ms + ds) + "*";
    assert s[3..11] == ys + ms + ds;
    AllDigitsAppend(ys, ms);
    AllDigitsAppend(ys + ms, ds);
  }

  /** A decimal spelling without a leading zero is at least 10^(length-1). */
  lemma {:induction false} LeadingNonZeroLarge(s: string)
    requires |s| >= 1 && AllDigits(s) && s[0] != '0'
    ensures DecimalValue(s) >= Pow10(|s| - 1)
    decreases |s|
  {
    var p := s[..|s| - 1];
    if |s| > 1 {
      assert p[0] == s[0];
      LeadingNonZeroLarge(p);
      assert IsDigit(s[|s| - 1]);
    } else {
      assert p == [];
    }
  }

  /** The example of a datetime 2024-03-05T10:00:00. */
  lemma DueDateExample()
    ensures DueDateSegment(Some(DateTime(2024, 3, 5, 10, 0, 0))) == "DT:20240305*"
  {
    DateSegments(2024, 3, 5, 10, 0, 0);
    ExampleDateFields();
  }

  lemma ExampleDateFields()
    ensures PadLeft(NatToDecimal(2024), 4) + PadLeft(NatToDecimal(3), 2) + PadLeft(NatToDecimal(5), 2) == "20240305"
  {
    ExampleYear();
    ExampleMonthDay();
    assert "2024" + "03" + "05" == "20240305";
  }

  lemma ExampleYear()
    ensures PadLeft(NatToDecimal(2024), 4) == "2024"
  {
    assert NatToDecimal(2024) == "2024" by {
      assert NatToDecimal(2) == "2";
      assert NatToDecimal(20) == "20";
      assert NatToDecimal(202) == "202";
    }
  }

  lemma ExampleMonthDay()
    ensures PadLeft(NatToDecimal(3), 2) == "03" && PadLeft(NatToDecimal(5), 2) == "05"
  {
    assert NatToDecimal(3) == "3";
    assert NatToDecimal(5) == "5";
    assert PadLeft("3", 2) == "03" by { assert Zeros(1) == "0"; }
    assert PadLeft("5", 2) == "05" by { assert Zeros(1) == "0"; }
  }

  // ------------------------------------------------------------ _format_item_string, get_text

  /** _format_item_string */
  function FormatItem(item: Option<string>, name: string): string
  {
    match item
    case None => ""
    case Some(v) => name + ":" + v + "*"
  }

  /** An absent item writes nothing; a present one is a '*'-terminated text
      that reads back as its name and value. */
  lemma FormatItemReadsBack(item: Option<string>, name: string)
    requires ':' !in name
    ensures item.None? <==> FormatItem(item, name) == ""
    ensures item.Some? ==> var s := FormatItem(item, name);
      s[|s| - 1] == '*' && ParseField(s[..|s| - 1]) == Field(name, item.value)
  {
    if item.Some? {
      var text := name + ":" + item.value;
      ParseFieldText(name, item.value);
      assert (text + "*")[..|text|] == text;
    }
  }

  /** The payment record: QRPlatbaGenerator's constructor arguments, in their
      order; None stands for an absent argument. */
  datatype PaymentRecord = PaymentRecord(
    account: Option<string>,
    amount: Option<int>,                  // in hundredths
    currency: Option<string>,
    xVs: Option<string>,
    xSs: Option<string>,
    xKs: Option<string>,
    alternateAccounts: Option<seq<string>>,
    recipientName: Option<string>,
    dueDate: Option<DueDate>,
    paymentType: Option<string>,
    message: Option<string>,
    notificationType: Option<string>,
    notificationAddress: Option<string>,
    xPer: Option<string>,
    xId: Option<string>,
    xUrl: Option<string>,
    reference: Option<string>)

  /** The seventeen values get_text substitutes into its template, in template order. */
  function Segments(r: PaymentRecord): seq<string>
  {
    [ AccountSegment(r.account),
      AlternateAccountsSegment(r.alternateAccounts),
      AmountSegment(r.amount),
      FormatItem(r.currency, "CC"),
      FormatItem(r.reference, "RF"),
      FormatItem(r.recipientName, "RN"),
      DueDateSegment(r.dueDate),
      FormatItem(r.paymentType, "PT"),
      FormatItem(r.message, "MSG"),
      FormatItem(r.notificationType, "NT"),
      FormatItem(r.notificationAddress, "NTA"),
      FormatItem(r.xPer, "X-PER"),
      FormatItem(r.xVs, "X-VS"),
      FormatItem(r.xSs, "X-SS"),
      FormatItem(r.xKs, "X-KS"),
      FormatItem(r.xId, "X-ID"),
      FormatItem(r.xUrl, "X-URL") ]
  }

  function Concat(ss: seq<string>): string
  {
    if ss == [] then "" else ss[0] + Concat(ss[1..])
  }

  /** get_text: the header SPD*1.0, then NAME:value* for every present field
      in the order of FieldNames, with the trailing '*' removed; so it starts
      with SPD*1.0 and never ends with '*'. */
  function GetText(r: PaymentRecord): (descriptor: string)
    ensures |descriptor| >= 7 && descriptor[..7] == "SPD*1.0" && descriptor[|descriptor| - 1] != '*'
    ensures descriptor == RStripStars("SPD*1.0*" + Terminated(Texts(Fields(r))))
  {
    SegmentsAreItems(r);
    ConcatPresent(Segments(r), FieldNames, FieldValues(r));
    HeaderKept(Concat(Segments(r)));
    RStripStars("SPD*1.0*" + Concat(Segments(r)))
  }

  /** Stripping trailing '*'s never reaches into the header's version. */
  lemma HeaderKept(body: string)
    ensures var t := RStripStars("SPD*1.0*" + body);
      |t| >= 7 && t[..7] == "SPD*1.0" && t[|t| - 1] != '*'
  {
    var s := "SPD*1.0*" + body;
    var t := RStripStars(s);
    assert s[6] != '*';
    assert |t| >= 7;
    assert t[..7] == s[..7];
  }

  // ------------------------------------------------------------ the field table

  /** A present field of the descriptor: its name and its formatted value. */
  datatype Field = Field(name: string, value: string)

  const FieldNames: seq<string> :=
    ["ACC", "ALT-ACC", "AM", "CC", "RF", "RN", "DT", "PT", "MSG", "NT", "NTA",
     "X-PER", "X-VS", "X-SS", "X-KS", "X-ID", "X-URL"]

  function DueDateValue(d: DueDate): string
  {
    match d
    case Date(y, m, dd) => RemoveChar(IsoDate(y, m, dd), '-')
    case DateTime(y, m, dd, _, _, _) => RemoveChar(IsoDate(y, m, dd), '-')
    case Verbatim(t) => t
  }

  /** The value each field of FieldNames takes, or None when it is absent. */
  function FieldValues(r: PaymentRecord): seq<Option<string>>
  {
    [ if r.account.Some? then Some(FormatAccount(r.account.value)) else None,
      if r.alternateAccounts.Some? then Some(Join(FormatAccounts(r.alternateAccounts.value), ',')) else None,
      if r.amount.Some? then Some(AmountText(r.amount.value)) else None,
      r.currency, r.reference, r.recipientName,
      if r.dueDate.Some? then Some(DueDateValue(r.dueDate.value)) else None,
      r.paymentType, r.message, r.notificationType, r.notificationAddress,
      r.xPer, r.xVs, r.xSs, r.xKs, r.xId, r.xUrl ]
  }

  /** The fields of the present values, in order: every field comes from a
      present value under its name, and every present value gives a field. */
  function PresentFields(names: seq<string>, values: seq<Option<string>>): (fs: seq<Field>)
    requires |names| == |values|
    ensures forall f | f in fs :: exists k | 0 <= k < |names| :: names[k] == f.name && values[k] == Some(f.value)
    ensures forall k | 0 <= k < |names| && values[k].Some? :: Field(names[k], values[k].value) in fs
  {
    if names == [] then []
    else
      var rest := PresentFields(names[1..], values[1..]);
      var fs := (if values[0].Some? then [Field(names[0], values[0].value)] else []) + rest;
      assert forall f | f in rest :: exists k | 0 <= k < |names| :: names[k] == f.name && values[k] == Some(f.value) by {
        forall f | f in rest ensures exists k | 0 <= k < |names| :: names[k] == f.name && values[k] == Some(f.value) {
          var j :| 0 <= j < |names| - 1 && names[1..][j] == f.name && values[1..][j] == Some(f.value);
          assert names[j + 1] == f.name && values[j + 1] == Some(f.value);
        }
      }
      assert forall k | 1 <= k < |names| && values[k].Some? :: Field(names[k], values[k].value) in rest by {
        forall k | 1 <= k < |names| && values[k].Some? ensures Field(names[k], values[k].value) in rest {
          assert names[1..][k - 1] == names[k] && values[1..][k - 1] == values[k];
        }
      }
      fs
  }

  /** The fields present in a record, in the fixed order of FieldNames. */
  function Fields(r: PaymentRecord): seq<Field>
  {
    PresentFields(FieldNames, FieldValues(r))
  }

  function FieldText(f: Field): string { f.name + ":" + f.value }

  /** Each text followed by '*'. */
  function Terminated(ts: seq<string>): string
  {
    if ts == [] then "" else ts[0] + "*" + Terminated(ts[1..])
  }

  function Texts(fs: seq<Field>): (ts: seq<string>)
    ensures |ts| == |fs| && forall i | 0 <= i < |fs| :: ts[i] == FieldText(fs[i])
  {
    if fs == [] then [] else [FieldText(fs[0])] + Texts(fs[1..])
  }

  lemma {:induction false} ConcatPresent(segments: seq<string>, names: seq<string>, values: seq<Option<string>>)
    requires |segments| == |names| == |values|
    requires forall k | 0 <= k < |segments| :: segments[k] == FormatItem(values[k], names[k])
    ensures Concat(segments) == Terminated(Texts(PresentFields(names, values)))
    decreases |segments|
  {
    if segments != [] {
      ConcatPresent(segments[1..], names[1..], values[1..]);
      var rest := PresentFields(names[1..], values[1..]);
      if values[0].Some? {
        var f := Field(names[0], values[0].value);
        assert PresentFields(names, values) == [f] + rest;
        assert Texts([f] + rest) == [FieldText(f)] + Texts(rest);
      } else {
        assert PresentFields(names, values) == rest;
      }
    }
  }

  lemma SegmentsAreItems(r: PaymentRecord)
    ensures |Segments(r)| == |FieldNames| == |FieldValues(r)|
    ensures forall k | 0 <= k < |FieldNames| :: Segments(r)[k] == FormatItem(FieldValues(r)[k], FieldNames[k])
  {
    AccountSlots(r);
    ReferenceSlots(r);
    DueDateSlots(r);
    MessageSlots(r);
    SymbolSlots(r);
    SlotsByIndex(Segments(r), FieldValues(r), FieldNames);
  }

  /** Seventeen slots checked one by one are checked for every index. */
  lemma SlotsByIndex(segs: seq<string>, vals: seq<Option<string>>, names: seq<string>)
    requires |segs| == |vals| == |names| == 17
    requires segs[0] == FormatItem(vals[0], names[0])
    requires segs[1] == FormatItem(vals[1], names[1])
    requires segs[2] == FormatItem(vals[2], names[2])
    requires segs[3] == FormatItem(vals[3], names[3])
    requires segs[4] == FormatItem(vals[4], names[4])
    requires segs[5] == FormatItem(vals[5], names[5])
    requires segs[6] == FormatItem(vals[6], names[6])
    requires segs[7] == FormatItem(vals[7], names[7])
    requires segs[8] == FormatItem(vals[8], names[8])
    requires segs[9] == FormatItem(vals[9], names[9])
    requires segs[10] == FormatItem(vals[10], names[10])
    requires segs[11] == FormatItem(vals[11], names[11])
    requires segs[12] == FormatItem(vals[12], names[12])
    requires segs[13] == FormatItem(vals[13], names[13])
    requires segs[14] == FormatItem(vals[14], names[14])
    requires segs[15] == FormatItem(vals[15], names[15])
    requires segs[16] == FormatItem(vals[16], names[16])
    ensures forall k | 0 <= k < 17 :: segs[k] == FormatItem(vals[k], names[k])
  {
  }

  /** ACC, ALT-ACC and AM come from their own formatters. */
  lemma AccountSlots(r: PaymentRecord)
    ensures Segments(r)[0] == FormatItem(FieldValues(r)[0], FieldNames[0])
    ensures Segments(r)[1] == FormatItem(FieldValues(r)[1], FieldNames[1])
    ensures Segments(r)[2] == FormatItem(FieldValues(r)[2], FieldNames[2])
  {
    AccountItem(r.account);
    AlternateAccountsItem(r.alternateAccounts);
    AmountItem(r.amount);
  }

  /** CC, RF and RN are generic items. */
  lemma ReferenceSlots(r: PaymentRecord)
    ensures Segments(r)[3] == FormatItem(FieldValues(r)[3], FieldNames[3])
    ensures Segments(r)[4] == FormatItem(FieldValues(r)[4], FieldNames[4])
    ensures Segments(r)[5] == FormatItem(FieldValues(r)[5], FieldNames[5])
  {
  }

  /** DT comes from its own formatter; PT and MSG are generic items. */
  lemma DueDateSlots(r: PaymentRecord)
    ensures Segments(r)[6] == FormatItem(FieldValues(r)[6], FieldNames[6])
    ensures Segments(r)[7] == FormatItem(FieldValues(r)[7], FieldNames[7])
    ensures Segments(r)[8] == FormatItem(FieldValues(r)[8], FieldNames[8])
  {
    DueDateItem(r.dueDate);
  }

  /** NT, NTA, X-PER and X-VS are generic items. */
  lemma MessageSlots(r: PaymentRecord)
    ensures Segments(r)[9] == FormatItem(FieldValues(r)[9], FieldNames[9])
    ensures Segments(r)[10] == FormatItem(FieldValues(r)[10], FieldNames[10])
    ensures Segments(r)[11] == FormatItem(FieldValues(r)[11], FieldNames[11])
    ensures Segments(r)[12] == FormatItem(FieldValues(r)[12], FieldNames[12])
  {
  }

  /** X-SS, X-KS, X-ID and X-URL are generic items. */
  lemma SymbolSlots(r: PaymentRecord)
    ensures Segments(r)[13] == FormatItem(FieldValues(r)[13], FieldNames[13])
    ensures Segments(r)[14] == FormatItem(FieldValues(r)[14], FieldNames[14])
    ensures Segments(r)[15] == FormatItem(FieldValues(r)[15], FieldNames[15])
    ensures Segments(r)[16] == FormatItem(FieldValues(r)[16], FieldNames[16])
  {
  }

  /** A segment written with a fixed "NAME:" label is the item of that name. */
  lemma LabelledItem(tag: string, name: string, v: string)
    requires tag == name + ":"
    ensures tag + v + "*" == FormatItem(Some(v), name)
  {
  }

  lemma AccountItem(account: Option<string>)
    ensures AccountSegment(account) == FormatItem(if account.Some? then Some(FormatAccount(account.value)) else None, "ACC")
  {
    if account.Some? {
      LabelledItem("ACC:", "ACC", FormatAccount(account.value));
    }
  }

  lemma AlternateAccountsItem(accounts: Option<seq<string>>)
    ensures AlternateAccountsSegment(accounts)
         == FormatItem(if accounts.Some? then Some(Join(FormatAccounts(accounts.value), ',')) else None, "ALT-ACC")
  {
    if accounts.Some? {
      LabelledItem("ALT-ACC:", "ALT-ACC", Join(FormatAccounts(accounts.value), ','));
    }
  }

  lemma AmountItem(amount: Option<int>)
    ensures AmountSegment(amount) == FormatItem(if amount.Some? then Some(AmountText(amount.value)) else None, "AM")
  {
    if amount.Some? {
      LabelledItem("AM:", "AM", AmountText(amount.value));
    }
  }

  lemma DueDateItem(dueDate: Option<DueDate>)
    ensures DueDateSegment(dueDate) == FormatItem(if dueDate.Some? then Some(DueDateValue(dueDate.value)) else None, "DT")
  {
    if dueDate.Some? {
      var v := DueDateValue(dueDate.value);
      if !dueDate.value.Verbatim? {
        var iso := IsoDate(dueDate.value.year, dueDate.value.month, dueDate.value.day);
        assert v == RemoveChar(iso, '-');
        assert DueDateSegment(dueDate) == RemoveChar("DT:" + iso + "*", '-');
        DashesInsideSegment(iso);
      }
      LabelledItem("DT:", "DT", v);
    }
  }

  /** The replace on the whole DT segment only touches the date text. */
  lemma DashesInsideSegment(x: string)
    ensures RemoveChar("DT:" + x + "*", '-') == "DT:" + RemoveChar(x, '-') + "*"
  {
    RemoveCharInside("DT:", x, "*", '-');
  }


  /** A given account is always the first field, as ACC with its formatted value. */
  lemma AccountFirst(r: PaymentRecord)
    requires r.account.Some?
    ensures |Fields(r)| >= 1 && Fields(r)[0] == Field("ACC", FormatAccount(r.account.value))
  {
    var vals := FieldValues(r);
    assert vals[0] == Some(FormatAccount(r.account.value));
    assert Fields(r) == [Field("ACC", vals[0].value)] + PresentFields(FieldNames[1..], vals[1..]);
  }

  // ------------------------------------------------------------ reading a descriptor back

  /** Splits a NAME:value text at its first ':'. */
  function ParseField(text: string): Field
  {
    if text == [] then Field("", "")
    else if text[0] == ':' then Field("", text[1..])
    else
      var f := ParseField(text[1..]);
      Field([text[0]] + f.name, f.value)
  }

  function ParseFields(texts: seq<string>): seq<Field>
  {
    if texts == [] then [] else [ParseField(texts[0])] + ParseFields(texts[1..])
  }

  /** Reads the fields back from a descriptor. */
  function ParseDescriptor(descriptor: string): Option<seq<Field>>
  {
    var parts := Split(descriptor, '*');
    if |parts| >= 2 && parts[0] == "SPD" && parts[1] == "1.0" then Some(ParseFields(parts[2..])) else None
  }

  lemma {:induction false} ParseFieldText(name: string, value: string)
    requires ':' !in name
    ensures ParseField(name + ":" + value) == Field(name, value)
    decreases |name|
  {
    var t := name + ":" + value;
    if name == [] {
      assert t[0] == ':' && t[1..] == value;
    } else {
      assert t[0] == name[0] && t[1..] == name[1..] + ":" + value;
      ParseFieldText(name[1..], value);
      assert [name[0]] + name[1..] == name;
    }
  }

  lemma {:induction false} ParseFieldTexts(fs: seq<Field>)
    requires forall k | 0 <= k < |fs| :: ':' !in fs[k].name
    ensures ParseFields(Texts(fs)) == fs
    decreases |fs|
  {
    if fs != [] {
      ParseFieldText(fs[0].name, fs[0].value);
      ParseFieldTexts(fs[1..]);
      assert Texts(fs)[1..] == Texts(fs[1..]);
    }
  }

  lemma {:induction false} TerminatedJoin(ts: seq<string>)
    requires |ts| >= 1
    ensures Terminated(ts) == Join(ts, '*') + "*"
    decreases |ts|
  {
    if |ts| > 1 {
      TerminatedJoin(ts[1..]);
    } else {
      assert ts[1..] == [];
    }
  }

  lemma {:induction false} JoinLastChar(ts: seq<string>)
    requires |ts| >= 1 && |ts[|ts| - 1]| >= 1
    ensures var j := Join(ts, '*'); |j| >= 1 && j[|j| - 1] == ts[|ts| - 1][|ts[|ts| - 1]| - 1]
    decreases |ts|
  {
    if |ts| > 1 {
      JoinLastChar(ts[1..]);
    }
  }

  lemma FieldNamesPlain()
    ensures forall n | n in FieldNames :: n != "" && ':' !in n && '*' !in n
  {
  }

  /** Reading the descriptor back yields exactly the present fields, in order,
      when no value contains '*'. */
  lemma DescriptorRoundTrip(r: PaymentRecord)
    requires forall f | f in Fields(r) :: '*' !in f.value
    ensures ParseDescriptor(GetText(r)) == Some(Fields(r))
  {
    var fs := Fields(r);
    forall f | f in fs ensures '*' !in f.name && ':' !in f.name {
      FieldNamesPlain();
    }
    FieldsRoundTrip(fs);
  }

  /** Any list of fields whose names contain neither ':' nor '*' and whose
      values contain no '*' is read back from its descriptor. */
  lemma FieldsRoundTrip(fs: seq<Field>)
    requires forall f | f in fs :: '*' !in f.name && ':' !in f.name && '*' !in f.value
    ensures ParseDescriptor(RStripStars("SPD*1.0*" + Terminated(Texts(fs)))) == Some(fs)
  {
    var texts := Texts(fs);
    var items := ["SPD", "1.0"] + texts;
    ItemsPlain(fs);
    HeaderTerminated(texts);
    DescriptorIsJoin(items);
    SplitJoin(items, '*');
    assert items[2..] == texts;
    forall k | 0 <= k < |fs| ensures ':' !in fs[k].name {
      assert fs[k] in fs;
    }
    ParseFieldTexts(fs);
  }

  /** The header items and the field texts contain no '*', and the last item is not empty. */
  lemma ItemsPlain(fs: seq<Field>)
    requires forall f | f in fs :: '*' !in f.name && '*' !in f.value
    ensures var items := ["SPD", "1.0"] + Texts(fs);
            (forall k | 0 <= k < |items| :: '*' !in items[k]) && items[|items| - 1] != ""
  {
    var texts := Texts(fs);
    forall k | 0 <= k < |texts| ensures '*' !in texts[k] && texts[k] != "" {
      assert fs[k] in fs;
      FieldTextPlain(fs[k]);
    }
    HeaderItemsPlain(texts);
  }

  lemma HeaderItemsPlain(texts: seq<string>)
    requires forall k | 0 <= k < |texts| :: '*' !in texts[k] && texts[k] != ""
    ensures var items := ["SPD", "1.0"] + texts;
            (forall k | 0 <= k < |items| :: '*' !in items[k]) && items[|items| - 1] != ""
  {
    var items := ["SPD", "1.0"] + texts;
    forall k | 0 <= k < |items| ensures '*' !in items[k] {
      if k >= 2 {
        assert items[k] == texts[k - 2];
      }
    }
  }

  lemma FieldTextPlain(f: Field)
    requires '*' !in f.name && '*' !in f.value
    ensures '*' !in FieldText(f)
  {
  }

  lemma HeaderTerminated(texts: seq<string>)
    ensures "SPD*1.0*" + Terminated(texts) == Terminated(["SPD", "1.0"] + texts)
  {
    var items := ["SPD", "1.0"] + texts;
    assert items[1..] == ["1.0"] + texts;
    assert items[1..][1..] == texts;
  }

  /** Stripping the '*' after the last item leaves the items joined by '*'. */
  lemma DescriptorIsJoin(items: seq<string>)
    requires |items| >= 1 && items[|items| - 1] != ""
    requires forall k | 0 <= k < |items| :: '*' !in items[k]
    ensures RStripStars(Terminated(items)) == Join(items, '*')
  {
    TerminatedJoin(items);
    JoinLastChar(items);
    var last := items[|items| - 1];
    assert last[|last| - 1] in last;
    RStripOneStar(Join(items, '*'));
  }
}
