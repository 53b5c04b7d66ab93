/**
 * The currency knowledge base: a static table of approximate USD values,
 * the "stronger currency" comparison, the currency-pair parser with its
 * three regular expressions, and the reconciliation that fills in the
 * missing side of a buy/sell order from the rate.
 */
module CurrencyKnowledge {
  import opened Js

  datatype CurrencyInfo = CurrencyInfo(name: string, valueUSD: real, symbol: string)

  /** The entries of the built-in currency table, by upper-case code. */
  function KnownCurrency(code: string): Option<CurrencyInfo>
  {
    if code == "USD" then Some(CurrencyInfo("US Dollar", 1.0, "$"))
    else if code == "USDT" then Some(CurrencyInfo("Tether", 1.0, "USDT"))
    else if code == "USDC" then Some(CurrencyInfo("USD Coin", 1.0, "USDC"))
    else if code == "HKD" then Some(CurrencyInfo("Hong Kong Dollar", 0.128, "HK$"))
    else if code == "CNY" then Some(CurrencyInfo("Chinese Yuan", 0.14, "¥"))
    else if code == "EUR" then Some(CurrencyInfo("Euro", 1.08, "€"))
    else if code == "GBP" then Some(CurrencyInfo("British Pound", 1.27, "£"))
    else if code == "JPY" then Some(CurrencyInfo("Japanese Yen", 0.0067, "¥"))
    else if code == "BTC" then Some(CurrencyInfo("Bitcoin", 100000.0, "₿"))
    else if code == "ETH" then Some(CurrencyInfo("Ethereum", 3500.0, "Ξ"))
    else None
  }

  /** Table entry for the upper-cased code; an unknown code is worth one dollar and names itself. */
  function GetCurrencyInfo(code: string): (info: CurrencyInfo)
    ensures info.valueUSD > 0.0
  {
    var upper := ToUpper(code);
    match KnownCurrency(upper)
    case Some(entry) => entry
    case None => CurrencyInfo(upper, 1.0, upper)
  }

  /** Whether `c1` is worth strictly more than `c2`; two codes outside the table never are. */
  predicate IsStronger(c1: string, c2: string)
    ensures IsStronger(c1, c2) ==> KnownCurrency(ToUpper(c1)).Some? || KnownCurrency(ToUpper(c2)).Some?
  {
    GetCurrencyInfo(c1).valueUSD > GetCurrencyInfo(c2).valueUSD
  }

  /** The lookup does not depend on the case of the code. */
  lemma GetCurrencyInfoIgnoresCase(code: string)
    ensures GetCurrencyInfo(code) == GetCurrencyInfo(ToUpper(code))
    ensures GetCurrencyInfo(code) == GetCurrencyInfo(ToLower(code))
  {
    ToUpperForgetsCase(code);
  }

  /** An unknown code gets value 1.0 and its upper-cased self as name and symbol. */
  lemma UnknownCurrencyInfo(code: string)
    requires KnownCurrency(ToUpper(code)).None?
    ensures GetCurrencyInfo(code) == CurrencyInfo(ToUpper(code), 1.0, ToUpper(code))
  {
  }

  /** "Stronger" is a strict order: irreflexive, asymmetric and transitive. */
  lemma IsStrongerIsStrictOrder(a: string, b: string, c: string)
    ensures !IsStronger(a, a)
    ensures IsStronger(a, b) ==> !IsStronger(b, a)
    ensures IsStronger(a, b) && IsStronger(b, c) ==> IsStronger(a, c)
  {
  }

  /** Two codes missing from the table are never stronger than each other. */
  lemma UnknownCodesAreEqualStrength(a: string, b: string)
    requires KnownCurrency(ToUpper(a)).None? && KnownCurrency(ToUpper(b)).None?
    ensures !IsStronger(a, b) && !IsStronger(b, a)
  {
  }

  // ---------------------------------------------------------------------
  // parseCurrencyPair: three unanchored regular expressions, tried in order
  // ---------------------------------------------------------------------

  datatype Pair = Pair(fromCurrency: string, toCurrency: string)

  /** The text a `[A-Z]{3,4}` group can capture. */
  predicate IsCode(c: string)
  {
    3 <= |c| <= 4 && forall i :: 0 <= i < |c| ==> IsUpperLetter(c[i])
  }

  predicate LettersAt(s: string, i: nat, n: nat)
  {
    i + n <= |s| && forall k :: i <= k < i + n ==> IsUpperLetter(s[k])
  }

  /** A greedy `([A-Z]{3,4})` at `i` with nothing required after it. */
  function CodeAt(s: string, i: nat): (r: Option<string>)
    ensures r.Some? ==> IsCode(r.value)
  {
    if LettersAt(s, i, 4) then Some(s[i..i + 4])
    else if LettersAt(s, i, 3) then Some(s[i..i + 3])
    else None
  }

  /** The end of the run of `\s` characters that starts at `i`. */
  function SpacesEnd(s: string, i: nat): (e: nat)
    requires i <= |s|
    ensures i <= e <= |s|
    ensures forall k :: i <= k < e ==> IsJsSpace(s[k])
    ensures e == |s| || !IsJsSpace(s[e])
    decreases |s| - i
  {
    if i < |s| && IsJsSpace(s[i]) then SpacesEnd(s, i + 1) else i
  }

  /** The first line terminator at or after `p`, or the end of `s`: how far `.*` can reach. */
  function LineEnd(s: string, p: nat): (e: nat)
    requires p <= |s|
    ensures p <= e <= |s|
    ensures forall k :: p <= k < e ==> !IsLineTerminator(s[k])
    decreases |s| - p
  {
    if p < |s| && !IsLineTerminator(s[p]) then LineEnd(s, p + 1) else p
  }

  function FirstOf(a: Option<Pair>, b: Option<Pair>): Option<Pair>
  {
    if a.Some? then a else b
  }

  /** `([A-Z]{3,4})[\/\-]([A-Z]{3,4})` at `i`, with the first group `n` letters long. */
  function SlashWith(s: string, i: nat, n: nat): Option<Pair>
  {
    if LettersAt(s, i, n) && i + n < |s| && (s[i + n] == '/' || s[i + n] == '-') then
      match CodeAt(s, i + n + 1)
      case Some(to) => Some(Pair(s[i..i + n], to))
      case None => None
    else None
  }

  /** `SELL(?:ING)?\s+([A-Z]{3,4})` at `q`. */
  function SellAt(s: string, q: nat): (r: Option<string>)
    ensures r.Some? ==> IsCode(r.value)
  {
    if q + 4 <= |s| && s[q..q + 4] == "SELL" then
      var j := if q + 7 <= |s| && s[q + 4..q + 7] == "ING" then q + 7 else q + 4;
      var k := SpacesEnd(s, j);
      if k == j then None else CodeAt(s, k)
    else None
  }

  /** `.*SELL(?:ING)?\s+([A-Z]{3,4})` from `p`: greedy `.*`, so the last `SELL` within reach wins. */
  function LastSell(s: string, p: nat, q: nat): (r: Option<string>)
    requires p <= q
    ensures r.Some? ==> IsCode(r.value)
    decreases q - p
  {
    match SellAt(s, q)
    case Some(to) => Some(to)
    case None => if q == p then None else LastSell(s, p, q - 1)
  }

  /** The buy/sell pattern after `BUY(?:ING)?\s+`, with the first group `n` letters long. */
  function BuyWith(s: string, k: nat, n: nat): Option<Pair>
  {
    if LettersAt(s, k, n) then
      match LastSell(s, k + n, LineEnd(s, k + n))
      case Some(to) => Some(Pair(s[k..k + n], to))
      case None => None
    else None
  }

  /** `\b` between the letter just captured (ending before `e`) and what follows. */
  predicate BoundaryAfter(s: string, e: nat)
  {
    e >= |s| || !IsWordChar(s[e])
  }

  /** `([A-Z]{3,4})\b` at `k`, with the group `n` letters long. */
  function WordAt(s: string, k: nat, n: nat): Option<string>
  {
    if LettersAt(s, k, n) && BoundaryAfter(s, k + n) then Some(s[k..k + n]) else None
  }

  /** `([A-Z]{3,4})\s+([A-Z]{3,4})\b` at `i`, with the first group `n` letters long. */
  function TwoWith(s: string, i: nat, n: nat): Option<Pair>
  {
    if LettersAt(s, i, n) then
      var k := SpacesEnd(s, i + n);
      if k == i + n then None
      else
        match (if WordAt(s, k, 4).Some? then WordAt(s, k, 4) else WordAt(s, k, 3))
        case Some(to) => Some(Pair(s[i..i + n], to))
        case None => None
    else None
  }

  datatype Pattern = SlashOrDash | BuySell | TwoCodes

  /** What each pattern captures when the regular-expression engine tries it at position `i`. */
  function MatchAt(p: Pattern, s: string, i: nat): (r: Option<Pair>)
    ensures r.Some? ==> IsCode(r.value.fromCurrency) && IsCode(r.value.toCurrency)
  {
    match p
    case SlashOrDash => SlashAt(s, i)
    case BuySell => BuySellAt(s, i)
    case TwoCodes => TwoCodesAt(s, i)
  }

  /** `([A-Z]{3,4})[\/\-]([A-Z]{3,4})` at position `i`: the four-letter first group is tried first. */
  function SlashAt(s: string, i: nat): (r: Option<Pair>)
    ensures r.Some? ==> IsCode(r.value.fromCurrency) && IsCode(r.value.toCurrency)
  {
    FirstOf(SlashWith(s, i, 4), SlashWith(s, i, 3))
  }

  /** `\b([A-Z]{3,4})\s+([A-Z]{3,4})\b` at position `i`. */
  function TwoCodesAt(s: string, i: nat): (r: Option<Pair>)
    ensures r.Some? ==> IsCode(r.value.fromCurrency) && IsCode(r.value.toCurrency)
  {
    if i < |s| && (i == 0 || !IsWordChar(s[i - 1])) then FirstOf(TwoWith(s, i, 4), TwoWith(s, i, 3))
    else None
  }

  /** `BUY(?:ING)?\s+` at position `i`, then the two codes. */
  function BuySellAt(s: string, i: nat): (r: Option<Pair>)
    ensures r.Some? ==> IsCode(r.value.fromCurrency) && IsCode(r.value.toCurrency)
  {
    if i + 3 <= |s| && s[i..i + 3] == "BUY" then
      var j := if i + 6 <= |s| && s[i + 3..i + 6] == "ING" then i + 6 else i + 3;
      var k := SpacesEnd(s, j);
      if k == j then None else FirstOf(BuyWith(s, k, 4), BuyWith(s, k, 3))
    else None
  }

  /** Pattern `p` tried at each position of `s`. */
  function Attempt(p: Pattern, s: string): nat -> Option<Pair>
  {
    (i: nat) => MatchAt(p, s, i)
  }

  /** The regular-expression search: positions `from` to `n` are tried in turn and the first match wins. */
  function Search(at: nat -> Option<Pair>, n: nat, from: nat): Option<Pair>
    requires from <= n
    decreases n - from
  {
    match at(from)
    case Some(pair) => Some(pair)
    case None => if from == n then None else Search(at, n, from + 1)
  }

  /** `k` is the first position at or after `from` where `at` matches. */
  ghost predicate FirstFrom(at: nat -> Option<Pair>, from: nat, k: nat)
  {
    from <= k && at(k).Some? && forall j :: from <= j < k ==> at(j).None?
  }

  /** The search finds nothing exactly when no position from `from` to `n` matches. */
  lemma {:induction false} SearchNoneIffNoMatch(at: nat -> Option<Pair>, n: nat, from: nat)
    requires from <= n
    ensures Search(at, n, from).None? <==> forall j :: from <= j <= n ==> at(j).None?
    decreases n - from
  {
    if at(from).None? && from < n {
      SearchNoneIffNoMatch(at, n, from + 1);
    }
  }

  /** What the search returns is the match at the first matching position. */
  lemma {:induction false} SearchFindsFirst(at: nat -> Option<Pair>, n: nat, from: nat)
    requires from <= n
    ensures Search(at, n, from).Some? ==>
      exists k: nat :: k <= n && FirstFrom(at, from, k) && Search(at, n, from) == at(k)
    decreases n - from
  {
    if at(from).Some? {
      assert FirstFrom(at, from, from);
    } else if from < n {
      SearchFindsFirst(at, n, from + 1);
      if Search(at, n, from + 1).Some? {
        var k: nat :| k <= n && FirstFrom(at, from + 1, k) && Search(at, n, from + 1) == at(k);
        assert FirstFrom(at, from, k);
      }
    }
  }

  /** `s.match(pattern)`: the leftmost match in `s`, or `None`. */
  function FirstMatch(p: Pattern, s: string): (r: Option<Pair>)
    ensures r.Some? ==> IsCode(r.value.fromCurrency) && IsCode(r.value.toCurrency)
  {
    SearchFindsFirst(Attempt(p, s), |s|, 0);
    Search(Attempt(p, s), |s|, 0)
  }

  /** `i` is the leftmost position where pattern `p` matches `s`. */
  ghost predicate LeftmostAt(p: Pattern, s: string, i: nat)
  {
    i <= |s| && MatchAt(p, s, i).Some? && forall j :: 0 <= j < i ==> MatchAt(p, s, j).None?
  }

  ghost predicate MatchesNowhere(p: Pattern, s: string)
  {
    forall i :: 0 <= i <= |s| ==> MatchAt(p, s, i).None?
  }

  /** The search finds nothing exactly when the pattern matches at no position. */
  lemma FirstMatchNoneIffNowhere(p: Pattern, s: string)
    ensures FirstMatch(p, s).None? <==> MatchesNowhere(p, s)
  {
    SearchNoneIffNoMatch(Attempt(p, s), |s|, 0);
    forall i: nat | i <= |s|
      ensures Attempt(p, s)(i) == MatchAt(p, s, i)
    {
    }
  }

  /** A match the search returns is the one at the leftmost matching position. */
  lemma FirstMatchIsLeftmost(p: Pattern, s: string)
    ensures FirstMatch(p, s).Some? ==> exists i :: LeftmostAt(p, s, i) && FirstMatch(p, s) == MatchAt(p, s, i)
  {
    SearchFindsFirst(Attempt(p, s), |s|, 0);
    if FirstMatch(p, s).Some? {
      var k: nat :| k <= |s| && FirstFrom(Attempt(p, s), 0, k) && FirstMatch(p, s) == Attempt(p, s)(k);
      forall j: nat | j < k
        ensures MatchAt(p, s, j).None?
      {
        assert Attempt(p, s)(j).None?;
      }
      assert LeftmostAt(p, s, k);
    }
  }

  /** `parseCurrencyPair(input)`; `None` is the source's `null`. */
  function ParseCurrencyPair(input: string): (r: Option<Pair>)
    ensures input == "" ==> r.None?
    ensures r.Some? ==> IsCode(r.value.fromCurrency) && IsCode(r.value.toCurrency)
  {
    if input == "" then None else PatternCascade(Trim(ToUpper(input)))
  }

  const PairTypeError := "input.toUpperCase is not a function"

  /**
   * `parseCurrencyPair(input)` for any value: a falsy input gives null, a
   * string is parsed, and any other value makes `toUpperCase` throw.
   */
  function ParseCurrencyPairOf(input: Value): (r: Outcome<Option<Pair>>)
    ensures r.Threw? <==> Truthy(input) && !input.Str?
    ensures input.Str? ==> r == Returned(ParseCurrencyPair(input.s))
    ensures !Truthy(input) ==> r == Returned(None)
  {
    if !Truthy(input) then Returned(None)
    else if input.Str? then Returned(ParseCurrencyPair(input.s))
    else Threw(PairTypeError)
  }

  /** The three patterns in order on the prepared text; the first that matches decides. */
  function PatternCascade(u: string): (r: Option<Pair>)
    ensures r.Some? ==> IsCode(r.value.fromCurrency) && IsCode(r.value.toCurrency)
  {
    match FirstMatch(SlashOrDash, u)
    case Some(pair) => Some(pair)
    case None =>
      match FirstMatch(BuySell, u)
      case Some(pair) => Some(pair)
      case None => FirstMatch(TwoCodes, u)
  }

  /**
   * The parser's meaning: on the upper-cased, trimmed input, the first of
   * the three patterns that matches anywhere decides, at its leftmost
   * match; when none matches the result is `None`.
   */
  lemma ParseCurrencyPairPicksFirstPattern(input: string)
    requires input != ""
    ensures var u := Trim(ToUpper(input));
      var r := ParseCurrencyPair(input);
      || (exists i :: LeftmostAt(SlashOrDash, u, i) && r == MatchAt(SlashOrDash, u, i))
      || (MatchesNowhere(SlashOrDash, u) &&
          exists i :: LeftmostAt(BuySell, u, i) && r == MatchAt(BuySell, u, i))
      || (MatchesNowhere(SlashOrDash, u) && MatchesNowhere(BuySell, u) &&
          exists i :: LeftmostAt(TwoCodes, u, i) && r == MatchAt(TwoCodes, u, i))
      || (MatchesNowhere(SlashOrDash, u) && MatchesNowhere(BuySell, u) &&
          MatchesNowhere(TwoCodes, u) && r.None?)
  {
    var u := Trim(ToUpper(input));
    FirstMatchNoneIffNowhere(SlashOrDash, u);
    FirstMatchNoneIffNowhere(BuySell, u);
    FirstMatchNoneIffNowhere(TwoCodes, u);
    FirstMatchIsLeftmost(SlashOrDash, u);
    FirstMatchIsLeftmost(BuySell, u);
    FirstMatchIsLeftmost(TwoCodes, u);
  }

  /** The parser does not depend on the case of its input. */
  lemma ParseCurrencyPairIgnoresCase(input: string)
    ensures ParseCurrencyPair(input) == ParseCurrencyPair(ToUpper(input))
    ensures ParseCurrencyPair(input) == ParseCurrencyPair(ToLower(input))
  {
    ToUpperForgetsCase(input);
    assert Trim(ToUpper(ToUpper(input))) == Trim(ToUpper(input));
    assert Trim(ToUpper(ToLower(input))) == Trim(ToUpper(input));
    assert input == "" <==> ToUpper(input) == "";
    assert input == "" <==> ToLower(input) == "";
  }

  /** `formatCurrencyPair(from, to)`: `${from}/${to}`; two codes written this way read back as the same pair. */
  function FormatCurrencyPair(fromCurrency: Value, toCurrency: Value): (text: string)
    ensures fromCurrency.Str? && toCurrency.Str? && IsCode(fromCurrency.s) && IsCode(toCurrency.s) ==>
      ParseCurrencyPair(text) == Some(Pair(fromCurrency.s, toCurrency.s))
  {
    if fromCurrency.Str? && toCurrency.Str? && IsCode(fromCurrency.s) && IsCode(toCurrency.s) then
      ParseSlashedCodes(fromCurrency.s, toCurrency.s);
      fromCurrency.s + "/" + toCurrency.s
    else
      ToText(fromCurrency) + "/" + ToText(toCurrency)
  }

  /** The slash pattern at the start of `a/b` captures `a` and `b`. */
  lemma SlashMatchesFormatted(a: string, b: string)
    requires IsCode(a) && IsCode(b)
    ensures MatchAt(SlashOrDash, a + "/" + b, 0) == Some(Pair(a, b))
  {
    var s := a + "/" + b;
    var n := |a|;
    assert s[n] == '/';
    assert s[..n] == a;
    assert s[n + 1..n + 1 + |b|] == b;
    assert LettersAt(s, 0, n);
    assert n == 3 ==> !LettersAt(s, 0, 4);
    if |b| == 4 {
      assert LettersAt(s, n + 1, 4);
    } else {
      assert !LettersAt(s, n + 1, 4);
      assert LettersAt(s, n + 1, 3);
    }
    assert CodeAt(s, n + 1) == Some(b);
    assert SlashWith(s, 0, n) == Some(Pair(a, b));
  }

  /** `a/b` is its own upper-cased, trimmed form. */
  lemma FormattedIsPrepared(a: string, b: string)
    requires IsCode(a) && IsCode(b)
    ensures Trim(ToUpper(a + "/" + b)) == a + "/" + b
  {
    var s := a + "/" + b;
    forall i | 0 <= i < |s|
      ensures UpperChar(s[i]) == s[i]
    {
      if i < |a| {
        assert s[i] == a[i];
      } else if i > |a| {
        assert s[i] == b[i - |a| - 1];
      }
    }
    assert ToUpper(s) == s;
    assert s[0] == a[0] && !IsJsSpace(s[0]);
    assert TrimStart(s) == s;
    assert s[|s| - 1] == b[|b| - 1] && !IsJsSpace(s[|s| - 1]);
    assert TrimEnd(s) == s;
  }

  /** The text `a/b` of two codes parses back to the pair `(a, b)`. */
  lemma ParseSlashedCodes(a: string, b: string)
    requires IsCode(a) && IsCode(b)
    ensures ParseCurrencyPair(a + "/" + b) == Some(Pair(a, b))
  {
    FormattedIsPrepared(a, b);
    SlashMatchesFormatted(a, b);
    ParsePreparedSlash(a + "/" + b, Pair(a, b));
  }

  /** Text that is already upper-case and trimmed, and starts with a slash pair, parses to that pair. */
  lemma ParsePreparedSlash(s: string, pair: Pair)
    requires Trim(ToUpper(s)) == s && MatchAt(SlashOrDash, s, 0) == Some(pair)
    ensures ParseCurrencyPair(s) == Some(pair)
  {
    assert s != "";
    assert FirstMatch(SlashOrDash, s) == Some(pair);
    assert PatternCascade(s) == Some(pair);
  }

  /** `isValidCurrency(code)`: a string that upper-cases to exactly three or four letters. */
  predicate IsValidCurrency(code: Value)
    ensures IsValidCurrency(code) ==> code.Str? && 3 <= |code.s| <= 4
  {
    Truthy(code) && code.Str? && IsCode(ToUpper(code.s))
  }

  /** Valid codes are exactly the strings of three or four ASCII letters, in either case. */
  lemma IsValidCurrencyMeaning(code: Value)
    ensures IsValidCurrency(code) <==>
      code.Str? && 3 <= |code.s| <= 4 &&
      forall i :: 0 <= i < |code.s| ==> IsUpperLetter(code.s[i]) || IsLowerLetter(code.s[i])
  {
    if code.Str? {
      var s := code.s;
      assert forall i :: 0 <= i < |s| ==>
        (IsUpperLetter(UpperChar(s[i])) <==> IsUpperLetter(s[i]) || IsLowerLetter(s[i]));
    }
  }

  /** Every code the parser captures passes `isValidCurrency`. */
  lemma CodeIsValidCurrency(c: string)
    requires IsCode(c)
    ensures IsValidCurrency(Str(c))
  {
    IsValidCurrencyMeaning(Str(c));
  }

  // ---------------------------------------------------------------------
  // calculateAmounts
  // ---------------------------------------------------------------------

  /** `Math.round(x * 100) / 100`: to two decimals, halves rounded up. */
  function Round2(x: real): (r: real)
    ensures -0.005 < r - x <= 0.005
  {
    (x * 100.0 + 0.5).Floor as real / 100.0
  }

  const TypeErrorOnCode := "currencyCode.toUpperCase is not a function"

  /**
   * `calculateAmounts(orderData)`: with both codes and a positive rate,
   * fills whichever of amountBuy/amountSell is missing, rounded to two
   * decimals; the rate is "1 unit of the stronger currency = rate units of
   * the weaker one". A code that is not a string makes the comparison throw.
   */
  function CalculateAmounts(d: Data): (r: Outcome<Data>)
    ensures r.Threw? ==>
      (r.message == TypeErrorOnCode && (!Get(d, "fromCurrency").Str? || !Get(d, "toCurrency").Str?))
    ensures r.Returned? ==> forall k :: k != "amountBuy" && k != "amountSell" ==> Get(r.value, k) == Get(d, k)
    ensures r.Returned? && Truthy(Get(d, "amountBuy")) ==> Get(r.value, "amountBuy") == Get(d, "amountBuy")
    ensures r.Returned? && Truthy(Get(d, "amountSell")) ==> Get(r.value, "amountSell") == Get(d, "amountSell")
  {
    var from, to, rate := Get(d, "fromCurrency"), Get(d, "toCurrency"), Get(d, "rate");
    if !Truthy(from) || !Truthy(to) || !Truthy(rate) then Returned(d)
    else match ParseFloatValue(rate)
      case None => Returned(d)
      case Some(rateNum) =>
        if rateNum <= 0.0 then Returned(d)
        else if !from.Str? || !to.Str? then Threw(TypeErrorOnCode)
        else Returned(FillMissing(d, IsStronger(from.s, to.s), rateNum))
  }

  /**
   * The second half of `calculateAmounts`: with only amountBuy (or only
   * amountSell) present and readable as a number, the other one is set to
   * `FilledAmount`; otherwise the draft is unchanged.
   */
  function FillMissing(d: Data, fromStronger: bool, rate: real): (r: Data)
    requires rate > 0.0
    ensures forall k :: k != "amountBuy" && k != "amountSell" ==> Get(r, k) == Get(d, k)
    ensures Truthy(Get(d, "amountBuy")) ==> Get(r, "amountBuy") == Get(d, "amountBuy")
    ensures Truthy(Get(d, "amountSell")) ==> Get(r, "amountSell") == Get(d, "amountSell")
  {
    var buy, sell := Get(d, "amountBuy"), Get(d, "amountSell");
    if Truthy(buy) && !Truthy(sell) then
      match ParseFloatValue(buy)
      case None => d
      case Some(b) => d["amountSell" := Num(FilledAmount(fromStronger, true, b, rate))]
    else if Truthy(sell) && !Truthy(buy) then
      match ParseFloatValue(sell)
      case None => d
      case Some(s) => d["amountBuy" := Num(FilledAmount(fromStronger, false, s, rate))]
    else d
  }

  /** The positive rate `calculateAmounts` works with, if the draft has codes and one. */
  function UsableRate(d: Data): Option<real>
  {
    if !Truthy(Get(d, "fromCurrency")) || !Truthy(Get(d, "toCurrency")) || !Truthy(Get(d, "rate")) then None
    else match ParseFloatValue(Get(d, "rate"))
      case None => None
      case Some(r) => if r <= 0.0 then None else Some(r)
  }

  /** Without both codes and a positive rate, or with both or neither amount, the draft comes back as it was. */
  lemma CalculateAmountsLeavesIncomplete(d: Data)
    requires UsableRate(d).None? ||
      (Get(d, "fromCurrency").Str? && Get(d, "toCurrency").Str? &&
       Truthy(Get(d, "amountBuy")) == Truthy(Get(d, "amountSell")))
    ensures CalculateAmounts(d) == Returned(d)
  {
  }

  /** The amount in the stronger currency times the rate, minus the amount in the weaker one. */
  function RateGap(fromStronger: bool, buy: real, sell: real, rate: real): real
  {
    if fromStronger then buy * rate - sell else sell * rate - buy
  }

  /** A rounding error of at most half a cent, left as it is or scaled by the rate, stays within the table's bound. */
  lemma RoundingGapBound(gap: real, e: real, rate: real)
    requires rate > 0.0 && -0.005 <= e <= 0.005
    requires gap == -e || gap == e * rate
    ensures -0.005 * (rate + 1.0) <= gap <= 0.005 * (rate + 1.0)
  {
    if gap == e * rate {
      assert e * rate <= 0.005 * rate;
      assert -0.005 * rate <= e * rate;
    }
  }

  lemma RateTimesQuotient(b: real, rate: real)
    requires rate > 0.0
    ensures (b / rate) * rate == b
  {
  }

  /**
   * The amount `calculateAmounts` writes into the missing field: the known
   * amount times the rate when it is in the stronger currency, divided by
   * the rate when it is in the weaker one, rounded to two decimals.
   */
  function FilledAmount(fromStronger: bool, buyKnown: bool, known: real, rate: real): (r: real)
    requires rate > 0.0
    ensures buyKnown == fromStronger ==> -0.005 < r - known * rate <= 0.005
    ensures buyKnown != fromStronger ==> -0.005 < r - known / rate <= 0.005
  {
    Round2(if buyKnown == fromStronger then known * rate else known / rate)
  }

  /** With both codes as strings and a positive rate, `calculateAmounts` returns `FillMissing` of the draft. */
  lemma CalculateAmountsUsesRate(d: Data)
    requires UsableRate(d).Some?
    requires Get(d, "fromCurrency").Str? && Get(d, "toCurrency").Str?
    ensures CalculateAmounts(d) ==
      Returned(FillMissing(d, IsStronger(Get(d, "fromCurrency").s, Get(d, "toCurrency").s), UsableRate(d).value))
  {
  }

  /**
   * The four cases of `calculateAmounts` once both codes and a positive rate
   * are there and exactly one amount is known and readable as a number:
   * a known amountBuy in the stronger currency is multiplied by the rate,
   * in the weaker one divided; a known amountSell is divided when the
   * bought currency is the stronger one and multiplied otherwise; the
   * result is rounded to two decimals and fills only the missing field.
   * A known amount that does not read as a number leaves the draft as it is.
   */
  lemma CalculateAmountsFourCases(d: Data)
    requires UsableRate(d).Some?
    requires Get(d, "fromCurrency").Str? && Get(d, "toCurrency").Str?
    ensures var rate := UsableRate(d).value;
      var fromStronger := IsStronger(Get(d, "fromCurrency").s, Get(d, "toCurrency").s);
      var buy, sell := Get(d, "amountBuy"), Get(d, "amountSell");
      && (Truthy(buy) && !Truthy(sell) && ParseFloatValue(buy).Some? && fromStronger ==>
            CalculateAmounts(d) == Returned(d["amountSell" := Num(Round2(ParseFloatValue(buy).value * rate))]))
      && (Truthy(buy) && !Truthy(sell) && ParseFloatValue(buy).Some? && !fromStronger ==>
            CalculateAmounts(d) == Returned(d["amountSell" := Num(Round2(ParseFloatValue(buy).value / rate))]))
      && (Truthy(sell) && !Truthy(buy) && ParseFloatValue(sell).Some? && fromStronger ==>
            CalculateAmounts(d) == Returned(d["amountBuy" := Num(Round2(ParseFloatValue(sell).value / rate))]))
      && (Truthy(sell) && !Truthy(buy) && ParseFloatValue(sell).Some? && !fromStronger ==>
            CalculateAmounts(d) == Returned(d["amountBuy" := Num(Round2(ParseFloatValue(sell).value * rate))]))
      && (Truthy(buy) && !Truthy(sell) && ParseFloatValue(buy).None? ==> CalculateAmounts(d) == Returned(d))
      && (Truthy(sell) && !Truthy(buy) && ParseFloatValue(sell).None? ==> CalculateAmounts(d) == Returned(d))
  {
    var rate := UsableRate(d).value;
    var fromStronger := IsStronger(Get(d, "fromCurrency").s, Get(d, "toCurrency").s);
    var buy, sell := Get(d, "amountBuy"), Get(d, "amountSell");
    CalculateAmountsUsesRate(d);
    if Truthy(buy) && !Truthy(sell) && ParseFloatValue(buy).Some? {
      var b := ParseFloatValue(buy).value;
      assert FillMissing(d, fromStronger, rate) == d["amountSell" := Num(FilledAmount(fromStronger, true, b, rate))];
    } else if Truthy(sell) && !Truthy(buy) && ParseFloatValue(sell).Some? {
      var x := ParseFloatValue(sell).value;
      assert FillMissing(d, fromStronger, rate) == d["amountBuy" := Num(FilledAmount(fromStronger, false, x, rate))];
    }
  }

  /**
   * Whatever the direction, the filled pair keeps "1 stronger = rate weaker"
   * up to the rounding: the stronger amount times the rate and the weaker
   * amount differ by at most half a cent times (rate + 1).
   */
  lemma FilledAmountKeepsRate(fromStronger: bool, buyKnown: bool, known: real, rate: real)
    requires rate > 0.0
    ensures var f := FilledAmount(fromStronger, buyKnown, known, rate);
      var buy := if buyKnown then known else f;
      var sell := if buyKnown then f else known;
      -0.005 * (rate + 1.0) <= RateGap(fromStronger, buy, sell, rate) <= 0.005 * (rate + 1.0)
  {
    var exact := if buyKnown == fromStronger then known * rate else known / rate;
    var f := FilledAmount(fromStronger, buyKnown, known, rate);
    var e := f - exact;
    assert -0.005 <= e <= 0.005;
    var buy := if buyKnown then known else f;
    var sell := if buyKnown then f else known;
    if buyKnown != fromStronger {
      RateTimesQuotient(known, rate);
      assert RateGap(fromStronger, buy, sell, rate) == f * rate - known == e * rate;
    } else {
      assert RateGap(fromStronger, buy, sell, rate) == known * rate - f == -e;
    }
    RoundingGapBound(RateGap(fromStronger, buy, sell, rate), e, rate);
  }

  /**
   * The documented HKD/USDT example at rate 7 (1 USDT = 7 HKD): buying
   * 700 HKD means selling 100 USDT, and selling 100 USDT means buying
   * 700 HKD.
   */
  lemma HkdUsdtExample()
    ensures var d := map["fromCurrency" := Str("HKD"), "toCurrency" := Str("USDT"),
                         "rate" := Num(7.0), "amountBuy" := Num(700.0)];
      CalculateAmounts(d) == Returned(d["amountSell" := Num(100.0)])
    ensures var d := map["fromCurrency" := Str("HKD"), "toCurrency" := Str("USDT"),
                         "rate" := Num(7.0), "amountSell" := Num(100.0)];
      CalculateAmounts(d) == Returned(d["amountBuy" := Num(700.0)])
  {
    assert !IsStronger("HKD", "USDT");
    var d := map["fromCurrency" := Str("HKD"), "toCurrency" := Str("USDT"),
                 "rate" := Num(7.0), "amountBuy" := Num(700.0)];
    assert UsableRate(d) == Some(7.0);
    CalculateAmountsUsesRate(d);
    assert (700.0 / 7.0 * 100.0 + 0.5).Floor == 10000;
    assert FilledAmount(false, true, 700.0, 7.0) == 100.0;
    assert FillMissing(d, false, 7.0) == d["amountSell" := Num(100.0)];
    var d' := map["fromCurrency" := Str("HKD"), "toCurrency" := Str("USDT"),
                  "rate" := Num(7.0), "amountSell" := Num(100.0)];
    assert UsableRate(d') == Some(7.0);
    CalculateAmountsUsesRate(d');
    assert (100.0 * 7.0 * 100.0 + 0.5).Floor == 70000;
    assert FilledAmount(false, false, 100.0, 7.0) == 700.0;
    assert FillMissing(d', false, 7.0) == d'["amountBuy" := Num(700.0)];
  }
}
