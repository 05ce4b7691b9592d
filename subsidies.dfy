/**
 * The logic of the government subsidies page
 * (frontend/src/components/sections/Subsidies.tsx): the search and filter
 * predicate, the benefit calculator with its cap and JavaScript `parseInt`,
 * and the rules that decide what a scheme card shows.
 */
module Subsidies {
  import opened Wrappers
  import opened PyText

  /** `SubsidyScheme`, without the fields only the page layout reads. */
  datatype Scheme = Scheme(
    name: string,
    description: string,
    subsidyPercent: int,
    maxAmount: string,
    eligibility: seq<string>,
    deadline: Option<string>,
    category: string,
    status: string)

  /** `subsidySchemes`. */
  const Catalog: seq<Scheme> := [
    Scheme("Pesticide Subsidy Scheme",
      "Financial assistance for purchasing organic and bio-pesticides to promote sustainable farming",
      50, "₹10,000", ["Small & Marginal farmers", "Certified organic farmers", "FPO members"],
      Some("2024-12-31"), "pesticide", "active"),
    Scheme("Organic Fertilizer Promotion",
      "Subsidy on vermicompost, organic fertilizers, and bio-fertilizers",
      75, "₹15,000", ["All category farmers", "Organic certification holders"],
      Some("2025-01-15"), "fertilizer", "active"),
    Scheme("Quality Seed Distribution",
      "Subsidized high-yielding variety seeds and hybrid seeds for better productivity",
      85, "₹5,000", ["BPL farmers", "Women farmers", "SC/ST farmers"],
      None, "seeds", "closing-soon"),
    Scheme("Drip Irrigation Subsidy",
      "Financial support for installing micro-irrigation systems to promote water conservation",
      55, "₹50,000", ["Farmers with >1 acre land", "Water availability certificate"],
      Some("2024-11-30"), "irrigation", "closing-soon")
  ]

  // ---------------------------------------------------------------------
  // Search and filters

  /** The filter of `filteredSchemes`: the search term in the name or the
      description, ignoring case, and the category and status selected
      ("all" selects everything). */
  predicate Matches(scheme: Scheme, searchTerm: string, category: string, status: string) {
    (Contains(Lower(scheme.name), Lower(searchTerm)) ||
     Contains(Lower(scheme.description), Lower(searchTerm))) &&
    (category == "all" || scheme.category == category) &&
    (status == "all" || scheme.status == status)
  }

  /** `filteredSchemes`: the matching schemes, in catalogue order. */
  function FilteredSchemes(schemes: seq<Scheme>, searchTerm: string, category: string, status: string): (r: seq<Scheme>)
    ensures |r| <= |schemes|
    ensures forall k :: 0 <= k < |r| ==> r[k] in schemes && Matches(r[k], searchTerm, category, status)
    ensures forall k :: 0 <= k < |schemes| && Matches(schemes[k], searchTerm, category, status) ==> schemes[k] in r
  {
    Filter((s: Scheme) => Matches(s, searchTerm, category, status), schemes)
  }

  /** The filter keeps the catalogue order and each scheme once: filtering
      around one scheme gives the schemes shown before it, then that scheme if
      it matches, then the schemes shown after it. */
  lemma FilteredSchemesInOrder(before: seq<Scheme>, x: Scheme, after: seq<Scheme>,
                               searchTerm: string, category: string, status: string)
    ensures FilteredSchemes(before + [x] + after, searchTerm, category, status) ==
      FilteredSchemes(before, searchTerm, category, status) +
      (if Matches(x, searchTerm, category, status) then [x] else []) +
      FilteredSchemes(after, searchTerm, category, status)
  {
    var p := (s: Scheme) => Matches(s, searchTerm, category, status);
    FilterAppend(p, before + [x], after);
    FilterSnoc(p, before, x);
  }

  /** With an empty search and both selections on "all", every scheme is
      listed, in order. */
  lemma EmptySearchShowsAll(schemes: seq<Scheme>)
    ensures FilteredSchemes(schemes, "", "all", "all") == schemes
  {
    forall k | 0 <= k < |schemes|
      ensures Matches(schemes[k], "", "all", "all")
    {
      EmptyContained(Lower(schemes[k].name));
    }
    FilterAll((s: Scheme) => Matches(s, "", "all", "all"), schemes);
  }

  /** Narrowing the search never adds a scheme: a scheme shown for a longer
      term containing the shorter is shown for the shorter too. */
  lemma LongerTermNarrows(scheme: Scheme, term: string, longer: string, category: string, status: string)
    requires Contains(Lower(longer), Lower(term))
    requires Matches(scheme, longer, category, status)
    ensures Matches(scheme, term, category, status)
  {
    if Contains(Lower(scheme.name), Lower(longer)) {
      ContainsTransitive(Lower(scheme.name), Lower(longer), Lower(term));
    } else {
      ContainsTransitive(Lower(scheme.description), Lower(longer), Lower(term));
    }
  }

  // ---------------------------------------------------------------------
  // JavaScript parseInt

  /** The value of a digit in bases up to 36, or -1. */
  function DigitValue(c: char): (v: int)
    ensures -1 <= v < 36
  {
    if '0' <= c <= '9' then c as int - '0' as int
    else if 'a' <= c <= 'z' then c as int - 'a' as int + 10
    else if 'A' <= c <= 'Z' then c as int - 'A' as int + 10
    else -1
  }

  predicate IsDigit(c: char, radix: nat) {
    0 <= DigitValue(c) < radix
  }

  /** The length of the run of `radix` digits at the start of `s`. */
  function DigitRun(s: string, radix: nat): (n: nat)
    ensures n <= |s|
    ensures forall i :: 0 <= i < n ==> IsDigit(s[i], radix)
    ensures n == |s| || !IsDigit(s[n], radix)
  {
    if s == [] || !IsDigit(s[0], radix) then 0 else 1 + DigitRun(s[1..], radix)
  }

  /** The value of a character read as a digit (0 when it is none). */
  function DigitOf(c: char): nat {
    if DigitValue(c) < 0 then 0 else DigitValue(c)
  }

  /** The number the digits of `s` spell in base `radix`. */
  function ValueOf(s: string, radix: nat): nat
  {
    if s == [] then 0 else ValueOf(s[..|s| - 1], radix) * radix + DigitOf(s[|s| - 1])
  }

  /** `parseInt(s)` with no radix: leading whitespace skipped, an optional
      sign, "0x" or "0X" selecting base 16, then the longest run of digits;
      `None` is `NaN` (no digit at all). */
  function ParseInt(s: string): (r: Option<int>)
    ensures r.Some? && r.value < 0 ==> var t := LStrip(s, JsWhitespace); t != [] && t[0] == '-'
    ensures s != [] && '1' <= s[0] <= '9' ==> r.Some? && r.value >= 0
  {
    var t := LStrip(s, JsWhitespace);
    var negative := t != [] && t[0] == '-';
    var u := if t != [] && (t[0] == '-' || t[0] == '+') then t[1..] else t;
    match LeadingValue(u)
    case None => None
    case Some(m) =>
      var v: int := m;
      Some(if negative then -v else v)
  }

  /** "0x" or "0X" selects base 16. */
  predicate HexPrefix(u: string) {
    |u| >= 2 && u[0] == '0' && (u[1] == 'x' || u[1] == 'X')
  }

  /** The unsigned part of `parseInt`: the base, then the value of the
      longest run of digits, or `None` when there is no digit. */
  function LeadingValue(u: string): (r: Option<nat>)
  {
    var radix := if HexPrefix(u) then 16 else 10;
    var v := if HexPrefix(u) then u[2..] else u;
    var n := DigitRun(v, radix);
    if n == 0 then None else Some(ValueOf(v[..n], radix))
  }

  /** Decimal digits of a natural number, a reference for `ParseInt`. */
  function Decimal(n: nat): (r: string)
    ensures r != [] && forall i :: 0 <= i < |r| ==> '0' <= r[i] <= '9'
  {
    var d := ['0' + ((n % 10) as char)];
    if n < 10 then d else Decimal(n / 10) + d
  }

  /** Decimal digits spell back their number. */
  lemma {:induction false} DecimalValue(n: nat)
    ensures forall i :: 0 <= i < |Decimal(n)| ==> IsDigit(Decimal(n)[i], 10)
    ensures ValueOf(Decimal(n), 10) == n
  {
    var r := Decimal(n);
    if n >= 10 {
      DecimalValue(n / 10);
      assert r[..|r| - 1] == Decimal(n / 10);
    }
  }

  /** `parseInt` reads back what `Decimal` writes, and ignores whatever
      follows the digits once a non-digit comes (an "x" after a lone "0"
      would make it hexadecimal instead). */
  lemma ParseDecimal(n: nat, rest: string)
    requires rest == [] || !IsDigit(rest[0], 10)
    requires n == 0 && rest != [] ==> rest[0] != 'x' && rest[0] != 'X'
    ensures ParseInt(Decimal(n) + rest) == Some(n)
  {
    DecimalValue(n);
    NotHex(n, rest);
    StartsWithDigit(Decimal(n) + rest);
    DigitsLead(Decimal(n), rest);
  }

  /** Decimal digits do not start a hexadecimal prefix. */
  lemma NotHex(n: nat, rest: string)
    requires rest == [] || !IsDigit(rest[0], 10)
    requires n == 0 && rest != [] ==> rest[0] != 'x' && rest[0] != 'X'
    ensures var s := Decimal(n) + rest; s != [] && '0' <= s[0] <= '9' && !HexPrefix(s)
  {
    var d := Decimal(n);
    var s := d + rest;
    assert s[0] == d[0];
    if |d| == 1 {
      assert n < 10;
      assert |s| >= 2 ==> s[1] == rest[0];
    } else {
      assert s[1] == d[1];
    }
  }

  /** Decimal digits, not read as a hexadecimal prefix, give their value. */
  lemma DigitsLead(d: string, rest: string)
    requires d != [] && forall i :: 0 <= i < |d| ==> IsDigit(d[i], 10)
    requires rest == [] || !IsDigit(rest[0], 10)
    requires !HexPrefix(d + rest)
    ensures LeadingValue(d + rest) == Some(ValueOf(d, 10))
  {
    RunOverDigits(d, rest);
    assert (d + rest)[..|d|] == d;
  }

  /** A string that starts with a decimal digit is read with no sign and no
      whitespace to skip. */
  lemma StartsWithDigit(s: string)
    requires s != [] && '0' <= s[0] <= '9'
    ensures ParseInt(s) == match LeadingValue(s) case None => None case Some(m) => Some(m as int)
  {
    assert s[0] !in JsWhitespace;
    assert LStrip(s, JsWhitespace) == s;
    assert s[0] != '-' && s[0] != '+';
  }

  /** The digit run of digits followed by a non-digit ends at the non-digit. */
  lemma {:induction false} RunOverDigits(d: string, rest: string)
    requires forall i :: 0 <= i < |d| ==> IsDigit(d[i], 10)
    requires rest == [] || !IsDigit(rest[0], 10)
    ensures DigitRun(d + rest, 10) == |d|
  {
    if d != [] {
      assert (d + rest)[1..] == d[1..] + rest;
      RunOverDigits(d[1..], rest);
    } else {
      assert d + rest == rest;
    }
  }

  // ---------------------------------------------------------------------
  // Benefit calculator

  /** `maxAmount.replace(/[₹,]/g, '')`. */
  function WithoutSymbols(s: string): (r: string)
    ensures |r| <= |s|
    ensures forall i :: 0 <= i < |r| ==> r[i] != '₹' && r[i] != ','
  {
    if s == [] then []
    else (if s[0] == '₹' || s[0] == ',' then [] else [s[0]]) + WithoutSymbols(s[1..])
  }

  /** `calculateBenefit`: the subsidy share of `amount`, capped at the
      parsed maximum; `None` is the `NaN` an unreadable maximum gives. */
  function CalculateBenefit(scheme: Scheme, amount: int): (r: Option<real>)
    ensures r.None? <==> ParseInt(WithoutSymbols(scheme.maxAmount)).None?
    ensures r.Some? ==> var cap := ParseInt(WithoutSymbols(scheme.maxAmount)).value as real;
      var share := (amount * scheme.subsidyPercent) as real / 100.0;
      r.value <= cap && r.value <= share && (r.value == cap || r.value == share)
  {
    match ParseInt(WithoutSymbols(scheme.maxAmount))
    case None => None
    case Some(cap) =>
      var share := (amount * scheme.subsidyPercent) as real / 100.0;
      Some(if share < cap as real then share else cap as real)
  }

  /** `parseInt(budget) || 0`: `NaN` (and 0) read as 0. */
  function BudgetAmount(budget: string): (r: int)
    ensures ParseInt(budget).None? ==> r == 0
    ensures ParseInt(budget).Some? ==> r == ParseInt(budget).value
  {
    ParseInt(budget).GetOr(0)
  }

  /** The "Potential Benefits" list of the calculator card: the first three
      filtered schemes with their benefit, shown only when a budget was
      typed and some scheme is listed. */
  function CalculatorRows(budget: string, filtered: seq<Scheme>): (r: seq<(string, Option<real>)>)
    ensures r == [] <==> budget == [] || filtered == []
    ensures |r| <= 3 && |r| <= |filtered|
    ensures forall i :: 0 <= i < |r| ==>
      r[i] == (filtered[i].name, CalculateBenefit(filtered[i], BudgetAmount(budget)))
  {
    if budget == [] || filtered == [] then []
    else
      Map((s: Scheme) => (s.name, CalculateBenefit(s, BudgetAmount(budget))), Take(filtered, 3))
  }

  // ---------------------------------------------------------------------
  // Scheme cards

  /** The eligibility list of a card: the first two criteria, and the count
      of the others for "+n more criteria" when there are more than two. */
  function EligibilityShown(criteria: seq<string>): (r: (seq<string>, Option<int>))
    ensures r.0 <= criteria && |r.0| == if |criteria| < 2 then |criteria| else 2
    ensures r.1.Some? <==> |criteria| > 2
    ensures r.1.Some? ==> |r.0| + r.1.value == |criteria|
  {
    (Take(criteria, 2), if |criteria| > 2 then Some(|criteria| - 2) else None)
  }

  /** The apply button: disabled, and labelled "Coming Soon", exactly for an
      upcoming scheme. */
  function ApplyButton(status: string): (r: (bool, string))
    ensures r.0 <==> status == "upcoming"
    ensures r.1 == (if r.0 then "Coming Soon" else "Apply Now")
  {
    if status == "upcoming" then (true, "Coming Soon") else (false, "Apply Now")
  }

  /** `calculateDaysLeft`: `null` without a deadline (an empty one counts as
      none); the date arithmetic is the parameter `daysUntil`. */
  function DaysLeft(deadline: Option<string>, daysUntil: string -> int): (r: Option<int>)
    ensures deadline.None? || deadline.value == [] ==> r.None?
    ensures deadline.Some? && deadline.value != [] ==> r == Some(daysUntil(deadline.value))
  {
    match deadline
    case None => None
    case Some(d) => if d == [] then None else Some(daysUntil(d))
  }

  /** What the deadline box says. */
  datatype DeadlineLabel = DaysToGo(days: int) | DeadlinePassed

  /** `daysLeft && daysLeft > 0 ? ... : 'Deadline passed'`. */
  function DeadlineText(daysLeft: Option<int>): (r: DeadlineLabel)
    ensures r.DaysToGo? <==> daysLeft.Some? && daysLeft.value > 0
    ensures r.DaysToGo? ==> r.days == daysLeft.value
  {
    if daysLeft.Some? && daysLeft.value > 0 then DaysToGo(daysLeft.value) else DeadlinePassed
  }

  /** The benefit never exceeds the scheme's maximum: a budget of ₹20,000 on
      the seed scheme (85%) gets the ₹5,000 cap, not ₹17,000. */
  lemma SeedSchemeCapped()
    ensures CalculateBenefit(Catalog[2], 20000) == Some(5000.0)
  {
    assert Catalog[2].maxAmount == "₹5,000" && Catalog[2].subsidyPercent == 85;
    FiveThousand();
  }

  /** The seed scheme's maximum reads as 5000. */
  lemma FiveThousand()
    ensures ParseInt(WithoutSymbols("₹5,000")) == Some(5000)
  {
    SymbolsDropped();
    DecimalFiveThousand();
    ParseDecimal(5000, "");
    assert "5000" + "" == "5000";
  }

  lemma SymbolsDropped()
    ensures WithoutSymbols("₹5,000") == "5000"
  {
    CommaDropped();
    assert "₹5,000"[1..] == "5,000";
  }

  lemma CommaDropped()
    ensures WithoutSymbols("5,000") == "5000"
  {
    ZerosKept();
    assert WithoutSymbols(",000") == "000" by { assert ",000"[1..] == "000"; }
    assert "5,000"[1..] == ",000";
  }

  lemma ZerosKept()
    ensures WithoutSymbols("000") == "000"
  {
    assert WithoutSymbols("0") == "0" by { assert "0"[1..] == ""; }
    assert WithoutSymbols("00") == "00" by { assert "00"[1..] == "0"; }
    assert "000"[1..] == "00";
  }

  lemma DecimalFiveThousand()
    ensures Decimal(5000) == "5000"
  {
    assert Decimal(5) == "5";
    assert Decimal(50) == "50";
    assert Decimal(500) == "500";
  }
}
