/**
 * Text helpers shared by the formatters (src/utils/utils.ts): the colour
 * palette, thousands grouping of integers and the label suffix chosen by
 * the display mode.
 */
module Utils {
  import opened Js
  import opened Types

  /** The fixed palette the second-generation formatters colour series with. */
  function ColorPalette(): (p: seq<string>)
    ensures |p| == 12
    ensures forall i :: 0 <= i < |p| ==> |p[i]| == 7 && p[i][0] == '#'
  {
    ["#a6cee3", "#1f78b4", "#b2df8a", "#33a02c", "#fb9a99", "#e31a1c",
     "#fdbf6f", "#ff7f00", "#cab2d6", "#6a3d9a", "#ffff99", "#b15928"]
  }

  /** `COLOR_PALETTE[i]`: `undefined` past the twelfth colour. */
  function PaletteAt(i: nat): (c: Maybe<string>)
  {
    if i < |ColorPalette()| then Defined(ColorPalette()[i]) else Undefined
  }

  // ---------------------------------------------------------------------
  // Decimal rendering of integers (`Number.prototype.toString()`).
  // ---------------------------------------------------------------------

  predicate IsDigit(c: char)
  {
    '0' <= c <= '9'
  }

  predicate AllDigits(s: string)
  {
    forall i :: 0 <= i < |s| ==> IsDigit(s[i])
  }

  function DigitChar(d: nat): (c: char)
    requires d < 10
  {
    "0123456789"[d]
  }

  /** The decimal digits of `n`, most significant first, no leading zero. */
  function NatToString(n: nat): (s: string)
    ensures 1 <= |s| && AllDigits(s)
    ensures |s| > 1 ==> s[0] != '0'
  {
    if n < 10 then [DigitChar(n)] else NatToString(n / 10) + [DigitChar(n % 10)]
  }

  /** The decimal rendering of `n`, with a leading '-' when negative. */
  function IntToString(n: int): string
  {
    if n < 0 then "-" + NatToString(-n) else NatToString(n)
  }

  /** The value of a string of decimal digits (the reading-back partner of NatToString). */
  function DigitsValue(s: string): nat
    requires AllDigits(s)
  {
    if s == [] then 0 else 10 * DigitsValue(s[..|s| - 1]) + (s[|s| - 1] as int - '0' as int)
  }

  /** Reading back the decimal rendering of `n` gives `n`. */
  lemma {:induction false} NatToStringRoundTrip(n: nat)
    ensures DigitsValue(NatToString(n)) == n
  {
    var s := NatToString(n);
    if n >= 10 {
      NatToStringRoundTrip(n / 10);
      assert s[..|s| - 1] == NatToString(n / 10);
    }
  }

  function Pow10(k: nat): (p: nat)
    ensures p >= 1
  {
    if k == 0 then 1 else 10 * Pow10(k - 1)
  }

  /** `n` has at most `k + 1` digits exactly when it is below 10^(k+1). */
  lemma {:induction false} NatToStringLength(n: nat, k: nat)
    ensures |NatToString(n)| <= k + 1 <==> n < Pow10(k + 1)
  {
    if n >= 10 {
      if k == 0 {
        assert Pow10(1) == 10;
      } else {
        NatToStringLength(n / 10, k - 1);
        assert n / 10 < Pow10(k) <==> n < 10 * Pow10(k);
      }
    } else {
      assert Pow10(k + 1) >= 10 by { Pow10AtLeast(k + 1); }
    }
  }

  lemma {:induction false} Pow10AtLeast(k: nat)
    requires k >= 1
    ensures Pow10(k) >= 10
  {
    if k > 1 { Pow10AtLeast(k - 1); }
  }

  // ---------------------------------------------------------------------
  // formatInt: `toString().replace(/\B(?=(\d{3})+(?!\d))/g, ",")`.
  // ---------------------------------------------------------------------

  /** A character `\b` and `\B` count as part of a word. */
  predicate IsWordChar(c: char)
  {
    IsDigit(c) || 'a' <= c <= 'z' || 'A' <= c <= 'Z' || c == '_'
  }

  /** `\B` at position `i`: both neighbours are word characters, or neither is. */
  predicate NotWordBoundary(s: string, i: nat)
    requires i <= |s|
  {
    (i > 0 && IsWordChar(s[i - 1])) == (i < |s| && IsWordChar(s[i]))
  }

  /** The number of consecutive digits starting at position `i`. */
  function DigitRun(s: string, i: nat): (n: nat)
    requires i <= |s|
    ensures i + n <= |s|
    decreases |s| - i
  {
    if i < |s| && IsDigit(s[i]) then 1 + DigitRun(s, i + 1) else 0
  }

  /**
   * `(?=(\d{3})+(?!\d))` at position `i`: a positive number of three-digit
   * groups follows and is not followed by another digit, that is, the run
   * of digits starting at `i` is a positive multiple of three long.
   */
  predicate GroupsOfThreeAhead(s: string, i: nat)
    requires i <= |s|
  {
    var run := DigitRun(s, i);
    run > 0 && run % 3 == 0
  }

  /** The regular expression matches (and a ',' is inserted) just before `s[i]`. */
  predicate SeparatorBefore(s: string, i: nat)
    requires i <= |s|
  {
    NotWordBoundary(s, i) && GroupsOfThreeAhead(s, i)
  }

  /** The global replace applied to the first `j` characters of `s`. */
  function InsertSeparators(s: string, j: nat): string
    requires j <= |s|
  {
    if j == 0 then []
    else InsertSeparators(s, j - 1) + (if SeparatorBefore(s, j - 1) then "," else "") + [s[j - 1]]
  }

  /** `formatInt` for an integer argument or `undefined` (`Math.round` is the identity on integers). */
  function FormatInt(val: Maybe<int>): (r: string)
    ensures val == Undefined ==> r == "-"
  {
    match val
    case Undefined => "-"
    case Defined(n) =>
      var s := IntToString(n);
      InsertSeparators(s, |s|)
  }

  /** The reference grouping: digits in threes from the right, separated by commas. */
  function Group(d: string): string
    decreases |d|
  {
    if |d| <= 3 then d else Group(d[..|d| - 3]) + "," + d[|d| - 3..]
  }

  /** `s` with every comma removed. */
  function StripCommas(s: string): string
  {
    if s == [] then [] else (if s[0] == ',' then [] else [s[0]]) + StripCommas(s[1..])
  }

  /**
   * The shape of a grouped number: digits and commas, a comma exactly where
   * a multiple of four characters remain (so every group after the first has
   * three digits), and a first group of one to three digits.
   */
  predicate GroupedShape(g: string)
  {
    && |g| > 0
    && |g| % 4 != 0
    && (forall i :: 0 <= i < |g| ==> (g[i] == ',' <==> (|g| - i) % 4 == 0))
    && (forall i :: 0 <= i < |g| && g[i] != ',' ==> IsDigit(g[i]))
  }

  lemma {:induction false} StripCommasAppend(a: string, b: string)
    ensures StripCommas(a + b) == StripCommas(a) + StripCommas(b)
  {
    if a != [] {
      assert (a + b)[1..] == a[1..] + b;
      StripCommasAppend(a[1..], b);
    } else {
      assert a + b == b;
    }
  }

  lemma {:induction false} StripCommasDigits(d: string)
    requires AllDigits(d)
    ensures StripCommas(d) == d
  {
    if d != [] { StripCommasDigits(d[1..]); }
  }

  /** Removing the commas of the grouping gives back the digits. */
  lemma {:induction false} GroupStrip(d: string)
    requires AllDigits(d)
    ensures StripCommas(Group(d)) == d
    decreases |d|
  {
    if |d| <= 3 {
      StripCommasDigits(d);
    } else {
      var t, u := d[..|d| - 3], d[|d| - 3..];
      assert AllDigits(t) by {
        forall i | 0 <= i < |t| ensures IsDigit(t[i]) { assert t[i] == d[i]; }
      }
      GroupStrip(t);
      StripCommaJoin(Group(t), u);
      assert t + u == d;
    }
  }

  /** Removing the commas of `g`, a comma and a run of digits keeps the digits. */
  lemma StripCommaJoin(g: string, u: string)
    requires AllDigits(u)
    ensures StripCommas(g + "," + u) == StripCommas(g) + u
  {
    StripCommasAppend(g + ",", u);
    StripCommasAppend(g, ",");
    assert StripCommas(",") == [] by {
      assert ","[1..] == [];
    }
    StripCommasDigits(u);
  }

  /** The grouping of a non-empty digit string has the grouped shape. */
  lemma {:induction false} GroupShape(d: string)
    requires AllDigits(d) && |d| > 0
    ensures GroupedShape(Group(d))
    ensures |Group(d)| == |d| + (|d| - 1) / 3
    decreases |d|
  {
    if |d| > 3 {
      var t, u := d[..|d| - 3], d[|d| - 3..];
      GroupShape(t);
      assert Group(d) == Group(t) + "," + u;
      GroupedShapeAppend(Group(t), u);
    }
  }

  /** A grouped number followed by a comma and three digits is still a grouped number. */
  lemma GroupedShapeAppend(h: string, u: string)
    requires GroupedShape(h) && |u| == 3 && AllDigits(u)
    ensures GroupedShape(h + "," + u)
  {
    var g := h + "," + u;
    forall i | 0 <= i < |g|
      ensures g[i] == ',' <==> (|g| - i) % 4 == 0
      ensures g[i] != ',' ==> IsDigit(g[i])
    {
      if i < |h| {
        assert g[i] == h[i];
        assert (|g| - i) % 4 == (|h| - i) % 4;
      } else if i > |h| {
        assert g[i] == u[i - |h| - 1];
      }
    }
  }

  /** Every comma of a grouped number sits between two digits. */
  lemma CommasBetweenDigits(g: string, i: nat)
    requires GroupedShape(g) && i < |g| && g[i] == ','
    ensures 0 < i < |g| - 1 && IsDigit(g[i - 1]) && IsDigit(g[i + 1])
  {
    assert (|g| - (i - 1)) % 4 != 0;
    assert (|g| - (i + 1)) % 4 != 0;
  }

  /** On a digit string, the run of digits from `i` reaches the end. */
  lemma {:induction false} DigitRunToEnd(s: string, i: nat)
    requires i <= |s|
    requires forall k :: i <= k < |s| ==> IsDigit(s[k])
    ensures DigitRun(s, i) == |s| - i
    decreases |s| - i
  {
    if i < |s| { DigitRunToEnd(s, i + 1); }
  }

  /** On a digit string a comma goes before `d[i]` exactly when `i > 0` and a multiple of three digits remain. */
  lemma SeparatorInDigits(d: string, i: nat)
    requires AllDigits(d) && i < |d|
    ensures SeparatorBefore(d, i) <==> i > 0 && (|d| - i) % 3 == 0
  {
    DigitRunToEnd(d, i);
  }

  /** The same for a '-' followed by digits: never before the digits' first one. */
  lemma SeparatorInNegative(d: string, i: nat)
    requires AllDigits(d) && i < |d|
    ensures SeparatorBefore("-" + d, i + 1) <==> SeparatorBefore(d, i)
  {
    var s := "-" + d;
    assert forall k :: i + 1 <= k < |s| ==> s[k] == d[k - 1];
    DigitRunToEnd(s, i + 1);
    SeparatorInDigits(d, i);
  }

  /** Two strings whose prefixes and separator positions agree are treated alike. */
  lemma {:induction false} InsertSeparatorsAgree(s: string, t: string, j: nat)
    requires j <= |s| && j <= |t|
    requires forall k :: 0 <= k < j ==> s[k] == t[k] && (SeparatorBefore(s, k) <==> SeparatorBefore(t, k))
    ensures InsertSeparators(s, j) == InsertSeparators(t, j)
  {
    if j > 0 { InsertSeparatorsAgree(s, t, j - 1); }
  }

  /** Below the first separator the replace copies the string unchanged. */
  lemma {:induction false} InsertSeparatorsNone(s: string, j: nat)
    requires j <= |s|
    requires forall k :: 0 <= k < j ==> !SeparatorBefore(s, k)
    ensures InsertSeparators(s, j) == s[..j]
  {
    if j > 0 {
      InsertSeparatorsNone(s, j - 1);
      assert s[..j] == s[..j - 1] + [s[j - 1]];
    }
  }

  /** The replace over the last three digits of a long digit string adds one comma before them. */
  lemma LastGroup(d: string)
    requires AllDigits(d) && |d| > 3
    ensures InsertSeparators(d, |d|) == InsertSeparators(d, |d| - 3) + "," + d[|d| - 3..]
  {
    var n := |d|;
    LastThreeSeparators(d);
    InsertSeparatorsStep(d, n - 3);
    InsertSeparatorsStep(d, n - 2);
    InsertSeparatorsStep(d, n - 1);
    AppendThree(InsertSeparators(d, n - 3) + ",", d[n - 3..]);
  }

  /** One step of the replace: the separator, if any, then the next character. */
  lemma InsertSeparatorsStep(s: string, j: nat)
    requires j < |s|
    ensures InsertSeparators(s, j + 1) == InsertSeparators(s, j) + (if SeparatorBefore(s, j) then "," else "") + [s[j]]
  {
  }

  /** In a long digit string a comma goes before the last three digits and not between them. */
  lemma LastThreeSeparators(d: string)
    requires AllDigits(d) && |d| > 3
    ensures SeparatorBefore(d, |d| - 3) && !SeparatorBefore(d, |d| - 2) && !SeparatorBefore(d, |d| - 1)
  {
    SeparatorInDigits(d, |d| - 3);
    SeparatorInDigits(d, |d| - 2);
    SeparatorInDigits(d, |d| - 1);
  }

  /** Appending three elements one at a time appends the three of them. */
  lemma AppendThree<T>(p: seq<T>, u: seq<T>)
    requires |u| == 3
    ensures ((p + [u[0]]) + [] + [u[1]]) + [] + [u[2]] == p + u
  {
    assert u == [u[0], u[1], u[2]];
  }

  /** Dropping the last three digits leaves the separators before them where they were. */
  lemma DropLastGroup(d: string)
    requires AllDigits(d) && |d| > 3
    ensures InsertSeparators(d, |d| - 3) == InsertSeparators(d[..|d| - 3], |d| - 3)
  {
    var n := |d|;
    var t := d[..n - 3];
    forall k | 0 <= k < n - 3
      ensures d[k] == t[k] && (SeparatorBefore(d, k) <==> SeparatorBefore(t, k))
    {
      SeparatorInDigits(d, k);
      SeparatorInDigits(t, k);
      assert (n - k) % 3 == (n - 3 - k) % 3;
    }
    InsertSeparatorsAgree(d, t, n - 3);
  }

  /** On a digit string the regular-expression replace is the grouping from the right. */
  lemma {:induction false} InsertSeparatorsIsGroup(d: string)
    requires AllDigits(d) && |d| > 0
    ensures InsertSeparators(d, |d|) == Group(d)
    decreases |d|
  {
    var n := |d|;
    if n <= 3 {
      forall k | 0 <= k < n ensures !SeparatorBefore(d, k) { SeparatorInDigits(d, k); }
      InsertSeparatorsNone(d, n);
      assert d[..n] == d;
    } else {
      LastGroup(d);
      DropLastGroup(d);
      InsertSeparatorsIsGroup(d[..n - 3]);
    }
  }

  /** A leading '-' is copied and the digits after it are grouped as on their own. */
  lemma {:induction false} InsertSeparatorsNegative(d: string, j: nat)
    requires AllDigits(d) && j <= |d|
    ensures InsertSeparators("-" + d, j + 1) == "-" + InsertSeparators(d, j)
  {
    var s := "-" + d;
    if j == 0 {
      assert !SeparatorBefore(s, 0) by { assert DigitRun(s, 0) == 0; }
    } else {
      InsertSeparatorsNegative(d, j - 1);
      SeparatorInNegative(d, j - 1);
      var sep := if SeparatorBefore(d, j - 1) then "," else "";
      assert s[j] == d[j - 1];
      assert InsertSeparators(s, j + 1) == ("-" + InsertSeparators(d, j - 1)) + sep + [d[j - 1]];
      assert InsertSeparators(d, j) == InsertSeparators(d, j - 1) + sep + [d[j - 1]];
    }
  }

  /** `formatInt(n)` is the sign of `n` followed by the grouping of its digits. */
  lemma FormatIntIsGrouped(n: int)
    ensures FormatInt(Defined(n)) == (if n < 0 then "-" else "") + Group(NatToString(if n < 0 then -n else n))
  {
    var d := NatToString(if n < 0 then -n else n);
    InsertSeparatorsIsGroup(d);
    if n < 0 {
      InsertSeparatorsNegative(d, |d|);
    }
  }

  /** Removing the commas from `formatInt(n)` gives exactly the decimal rendering of `n`. */
  lemma FormatIntStripsToDecimal(n: int)
    ensures StripCommas(FormatInt(Defined(n))) == IntToString(n)
  {
    var d := NatToString(if n < 0 then -n else n);
    FormatIntIsGrouped(n);
    GroupStrip(d);
    if n < 0 {
      StripCommasAppend("-", Group(d));
      assert "-"[1..] == [];
      assert StripCommas("-") == "-";
    } else {
      assert "" + Group(d) == Group(d);
    }
  }

  /**
   * After an optional '-', `formatInt(n)` has the grouped shape: commas only
   * between digits, a first group of one to three digits, then groups of three.
   */
  lemma FormatIntShape(n: int)
    ensures var r := FormatInt(Defined(n));
      && (n < 0 ==> |r| > 1 && r[0] == '-' && GroupedShape(r[1..]))
      && (n >= 0 ==> GroupedShape(r))
  {
    var d := NatToString(if n < 0 then -n else n);
    FormatIntIsGrouped(n);
    GroupShape(d);
    if n < 0 {
      assert FormatInt(Defined(n))[1..] == Group(d);
    }
  }

  /** `formatInt(n)` contains a comma exactly when |n| >= 1000. */
  lemma FormatIntComma(n: int)
    ensures (',' in FormatInt(Defined(n))) <==> (n <= -1000 || 1000 <= n)
  {
    var m: nat := if n < 0 then -n else n;
    var d := NatToString(m);
    var r := FormatInt(Defined(n));
    FormatIntIsGrouped(n);
    NatToStringLength(m, 2);
    assert Pow10(3) == 1000;
    if |d| <= 3 {
      assert Group(d) == d;
      assert forall i :: 0 <= i < |d| ==> d[i] != ',';
      if n < 0 {
        assert forall i :: 0 <= i < |r| ==> r[i] == '-' || r[i] == d[i - 1];
      }
    } else {
      GroupShape(d);
      var g := Group(d);
      assert g[|g| - 4] == ',';
      if n < 0 {
        assert r[|r| - 4] == g[|g| - 4];
      } else {
        assert r[|r| - 4] == g[|g| - 4];
      }
    }
  }

  // ---------------------------------------------------------------------
  // formatLabel and the percentage text shared by tooltips and legends.
  // ---------------------------------------------------------------------

  /**
   * `((part / total) * 100).toFixed(2)`. The digits of a finite percentage
   * are left to `fixed2`; a zero total gives JavaScript's NaN or Infinity.
   * A positive total renders the percentage `p` with `p * total == part * 100`,
   * and a part no larger than the total renders one between 0 and 100.
   */
  function PercentText(part: nat, total: nat, fixed2: real -> string): (t: string)
    ensures total == 0 ==> t == (if part == 0 then "NaN" else "Infinity")
    ensures 0 < total ==> exists p: real :: p * total as real == part as real * 100.0 && t == fixed2(p)
    ensures 0 < total && part <= total ==> exists p: real :: 0.0 <= p <= 100.0 && t == fixed2(p)
  {
    if total == 0 then (if part == 0 then "NaN" else "Infinity")
    else
      var p := part as real / total as real * 100.0;
      PercentRange(part, total);
      fixed2(p)
  }

  /** The percentage `part / total * 100` scales back to `part` and lies in [0, 100] when `part <= total`. */
  lemma PercentRange(part: nat, total: nat)
    requires 0 < total
    ensures (part as real / total as real * 100.0) * total as real == part as real * 100.0
    ensures 0.0 <= part as real / total as real * 100.0
    ensures part <= total ==> part as real / total as real * 100.0 <= 100.0
  {
    var q := part as real / total as real;
    assert q * total as real == part as real;
    if part <= total {
      assert q <= 1.0;
    }
  }

  /** The label suffix for a value under each display mode. */
  function FormatLabel(mode: DisplayFormatter, currentValue: nat, total: nat, fixed2: real -> string): (r: string)
    ensures mode == None ==> r == ""
    ensures mode == Raw ==> |r| > 2 && r[..2] == ": " && AllDigits(r[2..]) && DigitsValue(r[2..]) == currentValue
    ensures mode == Percentage ==> |r| >= 3 && r[..2] == ": " && r[|r| - 1] == '%'
  {
    match mode
    case None => ""
    case Percentage => ": " + PercentText(currentValue, total, fixed2) + "%"
    case Raw =>
      NatToStringRoundTrip(currentValue);
      var r := ": " + IntToString(currentValue);
      assert r[2..] == NatToString(currentValue);
      r
  }

  /** Under RAW the label does not depend on the total or on the percentage renderer. */
  lemma FormatLabelRawIgnoresTotal(x: nat, t1: nat, t2: nat, f1: real -> string, f2: real -> string)
    ensures FormatLabel(Raw, x, t1, f1) == FormatLabel(Raw, x, t2, f2) == ": " + IntToString(x)
  {
  }
}
