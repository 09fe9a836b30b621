/**
 * The small string helpers of the planner: reading a count out of a
 * spreadsheet cell, making a string safe as a file name, and escaping text
 * for HTML.
 */
module TextUtil {
  import opened Wrappers
  import opened PyMath

  // ---------------------------------------------------------------------
  // parse_count_to_int
  // ---------------------------------------------------------------------

  /** The kinds of cell value `parse_count_to_int` distinguishes. */
  datatype CellValue = NoValue | IntValue(i: int) | FloatValue(f: real) | TextValue(s: string)

  predicate IsDigit(c: char) { '0' <= c <= '9' }

  /** A character of the pattern `[\d,]`. */
  predicate IsCountChar(c: char) { IsDigit(c) || c == ',' }

  /** The maximal run of digits and commas at the start of `s`. */
  function TakeRun(s: string): (run: string)
    ensures |run| <= |s| && run == s[..|run|]
    ensures forall i :: 0 <= i < |run| ==> IsCountChar(run[i])
    ensures |run| < |s| ==> !IsCountChar(s[|run|])
  {
    if s != [] && IsCountChar(s[0]) then [s[0]] + TakeRun(s[1..]) else []
  }

  /** `re.findall(r"[\d,]+", s)[0]`, or the empty string when there is no match. */
  function FirstRun(s: string): string
  {
    if s == [] then []
    else if IsCountChar(s[0]) then TakeRun(s)
    else FirstRun(s[1..])
  }

  /** `s.replace(",", "")`. */
  function DropCommas(s: string): (r: string)
    ensures forall i :: 0 <= i < |r| ==> r[i] != ','
    ensures r == [] <==> forall i :: 0 <= i < |s| ==> s[i] == ','
  {
    if s == [] then []
    else (if s[0] == ',' then [] else [s[0]]) + DropCommas(s[1..])
  }

  /** The value of a string of decimal digits, read left to right as `int()` does. */
  function DecimalValue(ds: string): (n: nat)
    requires forall i :: 0 <= i < |ds| ==> IsDigit(ds[i])
  {
    if ds == [] then 0
    else
      var last := ds[|ds| - 1];
      assert IsDigit(last);
      10 * DecimalValue(ds[..|ds| - 1]) + (last as int - '0' as int)
  }

  /** The decimal rendering of `n`, without leading zeros. */
  function Decimal(n: nat): (ds: string)
    ensures |ds| > 0
    ensures forall i :: 0 <= i < |ds| ==> IsDigit(ds[i])
  {
    if n < 10 then ['0' + n as char] else Decimal(n / 10) + ['0' + (n % 10) as char]
  }

  /**
   * The text case of `parse_count_to_int`: the first run of digits and commas,
   * commas removed, as a decimal number; no run gives 0. A run made only of
   * commas leaves `int("")`, which raises ValueError: that is `None` here.
   */
  function ParseCountText(s: string): (r: Option<int>)
    ensures r.Some? ==> r.value >= 0
    ensures (forall i :: 0 <= i < |s| ==> !IsCountChar(s[i])) ==> r == Some(0)
    ensures r.None? <==> FirstRun(s) != [] && forall i :: 0 <= i < |FirstRun(s)| ==> FirstRun(s)[i] == ','
  {
    var m := FirstRun(s);
    FirstRunNone(s);
    if m == [] then Some(0)
    else
      var ds := DropCommas(m);
      if ds == [] then None
      else
        assert forall i :: 0 <= i < |ds| ==> IsDigit(ds[i]) by { FirstRunIsRun(s); DropCommasDigits(m); }
        Some(DecimalValue(ds))
  }

  /** `parse_count_to_int(x)`; `None` stands for the ValueError the source raises. */
  function ParseCountToInt(x: CellValue): (r: Option<int>)
    ensures x.NoValue? ==> r == Some(0)
    ensures x.IntValue? ==> r == Some(x.i)
    ensures x.FloatValue? ==>
      && r.Some? && (r.value as real) * x.f >= 0.0
      && (if x.f >= 0.0 then r.value as real <= x.f < (r.value + 1) as real else (r.value - 1) as real < x.f <= r.value as real)
    ensures x.TextValue? && r.Some? ==> r.value >= 0
  {
    match x
    case NoValue => Some(0)
    case IntValue(i) => Some(i)
    case FloatValue(f) => Some(Trunc(f))
    case TextValue(s) => ParseCountText(s)
  }

  lemma {:induction false} FirstRunNone(s: string)
    ensures (forall i :: 0 <= i < |s| ==> !IsCountChar(s[i])) ==> FirstRun(s) == []
  {
    if s != [] {
      FirstRunNone(s[1..]);
    }
  }

  lemma {:induction false} FirstRunIsRun(s: string)
    ensures forall i :: 0 <= i < |FirstRun(s)| ==> IsCountChar(FirstRun(s)[i])
  {
    if s != [] && !IsCountChar(s[0]) {
      FirstRunIsRun(s[1..]);
    }
  }

  lemma {:induction false} DropCommasDigits(s: string)
    requires forall i :: 0 <= i < |s| ==> IsCountChar(s[i])
    ensures forall i :: 0 <= i < |DropCommas(s)| ==> IsDigit(DropCommas(s)[i])
  {
    if s != [] {
      DropCommasDigits(s[1..]);
    }
  }

  lemma {:induction false} DecimalValueOfDecimal(n: nat)
    ensures DecimalValue(Decimal(n)) == n
  {
    if n >= 10 {
      DecimalValueOfDecimal(n / 10);
      var ds := Decimal(n);
      assert ds[..|ds| - 1] == Decimal(n / 10);
    }
  }

  lemma {:induction false} DropCommasOfDigits(ds: string)
    requires forall i :: 0 <= i < |ds| ==> IsDigit(ds[i])
    ensures DropCommas(ds) == ds
  {
    if ds != [] {
      DropCommasOfDigits(ds[1..]);
      assert ds == [ds[0]] + ds[1..];
    }
  }

  lemma {:induction false} TakeRunOfRun(ds: string, q: string)
    requires forall i :: 0 <= i < |ds| ==> IsCountChar(ds[i])
    requires q == [] || !IsCountChar(q[0])
    ensures TakeRun(ds + q) == ds
  {
    if ds != [] {
      assert (ds + q)[1..] == ds[1..] + q;
      TakeRunOfRun(ds[1..], q);
      assert ds == [ds[0]] + ds[1..];
    }
  }

  lemma {:induction false} DropCommasAppend(a: string, b: string)
    ensures DropCommas(a + b) == DropCommas(a) + DropCommas(b)
  {
    if a != [] {
      assert (a + b)[1..] == a[1..] + b;
      DropCommasAppend(a[1..], b);
    } else {
      assert a + b == b;
    }
  }

  lemma {:induction false} FirstRunSkips(p: string, t: string)
    requires forall i :: 0 <= i < |p| ==> !IsCountChar(p[i])
    ensures FirstRun(p + t) == FirstRun(t)
  {
    if p != [] {
      var pt := p + t;
      assert !IsCountChar(p[0]);
      assert pt[0] == p[0] && pt != [];
      assert FirstRun(pt) == FirstRun(pt[1..]);
      assert pt[1..] == p[1..] + t;
      FirstRunSkips(p[1..], t);
    } else {
      assert p + t == t;
    }
  }

  /**
   * Reading a count back: a number written in decimal, preceded by text
   * without digits or commas and followed by text that does not continue the
   * run, is read as that number.
   */
  lemma ParseCountRoundTrip(p: string, n: nat, q: string)
    requires forall i :: 0 <= i < |p| ==> !IsCountChar(p[i])
    requires q == [] || !IsCountChar(q[0])
    ensures ParseCountToInt(TextValue(p + Decimal(n) + q)) == Some(n)
  {
    var ds := Decimal(n);
    assert p + ds + q == p + (ds + q);
    FirstRunSkips(p, ds + q);
    TakeRunOfRun(ds, q);
    assert FirstRun(ds + q) == TakeRun(ds + q);
    DropCommasOfDigits(ds);
    DecimalValueOfDecimal(n);
  }

  /** The first run of `p + r + q` is `r` when `r` is a whole run starting with a digit after text without any. */
  lemma FirstRunIsolated(p: string, r: string, q: string)
    requires forall i :: 0 <= i < |p| ==> !IsCountChar(p[i])
    requires r != [] && forall i :: 0 <= i < |r| ==> IsCountChar(r[i])
    requires q == [] || !IsCountChar(q[0])
    ensures FirstRun(p + r + q) == r
  {
    assert p + r + q == p + (r + q);
    FirstRunSkips(p, r + q);
    assert (r + q)[0] == r[0];
    TakeRunOfRun(r, q);
  }

  /** Dropping the commas of `a + "," + b` for digit strings gives `a + b`. */
  lemma DropGroupingComma(a: string, b: string)
    requires forall i :: 0 <= i < |a| ==> IsDigit(a[i])
    requires forall i :: 0 <= i < |b| ==> IsDigit(b[i])
    ensures DropCommas(a + "," + b) == a + b
  {
    DropCommasAppend(a + ",", b);
    DropCommasAppend(a, ",");
    DropCommasOfDigits(a);
    DropCommasOfDigits(b);
    assert DropCommas(",") == [];
    assert a + [] == a;
  }

  /** The text case once its first run is known to hold a digit. */
  lemma ParseCountTextOfRun(s: string, m: string)
    requires FirstRun(s) == m
    requires DropCommas(m) != [] && forall i :: 0 <= i < |DropCommas(m)| ==> IsDigit(DropCommas(m)[i])
    ensures ParseCountText(s) == Some(DecimalValue(DropCommas(m)))
  {
  }

  /** `a + "," + b` is a run of digits and commas. */
  lemma GroupedIsRun(a: string, b: string)
    requires forall i :: 0 <= i < |a| ==> IsDigit(a[i])
    requires forall i :: 0 <= i < |b| ==> IsDigit(b[i])
    ensures forall i :: 0 <= i < |a + "," + b| ==> IsCountChar((a + "," + b)[i])
  {
    var g := a + "," + b;
    forall i | 0 <= i < |g|
      ensures IsCountChar(g[i])
    {
      if i < |a| {
        assert g[i] == a[i];
      } else if i > |a| {
        assert g[i] == b[i - |a| - 1];
      }
    }
  }

  /**
   * Why the commas are dropped: a thousands separator inside the number does
   * not change the count read, so `"約1,234家"` reads as 1234.
   */
  lemma GroupingCommaIgnored(p: string, a: string, b: string, q: string)
    requires forall i :: 0 <= i < |p| ==> !IsCountChar(p[i])
    requires a != [] && forall i :: 0 <= i < |a| ==> IsDigit(a[i])
    requires forall i :: 0 <= i < |b| ==> IsDigit(b[i])
    requires q == [] || !IsCountChar(q[0])
    ensures ParseCountToInt(TextValue(p + a + "," + b + q)) == ParseCountToInt(TextValue(p + a + b + q))
    ensures ParseCountToInt(TextValue(p + a + b + q)) == Some(DecimalValue(a + b))
  {
    var grouped, plain := a + "," + b, a + b;
    assert forall i :: 0 <= i < |plain| ==> IsDigit(plain[i]);
    GroupedIsRun(a, b);
    FirstRunIsolated(p, grouped, q);
    FirstRunIsolated(p, plain, q);
    DropGroupingComma(a, b);
    DropCommasOfDigits(plain);
    ParseCountTextOfRun(p + grouped + q, grouped);
    ParseCountTextOfRun(p + plain + q, plain);
    Regroup(p, a, ",", b, q);
    Regroup4(p, a, b, q);
  }

  lemma Regroup4(p: string, a: string, b: string, q: string)
    ensures p + a + b + q == p + (a + b) + q
  {
  }

  lemma Regroup(p: string, a: string, c: string, b: string, q: string)
    ensures p + a + c + b + q == p + (a + c + b) + q
  {
  }

  /**
   * Any number of thousands separators: a run of digits and commas that
   * starts with a digit, after text without digits or commas, reads as the
   * digits of the run with the commas removed.
   */
  lemma GroupedRunValue(p: string, r: string, q: string)
    requires forall i :: 0 <= i < |p| ==> !IsCountChar(p[i])
    requires r != [] && IsDigit(r[0]) && forall i :: 0 <= i < |r| ==> IsCountChar(r[i])
    requires q == [] || !IsCountChar(q[0])
    ensures DropCommas(r) != [] && forall i :: 0 <= i < |DropCommas(r)| ==> IsDigit(DropCommas(r)[i])
    ensures ParseCountToInt(TextValue(p + r + q)) == Some(DecimalValue(DropCommas(r)))
  {
    FirstRunIsolated(p, r, q);
    DropCommasDigits(r);
    assert DropCommas(r)[0] == r[0];
    ParseCountTextOfRun(p + r + q, r);
  }

  lemma Value1234()
    ensures DecimalValue("1234") == 1234
  {
    assert "1234"[..3] == "123" && "123"[..2] == "12" && "12"[..1] == "1" && "1"[..0] == "";
  }

  /** The worked example: `"約1,234家"` reads as 1234. */
  lemma GroupedCountExample()
    ensures ParseCountToInt(TextValue("約1,234家")) == Some(1234)
  {
    GroupingCommaIgnored("約", "1", "234", "家");
    assert "約" + "1" + "," + "234" + "家" == "約1,234家";
    assert "1" + "234" == "1234";
    Value1234();
  }

  /** As written, a comma that comes before the number makes `int("")` raise. */
  lemma StrayCommaRaises()
    ensures ParseCountToInt(TextValue("約, 1200")) == None
  {
    assert FirstRun("約, 1200") == FirstRun(", 1200") == TakeRun(", 1200");
    assert TakeRun(" 1200") == [];
    assert TakeRun(", 1200") == [','];
  }

  /** The run of digits and commas that starts at the first digit of `s`. */
  function FirstDigitRun(s: string): string
  {
    if s == [] then []
    else if IsDigit(s[0]) then TakeRun(s)
    else FirstDigitRun(s[1..])
  }

  lemma {:induction false} FirstDigitRunNone(s: string)
    ensures (forall i :: 0 <= i < |s| ==> !IsDigit(s[i])) ==> FirstDigitRun(s) == []
  {
    if s != [] {
      FirstDigitRunNone(s[1..]);
    }
  }

  lemma {:induction false} FirstDigitRunIsRun(s: string)
    ensures forall i :: 0 <= i < |FirstDigitRun(s)| ==> IsCountChar(FirstDigitRun(s)[i])
    ensures FirstDigitRun(s) != [] ==> IsDigit(FirstDigitRun(s)[0])
  {
    if s != [] && !IsDigit(s[0]) {
      FirstDigitRunIsRun(s[1..]);
    }
  }

  /**
   * The evidently intended reading: a number is a run of digits and commas
   * that starts with a digit, so a stray comma cannot make it fail.
   */
  function ParseCountTextCorrected(s: string): (r: int)
    ensures r >= 0
    ensures (forall i :: 0 <= i < |s| ==> !IsDigit(s[i])) ==> r == 0
  {
    var m := FirstDigitRun(s);
    FirstDigitRunIsRun(s);
    FirstDigitRunNone(s);
    DropCommasDigits(m);
    if m == [] then 0
    else
      var ds := DropCommas(m);
      DecimalValue(ds)
  }

  /** The corrected reading skips the stray comma and reads the number. */
  lemma StrayCommaCorrected()
    ensures ParseCountToIntCorrected(TextValue("約, 1200")) == 1200
  {
    StrayCommaRun();
    assert ParseCountTextCorrected("約, 1200") == DecimalValue(DropCommas("1200"));
    Value1200();
  }

  lemma StrayCommaRun()
    ensures FirstDigitRun("約, 1200") == "1200"
  {
    assert "約, 1200"[1..] == ", 1200" && ", 1200"[1..] == " 1200" && " 1200"[1..] == "1200";
    assert TakeRun("1200") == "1200";
  }

  lemma Value1200()
    ensures DropCommas("1200") == "1200"
    ensures DecimalValue("1200") == 1200
  {
    assert DropCommas("1200") == "1200";
    assert "1200"[..3] == "120" && "120"[..2] == "12" && "12"[..1] == "1" && "1"[..0] == "";
  }

  /** `parse_count_to_int` with the corrected text case: it never raises. */
  function ParseCountToIntCorrected(x: CellValue): (r: int)
    ensures x.TextValue? ==> r >= 0
    ensures ParseCountToInt(x).Some? ==> r == ParseCountToInt(x).value
  {
    match x
    case NoValue => 0
    case IntValue(i) => i
    case FloatValue(f) => Trunc(f)
    case TextValue(s) =>
      CorrectedAgrees(s);
      ParseCountTextCorrected(s)
  }

  lemma {:induction false} TakeRunDigitsAgree(t: string)
    requires DropCommas(TakeRun(t)) != []
    ensures DropCommas(FirstDigitRun(t)) == DropCommas(TakeRun(t))
  {
    if t != [] && t[0] == ',' {
      assert TakeRun(t) == [','] + TakeRun(t[1..]);
      assert DropCommas(TakeRun(t)) == DropCommas(TakeRun(t[1..]));
      TakeRunDigitsAgree(t[1..]);
    }
  }

  lemma {:induction false} FirstRunDigitsAgree(s: string)
    requires DropCommas(FirstRun(s)) != []
    ensures DropCommas(FirstDigitRun(s)) == DropCommas(FirstRun(s))
  {
    if s != [] {
      if !IsCountChar(s[0]) {
        FirstRunDigitsAgree(s[1..]);
      } else if s[0] == ',' {
        TakeRunDigitsAgree(s);
      }
    }
  }

  /** Whenever the code as written returns a count, the corrected reading returns the same count. */
  lemma CorrectedAgrees(s: string)
    ensures ParseCountText(s).Some? ==> ParseCountTextCorrected(s) == ParseCountText(s).value
  {
    var m := FirstRun(s);
    if m != [] && DropCommas(m) != [] {
      FirstRunDigitsAgree(s);
    } else if m == [] {
      FirstRunEmpty(s);
    }
  }

  lemma {:induction false} FirstRunEmpty(s: string)
    requires FirstRun(s) == []
    ensures FirstDigitRun(s) == []
  {
    if s != [] {
      FirstRunEmpty(s[1..]);
    }
  }

  // ---------------------------------------------------------------------
  // safe_filename
  // ---------------------------------------------------------------------

  /** The characters the file-name pattern replaces: backslash, slash, star, question mark, colon, double quote, angle brackets and bar. */
  predicate IsReserved(c: char) { c in "\\/*?:\"<>|" }

  /** The characters Python's `str.strip()` removes (`str.isspace`). */
  predicate IsSpace(c: char)
  {
    || '\t' <= c <= '\r'
    || '\U{1C}' <= c <= ' '
    || c == '\U{85}' || c == '\U{A0}' || c == '\U{1680}'
    || '\U{2000}' <= c <= '\U{200A}'
    || c == '\U{2028}' || c == '\U{2029}' || c == '\U{202F}' || c == '\U{205F}' || c == '\U{3000}'
  }

  /** The `re.sub` step of `safe_filename`: each reserved character becomes an underscore. */
  function ReplaceReserved(s: string): (r: string)
    ensures |r| == |s|
    ensures forall i :: 0 <= i < |s| ==> r[i] == (if IsReserved(s[i]) then '_' else s[i])
  {
    seq(|s|, i requires 0 <= i < |s| => if IsReserved(s[i]) then '_' else s[i])
  }

  function LeadingSpace(s: string): (n: nat)
    ensures n <= |s|
    ensures forall i :: 0 <= i < n ==> IsSpace(s[i])
    ensures n < |s| ==> !IsSpace(s[n])
  {
    if s != [] && IsSpace(s[0]) then 1 + LeadingSpace(s[1..]) else 0
  }

  function TrailingSpace(s: string): (n: nat)
    ensures n <= |s|
    ensures forall i :: |s| - n <= i < |s| ==> IsSpace(s[i])
    ensures n < |s| ==> !IsSpace(s[|s| - n - 1])
  {
    if s != [] && IsSpace(s[|s| - 1]) then 1 + TrailingSpace(s[..|s| - 1]) else 0
  }

  /** `s.strip()`: only whitespace is cut, and only from the two ends. */
  function Strip(s: string): (r: string)
    ensures r == [] || (!IsSpace(r[0]) && !IsSpace(r[|r| - 1]))
    ensures LeadingSpace(s) + |r| <= |s|
    ensures forall k :: 0 <= k < |r| ==> r[k] == s[LeadingSpace(s) + k]
    ensures forall k :: 0 <= k < |s| && !(LeadingSpace(s) <= k < LeadingSpace(s) + |r|) ==> IsSpace(s[k])
  {
    var i := LeadingSpace(s);
    var t := s[i..];
    var j := i + |t| - TrailingSpace(t);
    assert forall k :: j <= k < |s| ==> s[k] == t[k - i];
    s[i..j]
  }

  /**
   * `safe_filename(name)`: every reserved character becomes `_`, then the
   * surrounding whitespace is removed.
   */
  function SafeFilename(name: string): (r: string)
    ensures forall i :: 0 <= i < |r| ==> !IsReserved(r[i])
    ensures r == [] || (!IsSpace(r[0]) && !IsSpace(r[|r| - 1]))
    ensures |r| <= |name|
  {
    Strip(ReplaceReserved(name))
  }

  lemma {:induction false} StripUnchanged(s: string)
    requires s == [] || (!IsSpace(s[0]) && !IsSpace(s[|s| - 1]))
    ensures Strip(s) == s
  {
    if s != [] {
      assert LeadingSpace(s) == 0;
      assert TrailingSpace(s) == 0;
    }
  }

  /** Making a name safe twice changes nothing more. */
  lemma SafeFilenameIdempotent(name: string)
    ensures SafeFilename(SafeFilename(name)) == SafeFilename(name)
  {
    var r := SafeFilename(name);
    assert ReplaceReserved(r) == r;
    StripUnchanged(r);
  }

  // ---------------------------------------------------------------------
  // html_escape
  // ---------------------------------------------------------------------

  /** `s.replace(c, rep)` for a single character `c`. */
  function ReplaceChar(s: string, c: char, rep: string): (r: string)
    ensures c !in rep ==> c !in r
  {
    if s == [] then [] else (if s[0] == c then rep else [s[0]]) + ReplaceChar(s[1..], c, rep)
  }

  /** The chain of replacements `html_escape` applies to a string, `&` first. */
  function EscapeChain(s: string): string
  {
    ReplaceChar(ReplaceChar(ReplaceChar(ReplaceChar(ReplaceChar(
      s, '&', "&amp;"), '<', "&lt;"), '>', "&gt;"), '"', "&quot;"), '\'', "&#39;")
  }

  /** `html_escape(s)`; `None` is Python's None. */
  function HtmlEscape(s: Option<string>): (r: string)
    ensures s.None? ==> r == ""
    ensures forall i :: 0 <= i < |r| ==> r[i] !in "<>\"'"
    ensures s.Some? ==> r == EscapeEach(s.value)
  {
    match s
    case None => ""
    case Some(t) =>
      EscapeChainIsEach(t);
      EscapeEachSafe(t);
      EscapeChain(t)
  }

  /** The entity a single character is written as. */
  function EscapeChar(c: char): string
  {
    if c == '&' then "&amp;"
    else if c == '<' then "&lt;"
    else if c == '>' then "&gt;"
    else if c == '"' then "&quot;"
    else if c == '\'' then "&#39;"
    else [c]
  }

  /** Escaping character by character: each character is escaped exactly once. */
  function EscapeEach(s: string): string
  {
    if s == [] then [] else EscapeChar(s[0]) + EscapeEach(s[1..])
  }

  lemma {:induction false} EscapeEachSafe(s: string)
    ensures forall i :: 0 <= i < |EscapeEach(s)| ==> EscapeEach(s)[i] !in "<>\"'"
  {
    if s != [] {
      EscapeEachSafe(s[1..]);
      var e, rest := EscapeChar(s[0]), EscapeEach(s[1..]);
      assert forall i :: 0 <= i < |e| ==> e[i] !in "<>\"'";
      assert EscapeEach(s) == e + rest;
    }
  }

  lemma {:induction false} ReplaceCharAppend(a: string, b: string, c: char, rep: string)
    ensures ReplaceChar(a + b, c, rep) == ReplaceChar(a, c, rep) + ReplaceChar(b, c, rep)
  {
    if a != [] {
      assert (a + b)[1..] == a[1..] + b;
      ReplaceCharAppend(a[1..], b, c, rep);
    } else {
      assert a + b == b;
    }
  }

  lemma {:induction false} ReplaceCharAbsent(s: string, c: char, rep: string)
    requires c !in s
    ensures ReplaceChar(s, c, rep) == s
  {
    if s != [] {
      ReplaceCharAbsent(s[1..], c, rep);
      assert s == [s[0]] + s[1..];
    }
  }

  lemma EscapeChainAppend(a: string, b: string)
    ensures EscapeChain(a + b) == EscapeChain(a) + EscapeChain(b)
  {
    var a1, b1 := ReplaceChar(a, '&', "&amp;"), ReplaceChar(b, '&', "&amp;");
    ReplaceCharAppend(a, b, '&', "&amp;");
    var a2, b2 := ReplaceChar(a1, '<', "&lt;"), ReplaceChar(b1, '<', "&lt;");
    ReplaceCharAppend(a1, b1, '<', "&lt;");
    var a3, b3 := ReplaceChar(a2, '>', "&gt;"), ReplaceChar(b2, '>', "&gt;");
    ReplaceCharAppend(a2, b2, '>', "&gt;");
    var a4, b4 := ReplaceChar(a3, '"', "&quot;"), ReplaceChar(b3, '"', "&quot;");
    ReplaceCharAppend(a3, b3, '"', "&quot;");
    ReplaceCharAppend(a4, b4, '\'', "&#39;");
  }

  lemma ReplaceCharSingle(x: char, c: char, rep: string)
    ensures ReplaceChar([x], c, rep) == if x == c then rep else [x]
  {
    assert [x][1..] == [];
  }

  /** The replacements after the one that wrote an entity leave that entity alone. */
  lemma EscapeChainChar(x: char)
    ensures EscapeChain([x]) == EscapeChar(x)
  {
    ReplaceCharSingle(x, '&', "&amp;");
    if x == '&' {
      ChainTail("&amp;", 1);
    } else {
      ReplaceCharSingle(x, '<', "&lt;");
      if x == '<' {
        ChainTail("&lt;", 2);
      } else {
        ReplaceCharSingle(x, '>', "&gt;");
        if x == '>' {
          ChainTail("&gt;", 3);
        } else {
          ReplaceCharSingle(x, '"', "&quot;");
          if x == '"' {
            ChainTail("&quot;", 4);
          } else {
            ReplaceCharSingle(x, '\'', "&#39;");
          }
        }
      }
    }
  }

  /** The replacements from step `from` on, applied to an entity that holds none of their characters. */
  lemma ChainTail(ent: string, from: nat)
    requires 1 <= from <= 4
    requires forall i :: 0 <= i < |ent| ==> ent[i] !in "<>\"'"
    ensures from <= 1 ==> ReplaceChar(ent, '<', "&lt;") == ent
    ensures from <= 2 ==> ReplaceChar(ent, '>', "&gt;") == ent
    ensures from <= 3 ==> ReplaceChar(ent, '"', "&quot;") == ent
    ensures ReplaceChar(ent, '\'', "&#39;") == ent
  {
    ReplaceCharAbsent(ent, '<', "&lt;");
    ReplaceCharAbsent(ent, '>', "&gt;");
    ReplaceCharAbsent(ent, '"', "&quot;");
    ReplaceCharAbsent(ent, '\'', "&#39;");
  }

  /**
   * Because `&` is replaced first, the chain of replacements escapes every
   * character exactly once: no entity it writes is escaped again.
   */
  lemma {:induction false} EscapeChainIsEach(s: string)
    ensures EscapeChain(s) == EscapeEach(s)
  {
    if s != [] {
      assert s == [s[0]] + s[1..];
      EscapeChainAppend([s[0]], s[1..]);
      EscapeChainChar(s[0]);
      EscapeChainIsEach(s[1..]);
    }
  }

  /** `<` becomes `&lt;`, not `&amp;lt;`. */
  lemma EscapeLessThan()
    ensures HtmlEscape(Some("<")) == "&lt;"
  {
    assert EscapeEach("<") == EscapeChar('<') + EscapeEach([]);
  }

  predicate StartsWith(s: string, p: string)
  {
    |p| <= |s| && forall i :: 0 <= i < |p| ==> s[i] == p[i]
  }

  /** Reads the five entities back, the inverse of escaping. */
  function Unescape(s: string): string
  {
    if s == [] then []
    else if StartsWith(s, "&amp;") then "&" + Unescape(s[5..])
    else if StartsWith(s, "&lt;") then "<" + Unescape(s[4..])
    else if StartsWith(s, "&gt;") then ">" + Unescape(s[4..])
    else if StartsWith(s, "&quot;") then "\"" + Unescape(s[6..])
    else if StartsWith(s, "&#39;") then "'" + Unescape(s[5..])
    else [s[0]] + Unescape(s[1..])
  }

  /** Escaping loses nothing: unescaping the output of `html_escape` gives the input back. */
  lemma UnescapeEscape(s: string)
    ensures Unescape(HtmlEscape(Some(s))) == s
  {
    UnescapeEach(s);
  }

  lemma NotStartsWith(s: string, p: string, i: nat)
    requires i < |p| && i < |s| && s[i] != p[i]
    ensures !StartsWith(s, p)
  {
  }

  lemma EntityPrefix(ent: string, rest: string)
    ensures StartsWith(ent + rest, ent) && (ent + rest)[|ent|..] == rest
  {
  }

  /** Unescaping reads the entity of one character back as that character. */
  lemma UnescapeEntity(x: char, rest: string)
    ensures Unescape(EscapeChar(x) + rest) == [x] + Unescape(rest)
  {
    var ent := EscapeChar(x);
    var e := ent + rest;
    EntityPrefix(ent, rest);
    if x == '&' {
    } else if x == '<' {
      NotStartsWith(e, "&amp;", 1);
    } else if x == '>' {
      NotStartsWith(e, "&amp;", 1);
      NotStartsWith(e, "&lt;", 1);
    } else if x == '"' {
      NotStartsWith(e, "&amp;", 1);
      NotStartsWith(e, "&lt;", 1);
      NotStartsWith(e, "&gt;", 1);
    } else if x == '\'' {
      NotStartsWith(e, "&amp;", 1);
      NotStartsWith(e, "&lt;", 1);
      NotStartsWith(e, "&gt;", 1);
      NotStartsWith(e, "&quot;", 1);
    } else {
      assert e[0] == x && e[1..] == rest;
      NotStartsWith(e, "&amp;", 0);
      NotStartsWith(e, "&lt;", 0);
      NotStartsWith(e, "&gt;", 0);
      NotStartsWith(e, "&quot;", 0);
      NotStartsWith(e, "&#39;", 0);
    }
  }

  lemma {:induction false} UnescapeEach(s: string)
    ensures Unescape(EscapeEach(s)) == s
  {
    if s != [] {
      UnescapeEach(s[1..]);
      UnescapeEntity(s[0], EscapeEach(s[1..]));
      assert s == [s[0]] + s[1..];
    }
  }
}
