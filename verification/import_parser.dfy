/**
  The report-text importer (`parseServices` and the import sheet around it). A pasted
  report is split into lines; after the header line each line of the form
  "dd/mm/yy <name> <payment keyword> ... R$ <price>" becomes one service record, and every
  other line is skipped.
*/
module ImportParser {
  import opened Wrappers
  import opened Text
  import opened Dates
  import opened Domain
  import opened Seqs

  const HeaderMarker: string := "data serviço método preço"
  const FallbackMarker: string := "serviços realizados"
  const OnlineKeyword: string := "pagamento online"
  const CashKeyword: string := "dinheiro"

  /** The line, trimmed and lower-cased, starts with `marker` (see `LowerStartsWithMeans`). */
  predicate IsHeaderLine(line: string, marker: string)
  {
    LowerStartsWith(Trim(line), marker)
  }

  /** The index of the first line carrying `marker`. */
  function FirstHeader(lines: seq<string>, marker: string): (r: Option<nat>)
    ensures r.Some? ==> r.value < |lines|
  {
    if lines == [] then None
    else if IsHeaderLine(lines[0], marker) then Some(0)
    else match FirstHeader(lines[1..], marker)
      case None => None
      case Some(i) => Some(i + 1)
  }

  lemma {:induction false} FirstHeaderIsFirst(lines: seq<string>, marker: string)
    ensures FirstHeader(lines, marker).Some? ==>
      var i := FirstHeader(lines, marker).value;
      IsHeaderLine(lines[i], marker) && forall j :: 0 <= j < i ==> !IsHeaderLine(lines[j], marker)
    ensures FirstHeader(lines, marker).None? ==> forall j :: 0 <= j < |lines| ==> !IsHeaderLine(lines[j], marker)
  {
    if lines != [] && !IsHeaderLine(lines[0], marker) {
      FirstHeaderIsFirst(lines[1..], marker);
      assert forall j :: 1 <= j < |lines| ==> lines[j] == lines[1..][j - 1];
    }
  }

  /** The header's index: the first line carrying the main marker, or failing any such line,
      the first carrying the fallback marker. */
  function FindHeader(lines: seq<string>): (r: Option<nat>)
    ensures r.Some? ==> r.value < |lines|
  {
    match FirstHeader(lines, HeaderMarker)
    case Some(i) => Some(i)
    case None => FirstHeader(lines, FallbackMarker)
  }

  /** The line `FindHeader` picks carries a marker, the main one whenever any line does, and
      it is the first such line; when it picks none, no line carries either marker. */
  lemma FindHeaderPicksFirst(lines: seq<string>)
    ensures FindHeader(lines).Some? ==>
      var h := FindHeader(lines).value;
      || (IsHeaderLine(lines[h], HeaderMarker) && forall j :: 0 <= j < h ==> !IsHeaderLine(lines[j], HeaderMarker))
      || (&& IsHeaderLine(lines[h], FallbackMarker)
          && (forall j :: 0 <= j < h ==> !IsHeaderLine(lines[j], FallbackMarker))
          && forall j :: 0 <= j < |lines| ==> !IsHeaderLine(lines[j], HeaderMarker))
    ensures FindHeader(lines).None? ==> forall j :: 0 <= j < |lines| ==>
      !IsHeaderLine(lines[j], HeaderMarker) && !IsHeaderLine(lines[j], FallbackMarker)
  {
    FirstHeaderIsFirst(lines, HeaderMarker);
    FirstHeaderIsFirst(lines, FallbackMarker);
  }

  /** The line starts with the token `dd/dd/dd` followed by white space. */
  predicate HasDateToken(line: string)
  {
    && |line| >= 9
    && IsDigit(line[0]) && IsDigit(line[1]) && line[2] == '/'
    && IsDigit(line[3]) && IsDigit(line[4]) && line[5] == '/'
    && IsDigit(line[6]) && IsDigit(line[7]) && IsSpace(line[8])
  }

  /** `parse(token, 'dd/MM/yy', now)`: the two-digit year is widened by `resolveYear`
      (date-fns takes the century that puts it closest to the current year); a day or month
      the calendar does not have gives no date. */
  function ReadDateToken(line: string, resolveYear: nat -> nat): (r: Option<Date>)
    requires HasDateToken(line)
    ensures r.Some? ==> r.value.day == DigitsValue(line[0..2]) && r.value.month == DigitsValue(line[3..5])
                        && r.value.year == resolveYear(DigitsValue(line[6..8]))
  {
    var c := CivilDate(resolveYear(DigitsValue(line[6..8])), DigitsValue(line[3..5]), DigitsValue(line[0..2]));
    if ValidCivil(c) then Some(c) else None
  }

  /** The keyword that decides the payment method and where it starts: whichever of the two
      keywords has the later last occurrence; `None` when neither occurs. */
  function ChooseMethod(rest: string): (r: Option<(PaymentMethod, nat)>)
    ensures r.Some? ==> OccursAt(rest, if r.value.0 == PagamentoOnline then OnlineKeyword else CashKeyword, r.value.1)
    ensures r.Some? ==> forall j :: r.value.1 < j ==> !OccursAt(rest, MethodLiteral(r.value.0), j)
    ensures r.Some? && r.value.0 == PagamentoOnline ==> forall j :: r.value.1 < j ==> !OccursAt(rest, CashKeyword, j)
    ensures r.Some? && r.value.0 == Dinheiro ==> forall j :: r.value.1 < j ==> !OccursAt(rest, OnlineKeyword, j)
    ensures r.None? ==> forall j :: !OccursAt(rest, OnlineKeyword, j) && !OccursAt(rest, CashKeyword, j)
  {
    var online := LastIndexOf(rest, OnlineKeyword);
    var cash := LastIndexOf(rest, CashKeyword);
    if online.Some? && (cash.None? || online.value > cash.value) then Some((PagamentoOnline, online.value))
    else if cash.Some? then Some((Dinheiro, cash.value))
    else None
  }

  /** A character of the regular-expression class `[\d,.]`. */
  predicate IsPriceChar(c: char)
  {
    IsDigit(c) || c == ',' || c == '.'
  }

  /** The first index at or after `j` that is not white space. */
  function SkipSpaces(s: string, j: nat): (k: nat)
    requires j <= |s|
    ensures j <= k <= |s| && (k < |s| ==> !IsSpace(s[k]))
    ensures forall m :: j <= m < k ==> IsSpace(s[m])
    decreases |s| - j
  {
    if j < |s| && IsSpace(s[j]) then SkipSpaces(s, j + 1) else j
  }

  /** The end of the run of price characters that starts at `j`. */
  function PriceRunEnd(s: string, j: nat): (k: nat)
    requires j <= |s|
    ensures j <= k <= |s| && (k < |s| ==> !IsPriceChar(s[k]))
    ensures forall m :: j <= m < k ==> IsPriceChar(s[m])
    decreases |s| - j
  {
    if j < |s| && IsPriceChar(s[j]) then PriceRunEnd(s, j + 1) else j
  }

  /** `/R\$\s*([\d,.]+)/` matches at `p`. */
  predicate PriceMatchesAt(s: string, p: nat)
  {
    OccursAt(s, "R$", p) && var q := SkipSpaces(s, p + 2); q < |s| && IsPriceChar(s[q])
  }

  /** The leftmost start at or after `p` where the price pattern matches. */
  function FirstPriceFrom(s: string, p: nat): (r: Option<nat>)
    ensures r.Some? ==> p <= r.value && PriceMatchesAt(s, r.value)
    ensures r.Some? ==> forall j :: p <= j < r.value ==> !PriceMatchesAt(s, j)
    ensures r.None? ==> forall j :: p <= j ==> !PriceMatchesAt(s, j)
    decreases |s| - p
  {
    if p + 2 > |s| then None
    else if PriceMatchesAt(s, p) then Some(p)
    else FirstPriceFrom(s, p + 1)
  }

  /** The text the pattern's group captures: the whole run of digits, commas and dots that
      follows the first `R$` (and the white space after it) where the pattern matches. */
  function PriceCapture(s: string): (r: Option<string>)
    ensures r.Some? <==> FirstPriceFrom(s, 0).Some?
    ensures r.Some? ==>
      var q := SkipSpaces(s, FirstPriceFrom(s, 0).value + 2);
      r.value == s[q..PriceRunEnd(s, q)]
    ensures r.Some? ==> r.value != [] && forall m :: 0 <= m < |r.value| ==> IsPriceChar(r.value[m])
  {
    match FirstPriceFrom(s, 0)
    case None => None
    case Some(p) =>
      var q := SkipSpaces(s, p + 2);
      Some(s[q..PriceRunEnd(s, q)])
  }

  /** No price character is white space. */
  lemma PriceCharNotSpace(c: char)
    requires IsPriceChar(c)
    ensures !IsSpace(c)
  {
  }

  /** `SkipSpaces` stops at the first non-space. */
  lemma SkipSpacesTo(s: string, j: nat, k: nat)
    requires j <= k <= |s| && (k < |s| ==> !IsSpace(s[k]))
    requires forall m :: j <= m < k ==> IsSpace(s[m])
    ensures SkipSpaces(s, j) == k
  {
  }

  /** `PriceRunEnd` stops at the first character outside the class. */
  lemma PriceRunTo(s: string, j: nat, k: nat)
    requires j <= k <= |s| && (k < |s| ==> !IsPriceChar(s[k]))
    requires forall m :: j <= m < k ==> IsPriceChar(s[m])
    ensures PriceRunEnd(s, j) == k
  {
  }

  /** A match needs a `$`, so none starts before the first `$`. */
  lemma NoMatchBefore(s: string, p: nat, j: nat)
    requires PriceMatchesAt(s, p) && j < p
    requires forall m :: 0 <= m < p ==> s[m] != '$'
    ensures !PriceMatchesAt(s, j)
  {
    assert s[p..p + 2][0] == s[p];
    assert j + 2 <= |s| ==> s[j..j + 2][1] == s[j + 1];
  }

  /** With no `$` before `p`, a match at `p` is the leftmost. */
  lemma FirstPriceIs(s: string, p: nat)
    requires PriceMatchesAt(s, p)
    requires forall m :: 0 <= m < p ==> s[m] != '$'
    ensures FirstPriceFrom(s, 0) == Some(p)
  {
    var r := FirstPriceFrom(s, 0);
    if r.Some? && r.value < p {
      NoMatchBefore(s, p, r.value);
      assert false;
    }
  }

  /** The capture when the first `R$` of the text is the one before the price: the white
      space after it is skipped and the whole run of price characters is taken. */
  lemma PriceCaptureFinds(pre: string, sp: string, run: string, tail: string)
    requires '$' !in pre
    requires forall k :: 0 <= k < |sp| ==> IsSpace(sp[k])
    requires run != [] && forall k :: 0 <= k < |run| ==> IsPriceChar(run[k])
    requires tail == [] || !IsPriceChar(tail[0])
    ensures PriceCapture(pre + "R$" + sp + run + tail) == Some(run)
  {
    var s := pre + "R$" + sp + run + tail;
    var p := |pre|;
    var q := p + 2 + |sp|;
    var e := q + |run|;
    assert s[p..p + 2] == "R$";
    assert forall k :: 0 <= k < p ==> s[k] == pre[k];
    assert forall k :: p + 2 <= k < q ==> s[k] == sp[k - p - 2];
    assert forall k :: q <= k < e ==> s[k] == run[k - q];
    assert e < |s| ==> s[e] == tail[0];
    PriceCharNotSpace(run[0]);
    SkipSpacesTo(s, p + 2, q);
    PriceRunTo(s, q, e);
    FirstPriceIs(s, p);
    assert s[q..e] == run;
  }

  /** `s.replace(c, repl)` with a one-character pattern: only the first occurrence is replaced. */
  function ReplaceFirst(s: string, c: char, repl: string): (r: string)
    ensures c !in s ==> r == s
    ensures c in s ==> exists i :: 0 <= i < |s| && s[i] == c && c !in s[..i] && r == s[..i] + repl + s[i + 1..]
  {
    match IndexOfChar(s, c)
    case None => s
    case Some(i) => s[..i] + repl + s[i + 1..]
  }

  /** The number of leading decimal digits. */
  function LeadingDigits(s: string): (n: nat)
    ensures n <= |s| && AllDigits(s[..n]) && (n < |s| ==> !IsDigit(s[n]))
  {
    if s != [] && IsDigit(s[0]) then
      var n := 1 + LeadingDigits(s[1..]);
      assert s[..n] == [s[0]] + s[1..][..n - 1];
      n
    else 0
  }

  /** `parseFloat` on text made of digits, commas and dots: the longest prefix of the form
      digits, optionally `.` and more digits, with at least one digit; `None` is NaN. */
  function ParseDecimal(s: string): (r: Option<real>)
    ensures r.Some? ==> r.value >= 0.0
    ensures r.None? <==> (s == [] || (!IsDigit(s[0]) && (s[0] != '.' || |s| == 1 || !IsDigit(s[1]))))
  {
    var n := LeadingDigits(s);
    var frac := FractionDigits(s, n);
    if n == 0 && frac == [] then None else Some(DecimalValue(s[..n], frac))
  }

  /** The digits after a point that follows the first `n` characters; none without a point. */
  function FractionDigits(s: string, n: nat): (f: string)
    requires n <= |s|
    ensures AllDigits(f)
    ensures n < |s| && s[n] == '.' ==> f == s[n + 1..][..LeadingDigits(s[n + 1..])]
    ensures (n == |s| || s[n] != '.') ==> f == []
  {
    if n < |s| && s[n] == '.' then s[n + 1..][..LeadingDigits(s[n + 1..])] else []
  }

  /** `parseFloat(capture.replace('.', '').replace(',', '.'))`. */
  function ReadPrice(capture: string): Option<real>
  {
    ParseDecimal(ReplaceFirst(ReplaceFirst(capture, '.', ""), ',', "."))
  }

  /** The decimal value of `whole` followed by the fraction digits `frac`. */
  function DecimalValue(whole: string, frac: string): real
    requires AllDigits(whole) && AllDigits(frac)
  {
    DigitsValue(whole) as real + DigitsValue(frac) as real / Pow10(|frac|) as real
  }

  /** A run of digits followed by anything else that is not a digit is read to its end. */
  lemma {:induction false} LeadingDigitsOfRun(w: string, t: string)
    requires AllDigits(w) && (t == [] || !IsDigit(t[0]))
    ensures LeadingDigits(w + t) == |w|
  {
    if w != [] {
      assert (w + t)[1..] == w[1..] + t;
      LeadingDigitsOfRun(w[1..], t);
    } else {
      assert w + t == t;
    }
  }

  /** `ParseDecimal` once the digit runs are known: `n` leading digits, a point and `m`
      more digits. */
  lemma ParseDecimalPoint(s: string, n: nat, m: nat)
    requires n < |s| && LeadingDigits(s) == n && s[n] == '.'
    requires LeadingDigits(s[n + 1..]) == m && n + m > 0
    ensures ParseDecimal(s) == Some(DecimalValue(s[..n], s[n + 1..][..m]))
  {
    assert FractionDigits(s, n) == s[n + 1..][..m];
  }

  /** `ParseDecimal` once the digit run is known: `n > 0` leading digits and no point. */
  lemma ParseDecimalNoPoint(s: string, n: nat)
    requires n <= |s| && LeadingDigits(s) == n && n > 0 && (n == |s| || s[n] != '.')
    ensures ParseDecimal(s) == Some(DigitsValue(s[..n]) as real)
  {
    assert FractionDigits(s, n) == [];
    assert DigitsValue([]) == 0 && Pow10(0) == 1;
  }

  /** `parseFloat` on digits followed by text that neither continues them nor starts a
      fraction gives the digits' value. */
  lemma ParseDecimalWhole(w: string, t: string)
    requires AllDigits(w) && w != [] && (t == [] || (!IsDigit(t[0]) && t[0] != '.'))
    ensures ParseDecimal(w + t) == Some(DigitsValue(w) as real)
  {
    LeadingDigitsOfRun(w, t);
    assert (w + t)[..|w|] == w;
    ParseDecimalNoPoint(w + t, |w|);
  }

  /** `parseFloat` on digits, a point and more digits followed by a non-digit gives the
      whole part plus the fraction. */
  lemma ParseDecimalFraction(w: string, f: string, t: string)
    requires AllDigits(w) && AllDigits(f) && w + f != [] && (t == [] || !IsDigit(t[0]))
    ensures ParseDecimal(w + ['.'] + f + t) == Some(DecimalValue(w, f))
  {
    var ft := f + t;
    var rest := ['.'] + ft;
    var s := w + rest;
    assert w + ['.'] + f + t == s;
    LeadingDigitsOfRun(w, rest);
    assert s[..|w|] == w && s[|w|] == '.' && s[|w| + 1..] == ft;
    LeadingDigitsOfRun(f, t);
    assert ft[..|f|] == f;
    ParseDecimalPoint(s, |w|, |f|);
  }

  /** Replacing the first `c` when `pre` holds none. */
  lemma ReplaceFirstAt(pre: string, c: char, post: string, repl: string)
    requires c !in pre
    ensures ReplaceFirst(pre + [c] + post, c, repl) == pre + repl + post
  {
    var s := pre + [c] + post;
    assert s[|pre|] == c;
    var i :| 0 <= i < |s| && s[i] == c && c !in s[..i] && ReplaceFirst(s, c, repl) == s[..i] + repl + s[i + 1..];
    assert i == |pre|;
    assert s[..i] == pre && s[i + 1..] == post;
  }

  /** A capture of digits only is read as a whole number. */
  lemma ReadPriceWhole(a: string)
    requires AllDigits(a) && a != []
    ensures ReadPrice(a) == Some(DigitsValue(a) as real)
  {
    assert '.' !in a && ',' !in a;
    ParseDecimalWhole(a, "");
    assert a + "" == a;
  }

  /** The capture's comma is its decimal point: "30,50" reads 30.5. */
  lemma ReadPriceComma(a: string, f: string)
    requires AllDigits(a) && AllDigits(f) && a != []
    ensures ReadPrice(a + [','] + f) == Some(DecimalValue(a, f))
  {
    var s := a + [','] + f;
    assert '.' !in s by {
      assert forall k :: 0 <= k < |s| ==> s[k] == ',' || IsDigit(s[k]);
    }
    assert ',' !in a;
    ReplaceFirstAt(a, ',', f, ".");
    ParseDecimalFraction(a, f, "");
    assert a + ['.'] + f + "" == a + "." + f;
  }

  /** The capture's dot is a thousands separator: "1.250,00" reads 1250. */
  lemma ReadPriceThousands(a: string, b: string, f: string)
    requires AllDigits(a) && AllDigits(b) && AllDigits(f) && a != []
    ensures ReadPrice(a + ['.'] + b + [','] + f) == Some(DecimalValue(a + b, f))
  {
    assert '.' !in a && ',' !in a + b;
    ReplaceFirstAt(a, '.', b + [','] + f, "");
    assert a + ['.'] + b + [','] + f == a + ['.'] + (b + [','] + f);
    assert a + "" + (b + [','] + f) == (a + b) + [','] + f;
    ReplaceFirstAt(a + b, ',', f, ".");
    ParseDecimalFraction(a + b, f, "");
    assert (a + b) + ['.'] + f + "" == (a + b) + "." + f;
  }

  datatype ImportError = InvalidTimeValue

  /** What one line after the header gives: nothing, a record, or the exception `format`
      raises for a date that does not exist. */
  datatype LineOutcome = Skipped | Parsed(data: ServiceData) | DateFailure

  /** The price read from the text that starts at the keyword; `None` when the pattern does
      not match or the number is NaN. */
  function PriceAfter(part: string): (r: Option<real>)
    ensures r.Some? ==> r.value >= 0.0
    ensures PriceCapture(part).None? ==> r.None?
    ensures PriceCapture(part).Some? ==> r == ReadPrice(PriceCapture(part).value)
  {
    match PriceCapture(part)
    case None => None
    case Some(capture) => ReadPrice(capture)
  }

  /** The price after the keyword is the number written after its first `R$`: "dinheiro
      R$45" gives 45. */
  lemma PriceAfterWhole(pre: string, sp: string, a: string, tail: string)
    requires '$' !in pre
    requires forall k :: 0 <= k < |sp| ==> IsSpace(sp[k])
    requires AllDigits(a) && a != []
    requires tail == [] || !IsPriceChar(tail[0])
    ensures PriceAfter(pre + "R$" + sp + a + tail) == Some(DigitsValue(a) as real)
  {
    PriceCaptureFinds(pre, sp, a, tail);
    ReadPriceWhole(a);
  }

  /** With a decimal comma: "dinheiro R$ 30,50" gives 30.5. */
  lemma PriceAfterComma(pre: string, sp: string, a: string, f: string, tail: string)
    requires '$' !in pre
    requires forall k :: 0 <= k < |sp| ==> IsSpace(sp[k])
    requires AllDigits(a) && AllDigits(f) && a != []
    requires tail == [] || !IsPriceChar(tail[0])
    ensures PriceAfter(pre + "R$" + sp + (a + [','] + f) + tail) == Some(DecimalValue(a, f))
  {
    var run := a + [','] + f;
    assert forall k :: 0 <= k < |run| ==> IsPriceChar(run[k]);
    PriceCaptureFinds(pre, sp, run, tail);
    ReadPriceComma(a, f);
  }

  /** With a thousands dot and a decimal comma: "dinheiro R$1.250,50" gives 1250.5. */
  lemma PriceAfterThousands(pre: string, sp: string, a: string, b: string, f: string, tail: string)
    requires '$' !in pre
    requires forall k :: 0 <= k < |sp| ==> IsSpace(sp[k])
    requires AllDigits(a) && AllDigits(b) && AllDigits(f) && a != []
    requires tail == [] || !IsPriceChar(tail[0])
    ensures PriceAfter(pre + "R$" + sp + (a + ['.'] + b + [','] + f) + tail) == Some(DecimalValue(a + b, f))
  {
    var run := a + ['.'] + b + [','] + f;
    assert forall k :: 0 <= k < |run| ==> IsPriceChar(run[k]);
    PriceCaptureFinds(pre, sp, run, tail);
    ReadPriceThousands(a, b, f);
  }

  /** The steps after the payment keyword: the name before it, the price after it, then the
      date. */
  function EntryAfterKeyword(rest: string, pm: PaymentMethod, at: nat, date: Option<Date>): (r: LineOutcome)
    requires at <= |rest| && (date.Some? ==> date.value.year >= 0)
    ensures r.Parsed? ==> r.data.paymentMethod == pm && r.data.name == Trim(rest[..at])
    ensures r.Parsed? ==> r.data.name != [] && IsTrimmed(r.data.name)
    ensures r.Parsed? ==> r.data.price >= 0.0 && |r.data.date| >= 10
    ensures r.Parsed? ==> Some(r.data.price) == PriceAfter(Trim(rest[at..]))
    ensures r.Parsed? ==> date.Some? && r.data.date == FormatIso(date.value)
    ensures !r.Skipped? <==> Trim(rest[..at]) != [] && PriceAfter(Trim(rest[at..])).Some?
    ensures r.DateFailure? ==> date.None?
  {
    var name := Trim(rest[..at]);
    var price := PriceAfter(Trim(rest[at..]));
    if price.None? || name == [] then Skipped
    else if date.None? then DateFailure
    else Parsed(ServiceData(name, price.value, pm, FormatIso(date.value)))
  }

  /** The steps after the date token, on the trimmed line. */
  function ParseEntry(line: string, resolveYear: nat -> nat): (r: LineOutcome)
    requires HasDateToken(line)
    ensures r.Parsed? ==> ChooseMethod(Trim(line[8..])).Some?
                          && r.data.paymentMethod == ChooseMethod(Trim(line[8..])).value.0
    ensures r.DateFailure? ==> ReadDateToken(line, resolveYear).None?
  {
    var rest := Trim(line[8..]);
    match ChooseMethod(rest)
    case None => Skipped
    case Some((pm, at)) => EntryAfterKeyword(rest, pm, at, ReadDateToken(line, resolveYear))
  }

  /** One iteration of the loop of `parseServices`: a line too short or without the date
      token is skipped before anything else is read. */
  function ParseLine(raw: string, resolveYear: nat -> nat): (r: LineOutcome)
    ensures !r.Skipped? ==> Utf16Length(Trim(raw)) >= 10 && HasDateToken(Trim(raw))
  {
    var line := Trim(raw);
    if Utf16Length(line) < 10 || !HasDateToken(line) then Skipped
    else ParseEntry(line, resolveYear)
  }

  /** A record's date is the date its `dd/MM/yy` token denotes, written "yyyy-MM-dd"; for
      a four-digit year, reading the stored text back gives that date again. */
  lemma ParsedDateIsTokenDate(raw: string, resolveYear: nat -> nat)
    requires ParseLine(raw, resolveYear).Parsed?
    ensures HasDateToken(Trim(raw)) && ReadDateToken(Trim(raw), resolveYear).Some?
    ensures ParseLine(raw, resolveYear).data.date == FormatIso(ReadDateToken(Trim(raw), resolveYear).value)
    ensures ReadDateToken(Trim(raw), resolveYear).value.year <= 9999 ==>
      ParseIso(ParseLine(raw, resolveYear).data.date) == ReadDateToken(Trim(raw), resolveYear)
  {
    var d := ReadDateToken(Trim(raw), resolveYear);
    if d.Some? && d.value.year <= 9999 {
      IsoRoundTrip(d.value);
    }
  }

  /** `ParseLine` as a function value, the step the loop applies to each line. */
  function LineParser(resolveYear: nat -> nat): string -> LineOutcome
  {
    (line: string) => ParseLine(line, resolveYear)
  }

  /** The outcome of every line, in order. */
  function Outcomes(lines: seq<string>, parse: string -> LineOutcome): (r: seq<LineOutcome>)
    ensures |r| == |lines|
  {
    if lines == [] then [] else Outcomes(lines[..|lines| - 1], parse) + [parse(lines[|lines| - 1])]
  }

  /** The records of a run of outcomes, stopping at the first date failure. */
  function Collect(outcomes: seq<LineOutcome>): (r: Result<seq<ServiceData>, ImportError>)
    ensures r.Ok? ==> |r.value| <= |outcomes|
  {
    if outcomes == [] then Ok([])
    else match Collect(outcomes[..|outcomes| - 1])
      case Err(e) => Err(e)
      case Ok(acc) =>
        match outcomes[|outcomes| - 1]
        case Skipped => Ok(acc)
        case DateFailure => Err(InvalidTimeValue)
        case Parsed(d) => Ok(acc + [d])
  }

  /** The records of a run of lines. */
  function ParseAll(lines: seq<string>, resolveYear: nat -> nat): (r: Result<seq<ServiceData>, ImportError>)
    ensures r.Ok? ==> |r.value| <= |lines|
  {
    Collect(Outcomes(lines, LineParser(resolveYear)))
  }

  /** The records after the header line at `start`; no header, no records. */
  function AfterHeader(lines: seq<string>, start: Option<nat>, parse: string -> LineOutcome)
    : (r: Result<seq<ServiceData>, ImportError>)
    requires start.Some? ==> start.value < |lines|
    ensures r.Ok? && start.Some? ==> |r.value| < |lines| - start.value
    ensures start.None? ==> r == Ok([])
  {
    match start
    case None => Ok([])
    case Some(h) => Collect(Outcomes(lines[h + 1..], parse))
  }

  /** `parseServices`. */
  function ParseReport(text: string, resolveYear: nat -> nat): (r: Result<seq<ServiceData>, ImportError>)
  {
    AfterHeader(SplitLines(text), FindHeader(SplitLines(text)), LineParser(resolveYear))
  }

  /** `parseServices` as the loop it is: after the header is found, each following line is
      parsed in turn, a record is appended, a failed step skips the line, and a date that does
      not exist ends the import with the exception. */
  method ParseServices(text: string, resolveYear: nat -> nat) returns (r: Result<seq<ServiceData>, ImportError>)
    ensures r == ParseReport(text, resolveYear)
  {
    var lines := SplitLines(text);
    var start := FindHeader(lines);
    r := ParseLinesAfter(lines, start, LineParser(resolveYear));
  }

  /** The loop of `parseServices`, from the line after the header to the end, for any
      per-line step `parse`. */
  method ParseLinesAfter(lines: seq<string>, start: Option<nat>, parse: string -> LineOutcome)
    returns (r: Result<seq<ServiceData>, ImportError>)
    requires start.Some? ==> start.value < |lines|
    ensures r == AfterHeader(lines, start, parse)
  {
    if start.None? {
      return Ok([]);
    }
    var h := start.value;
    var first := h + 1;
    var services: seq<ServiceData> := [];
    LoopStart(lines, h, parse);
    for i := first to |lines|
      invariant Continue(lines, i, parse, services) == AfterHeader(lines, start, parse)
    {
      var outcome := parse(lines[i]);
      if outcome.Skipped? {
        continue;
      }
      if outcome.DateFailure? {
        return Err(InvalidTimeValue);
      }
      services := services + [outcome.data];
    }
    return Ok(services);
  }

  /** What the loop gives from line `i` on, holding the records `acc` read so far. */
  function Continue(lines: seq<string>, i: nat, parse: string -> LineOutcome, acc: seq<ServiceData>)
    : (r: Result<seq<ServiceData>, ImportError>)
    requires i <= |lines|
    ensures r.Ok? ==> |acc| <= |r.value| <= |acc| + |lines| - i
    decreases |lines| - i
  {
    if i == |lines| then Ok(acc)
    else match parse(lines[i])
      case Skipped => Continue(lines, i + 1, parse, acc)
      case DateFailure => Err(InvalidTimeValue)
      case Parsed(d) => Continue(lines, i + 1, parse, acc + [d])
  }

  /** Before the first line after the header the loop has read nothing and will give
      what the import gives. */
  lemma LoopStart(lines: seq<string>, h: nat, parse: string -> LineOutcome)
    requires h < |lines|
    ensures Continue(lines, h + 1, parse, []) == AfterHeader(lines, Some(h), parse)
  {
    assert lines[h + 1..h + 1] == [];
    ContinueIsRun(lines, h + 1, h + 1, parse);
    RunIsAfterHeader(lines, h, parse);
  }

  /** Going on from line `i` with the records of lines `first` up to `i` is the whole run. */
  lemma {:induction false} ContinueIsRun(lines: seq<string>, first: nat, i: nat, parse: string -> LineOutcome)
    requires first <= i <= |lines| && RunUpTo(lines, first, i, parse).Ok?
    ensures Continue(lines, i, parse, RunUpTo(lines, first, i, parse).value) == RunUpTo(lines, first, |lines|, parse)
    decreases |lines| - i
  {
    if i < |lines| {
      RunStep(lines, first, i, parse);
      if parse(lines[i]).DateFailure? {
        RunErrorPersists(lines, first, i + 1, parse);
      } else {
        ContinueIsRun(lines, first, i + 1, parse);
      }
    }
  }

  /** The records of lines `first` up to `i`. */
  function RunUpTo(lines: seq<string>, first: nat, i: nat, parse: string -> LineOutcome)
    : Result<seq<ServiceData>, ImportError>
    requires first <= i <= |lines|
  {
    Collect(Outcomes(lines[first..i], parse))
  }

  /** One more line of the loop keeps, extends or ends its records. */
  lemma RunStep(lines: seq<string>, first: nat, i: nat, parse: string -> LineOutcome)
    requires first <= i < |lines| && RunUpTo(lines, first, i, parse).Ok?
    ensures parse(lines[i]).Skipped? ==> RunUpTo(lines, first, i + 1, parse) == RunUpTo(lines, first, i, parse)
    ensures parse(lines[i]).DateFailure? ==> RunUpTo(lines, first, i + 1, parse) == Err(InvalidTimeValue)
    ensures parse(lines[i]).Parsed? ==>
      RunUpTo(lines, first, i + 1, parse) == Ok(RunUpTo(lines, first, i, parse).value + [parse(lines[i]).data])
  {
    OutcomesStep(lines, first, i, parse);
    CollectSnoc(Outcomes(lines[first..i], parse), parse(lines[i]));
  }

  /** One more line of the loop adds its outcome at the end. */
  lemma OutcomesStep(lines: seq<string>, first: nat, i: nat, parse: string -> LineOutcome)
    requires first <= i < |lines|
    ensures Outcomes(lines[first..i + 1], parse) == Outcomes(lines[first..i], parse) + [parse(lines[i])]
  {
    assert lines[first..i + 1][..i - first] == lines[first..i];
  }

  /** One more outcome extends the records, ends the run or is skipped. */
  lemma CollectSnoc(os: seq<LineOutcome>, o: LineOutcome)
    ensures Collect(os) == Err(InvalidTimeValue) ==> Collect(os + [o]) == Err(InvalidTimeValue)
    ensures Collect(os).Ok? && o.Skipped? ==> Collect(os + [o]) == Collect(os)
    ensures Collect(os).Ok? && o.DateFailure? ==> Collect(os + [o]) == Err(InvalidTimeValue)
    ensures Collect(os).Ok? && o.Parsed? ==> Collect(os + [o]) == Ok(Collect(os).value + [o.data])
  {
    assert (os + [o])[..|os|] == os;
  }

  /** A date failure on line `i` is the result of the whole run from `first` on. */
  lemma FailureEndsParse(lines: seq<string>, h: nat, i: nat, parse: string -> LineOutcome)
    requires h < i < |lines| && parse(lines[i]).DateFailure?
    requires RunUpTo(lines, h + 1, i, parse).Ok?
    ensures AfterHeader(lines, Some(h), parse) == Err(InvalidTimeValue)
  {
    RunStep(lines, h + 1, i, parse);
    RunErrorPersists(lines, h + 1, i + 1, parse);
    RunIsAfterHeader(lines, h, parse);
  }

  /** A run that has failed by line `j` has failed at the end. */
  lemma RunErrorPersists(lines: seq<string>, first: nat, j: nat, parse: string -> LineOutcome)
    requires first <= j <= |lines| && RunUpTo(lines, first, j, parse).Err?
    ensures RunUpTo(lines, first, |lines|, parse) == RunUpTo(lines, first, j, parse)
  {
    var a := lines[first..j];
    var b := lines[j..];
    assert lines[first..|lines|] == a + b;
    OutcomesAppend(a, b, parse);
    CollectErrorPersists(Outcomes(a, parse), Outcomes(b, parse));
  }

  /** The whole run after the header is what the import gives. */
  lemma RunIsAfterHeader(lines: seq<string>, h: nat, parse: string -> LineOutcome)
    requires h < |lines|
    ensures AfterHeader(lines, Some(h), parse) == RunUpTo(lines, h + 1, |lines|, parse)
  {
    assert lines[h + 1..|lines|] == lines[h + 1..];
  }

  /** Outcomes are computed line by line. */
  lemma {:induction false} OutcomesAppend(a: seq<string>, b: seq<string>, parse: string -> LineOutcome)
    ensures Outcomes(a + b, parse) == Outcomes(a, parse) + Outcomes(b, parse)
    decreases |b|
  {
    if b == [] {
      assert a + b == a;
    } else {
      assert (a + b)[..|a + b| - 1] == a + b[..|b| - 1];
      OutcomesAppend(a, b[..|b| - 1], parse);
    }
  }

  /** Once a line has failed, the lines after it cannot repair the import. */
  lemma {:induction false} CollectErrorPersists(a: seq<LineOutcome>, b: seq<LineOutcome>)
    requires Collect(a).Err?
    ensures Collect(a + b) == Collect(a)
    decreases |b|
  {
    if b != [] {
      assert (a + b)[..|a + b| - 1] == a + b[..|b| - 1];
      CollectErrorPersists(a, b[..|b| - 1]);
    } else {
      assert a + b == a;
    }
  }

  lemma {:induction false} CollectAppend(a: seq<LineOutcome>, b: seq<LineOutcome>)
    requires Collect(a).Ok? && Collect(b).Ok?
    ensures Collect(a + b) == Ok(Collect(a).value + Collect(b).value)
    decreases |b|
  {
    if b == [] {
      assert a + b == a;
      assert Collect(a).value + [] == Collect(a).value;
    } else {
      var init := b[..|b| - 1];
      assert (a + b)[..|a + b| - 1] == a + init;
      assert (a + b)[|a + b| - 1] == b[|b| - 1];
      assert Collect(init).Ok?;
      CollectAppend(a, init);
      var ca, ci := Collect(a).value, Collect(init).value;
      match b[|b| - 1]
      case Skipped =>
      case DateFailure =>
      case Parsed(d) =>
        assert ca + (ci + [d]) == (ca + ci) + [d];
    }
  }

  /** Parsing two runs of lines one after the other gives the first run's records followed
      by the second's: records keep the order of their lines. */
  lemma ParseAllAppend(a: seq<string>, b: seq<string>, resolveYear: nat -> nat)
    requires ParseAll(a, resolveYear).Ok? && ParseAll(b, resolveYear).Ok?
    ensures ParseAll(a + b, resolveYear) == Ok(ParseAll(a, resolveYear).value + ParseAll(b, resolveYear).value)
  {
    OutcomesAppend(a, b, LineParser(resolveYear));
    CollectAppend(Outcomes(a, LineParser(resolveYear)), Outcomes(b, LineParser(resolveYear)));
  }

  /** A single outcome gives exactly its own record, or none. */
  lemma CollectOne(o: LineOutcome)
    ensures o.Skipped? ==> Collect([o]) == Ok([])
    ensures o.DateFailure? ==> Collect([o]) == Err(InvalidTimeValue)
    ensures o.Parsed? ==> Collect([o]) == Ok([o.data])
  {
    assert [o][..0] == [];
    if o.Parsed? {
      assert [] + [o.data] == [o.data];
    }
  }

  /** A single line gives exactly its own record, or none. */
  lemma ParseOneLine(line: string, resolveYear: nat -> nat)
    ensures ParseLine(line, resolveYear).Skipped? ==> ParseAll([line], resolveYear) == Ok([])
    ensures ParseLine(line, resolveYear).DateFailure? ==> ParseAll([line], resolveYear) == Err(InvalidTimeValue)
    ensures ParseLine(line, resolveYear).Parsed? ==> ParseAll([line], resolveYear) == Ok([ParseLine(line, resolveYear).data])
  {
    var parse := LineParser(resolveYear);
    assert [line][..0] == [];
    assert Outcomes([line], parse) == [parse(line)];
    CollectOne(parse(line));
  }


  /** A report without a header line imports nothing. */
  lemma NoHeaderNoRecords(text: string, resolveYear: nat -> nat)
    requires forall j :: 0 <= j < |SplitLines(text)| ==>
      !IsHeaderLine(SplitLines(text)[j], HeaderMarker) && !IsHeaderLine(SplitLines(text)[j], FallbackMarker)
    ensures ParseReport(text, resolveYear) == Ok([])
  {
    FirstHeaderIsFirst(SplitLines(text), HeaderMarker);
    FirstHeaderIsFirst(SplitLines(text), FallbackMarker);
  }

  /** The import sheet's state: the text field, its error message, the records awaiting
      confirmation, the confirmation dialog and whether the sheet is open. */
  datatype SubmitOutcome = TooShort | NothingFound | AwaitingConfirmation | Threw(e: ImportError)

  class ImportSheet {
    var text: string
    var formError: bool
    var parsed: seq<ServiceData>
    var showConfirmation: bool
    var isOpen: bool

    /** The confirmation dialog is only ever shown over a non-empty batch. */
    ghost predicate Valid()
      reads this
    {
      showConfirmation ==> parsed != []
    }

    constructor (open: bool)
      ensures Valid() && text == "" && !formError && parsed == [] && !showConfirmation && isOpen == open
    {
      text := "";
      formError := false;
      parsed := [];
      showConfirmation := false;
      isOpen := open;
    }

    /** `onSubmit` behind the form's schema: text shorter than ten characters is refused by the
        schema; otherwise a non-empty parse opens the confirmation, an empty one sets the
        field's error, and a failed date ends the submit with the exception. */
    method Submit(data: string, resolveYear: nat -> nat) returns (outcome: SubmitOutcome)
      requires Valid()
      modifies this
      ensures Valid() && text == data && isOpen == old(isOpen)
      ensures Utf16Length(data) < 10 ==>
        outcome == TooShort && formError && parsed == old(parsed) && showConfirmation == old(showConfirmation)
      ensures Utf16Length(data) >= 10 && ParseReport(data, resolveYear).Err? ==>
        outcome == Threw(ParseReport(data, resolveYear).error)
        && parsed == old(parsed) && showConfirmation == old(showConfirmation) && formError == old(formError)
      ensures Utf16Length(data) >= 10 && ParseReport(data, resolveYear) == Ok([]) ==>
        outcome == NothingFound && formError && parsed == old(parsed) && showConfirmation == old(showConfirmation)
      ensures Utf16Length(data) >= 10 && ParseReport(data, resolveYear).Ok? && ParseReport(data, resolveYear).value != [] ==>
        outcome == AwaitingConfirmation && parsed == ParseReport(data, resolveYear).value && showConfirmation
        && formError == old(formError)
    {
      text := data;
      if Utf16Length(data) < 10 {
        formError := true;
        return TooShort;
      }
      var r := ParseServices(data, resolveYear);
      if r.Err? {
        return Threw(r.error);
      }
      if |r.value| > 0 {
        parsed := r.value;
        showConfirmation := true;
        outcome := AwaitingConfirmation;
      } else {
        formError := true;
        outcome := NothingFound;
      }
    }

    /** `handleConfirmImport`: the whole batch goes out at once, the dialog and the sheet close
        and the form is reset. The batch itself is kept. */
    method ConfirmImport() returns (imported: seq<ServiceData>)
      requires Valid()
      modifies this
      ensures Valid() && imported == old(parsed) && parsed == old(parsed)
      ensures old(showConfirmation) ==> imported != []
      ensures !showConfirmation && !isOpen && text == "" && !formError
    {
      imported := parsed;
      showConfirmation := false;
      isOpen := false;
      text := "";
      formError := false;
    }

    /** `handleCloseSheet`: closing resets the form and drops the batch; opening only opens. */
    method SetOpen(open: bool)
      requires Valid()
      modifies this
      ensures Valid() && isOpen == open
      ensures !open ==> text == "" && !formError && parsed == [] && !showConfirmation
      ensures open ==> text == old(text) && formError == old(formError) && parsed == old(parsed)
                       && showConfirmation == old(showConfirmation)
    {
      if !open {
        text := "";
        formError := false;
        parsed := [];
        showConfirmation := false;
      }
      isOpen := open;
    }
  }
}
