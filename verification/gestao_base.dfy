/**
 * The pure helpers of the "Gestão da Base" collection: normalising plan
 * numbers, reading the pagination footer and the fixed-column rows of the
 * E555 terminal screen, recognising lines to skip, and the Portal PO
 * overlay and `974/20` resolution filter applied to the collected rows.
 */
module GestaoBase {
  import opened Wrappers
  import opened Text
  import opened Collections

  // ---------------------------------------------------------------- plan numbers

  /** `re.sub(r"\D", "", raw or "")`: the decimal digits of the text, in order; `None` reads as "". */
  function OnlyDigitsOf(raw: Option<string>): (r: string)
    ensures AllDigits(r)
    ensures |r| <= |raw.GetOr("")|
  {
    OnlyDigits(raw.GetOr(""))
  }

  predicate IsDigitChar(c: char) {
    IsDigit(c)
  }

  /** An independent reading: the digit filter keeps exactly the digits of the text, in order. */
  lemma {:induction false} OnlyDigitsIsFilter(s: string)
    ensures OnlyDigits(s) == Filter(s, IsDigitChar)
    decreases |s|
  {
    if s != [] {
      assert s == [s[0]] + s[1..];
      OnlyDigitsAppend([s[0]], s[1..]);
      OnlyDigitsIsFilter(s[1..]);
      if IsDigit(s[0]) {
        OnlyDigitsOfDigits([s[0]]);
      } else {
        OnlyDigitsOfNonDigits([s[0]]);
      }
    }
  }

  /** A missing value has no digits, and filtering twice changes nothing. */
  lemma OnlyDigitsOfFacts(raw: Option<string>)
    ensures OnlyDigitsOf(None) == ""
    ensures OnlyDigitsOf(Some(OnlyDigitsOf(raw))) == OnlyDigitsOf(raw)
  {
    OnlyDigitsOfDigits(OnlyDigitsOf(raw));
  }

  /** `norm_plano`: the digits of the text without leading zeros. */
  function NormPlano(raw: Option<string>): (r: string)
    ensures AllDigits(r)
    ensures r == [] || r[0] != '0'
  {
    var d := OnlyDigits(raw.GetOr(""));
    var r := LStripZeros(d);
    assert forall i :: 0 <= i < |r| ==> r[i] == d[|d| - |r| + i];
    r
  }

  /** The characters `LStripZeros` drops are all zeros. */
  lemma {:induction false} LStripZerosDropsZeros(s: string)
    ensures forall i :: 0 <= i < |s| - |LStripZeros(s)| ==> s[i] == '0'
    decreases |s|
  {
    if s != [] && s[0] == '0' {
      LStripZerosDropsZeros(s[1..]);
      assert forall i :: 1 <= i < |s| - |LStripZeros(s)| ==> s[i] == s[1..][i - 1];
    }
  }

  /** Normalising a normalised number changes nothing. */
  lemma NormPlanoIdempotent(raw: Option<string>)
    ensures NormPlano(Some(NormPlano(raw))) == NormPlano(raw)
  {
    var n := NormPlano(raw);
    OnlyDigitsOfDigits(n);
    LStripZerosIdempotent(OnlyDigits(raw.GetOr("")));
  }

  /** Normalisation keeps the numeric value of the digits it reads. */
  lemma NormPlanoValue(raw: Option<string>)
    ensures ParseNat(NormPlano(raw)) == ParseNat(OnlyDigitsOf(raw))
  {
    var d := OnlyDigits(raw.GetOr(""));
    var r := LStripZeros(d);
    LStripZerosDropsZeros(d);
    var z := d[..|d| - |r|];
    assert d == z + r;
    ParseNatLeadingZeros(z, r);
  }

  /** The normalised number is empty exactly when the text holds no digit other than zeros. */
  lemma NormPlanoEmpty(raw: Option<string>)
    ensures NormPlano(raw) == "" <==> forall i :: 0 <= i < |OnlyDigitsOf(raw)| ==> OnlyDigitsOf(raw)[i] == '0'
  {
    var d := OnlyDigits(raw.GetOr(""));
    assert OnlyDigitsOf(raw) == d;
    LStripZerosDropsZeros(d);
    var r := LStripZeros(d);
    if r != "" {
      assert r[0] == d[|d| - |r|];
    }
  }

  // ---------------------------------------------------------------- pagination footer

  /** The number of whitespace characters at the start of `s`. */
  function SpacesLen(s: string): (n: nat)
    ensures n <= |s|
    ensures forall k :: 0 <= k < n ==> IsSpace(s[k])
    ensures n == |s| || !IsSpace(s[n])
  {
    if s != [] && IsSpace(s[0]) then 1 + SpacesLen(s[1..]) else 0
  }

  /** The number of digits at the start of `s`. */
  function DigitsLen(s: string): (n: nat)
    ensures n <= |s|
    ensures AllDigits(s[..n])
    ensures n == |s| || !IsDigit(s[n])
  {
    if s != [] && IsDigit(s[0]) then
      var n := 1 + DigitsLen(s[1..]);
      assert s[..n] == [s[0]] + s[1..][..n - 1];
      n
    else 0
  }

  /** `\s+`, greedy: what follows the whitespace at the start of `s`, when there is any. */
  function Gap(s: string): (r: Option<string>)
    ensures r.Some? ==> |r.value| < |s|
  {
    var n := SpacesLen(s);
    if n == 0 then None else Some(s[n..])
  }

  /** The literal `w` at the start of `s`: what follows it. */
  function Word(s: string, w: string): (r: Option<string>)
    ensures r.Some? ==> s == w + r.value
  {
    if StartsWith(s, w) then Some(s[|w|..]) else None
  }

  /** `\s+(\d+)`, greedy: the number and what follows its digits. */
  function Field(s: string): (r: Option<(nat, string)>)
  {
    match Gap(s)
    case None => None
    case Some(t) =>
      var n := DigitsLen(t);
      if n == 0 then None else Some((ParseNat(t[..n]), t[n..]))
  }

  /** `\s+w`: what follows the word after the whitespace. */
  function Keyword(s: string, w: string): (r: Option<string>)
  {
    match Gap(s)
    case None => None
    case Some(t) => Word(t, w)
  }

  /**
   * The numbers of `Linhas\s+(\d+)\s+a\s+(\d+)\s+de\s+(\d+)` when the pattern
   * matches at the start of `s`. Every greedy run is followed by a character
   * of another class, so backtracking never helps: the pattern matches
   * exactly when the maximal runs line up.
   */
  function MatchPrefix(s: string): (r: Option<(nat, nat, nat)>)
  {
    match Word(s, "Linhas")
    case None => None
    case Some(s1) => AfterLinhas(s1)
  }

  /** The rest of the pattern after "Linhas": `\s+(\d+)\s+a…`. */
  function AfterLinhas(s1: string): (r: Option<(nat, nat, nat)>)
  {
    match Field(s1)
    case None => None
    case Some((x, s2)) => AfterX(x, s2)
  }

  /** The rest of the pattern after the first number: `\s+a\s+(\d+)…`. */
  function AfterX(x: nat, s2: string): (r: Option<(nat, nat, nat)>)
  {
    match Keyword(s2, "a")
    case None => None
    case Some(s3) => AfterA(x, s3)
  }

  /** The rest of the pattern after "a": `\s+(\d+)\s+de…`. */
  function AfterA(x: nat, s3: string): (r: Option<(nat, nat, nat)>)
  {
    match Field(s3)
    case None => None
    case Some((y, s4)) => AfterY(x, y, s4)
  }

  /** The rest of the pattern after the second number: `\s+de\s+(\d+)`. */
  function AfterY(x: nat, y: nat, s4: string): (r: Option<(nat, nat, nat)>)
  {
    match Keyword(s4, "de")
    case None => None
    case Some(s5) => AfterDe(x, y, s5)
  }

  /** The last number, after "de"; what follows it does not matter. */
  function AfterDe(x: nat, y: nat, s5: string): (r: Option<(nat, nat, nat)>)
  {
    match Field(s5)
    case None => None
    case Some((z, _)) => Some((x, y, z))
  }

  /** The outcome of the pattern at every start position `0..|t|`. */
  function Candidates(t: string): (r: seq<Option<(nat, nat, nat)>>)
    ensures |r| == |t| + 1
    ensures forall j :: 0 <= j <= |t| ==> r[j] == MatchPrefix(t[j..])
  {
    seq(|t| + 1, j requires 0 <= j <= |t| => MatchPrefix(t[j..]))
  }

  /** `re.search` over the candidates from position `i`: the leftmost match, if any. */
  function FirstSome<T>(ms: seq<Option<T>>, i: nat): (r: Option<T>)
    requires i <= |ms|
    decreases |ms| - i
  {
    if i == |ms| then None
    else if ms[i].Some? then ms[i]
    else FirstSome(ms, i + 1)
  }

  /** The search fails exactly when no candidate from `i` on matches. */
  lemma {:induction false} FirstSomeNone<T>(ms: seq<Option<T>>, i: nat)
    requires i <= |ms|
    ensures FirstSome(ms, i).None? <==> forall j :: i <= j < |ms| ==> ms[j].None?
    decreases |ms| - i
  {
    if i < |ms| && ms[i].None? {
      FirstSomeNone(ms, i + 1);
    }
  }

  /** The search returns the leftmost matching candidate. */
  lemma {:induction false} FirstSomeLeftmost<T>(ms: seq<Option<T>>, i: nat, j: nat)
    requires i <= j < |ms| && ms[j].Some?
    requires forall k :: i <= k < j ==> ms[k].None?
    ensures FirstSome(ms, i) == ms[j]
    decreases j - i
  {
    if i < j {
      FirstSomeLeftmost(ms, i + 1, j);
    }
  }

  /** The message of the `ValueError` raised when the footer has no pagination. */
  function PaginationError(texto: Option<string>): string {
    "Formato inválido de paginação: '" + (match texto case None => "None" case Some(s) => s) + "'"
  }

  /**
   * `parse_pagination`: `(x, y, z)` from the leftmost "Linhas x a y de z",
   * or the error when the text has none. (The source swaps `y` for `z` when
   * the two are equal, which leaves the triple as it was.)
   */
  function ParsePagination(texto: Option<string>): (r: Result<(nat, nat, nat), string>)
    ensures r.Err? ==> r.error == PaginationError(texto)
  {
    var t := texto.GetOr("");
    match FirstSome(Candidates(t), 0)
    case None => Err(PaginationError(texto))
    case Some(g) =>
      var (x, y, z) := g;
      Ok(if y == z then (x, z, z) else (x, y, z))
  }

  /** The footer is rejected exactly when the pattern matches at no position of it. */
  lemma PaginationFails(texto: Option<string>)
    ensures ParsePagination(texto).Err? <==> forall j :: 0 <= j <= |texto.GetOr("")| ==> MatchPrefix(texto.GetOr("")[j..]).None?
  {
    FirstSomeNone(Candidates(texto.GetOr("")), 0);
  }

  /** When the pattern first matches at position `j`, its three numbers are the result. */
  lemma PaginationLeftmost(texto: Option<string>, j: nat)
    requires j <= |texto.GetOr("")|
    requires MatchPrefix(texto.GetOr("")[j..]).Some?
    requires forall k :: 0 <= k < j ==> MatchPrefix(texto.GetOr("")[k..]).None?
    ensures ParsePagination(texto) == Ok(MatchPrefix(texto.GetOr("")[j..]).value)
  {
    var t := texto.GetOr("");
    var ms := Candidates(t);
    assert ms[j] == MatchPrefix(t[j..]);
    forall k | 0 <= k < j
      ensures ms[k].None?
    {
      assert ms[k] == MatchPrefix(t[k..]);
    }
    FirstSomeLeftmost(ms, 0, j);
    assert FirstSome(ms, 0) == ms[j];
  }

  /** The footer as the screen prints it: "Linhas x a y de z". */
  function RenderPagination(x: nat, y: nat, z: nat): string {
    "Linhas" + (" " + (NatToString(x) + (" " + ("a" + (" " + (NatToString(y) + (" " + ("de" + (" " + NatToString(z))))))))))
  }

  /** One space before a non-space character is a gap of one. */
  lemma GapOne(r: string)
    requires r != [] && !IsSpace(r[0])
    ensures Gap(" " + r) == Some(r)
  {
    assert (" " + r)[1..] == r;
  }

  /** A space, then digits, then something that is not a digit, reads as the digits' number. */
  lemma FieldOf(d: string, r: string)
    requires d != [] && AllDigits(d) && (r == [] || !IsDigit(r[0]))
    ensures Field(" " + (d + r)) == Some((ParseNat(d), r))
  {
    GapOne(d + r);
    DigitsLenOf(d, r);
    assert (d + r)[..|d|] == d;
    assert (d + r)[|d|..] == r;
  }

  lemma {:induction false} DigitsLenOf(d: string, r: string)
    requires AllDigits(d) && (r == [] || !IsDigit(r[0]))
    ensures DigitsLen(d + r) == |d|
    decreases |d|
  {
    if d == [] {
      assert d + r == r;
    } else {
      assert (d + r)[1..] == d[1..] + r;
      DigitsLenOf(d[1..], r);
    }
  }

  /** A space, then the word `w`: what follows the word. */
  lemma KeywordOf(w: string, r: string)
    requires w != [] && !IsSpace(w[0])
    ensures Keyword(" " + (w + r), w) == Some(r)
  {
    GapOne(w + r);
    assert (w + r)[..|w|] == w;
    assert (w + r)[|w|..] == r;
  }

  /** Reading a printed footer gives back its three numbers. */
  lemma ParsePaginationRender(x: nat, y: nat, z: nat)
    ensures ParsePagination(Some(RenderPagination(x, y, z))) == Ok((x, y, z))
  {
    var t := RenderPagination(x, y, z);
    FooterMatches(NatToString(x), NatToString(y), NatToString(z));
    ParseNatToString(x);
    ParseNatToString(y);
    ParseNatToString(z);
    assert t[0..] == t;
    PaginationLeftmost(Some(t), 0);
  }

  /** The footer printed from three digit strings matches with their values. */
  lemma FooterMatches(sx: string, sy: string, sz: string)
    requires sx != [] && sy != [] && sz != [] && AllDigits(sx) && AllDigits(sy) && AllDigits(sz)
    ensures MatchPrefix("Linhas" + (" " + (sx + (" " + ("a" + (" " + (sy + (" " + ("de" + (" " + sz)))))))))) == Some((ParseNat(sx), ParseNat(sy), ParseNat(sz)))
  {
    var x, y, z := ParseNat(sx), ParseNat(sy), ParseNat(sz);
    var r4 := " " + sz;
    var r3 := " " + ("de" + r4);
    var r2 := " " + (sy + r3);
    var r1 := " " + ("a" + r2);
    var s := "Linhas" + (" " + (sx + r1));
    assert sz + [] == sz;
    FieldOf(sz, []);
    assert AfterDe(x, y, r4) == Some((x, y, z));
    KeywordOf("de", r4);
    assert AfterY(x, y, r3) == Some((x, y, z));
    FieldOf(sy, r3);
    assert AfterA(x, r2) == Some((x, y, z));
    KeywordOf("a", r2);
    assert AfterX(x, r1) == Some((x, y, z));
    FieldOf(sx, r1);
    assert AfterLinhas(" " + (sx + r1)) == Some((x, y, z));
    assert s[..6] == "Linhas" && s[6..] == " " + (sx + r1);
  }

  // ---------------------------------------------------------------- rows of the E555 screen

  /** When the text from `a` on is `x + l`, the piece `[a:a+|x|]` is `x` and what follows is `l`. */
  lemma Column(line: string, a: nat, x: string, l: string)
    requires a <= |line| && line[a..] == x + l
    ensures a + |x| <= |line| && line[a..a + |x|] == x && line[a + |x|..] == l
    ensures forall k :: 0 <= k < |x| ==> line[a + k] == x[k]
  {
    assert line[a..a + |x|] == line[a..][..|x|];
    assert line[a + |x|..] == line[a..][|x|..];
    assert forall k :: 0 <= k < |x| ==> line[a + k] == line[a..][k];
  }

  /** One row of the plan list (`PlanRow`). */
  datatype PlanRow = PlanRow(numero: string, dtPropost: string, tipo: string, situac: string, resoluc: string, nome: string)

  /** Python's `s[a:b]` for `0 <= a <= b`: bounds past the end are clamped. */
  function Slice(s: string, a: nat, b: nat): (r: string)
    requires a <= b
    ensures |r| == (if b <= |s| then b - a else if a <= |s| then |s| - a else 0)
    ensures forall k :: 0 <= k < |r| ==> r[k] == s[a + k]
  {
    var lo := if a <= |s| then a else |s|;
    var hi := if b <= |s| then b else |s|;
    s[lo..hi]
  }

  /** Python's `s[a:]`. */
  function SliceFrom(s: string, a: nat): (r: string)
    ensures |r| == (if a <= |s| then |s| - a else 0)
    ensures forall k :: 0 <= k < |r| ==> r[k] == s[a + k]
  {
    if a <= |s| then s[a..] else []
  }

  /**
   * `parse_line`: the stripped fixed columns `[2:13]`, `[14:26]`, `[27:30]`,
   * `[31:41]`, `[42:49]` and `[54:]`; no row when the number column is blank.
   */
  function ParseLine(raw: string): (r: Option<PlanRow>)
    ensures r.None? <==> Strip(Slice(raw, 2, 13)) == ""
    ensures r.Some? ==> r.value.numero != "" && IsStripped(r.value.numero) && IsStripped(r.value.dtPropost)
    ensures r.Some? ==> IsStripped(r.value.tipo) && IsStripped(r.value.situac)
    ensures r.Some? ==> IsStripped(r.value.resoluc) && IsStripped(r.value.nome)
  {
    var numero := Strip(Slice(raw, 2, 13));
    if numero == "" then None
    else Some(PlanRow(numero, Strip(Slice(raw, 14, 26)), Strip(Slice(raw, 27, 30)),
                      Strip(Slice(raw, 31, 41)), Strip(Slice(raw, 42, 49)), Strip(SliceFrom(raw, 54))))
  }

  /** `s` padded on the right with spaces to `w` characters. */
  function PadRight(s: string, w: nat): (r: string)
    requires |s| <= w
    ensures |r| == w && r[..|s|] == s
  {
    s + Repeat(' ', w - |s|)
  }

  /** A row the screen can print: stripped fields that fit their columns and a non-blank number. */
  predicate Printable(row: PlanRow) {
    && row.numero != [] && IsStripped(row.numero) && |row.numero| <= 11
    && IsStripped(row.dtPropost) && |row.dtPropost| <= 12
    && IsStripped(row.tipo) && |row.tipo| <= 3
    && IsStripped(row.situac) && |row.situac| <= 10
    && IsStripped(row.resoluc) && |row.resoluc| <= 7
    && IsStripped(row.nome)
  }

  /** The screen line of a row, each field in its column. */
  function FormatLine(row: PlanRow): (r: string)
    requires Printable(row)
    ensures |r| == 54 + |row.nome|
  {
    "  " + (PadRight(row.numero, 11) + (" " + (PadRight(row.dtPropost, 12) + (" " + (PadRight(row.tipo, 3)
    + (" " + (PadRight(row.situac, 10) + (" " + (PadRight(row.resoluc, 7) + ("     " + row.nome))))))))))
  }

  /** A padded field strips back to the field. */
  lemma StripPadRight(s: string, w: nat)
    requires IsStripped(s) && |s| <= w
    ensures Strip(PadRight(s, w)) == s
  {
    StripSpaceSuffix(s, Repeat(' ', w - |s|));
    StripOfStripped(s);
  }

  /** The column `[a:a+w]` of a line that holds `PadRight(s, w)` there strips to `s`. */
  lemma ColumnField(line: string, a: nat, s: string, w: nat)
    requires IsStripped(s) && |s| <= w && a + w <= |line|
    requires line[a..a + w] == PadRight(s, w)
    ensures Strip(Slice(line, a, a + w)) == s
  {
    StripPadRight(s, w);
  }

  /** Parsing a printed row gives the row back. */
  lemma ParseFormatLine(row: PlanRow)
    requires Printable(row)
    ensures ParseLine(FormatLine(row)) == Some(row)
  {
    var line := FormatLine(row);
    var nome := row.nome;
    var r := PadRight(row.resoluc, 7);
    var si := PadRight(row.situac, 10);
    var tp := PadRight(row.tipo, 3);
    var dt := PadRight(row.dtPropost, 12);
    var nu := PadRight(row.numero, 11);
    var l5 := "     " + nome;
    var l4 := " " + (r + l5);
    var l3 := " " + (si + l4);
    var l2 := " " + (tp + l3);
    var l1 := " " + (dt + l2);
    Column(line, 0, "  ", nu + l1);
    Column(line, 2, nu, l1);
    Column(line, 13, " ", dt + l2);
    Column(line, 14, dt, l2);
    Column(line, 26, " ", tp + l3);
    Column(line, 27, tp, l3);
    Column(line, 30, " ", si + l4);
    Column(line, 31, si, l4);
    Column(line, 41, " ", r + l5);
    Column(line, 42, r, l5);
    Column(line, 49, "     ", nome);
    ColumnField(line, 2, row.numero, 11);
    ColumnField(line, 14, row.dtPropost, 12);
    ColumnField(line, 27, row.tipo, 3);
    ColumnField(line, 31, row.situac, 10);
    ColumnField(line, 42, row.resoluc, 7);
    assert SliceFrom(line, 54) == nome;
    StripOfStripped(nome);
  }

  // ---------------------------------------------------------------- lines to skip

  /** `should_skip_line`: blank lines, the "Sel" prompt and the "Prox.Trans." field. */
  function ShouldSkipLine(raw: Option<string>): (r: bool)
    ensures raw.None? ==> r
  {
    var t := Strip(raw.GetOr(""));
    t == "" || StartsWith(t, "Sel") || StartsWith(t, "Prox.Trans.")
  }

  /** Surrounding whitespace does not change the decision. */
  lemma ShouldSkipPadding(p: string, s: string, q: string)
    requires AllSpace(p) && AllSpace(q)
    ensures ShouldSkipLine(Some(p + s + q)) == ShouldSkipLine(Some(s))
  {
    StripPadding(p, s, q);
  }

  /** Leading whitespace aside, a text that starts with a non-space character strips to a text that starts with it. */
  lemma StripFirst(p: string, s: string)
    requires AllSpace(p) && s != [] && !IsSpace(s[0])
    ensures Strip(p + s) != [] && Strip(p + s)[0] == s[0]
  {
    LStripSpacePrefix(p, s);
    assert LStrip(s) == s;
    assert Strip(p + s) == RStrip(s);
    RStripKeeps(s, 1);
    assert RStrip(s)[..1] == s[..1];
  }

  /** A printed row whose number starts with a digit is parsed and never skipped. */
  lemma FormattedRowNotSkipped(row: PlanRow)
    requires Printable(row) && IsDigit(row.numero[0])
    ensures !ShouldSkipLine(Some(FormatLine(row)))
    ensures ParseLine(FormatLine(row)) == Some(row)
  {
    var line := FormatLine(row);
    Column(line, 0, "  ", line[2..]);
    assert line == "  " + line[2..];
    assert line[2] == row.numero[0];
    DigitLineNotSkipped("  ", line[2..]);
    ParseFormatLine(row);
  }

  /** A line whose first non-blank character is a digit is not skipped. */
  lemma DigitLineNotSkipped(p: string, s: string)
    requires AllSpace(p) && s != [] && IsDigit(s[0])
    ensures !ShouldSkipLine(Some(p + s))
  {
    StripFirst(p, s);
    var t := Strip(p + s);
    DigitNotPrefix(t, "Sel");
    DigitNotPrefix(t, "Prox.Trans.");
  }

  /** A text that starts with a digit does not start with a word that does not. */
  lemma DigitNotPrefix(t: string, w: string)
    requires t != [] && IsDigit(t[0]) && w != [] && !IsDigit(w[0])
    ensures !StartsWith(t, w)
  {
    if |t| >= |w| {
      assert t[..|w|][0] == t[0];
    }
  }

  /** Right-stripping keeps every character up to the last non-blank one. */
  lemma RStripKeeps(x: string, n: nat)
    requires 0 < n <= |x| && !IsSpace(x[n - 1])
    ensures |RStrip(x)| >= n && RStrip(x)[..n] == x[..n]
  {
  }

  /** A text made of blanks, a word without blanks at its ends and anything else strips to a text starting with the word. */
  lemma StripStartsWith(p: string, w: string, s: string)
    requires AllSpace(p) && w != [] && !IsSpace(w[0]) && !IsSpace(w[|w| - 1])
    ensures StartsWith(Strip(p + (w + s)), w)
  {
    var x := w + s;
    LStripSpacePrefix(p, x);
    assert LStrip(x) == x;
    assert x[|w| - 1] == w[|w| - 1];
    RStripKeeps(x, |w|);
    assert x[..|w|] == w;
  }

  /** A line holding the "Sel" prompt or the "Prox.Trans." field, whatever surrounds it, is skipped. */
  lemma ShouldSkipPrompt(p: string, w: string, s: string)
    requires AllSpace(p) && (w == "Sel" || w == "Prox.Trans.")
    ensures ShouldSkipLine(Some(p + (w + s)))
  {
    StripStartsWith(p, w, s);
  }

  // ---------------------------------------------------------------- Portal PO overlay

  /** One Portal PO record: its `Plano` and `Tipo` entries (`None` when the key is missing). */
  datatype PoRecord = PoRecord(plano: Option<string>, tipo: Option<string>)

  /** `build_tipo_map`: normalised plan to stripped type; later records win; blank plans are ignored. */
  function BuildTipoMap(recs: seq<PoRecord>): (m: map<string, string>)
    ensures forall k :: k in m ==> k != ""
    decreases |recs|
  {
    if recs == [] then map[]
    else
      var m := BuildTipoMap(recs[..|recs| - 1]);
      var last := recs[|recs| - 1];
      var k := NormPlano(last.plano);
      if k != "" then m[k := Strip(last.tipo.GetOr(""))] else m
  }

  /** The normalised plans of the records, in order. */
  function Keys(recs: seq<PoRecord>): (r: seq<string>)
    ensures |r| == |recs|
    ensures forall i :: 0 <= i < |recs| ==> r[i] == NormPlano(recs[i].plano)
  {
    seq(|recs|, i requires 0 <= i < |recs| => NormPlano(recs[i].plano))
  }

  /** The keys are exactly the non-blank normalised plans of the records. */
  lemma {:induction false} TipoMapKeys(recs: seq<PoRecord>, k: string)
    ensures k in BuildTipoMap(recs) <==> k != "" && k in Keys(recs)
    decreases |recs|
  {
    if recs != [] {
      var init := recs[..|recs| - 1];
      TipoMapKeys(init, k);
      KeysSnoc(recs, k);
      TipoMapSnoc(recs, k);
    }
  }

  lemma KeysSnoc(recs: seq<PoRecord>, k: string)
    requires recs != []
    ensures k in Keys(recs) <==> k in Keys(recs[..|recs| - 1]) || k == NormPlano(recs[|recs| - 1].plano)
  {
    assert Keys(recs) == Keys(recs[..|recs| - 1]) + [NormPlano(recs[|recs| - 1].plano)];
  }

  lemma TipoMapSnoc(recs: seq<PoRecord>, k: string)
    requires recs != []
    ensures var kl := NormPlano(recs[|recs| - 1].plano);
      k in BuildTipoMap(recs) <==> k in BuildTipoMap(recs[..|recs| - 1]) || (k == kl && kl != "")
  {
  }

  /** A plan's type is the one of the last record that normalises to it. */
  lemma {:induction false} TipoMapLastWins(recs: seq<PoRecord>, i: nat)
    requires i < |recs| && NormPlano(recs[i].plano) != ""
    requires forall j :: i < j < |recs| ==> NormPlano(recs[j].plano) != NormPlano(recs[i].plano)
    ensures NormPlano(recs[i].plano) in BuildTipoMap(recs)
    ensures BuildTipoMap(recs)[NormPlano(recs[i].plano)] == Strip(recs[i].tipo.GetOr(""))
    decreases |recs|
  {
    var init := recs[..|recs| - 1];
    var last := recs[|recs| - 1];
    if i < |recs| - 1 {
      assert init[i] == recs[i];
      assert forall j :: i < j < |init| ==> init[j] == recs[j];
      TipoMapLastWins(init, i);
      assert NormPlano(last.plano) != NormPlano(recs[i].plano);
    } else {
      assert last == recs[i];
    }
  }

  /** The situation written on rows listed by the Portal PO. */
  const NovaSit := "SIT. ESPECIAL (Portal PO)"

  /** `aplica_sit_especial_planrows`: rows whose normalised number is a key get the special situation. */
  function AplicaSitEspecial(rows: seq<PlanRow>, tipos: map<string, string>): (r: seq<PlanRow>)
    ensures |r| == |rows|
    ensures forall i :: 0 <= i < |rows| ==> r[i].(situac := rows[i].situac) == rows[i]
    ensures forall i :: 0 <= i < |rows| ==> r[i].situac == (if NormPlano(Some(rows[i].numero)) in tipos then NovaSit else rows[i].situac)
  {
    seq(|rows|, i requires 0 <= i < |rows| =>
      if NormPlano(Some(rows[i].numero)) in tipos then rows[i].(situac := NovaSit) else rows[i])
  }

  /** Applying the overlay twice is applying it once. */
  lemma AplicaIdempotent(rows: seq<PlanRow>, tipos: map<string, string>)
    ensures AplicaSitEspecial(AplicaSitEspecial(rows, tipos), tipos) == AplicaSitEspecial(rows, tipos)
  {
  }

  /** An empty map changes nothing. */
  lemma AplicaEmpty(rows: seq<PlanRow>)
    ensures AplicaSitEspecial(rows, map[]) == rows
  {
  }

  /** The overlay works row by row, so it distributes over concatenation. */
  lemma AplicaAppend(a: seq<PlanRow>, b: seq<PlanRow>, tipos: map<string, string>)
    ensures AplicaSitEspecial(a + b, tipos) == AplicaSitEspecial(a, tipos) + AplicaSitEspecial(b, tipos)
  {
  }

  // ---------------------------------------------------------------- the 974/20 filter

  /** The resolution whose plans are dropped from the collection. */
  const ResolucaoDescartar := "974/20"

  predicate Mantida(row: PlanRow) {
    row.resoluc != ResolucaoDescartar
  }

  /** The number of rows under the discarded resolution. */
  function CountDescartar(rows: seq<PlanRow>): (n: nat)
    ensures n <= |rows|
  {
    if rows == [] then 0
    else (if rows[0].resoluc == ResolucaoDescartar then 1 else 0) + CountDescartar(rows[1..])
  }

  /** The filter of `run_pipeline`: the kept rows and `descartados_974`. */
  function FiltrarResolucao(rows: seq<PlanRow>): (r: (seq<PlanRow>, nat))
    ensures forall i :: 0 <= i < |r.0| ==> r.0[i].resoluc != ResolucaoDescartar && r.0[i] in rows
    ensures forall i :: 0 <= i < |rows| && rows[i].resoluc != ResolucaoDescartar ==> rows[i] in r.0
    ensures |r.0| + r.1 == |rows|
  {
    var kept := Filter(rows, Mantida);
    (kept, |rows| - |kept|)
  }

  /** The number discarded is the number of rows under the resolution. */
  lemma {:induction false} DescartadosCount(rows: seq<PlanRow>)
    ensures FiltrarResolucao(rows).1 == CountDescartar(rows)
    decreases |rows|
  {
    if rows != [] {
      DescartadosCount(rows[1..]);
    }
  }

  /** The kept rows keep their order: the filter of a concatenation is the concatenation of the filters. */
  lemma FiltrarAppend(a: seq<PlanRow>, b: seq<PlanRow>)
    ensures FiltrarResolucao(a + b).0 == FiltrarResolucao(a).0 + FiltrarResolucao(b).0
    ensures FiltrarResolucao(a + b).1 == FiltrarResolucao(a).1 + FiltrarResolucao(b).1
  {
    FilterAppend(a, b, Mantida);
  }

  /** Without rows under the resolution, nothing is dropped. */
  lemma FiltrarNone(rows: seq<PlanRow>)
    ensures FiltrarResolucao(rows) == (rows, 0) <==> forall i :: 0 <= i < |rows| ==> rows[i].resoluc != ResolucaoDescartar
  {
    FilterAll(rows, Mantida);
  }

  /** The overlay of one row keeps its resolution, so the filter keeps it or drops it either way. */
  lemma FiltrarAplicaOne(row: PlanRow, tipos: map<string, string>)
    ensures Filter(AplicaSitEspecial([row], tipos), Mantida) == AplicaSitEspecial(Filter([row], Mantida), tipos)
  {
    var ap := AplicaSitEspecial([row], tipos);
    assert ap == [ap[0]] && Mantida(ap[0]) == Mantida(row);
    FilterOne(row, Mantida);
    FilterOne(ap[0], Mantida);
    if !Mantida(row) {
      assert AplicaSitEspecial([], tipos) == [];
    }
  }

  /** The overlay does not touch `resoluc`, so it commutes with the filter. */
  lemma {:induction false} FiltrarAplica(rows: seq<PlanRow>, tipos: map<string, string>)
    ensures Filter(AplicaSitEspecial(rows, tipos), Mantida) == AplicaSitEspecial(Filter(rows, Mantida), tipos)
    decreases |rows|
  {
    if rows != [] {
      var head, rest := [rows[0]], rows[1..];
      assert rows == head + rest;
      calc {
        Filter(AplicaSitEspecial(rows, tipos), Mantida);
        { AplicaAppend(head, rest, tipos); }
        Filter(AplicaSitEspecial(head, tipos) + AplicaSitEspecial(rest, tipos), Mantida);
        { FilterAppend(AplicaSitEspecial(head, tipos), AplicaSitEspecial(rest, tipos), Mantida); }
        Filter(AplicaSitEspecial(head, tipos), Mantida) + Filter(AplicaSitEspecial(rest, tipos), Mantida);
        { FiltrarAplicaOne(rows[0], tipos); FiltrarAplica(rest, tipos); }
        AplicaSitEspecial(Filter(head, Mantida), tipos) + AplicaSitEspecial(Filter(rest, Mantida), tipos);
        { AplicaAppend(Filter(head, Mantida), Filter(rest, Mantida), tipos); }
        AplicaSitEspecial(Filter(head, Mantida) + Filter(rest, Mantida), tipos);
        { FilterAppend(head, rest, Mantida); }
        AplicaSitEspecial(Filter(rows, Mantida), tipos);
      }
    }
  }

  /**
   * The last steps of `run_pipeline`: drop the `974/20` rows, build the type
   * map only when the Portal PO returned records, and apply the overlay only
   * when the map is non-empty.
   */
  function AjustarDados(allRows: seq<PlanRow>, portal: seq<PoRecord>): (r: (seq<PlanRow>, nat))
    ensures |r.0| + r.1 == |allRows|
  {
    var (kept, descartados) := FiltrarResolucao(allRows);
    var tipos := if portal != [] then BuildTipoMap(portal) else map[];
    (if tipos != map[] then AplicaSitEspecial(kept, tipos) else kept, descartados)
  }

  /** The two shortcuts are only shortcuts: the result is the overlay of the filtered rows. */
  lemma AjustarDadosUniform(allRows: seq<PlanRow>, portal: seq<PoRecord>)
    ensures AjustarDados(allRows, portal).0 == AplicaSitEspecial(FiltrarResolucao(allRows).0, BuildTipoMap(portal))
    ensures AjustarDados(allRows, portal).0 == FiltrarResolucao(AplicaSitEspecial(allRows, BuildTipoMap(portal))).0
    ensures AjustarDados(allRows, portal).1 == CountDescartar(allRows)
  {
    AplicaEmpty(FiltrarResolucao(allRows).0);
    FiltrarAplica(allRows, BuildTipoMap(portal));
    DescartadosCount(allRows);
  }
}
