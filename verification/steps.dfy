/**
 * The step catalogue exposed to callers: per-step metadata, the default
 * execution order, and parsing, normalisation and deduplication of
 * user-supplied step codes.
 *
 * The string value of each `Step` member is not part of this model, so the
 * operations that consult it take it as the parameter `value`.
 */
module Steps {
  import opened Wrappers
  import opened Text
  import opened Collections
  import opened Enums
  import opened StageTables

  // ---------------------------------------------------------------- step numbers

  /** `_step_number` on a member name: the integer after `ETAPA_` and before the next `_`, or 0. */
  function StepNumberOfName(name: string): nat
  {
    var value := if StartsWith(name, StepPrefix) then name[|StepPrefix|..] else name;
    var head := Split(value, '_')[0];
    match ParseDigits(head)
    case Some(k) => k
    case None => 0
  }

  function StepNumber(s: Step): nat {
    StepNumberOfName(StepName(s))
  }

  /** A member's number is the one its name carries. */
  lemma StepNumberIsOrdinal(s: Step)
    ensures StepNumber(s) == Ordinal(s)
  {
    StepNameDigits(s);
    var name := StepName(s);
    var digits := NatToString(Ordinal(s));
    assert name[|StepPrefix|..] == digits;
    forall i | 0 <= i < |digits| ensures digits[i] != '_' {
      assert IsDigit(digits[i]);
    }
    SplitNoSep(digits, '_');
    ParseNatToString(Ordinal(s));
  }

  // ---------------------------------------------------------------- metadata

  /** The pipeline a step belongs to. */
  datatype Category = Gestao | Tratamento

  function CategoryName(c: Category): string {
    match c
    case Gestao => "gestao"
    case Tratamento => "tratamento"
  }

  /**
   * Where a step's display label comes from: a gestão stage label, a
   * treatment stage label, or the dossier label.
   */
  datatype Caption = GestaoCaption(n: int) | TratamentoCaption(n: int) | DossieCaption

  const DossieLabel: string := "Tratamento – Etapa 8 – Dossiê do Processo"

  /** The label text a caption stands for ("" for a stage with no definition). */
  function CaptionText(c: Caption): (r: string)
    ensures c.GestaoCaption? && c.n in GestaoLabels ==> r == GestaoLabels[c.n]
    ensures c.TratamentoCaption? && c.n in TratamentoLabels ==> r == TratamentoLabels[c.n]
  {
    match c
    case GestaoCaption(n) => if n in GestaoDefinitions then GestaoLabelPrefix + GestaoDefinitions[n] else ""
    case TratamentoCaption(n) =>
      if n in TratamentoDefinitions then TratamentoLabelPrefix + TratamentoDefinitions[n] else ""
    case DossieCaption => DossieLabel
  }

  datatype StepMetadata = StepMetadata(
    step: Step,
    code: string,
    caption: Caption,
    category: Category,
    order: int,
    stage: Option<int>)

  /** A serialisable field value. */
  datatype MetaValue = MStr(s: string) | MInt(i: int)

  /** `StepMetadata.as_dict`: the four fixed fields, plus "stage" only when one is set. */
  function AsDict(m: StepMetadata): (r: map<string, MetaValue>)
    ensures r.Keys == {"code", "label", "category", "order"} + (if m.stage.Some? then {"stage"} else {})
    ensures "stage" in r <==> m.stage.Some?
    ensures r["code"] == MStr(m.code) && r["label"] == MStr(CaptionText(m.caption))
    ensures r["category"] == MStr(CategoryName(m.category)) && r["order"] == MInt(m.order)
    ensures m.stage.Some? ==> r["stage"] == MInt(m.stage.value)
  {
    var data := map["code" := MStr(m.code), "label" := MStr(CaptionText(m.caption)),
                     "category" := MStr(CategoryName(m.category)), "order" := MInt(m.order)];
    if m.stage.Some? then data["stage" := MInt(m.stage.value)] else data
  }

  /** Treatment stages and the pipeline steps that carry them. */
  const TratamentoStageToStep: seq<(int, Step)> := [
    (1, ETAPA_5), (2, ETAPA_7), (3, ETAPA_8), (4, ETAPA_9),
    (5, ETAPA_10), (6, ETAPA_11), (7, ETAPA_12)
  ]

  /**
   * Gestão stages and the steps named after them: stage `n` is carried by the
   * member called `ETAPA_n` (see `GestaoStepNamedByStage`).
   */
  const GestaoStageToStep: seq<(int, Step)> := [
    (1, ETAPA_1), (2, ETAPA_2), (3, ETAPA_3), (4, ETAPA_4)
  ]

  /** The member looked up by name for each gestão stage is the one the table lists. */
  lemma GestaoStepNamedByStage(i: nat)
    requires i < |GestaoStageToStep|
    ensures StepFromName(StepPrefix + NatToString(GestaoStageToStep[i].0)) == Some(GestaoStageToStep[i].1)
  {
    var (n, step) := GestaoStageToStep[i];
    StepNameDigits(step);
    StepFromNameOfName(step);
  }

  /** The entry registered for gestão stage `n`, carried by `step`. */
  function GestaoEntry(n: int, step: Step): StepMetadata {
    StepMetadata(step, StepName(step), GestaoCaption(n), Gestao, Ordinal(step), Some(n))
  }

  /** The entry registered for treatment stage `n`, carried by `step`. */
  function TratamentoEntry(n: int, step: Step): StepMetadata {
    StepMetadata(step, StepName(step), TratamentoCaption(n), Tratamento, Ordinal(step), Some(n))
  }

  /** The dossier step, registered last as treatment stage 8. */
  function DossieEntry(): StepMetadata {
    StepMetadata(ETAPA_13, StepName(ETAPA_13), DossieCaption, Tratamento, Ordinal(ETAPA_13), Some(8))
  }

  /** One gestão entry per table row whose stage has a definition. */
  function GestaoEntries(pairs: seq<(int, Step)>): seq<StepMetadata>
    decreases |pairs|
  {
    if pairs == [] then []
    else
      var (n, step) := pairs[0];
      var rest := GestaoEntries(pairs[1..]);
      if n in GestaoDefinitions then [GestaoEntry(n, step)] + rest else rest
  }

  /** One treatment entry per table row whose stage has a definition. */
  function TratamentoEntries(pairs: seq<(int, Step)>): seq<StepMetadata>
    decreases |pairs|
  {
    if pairs == [] then []
    else
      var (n, step) := pairs[0];
      var rest := TratamentoEntries(pairs[1..]);
      if n in TratamentoDefinitions then [TratamentoEntry(n, step)] + rest else rest
  }

  /**
   * `_register_defaults`: the catalogue in registration order, one entry per
   * step. The `order` of an entry is the step's number, which is what
   * `_step_number` reads off the member name (`StepNumberIsOrdinal`).
   */
  function RegisterDefaults(): seq<StepMetadata> {
    GestaoEntries(GestaoStageToStep) + TratamentoEntries(TratamentoStageToStep) + [DossieEntry()]
  }

  function OrderKey(m: StepMetadata): Key {
    Key(m.order, 0)
  }

  /** `list_step_metadata`: the catalogue sorted by `order`. */
  function ListStepMetadata(): (r: seq<StepMetadata>)
    ensures SortedBy(r, OrderKey)
    ensures multiset(r) == multiset(RegisterDefaults())
  {
    SortBy(RegisterDefaults(), OrderKey)
  }

  /** The steps of a list of metadata entries, in order. */
  function StepsOf(entries: seq<StepMetadata>): (r: seq<Step>)
    ensures |r| == |entries| && forall i :: 0 <= i < |entries| ==> r[i] == entries[i].step
  {
    seq(|entries|, i requires 0 <= i < |entries| => entries[i].step)
  }

  /** The `order` fields of a list of metadata entries, in order. */
  function Orders(entries: seq<StepMetadata>): (r: seq<int>)
    ensures |r| == |entries| && forall i :: 0 <= i < |entries| ==> r[i] == entries[i].order
  {
    seq(|entries|, i requires 0 <= i < |entries| => entries[i].order)
  }

  /** `default_step_sequence`: the steps of the sorted catalogue. */
  function DefaultStepSequence(): (r: seq<Step>)
    ensures r == StepsOf(ListStepMetadata())
  {
    StepsOf(ListStepMetadata())
  }

  /** All four gestão stages have a definition, so each table row yields its entry. */
  lemma GestaoEntriesValue()
    ensures GestaoEntries(GestaoStageToStep) ==
      [GestaoEntry(1, ETAPA_1), GestaoEntry(2, ETAPA_2), GestaoEntry(3, ETAPA_3), GestaoEntry(4, ETAPA_4)]
  {
  }

  /** All seven treatment stages have a definition, so each table row yields its entry. */
  lemma TratamentoEntriesValue()
    ensures TratamentoEntries(TratamentoStageToStep) ==
      [TratamentoEntry(1, ETAPA_5), TratamentoEntry(2, ETAPA_7), TratamentoEntry(3, ETAPA_8),
       TratamentoEntry(4, ETAPA_9), TratamentoEntry(5, ETAPA_10), TratamentoEntry(6, ETAPA_11),
       TratamentoEntry(7, ETAPA_12)]
  {
  }

  /**
   * The catalogue written out: the gestão steps ETAPA_1-4 for stages 1-4, the
   * treatment steps ETAPA_5 and ETAPA_7-12 for stages 1-7, and the dossier step.
   */
  const Catalogue: seq<StepMetadata> :=
    [GestaoEntry(1, ETAPA_1), GestaoEntry(2, ETAPA_2), GestaoEntry(3, ETAPA_3), GestaoEntry(4, ETAPA_4),
     TratamentoEntry(1, ETAPA_5), TratamentoEntry(2, ETAPA_7), TratamentoEntry(3, ETAPA_8),
     TratamentoEntry(4, ETAPA_9), TratamentoEntry(5, ETAPA_10), TratamentoEntry(6, ETAPA_11),
     TratamentoEntry(7, ETAPA_12), DossieEntry()]

  /** Registration from the stage tables produces exactly the written-out catalogue. */
  lemma RegisterDefaultsValue()
    ensures RegisterDefaults() == Catalogue
  {
    GestaoEntriesValue();
    TratamentoEntriesValue();
  }

  lemma AllStepsNoDup()
    ensures NoDup(AllSteps)
  {
  }

  /** The catalogue lists every step once, in declaration order. */
  lemma CatalogueSteps()
    ensures StepsOf(Catalogue) == AllSteps
  {
  }

  lemma RegisterDefaultsSteps()
    ensures StepsOf(RegisterDefaults()) == AllSteps
    ensures NoDup(StepsOf(RegisterDefaults()))
  {
    RegisterDefaultsValue();
    CatalogueSteps();
    AllStepsNoDup();
  }

  lemma CatalogueSorted()
    ensures SortedBy(Catalogue, OrderKey)
  {
    assert Orders(Catalogue) == [1, 2, 3, 4, 5, 7, 8, 9, 10, 11, 12, 13];
    SortedByAdjacent(Catalogue, OrderKey);
  }

  /** Registration order is already ascending in `order`. */
  lemma RegisterDefaultsSorted()
    ensures SortedBy(RegisterDefaults(), OrderKey)
  {
    RegisterDefaultsValue();
    CatalogueSorted();
  }

  lemma {:induction false} SortByOfSorted<T>(s: seq<T>, key: T -> Key)
    requires SortedBy(s, key)
    ensures SortBy(s, key) == s
    decreases |s|
  {
    if s != [] {
      SortByOfSorted(s[1..], key);
    }
  }

  /**
   * Listing keeps registration order, so the default order runs through every
   * step in ascending number: the four gestão steps, then the treatment
   * steps, then the dossier step.
   */
  lemma DefaultStepSequenceValue()
    ensures ListStepMetadata() == RegisterDefaults()
    ensures DefaultStepSequence() == AllSteps
  {
    RegisterDefaultsSorted();
    SortByOfSorted(RegisterDefaults(), OrderKey);
    RegisterDefaultsSteps();
  }

  /** `metadata_for_step`: the registered entry for a step, if any. */
  function FindMetadata(entries: seq<StepMetadata>, step: Step): (r: Option<StepMetadata>)
    ensures r.Some? ==> r.value in entries && r.value.step == step
    ensures r.None? <==> forall i :: 0 <= i < |entries| ==> entries[i].step != step
    decreases |entries|
  {
    if entries == [] then None
    else if entries[0].step == step then Some(entries[0])
    else
      var r := FindMetadata(entries[1..], step);
      assert forall i :: 1 <= i < |entries| ==> entries[i] == entries[1..][i - 1];
      r
  }

  lemma {:induction false} FindMetadataAt(entries: seq<StepMetadata>, i: nat)
    requires i < |entries| && NoDup(StepsOf(entries))
    ensures FindMetadata(entries, entries[i].step) == Some(entries[i])
    decreases i
  {
    if i > 0 {
      assert StepsOf(entries)[0] != StepsOf(entries)[i];
      assert StepsOf(entries[1..]) == StepsOf(entries)[1..];
      FindMetadataAt(entries[1..], i - 1);
    }
  }

  lemma TratamentoStageAt(i: nat)
    requires i < |TratamentoStageToStep|
    ensures TratamentoStageToStep[i].0 == i + 1
    ensures 4 + i < |RegisterDefaults()|
    ensures RegisterDefaults()[i + 4] == TratamentoEntry(i + 1, TratamentoStageToStep[i].1)
  {
    GestaoEntriesValue();
    TratamentoEntriesValue();
    var t := TratamentoEntries(TratamentoStageToStep);
    assert RegisterDefaults()[i + 4] == t[i];
    if i == 0 {} else if i == 1 {} else if i == 2 {} else if i == 3 {} else if i == 4 {} else if i == 5 {} else {}
  }

  /**
   * Treatment stage `n` (1-7) is carried by the step the stage table names
   * for it (ETAPA_5, then ETAPA_7 to ETAPA_12), whose registered entry is a
   * treatment entry for stage `n` labelled with that stage's treatment label.
   */
  lemma TratamentoStageMapping(i: nat)
    requires i < |TratamentoStageToStep|
    ensures TratamentoStageToStep[i].0 == i + 1
    ensures FindMetadata(RegisterDefaults(), TratamentoStageToStep[i].1) ==
      Some(TratamentoEntry(i + 1, TratamentoStageToStep[i].1))
  {
    RegisterDefaultsSteps();
    TratamentoStageAt(i);
    FindMetadataAt(RegisterDefaults(), i + 4);
  }

  /** The dossier step is registered as treatment stage 8. */
  lemma DossieStageMapping()
    ensures FindMetadata(RegisterDefaults(), ETAPA_13) == Some(DossieEntry())
    ensures DossieEntry().stage == Some(8) && DossieEntry().category == Tratamento
  {
    RegisterDefaultsSteps();
    RegisterDefaultsValue();
    FindMetadataAt(RegisterDefaults(), 11);
  }

  // ---------------------------------------------------------------- normalisation

  /** The first member, in declaration order, whose upper-cased value equals `u`. */
  function FindByValue(u: string, value: Step -> string, i: nat): (r: Option<Step>)
    requires i <= |AllSteps|
    ensures r.Some? ==> Upper(value(r.value)) == u
    ensures r.None? ==> forall j :: i <= j < |AllSteps| ==> Upper(value(AllSteps[j])) != u
    decreases |AllSteps| - i
  {
    if i == |AllSteps| then None
    else if Upper(value(AllSteps[i])) == u then Some(AllSteps[i])
    else FindByValue(u, value, i + 1)
  }

  /** A trimmed candidate with `-` and space mapped to `_`, upper-cased. */
  function Canonical(c: string): string {
    Upper(ReplaceChar(ReplaceChar(c, '-', '_'), ' ', '_'))
  }

  /**
   * `_normalize_step_code`: a member name for `raw`, trying in turn the name
   * itself, a member value, and the name with `ETAPA_` prepended; "" when
   * none matches.
   */
  function NormalizeStepCode(raw: Option<string>, value: Step -> string): (r: string)
    ensures r == "" || IsStepName(r)
    ensures Blank(raw.GetOr("")) ==> r == ""
    ensures !Blank(raw.GetOr("")) ==> r == NormalizeCanonical(Canonical(Strip(raw.GetOr(""))), value)
  {
    var candidato := Strip(raw.GetOr(""));
    if candidato == "" then "" else NormalizeCanonical(Canonical(candidato), value)
  }

  /** The member-name lookups applied to a non-blank candidate in canonical form. */
  function NormalizeCanonical(u: string, value: Step -> string): (r: string)
    ensures r == "" || IsStepName(r)
    ensures IsStepName(u) ==> r == u
    ensures !IsStepName(u) && FindByValue(u, value, 0).Some? ==> r == StepName(FindByValue(u, value, 0).value)
    ensures !IsStepName(u) && (forall m: Step :: Upper(value(m)) != u) ==>
      r == (if !StartsWith(u, StepPrefix) && IsStepName(StepPrefix + u) then StepPrefix + u else "")
  {
    if IsStepName(u) then u
    else
      match FindByValue(u, value, 0)
      case Some(m) =>
        StepFromNameOfName(m);
        StepName(m)
      case None =>
        if !StartsWith(u, StepPrefix) && IsStepName(StepPrefix + u) then StepPrefix + u else ""
  }

  /**
   * The value branch: a candidate that is no member name but equals the
   * upper-cased value of the member at position `k` of the declaration
   * order, and of none before it, normalises to that member's name.
   */
  lemma NormalizeByValue(u: string, value: Step -> string, k: nat)
    requires !IsStepName(u) && k < |AllSteps| && Upper(value(AllSteps[k])) == u
    requires forall j :: 0 <= j < k ==> Upper(value(AllSteps[j])) != u
    ensures NormalizeCanonical(u, value) == StepName(AllSteps[k])
  {
    FindByValueFirst(u, value, 0, k);
  }

  /** The search from `i` finds the first match at or after `i`. */
  lemma {:induction false} FindByValueFirst(u: string, value: Step -> string, i: nat, k: nat)
    requires i <= k < |AllSteps| && Upper(value(AllSteps[k])) == u
    requires forall j :: i <= j < k ==> Upper(value(AllSteps[j])) != u
    ensures FindByValue(u, value, i) == Some(AllSteps[k])
    decreases k - i
  {
    if i < k {
      FindByValueFirst(u, value, i + 1, k);
    }
  }

  /** Text that is empty once trimmed. */
  predicate Blank(s: string) {
    Strip(s) == ""
  }

  lemma ReplaceAbsent(s: string, a: char, b: char)
    requires a !in s
    ensures ReplaceChar(s, a, b) == s
  {
  }

  /** Text made only of `_`, digits and upper-case ASCII letters. */
  predicate UpperCode(s: string) {
    forall i :: 0 <= i < |s| ==> s[i] == '_' || IsDigit(s[i]) || 'A' <= s[i] <= 'Z'
  }

  /** Upper-case codes are their own canonical form. */
  lemma CanonicalOfUpperCode(s: string)
    requires UpperCode(s)
    ensures Canonical(s) == s
  {
    assert '-' !in s && ' ' !in s by {
      forall i | 0 <= i < |s| ensures s[i] != '-' && s[i] != ' ' {
      }
    }
    ReplaceAbsent(s, '-', '_');
    ReplaceAbsent(s, ' ', '_');
  }

  /** The lower-case form of an upper-case code has the code as canonical form. */
  lemma CanonicalOfLowerCode(s: string)
    requires UpperCode(s)
    ensures Canonical(Lower(s)) == s
  {
    var t := Lower(s);
    assert '-' !in t && ' ' !in t by {
      forall i | 0 <= i < |t| ensures t[i] != '-' && t[i] != ' ' {
        assert s[i] != '-' && s[i] != ' ';
      }
    }
    ReplaceAbsent(t, '-', '_');
    ReplaceAbsent(t, ' ', '_');
    UpperOfLower(s);
  }

  /** Member names are stripped, non-empty upper-case codes with no `,`. */
  lemma StepNameShape(s: Step)
    ensures StepName(s) != "" && IsStripped(StepName(s)) && UpperCode(StepName(s))
    ensures ',' !in StepName(s)
  {
    var d := NatToString(Ordinal(s));
    StepNameDigits(s);
    forall i | 0 <= i < |StepName(s)|
      ensures StepName(s)[i] == '_' || IsDigit(StepName(s)[i]) || 'A' <= StepName(s)[i] <= 'Z'
    {
      if i >= 6 {
        assert StepName(s)[i] == d[i - 6];
      }
    }
  }

  /** Text whose trimmed, canonical form is a member name normalises to that name. */
  lemma NormalizeOfCanonicalName(raw: string, s: Step, value: Step -> string)
    requires Strip(raw) != "" && Canonical(Strip(raw)) == StepName(s)
    ensures NormalizeStepCode(Some(raw), value) == StepName(s)
  {
    StepFromNameOfName(s);
  }

  /** A member name or its lower-case form, padded with whitespace, trims to itself. */
  lemma StripOfPaddedName(s: Step, t: string, p: string, q: string)
    requires t == StepName(s) || t == Lower(StepName(s))
    requires AllSpace(p) && AllSpace(q)
    ensures Strip(p + t + q) == t && t != ""
  {
    StepNameShape(s);
    LowerStripped(StepName(s));
    StripPadding(p, t, q);
    StripOfStripped(t);
  }

  /** A member name, upper- or lower-case and with any surrounding whitespace, normalises to itself. */
  lemma NormalizeStepName(s: Step, t: string, p: string, q: string, value: Step -> string)
    requires t == StepName(s) || t == Lower(StepName(s))
    requires AllSpace(p) && AllSpace(q)
    ensures NormalizeStepCode(Some(p + t + q), value) == StepName(s)
  {
    StripOfPaddedName(s, t, p, q);
    StepNameShape(s);
    if t == StepName(s) {
      CanonicalOfUpperCode(t);
    } else {
      CanonicalOfLowerCode(StepName(s));
    }
    NormalizeOfCanonicalName(p + t + q, s, value);
  }

  /** A digit string is already trimmed. */
  lemma DigitsStripped(d: string)
    requires AllDigits(d)
    ensures Strip(d) == d
  {
    assert d == [] || (IsDigit(d[0]) && IsDigit(d[|d| - 1]));
    StripOfStripped(d);
  }

  /** A digit string is its own canonical form. */
  lemma DigitsCanonical(d: string)
    requires AllDigits(d)
    ensures Canonical(d) == d
  {
    assert UpperCode(d);
    CanonicalOfUpperCode(d);
  }

  /** A digit string is neither a member name nor `ETAPA_`-prefixed. */
  lemma DigitsNotStepName(d: string)
    requires d != "" && AllDigits(d)
    ensures !IsStepName(d) && !StartsWith(d, StepPrefix)
  {
    var m := StepFromName(d);
    if m.Some? {
      StepNameDigits(m.value);
    }
  }

  /**
   * The digits of a member name with `ETAPA_` dropped (a bare step number)
   * normalise to that member when no member value claims them.
   */
  lemma NormalizeBareNumber(d: string, s: Step, value: Step -> string)
    requires d != "" && AllDigits(d) && StepPrefix + d == StepName(s)
    requires forall m: Step :: Upper(value(m)) != d
    ensures NormalizeStepCode(Some(d), value) == StepName(s)
  {
    DigitsStripped(d);
    DigitsCanonical(d);
    DigitsNotStepName(d);
    NormalizeUnprefixed(d, value, s);
  }

  /** A candidate that names no member and matches no value, but names one once prefixed, gives that member. */
  lemma NormalizeUnprefixed(u: string, value: Step -> string, s: Step)
    requires !IsStepName(u) && !StartsWith(u, StepPrefix)
    requires forall m: Step :: Upper(value(m)) != u
    requires StepPrefix + u == StepName(s)
    ensures NormalizeCanonical(u, value) == StepName(s)
  {
    StepFromNameOfName(s);
  }

  // ---------------------------------------------------------------- parsing

  /** One entry of a step list: a member passed as is, or text to normalise. */
  datatype StepEntry = Member(step: Step) | Code(text: string)

  /** Why a step list was rejected (the `ValueError`s raised while parsing). */
  datatype StepError = InvalidStep(text: string) | NoSteps

  /** The message carried by each rejection. */
  function Message(e: StepError): string {
    match e
    case InvalidStep(text) => "Etapa inválida '" + text + "'."
    case NoSteps => "Nenhuma etapa informada."
  }

  /** The member an entry stands for, if any. */
  function Resolve(e: StepEntry, value: Step -> string): (r: Option<Step>)
    ensures e.Member? ==> r == Some(e.step)
    ensures e.Code? && r.Some? ==> NormalizeStepCode(Some(e.text), value) == StepName(r.value)
    ensures e.Code? ==> (r.None? <==> NormalizeStepCode(Some(e.text), value) == "")
  {
    match e
    case Member(s) => Some(s)
    case Code(text) =>
      var n := NormalizeStepCode(Some(text), value);
      if n == "" then None else StepFromName(n)
  }

  /** `parse_step_codes`: every entry resolved in order, or the error for the first one that does not. */
  function ParseStepCodes(entries: seq<StepEntry>, value: Step -> string): (r: Result<seq<Step>, StepError>)
    ensures r.Err? ==> r.error.InvalidStep?
    ensures r.Ok? <==> forall i :: 0 <= i < |entries| ==> Resolve(entries[i], value).Some?
    ensures r.Ok? ==>
      |r.value| == |entries| &&
      forall i :: 0 <= i < |entries| ==> Some(r.value[i]) == Resolve(entries[i], value)
    decreases |entries|
  {
    if entries == [] then Ok([])
    else
      match Resolve(entries[0], value)
      case None => Err(InvalidStep(entries[0].text))
      case Some(s) =>
        match ParseStepCodes(entries[1..], value)
        case Err(e) => Err(e)
        case Ok(rest) => Ok([s] + rest)
  }

  /** The error names the first entry that does not resolve. */
  lemma {:induction false} ParseStepCodesFirstError(entries: seq<StepEntry>, value: Step -> string, k: nat)
    requires k < |entries| && Resolve(entries[k], value).None?
    requires forall i :: 0 <= i < k ==> Resolve(entries[i], value).Some?
    ensures entries[k].Code?
    ensures ParseStepCodes(entries, value) == Err(InvalidStep(entries[k].text))
    decreases k
  {
    if k > 0 {
      assert Resolve(entries[0], value).Some?;
      ParseStepCodesFirstError(entries[1..], value, k - 1);
    }
  }

  predicate AllBlank(parts: seq<string>) {
    forall i :: 0 <= i < |parts| ==> Blank(parts[i])
  }

  lemma AllBlankCons(parts: seq<string>)
    requires parts != []
    ensures AllBlank(parts) <==> Blank(parts[0]) && AllBlank(parts[1..])
  {
    var tail := parts[1..];
    if AllBlank(parts) {
      forall i | 0 <= i < |tail| ensures Blank(tail[i]) {
        assert tail[i] == parts[i + 1];
      }
    }
    if Blank(parts[0]) && AllBlank(tail) {
      forall i | 0 <= i < |parts| ensures Blank(parts[i]) {
        if i > 0 { assert parts[i] == tail[i - 1]; }
      }
    }
  }

  /** The trimmed, non-blank items of a comma-separated list. */
  function NonBlankItems(parts: seq<string>): (r: seq<string>)
    ensures forall i :: 0 <= i < |r| ==> r[i] != "" && IsStripped(r[i])
    decreases |parts|
  {
    if parts == [] then []
    else
      var rest := NonBlankItems(parts[1..]);
      if Blank(parts[0]) then rest
      else
        KeptCons(Strip(parts[0]), rest);
        [Strip(parts[0])] + rest
  }

  /** Putting one more non-empty, trimmed item in front keeps every item so. */
  lemma KeptCons(x: string, rest: seq<string>)
    requires x != "" && IsStripped(x)
    requires forall i :: 0 <= i < |rest| ==> rest[i] != "" && IsStripped(rest[i])
    ensures forall i :: 0 <= i < |[x] + rest| ==> ([x] + rest)[i] != "" && IsStripped(([x] + rest)[i])
  {
    forall i | 0 <= i < |[x] + rest|
      ensures ([x] + rest)[i] != "" && IsStripped(([x] + rest)[i])
    {
      if i > 0 {
        assert ([x] + rest)[i] == rest[i - 1];
      }
    }
  }

  /** Nothing is kept exactly when every piece is blank. */
  lemma {:induction false} NonBlankItemsEmpty(parts: seq<string>)
    ensures NonBlankItems(parts) == [] <==> AllBlank(parts)
    decreases |parts|
  {
    if parts != [] {
      AllBlankCons(parts);
      NonBlankItemsEmpty(parts[1..]);
    }
  }

  function Codes(items: seq<string>): (r: seq<StepEntry>)
    ensures |r| == |items| && forall i :: 0 <= i < |items| ==> r[i] == Code(items[i])
  {
    seq(|items|, i requires 0 <= i < |items| => Code(items[i]))
  }

  /** `parse_steps_text`: split on commas, trim, drop blanks, then parse the rest. */
  function ParseStepsText(raw: Option<string>, value: Step -> string): (r: Result<seq<Step>, StepError>)
    ensures r == Err(NoSteps) <==> AllBlank(Split(raw.GetOr(""), ','))
    ensures r.Ok? ==> r.value != []
  {
    var parts := Split(raw.GetOr(""), ',');
    var items := NonBlankItems(parts);
    NonBlankItemsEmpty(parts);
    if items == [] then Err(NoSteps) else ParseItems(items, value)
  }

  /** The parse of the kept items: never the "no steps" error, and never empty on success. */
  function ParseItems(items: seq<string>, value: Step -> string): (r: Result<seq<Step>, StepError>)
    requires items != []
    ensures r != Err(NoSteps)
    ensures r.Ok? ==> r.value != []
  {
    var r := ParseStepCodes(Codes(items), value);
    assert r.Ok? ==> |r.value| == |items|;
    r
  }

  function Names(steps: seq<Step>): (r: seq<string>)
    ensures |r| == |steps| && forall i :: 0 <= i < |steps| ==> r[i] == StepName(steps[i])
  {
    seq(|steps|, i requires 0 <= i < |steps| => StepName(steps[i]))
  }

  /** Text that survives trimming unchanged and is not empty. */
  predicate Kept(s: string) {
    s != "" && Strip(s) == s
  }

  lemma {:induction false} NonBlankOfStripped(parts: seq<string>)
    requires forall i :: 0 <= i < |parts| ==> Kept(parts[i])
    ensures NonBlankItems(parts) == parts
    decreases |parts|
  {
    if parts != [] {
      assert Kept(parts[0]);
      assert !Blank(parts[0]);
      NonBlankOfStripped(parts[1..]);
      assert NonBlankItems(parts) == [parts[0]] + NonBlankItems(parts[1..]);
      assert [parts[0]] + parts[1..] == parts;
    }
  }

  /** Member names contain no comma and survive trimming. */
  lemma NamesKept(steps: seq<Step>)
    ensures forall i :: 0 <= i < |steps| ==> ',' !in Names(steps)[i] && Kept(Names(steps)[i])
  {
    forall i | 0 <= i < |steps|
      ensures ',' !in Names(steps)[i] && Kept(Names(steps)[i])
    {
      StepNameShape(steps[i]);
      StripOfStripped(StepName(steps[i]));
    }
  }

  /** A member name, taken as text, resolves to its member. */
  lemma ResolveName(s: Step, value: Step -> string)
    ensures Resolve(Code(StepName(s)), value) == Some(s)
  {
    var name := StepName(s);
    NormalizeStepName(s, name, "", "", value);
    assert "" + name + "" == name;
    StepFromNameOfName(s);
  }

  lemma ResolveNames(steps: seq<Step>, value: Step -> string)
    ensures forall i :: 0 <= i < |steps| ==> Resolve(Codes(Names(steps))[i], value) == Some(steps[i])
  {
    forall i | 0 <= i < |steps|
      ensures Resolve(Codes(Names(steps))[i], value) == Some(steps[i])
    {
      ResolveName(steps[i], value);
    }
  }

  /** Entries that all resolve parse to their members, in order. */
  lemma ParseStepCodesResolved(entries: seq<StepEntry>, steps: seq<Step>, value: Step -> string)
    requires |entries| == |steps|
    requires forall i :: 0 <= i < |entries| ==> Resolve(entries[i], value) == Some(steps[i])
    ensures ParseStepCodes(entries, value) == Ok(steps)
  {
    var r := ParseStepCodes(entries, value);
    assert r.Ok?;
    assert r.value == steps;
  }

  /** Rendering steps as a comma-separated list of names and parsing it gives the steps back. */
  lemma ParseStepsTextRoundTrip(steps: seq<Step>, value: Step -> string)
    requires steps != []
    ensures ParseStepsText(Some(Join(",", Names(steps))), value) == Ok(steps)
  {
    var names := Names(steps);
    NamesKept(steps);
    SplitJoin(names, ',');
    assert Join([','], names) == Join(",", names);
    NonBlankOfStripped(names);
    ResolveNames(steps, value);
    ParseStepCodesResolved(Codes(names), steps, value);
  }

  // ---------------------------------------------------------------- deduplication

  /** `deduplicate_steps`: first occurrences, in order, tracked with a seen-set. */
  method DeduplicateSteps(steps: seq<Step>) returns (ordered: seq<Step>)
    ensures ordered == Dedup(steps)
  {
    var seen: set<Step> := {};
    ordered := [];
    for i := 0 to |steps|
      invariant ordered == Dedup(steps[..i])
      invariant forall x :: x in seen <==> x in ordered
    {
      assert steps[..i + 1][..i] == steps[..i];
      if steps[i] in seen {
        continue;
      }
      seen := seen + {steps[i]};
      ordered := ordered + [steps[i]];
    }
    assert steps[..|steps|] == steps;
  }

  /** The deduplicated steps contain every input step once, in first-occurrence order. */
  lemma DeduplicateStepsSpec(steps: seq<Step>)
    ensures NoDup(Dedup(steps))
    ensures forall i :: 0 <= i < |steps| ==> steps[i] in Dedup(steps)
    ensures forall i, j :: 0 <= i < j < |Dedup(steps)| ==>
      FirstIndex(steps, Dedup(steps)[i]) < FirstIndex(steps, Dedup(steps)[j])
  {
    DedupOrder(steps);
  }
}
