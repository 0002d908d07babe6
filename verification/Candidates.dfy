/** The validator of agents/candidates.py for strategy specifications written by a language
    model, and the checks of workflows/operations.py its verdict has to satisfy. */
module Candidates {
  import opened Wrappers
  import opened Payloads
  import MACross

  datatype Decimal = Finite(value: real) | NotFinite

  datatype Flag = ExecutableCode | BrokerInstruction | ProfitabilityClaim | LiveTrading

  /** What the model takes from Python: character classes, number syntax and formatting, `str`,
      and the regular expressions. */
  datatype Text = Text(
    isSpace: char -> bool,
    parseInt: string -> Option<int>,
    parseDecimal: string -> Option<Decimal>,
    formatPlain: real -> string,
    show: Value -> string,
    matches: (Flag, string) -> bool,
    crossEvidence: string -> bool,
    averageEvidence: string -> bool)

  /** A decimal that was read from text can be written plainly and read back unchanged. */
  ghost predicate RoundTrips(text: Text) {
    forall s: string, x: real | text.parseDecimal(s) == Some(Finite(x)) ::
      text.parseDecimal(text.formatPlain(x)) == Some(Finite(x))
  }

  function Ones(n: nat): (s: string)
    ensures |s| == n && AllOnes(s)
  {
    seq(n, _ => '1')
  }

  predicate AllOnes(s: string) {
    forall i :: 0 <= i < |s| ==> s[i] == '1'
  }

  /** The assumption can be met, with infinitely many decimals readable: here in unary. */
  lemma RoundTripsInUnary() returns (text: Text)
    ensures RoundTrips(text)
    ensures forall n: nat :: text.parseDecimal(Ones(n)) == Some(Finite(n as real))
  {
    text := Text(
      c => c == ' ', s => None, s => if AllOnes(s) then Some(Finite(|s| as real)) else None,
      x => if 0.0 <= x then Ones(x.Floor) else "", v => "", (f, s) => false, s => false, s => false);
    forall s: string, x: real | text.parseDecimal(s) == Some(Finite(x))
      ensures text.parseDecimal(text.formatPlain(x)) == Some(Finite(x))
    {
      assert x == |s| as real && x.Floor == |s|;
      assert AllOnes(Ones(|s|));
    }
  }

  // ----- Strings -----

  function StripLeft(s: string, isSpace: char -> bool): string {
    if s != [] && isSpace(s[0]) then StripLeft(s[1..], isSpace) else s
  }

  function StripRight(s: string, isSpace: char -> bool): string {
    if s != [] && isSpace(s[|s| - 1]) then StripRight(s[..|s| - 1], isSpace) else s
  }

  function Strip(s: string, isSpace: char -> bool): string {
    StripRight(StripLeft(s, isSpace), isSpace)
  }

  lemma {:induction false} StripLeftStart(s: string, isSpace: char -> bool)
    ensures var r := StripLeft(s, isSpace); |r| <= |s| && (r != [] ==> !isSpace(r[0]))
  {
    if s != [] && isSpace(s[0]) {
      StripLeftStart(s[1..], isSpace);
    }
  }

  lemma {:induction false} StripRightKeepsStart(s: string, isSpace: char -> bool)
    requires s != [] ==> !isSpace(s[0])
    ensures StripRight(s, isSpace) <= s
    ensures s != [] ==> StripRight(s, isSpace) != []
  {
    if s != [] && isSpace(s[|s| - 1]) {
      StripRightKeepsStart(s[..|s| - 1], isSpace);
    }
  }

  /** A stripped string starts with a visible character, and stays non-empty when it is cut
      short and stripped again. */
  lemma StripAgain(s: string, isSpace: char -> bool, limit: nat)
    requires Strip(s, isSpace) != [] && 0 < limit
    ensures var r := Strip(s, isSpace);
            var cut := if |r| <= limit then r else r[..limit];
            Strip(cut, isSpace) != [] && |Strip(cut, isSpace)| <= limit && Strip(cut, isSpace) <= r
  {
    StripLeftStart(s, isSpace);
    StripRightKeepsStart(StripLeft(s, isSpace), isSpace);
    var r := Strip(s, isSpace);
    var cut := if |r| <= limit then r else r[..limit];
    assert cut[0] == r[0] == StripLeft(s, isSpace)[0];
    assert StripLeft(cut, isSpace) == cut;
    StripRightKeepsStart(cut, isSpace);
  }

  // ----- The workflow's own checks -----

  datatype WorkflowError =
    | SymbolRequired | SymbolTooLong | BadWindows | BadOrderSize
    | NotADecimal | NotFiniteValue | NotPositive

  const MAX_SYMBOL := 32

  function ValidateSymbol(symbol: string, isSpace: char -> bool): Result<string, WorkflowError> {
    var stripped := Strip(symbol, isSpace);
    if stripped == "" then Err(SymbolRequired)
    else if |stripped| > MAX_SYMBOL then Err(SymbolTooLong)
    else Ok(stripped)
  }

  function ValidateMACross(s: MACross.Settings): Result<(), WorkflowError> {
    if s.shortWindow <= 0 || s.longWindow <= s.shortWindow then Err(BadWindows)
    else if s.orderSize <= 0 then Err(BadOrderSize)
    else Ok(())
  }

  function ValidatePositiveDecimal(value: string, text: Text): Result<real, WorkflowError> {
    match text.parseDecimal(value)
    case None => Err(NotADecimal)
    case Some(NotFinite) => Err(NotFiniteValue)
    case Some(Finite(x)) => if x <= 0.0 then Err(NotPositive) else Ok(x)
  }

  /** The workflow's window and size checks admit exactly what the strategy can be built from. */
  lemma WorkflowMatchesStrategy(s: MACross.Settings)
    ensures ValidateMACross(s).Ok? <==> MACross.Construct(s).Ok?
  {
  }

  // ----- The verdict -----

  datatype ValidationError =
    | MissingField(name: string)
    | UnsupportedTemplate(template: string)
    | TemplateNotInferable
    | NotPositiveInteger(field: string)
    | BadInitialCash
    | WindowsNotOrdered
    | MissingSymbol

  datatype Status = Passed | Failed | NeedsReview

  datatype Candidate = Candidate(strategyName: string, symbol: string, settings: MACross.Settings)

  datatype BacktestRequest = BacktestRequest(symbol: string, settings: MACross.Settings, initialCash: string)

  datatype Verdict = Verdict(
    status: Status, errors: seq<ValidationError>, flags: seq<Flag>,
    candidate: Option<Candidate>, request: Option<BacktestRequest>)

  datatype Parameters = Parameters(settings: MACross.Settings, initialCash: string)

  const REQUIRED_FIELDS: seq<string> := [
    "thesis", "market_regime_assumption", "entry_rules", "exit_rules", "risk_controls",
    "parameters_to_test", "data_requirements", "failure_modes", "backtest_readiness"]

  const TEMPLATE_KEYS: seq<string> := ["strategy_template", "template", "strategy_name"]

  const SUPPORTED_TEMPLATE := "ma_cross"

  const FLAGS: seq<Flag> := [ExecutableCode, BrokerInstruction, ProfitabilityClaim, LiveTrading]

  function IsMissing(v: Value, isSpace: char -> bool): bool {
    match v
    case Null => true
    case Str(s) => Strip(s, isSpace) == ""
    case List(items) => items == []
    case Dict(entries) => entries == []
    case _ => false
  }

  function ShowValue(v: Value, text: Text): string {
    if v.Str? then v.s else text.show(v)
  }

  function MissingFields(payload: seq<Entry>, fields: seq<string>, text: Text): seq<ValidationError> {
    if fields == [] then []
    else
      (if IsMissing(Get(payload, fields[0]), text.isSpace) then [MissingField(fields[0])] else []) +
      MissingFields(payload, fields[1..], text)
  }

  /** The first template key that is not missing, if any. */
  function NamedTemplate(payload: seq<Entry>, keys: seq<string>, text: Text): Option<string> {
    if keys == [] then None
    else if !IsMissing(Get(payload, keys[0]), text.isSpace) then
      Some(Strip(ShowValue(Get(payload, keys[0]), text), text.isSpace))
    else NamedTemplate(payload, keys[1..], text)
  }

  function Evidence(payload: seq<Entry>): Value {
    Dict([
      Entry("entry_rules", Get(payload, "entry_rules")),
      Entry("exit_rules", Get(payload, "exit_rules")),
      Entry("parameters_to_test", Get(payload, "parameters_to_test"))])
  }

  function Join(parts: seq<string>): string {
    if parts == [] then "" else if |parts| == 1 then parts[0] else parts[0] + " " + Join(parts[1..])
  }

  function FlatText(v: Value, text: Text): string {
    Join(Parts(v, text.show))
  }

  predicate HasMACrossEvidence(payload: seq<Entry>, text: Text) {
    var evidence := Evidence(payload);
    var windows := FindNestedValue(evidence, "short_window", Null) != Null
        && FindNestedValue(evidence, "long_window", Null) != Null;
    text.crossEvidence(FlatText(evidence, text)) && (text.averageEvidence(FlatText(evidence, text)) || windows)
  }

  function ResolveTemplate(payload: seq<Entry>, text: Text): (Status, seq<ValidationError>) {
    match NamedTemplate(payload, TEMPLATE_KEYS, text)
    case Some(template) =>
      if template == SUPPORTED_TEMPLATE then (Passed, []) else (Failed, [UnsupportedTemplate(template)])
    case None =>
      if HasMACrossEvidence(payload, text) then (Passed, []) else (NeedsReview, [TemplateNotInferable])
  }

  /** A boolean is no integer here, although it is one in Python. */
  function ParsePositiveInt(v: Value, field: string, text: Text): (r: Result<int, ValidationError>)
    ensures forall n ::
              r == Ok(n) <==>
              0 < n && (v == Int(n) || (v.Str? && text.parseInt(Strip(v.s, text.isSpace)) == Some(n)))
    ensures r.Err? ==> r.error == NotPositiveInteger(field)
  {
    var parsed := match v
      case Int(n) => Some(n)
      case Str(s) => text.parseInt(Strip(s, text.isSpace))
      case _ => None;
    if parsed.Some? && 0 < parsed.value then Ok(parsed.value) else Err(NotPositiveInteger(field))
  }

  /** The accepted amount, formatted without exponent. */
  function ParseInitialCash(v: Value, text: Text): (r: Result<string, ValidationError>)
    ensures r.Ok? ==> v.Str? && exists x: real | 0.0 < x ::
                        text.parseDecimal(Strip(v.s, text.isSpace)) == Some(Finite(x)) && r.value == text.formatPlain(x)
    ensures r.Err? ==> r.error == BadInitialCash
  {
    if !v.Str? then Err(BadInitialCash)
    else
      match text.parseDecimal(Strip(v.s, text.isSpace))
      case Some(Finite(x)) => if 0.0 < x then Ok(text.formatPlain(x)) else Err(BadInitialCash)
      case _ => Err(BadInitialCash)
  }

  function ShortWindow(payload: seq<Entry>, text: Text): Result<int, ValidationError> {
    ParsePositiveInt(FindNestedValue(Dict(payload), "short_window", Int(5)), "short_window", text)
  }

  function LongWindow(payload: seq<Entry>, text: Text): Result<int, ValidationError> {
    ParsePositiveInt(FindNestedValue(Dict(payload), "long_window", Int(20)), "long_window", text)
  }

  function OrderSize(payload: seq<Entry>, text: Text): Result<int, ValidationError> {
    ParsePositiveInt(FindNestedValue(Dict(payload), "order_size", Int(100)), "order_size", text)
  }

  function InitialCash(payload: seq<Entry>, text: Text): Result<string, ValidationError> {
    ParseInitialCash(FindNestedValue(Dict(payload), "initial_cash", Str("100000")), text)
  }

  function ErrorOf<T>(r: Result<T, ValidationError>): seq<ValidationError> {
    if r.Err? then [r.error] else []
  }

  predicate WindowsOrdered(payload: seq<Entry>, text: Text) {
    var short, long := ShortWindow(payload, text), LongWindow(payload, text);
    short.Ok? && long.Ok? ==> short.value < long.value
  }

  function ParameterErrors(payload: seq<Entry>, text: Text): seq<ValidationError> {
    ErrorOf(ShortWindow(payload, text)) + ErrorOf(LongWindow(payload, text)) + ErrorOf(OrderSize(payload, text))
    + ErrorOf(InitialCash(payload, text)) + if WindowsOrdered(payload, text) then [] else [WindowsNotOrdered]
  }

  method ParseParameters(payload: seq<Entry>, text: Text)
    returns (parameters: Option<Parameters>, errors: seq<ValidationError>)
    ensures errors == ParameterErrors(payload, text)
    ensures parameters.Some? <==> errors == []
    ensures parameters.Some? ==>
              var p := parameters.value;
              && Ok(p.settings.shortWindow) == ShortWindow(payload, text)
              && Ok(p.settings.longWindow) == LongWindow(payload, text)
              && Ok(p.settings.orderSize) == OrderSize(payload, text)
              && Ok(p.initialCash) == InitialCash(payload, text)
              && MACross.Constructible(p.settings)
  {
    errors := [];
    var short, long := ShortWindow(payload, text), LongWindow(payload, text);
    var size, cash := OrderSize(payload, text), InitialCash(payload, text);
    if short.Err? {
      errors := errors + [short.error];
    }
    if long.Err? {
      errors := errors + [long.error];
    }
    if size.Err? {
      errors := errors + [size.error];
    }
    if cash.Err? {
      errors := errors + [cash.error];
    }
    assert errors == ErrorOf(short) + ErrorOf(long) + ErrorOf(size) + ErrorOf(cash);
    if short.Ok? && long.Ok? && long.value <= short.value {
      errors := errors + [WindowsNotOrdered];
    }
    parameters := None;
    if errors == [] {
      parameters := Some(Parameters(MACross.Settings(short.value, long.value, size.value), cash.value));
    }
  }

  function Truncate(s: string): string {
    if |s| <= MAX_SYMBOL then s else s[..MAX_SYMBOL]
  }

  /** A symbol in the request wins unless it is blank. */
  function ResolveSymbol(payload: seq<Entry>, requestSymbol: Option<string>, text: Text): Option<string> {
    if requestSymbol.Some? && Strip(requestSymbol.value, text.isSpace) != "" then
      Some(Truncate(Strip(requestSymbol.value, text.isSpace)))
    else
      var found := FindNestedValue(Dict(payload), "symbol", Null);
      if found == Null then None
      else
        var stripped := Strip(ShowValue(found, text), text.isSpace);
        if stripped == "" then None else Some(Truncate(stripped))
  }

  lemma ResolvedSymbolValidates(payload: seq<Entry>, requestSymbol: Option<string>, text: Text)
    requires ResolveSymbol(payload, requestSymbol, text).Some?
    ensures var symbol := ResolveSymbol(payload, requestSymbol, text).value;
            ValidateSymbol(symbol, text.isSpace).Ok? && ValidateSymbol(symbol, text.isSpace).value <= symbol
  {
    var raw := if requestSymbol.Some? && Strip(requestSymbol.value, text.isSpace) != "" then requestSymbol.value
               else ShowValue(FindNestedValue(Dict(payload), "symbol", Null), text);
    StripAgain(raw, text.isSpace, MAX_SYMBOL);
    var symbol := Truncate(Strip(raw, text.isSpace));
    StripLeftStart(raw, text.isSpace);
    StripRightKeepsStart(StripLeft(raw, text.isSpace), text.isSpace);
    assert StripLeft(symbol, text.isSpace) == symbol;
    StripRightKeepsStart(symbol, text.isSpace);
  }

  function FlagsFrom(flags: seq<Flag>, text: string, matches: (Flag, string) -> bool): seq<Flag> {
    if flags == [] then []
    else (if matches(flags[0], text) then [flags[0]] else []) + FlagsFrom(flags[1..], text, matches)
  }

  /** Raises the flags whose patterns match the flattened payload, in the fixed order. */
  method ScanSafetyFlags(payload: seq<Entry>, text: Text) returns (flags: seq<Flag>)
    ensures flags == FlagsFrom(FLAGS, FlatText(Dict(payload), text), text.matches)
  {
    var parts := FlattenInto(Dict(payload), text.show, []);
    assert [] + Parts(Dict(payload), text.show) == Parts(Dict(payload), text.show);
    var flat := Join(parts);
    flags := RaiseFlags(FLAGS, flat, text.matches);
  }

  method RaiseFlags(known: seq<Flag>, flat: string, matches: (Flag, string) -> bool) returns (flags: seq<Flag>)
    ensures flags == FlagsFrom(known, flat, matches)
  {
    flags := [];
    for i := 0 to |known|
      invariant flags + FlagsFrom(known[i..], flat, matches) == FlagsFrom(known, flat, matches)
    {
      if matches(known[i], flat) {
        flags := flags + [known[i]];
      }
    }
  }

  lemma {:induction false} NoFlagIffNoMatch(flags: seq<Flag>, text: string, matches: (Flag, string) -> bool)
    ensures FlagsFrom(flags, text, matches) == [] <==> forall i :: 0 <= i < |flags| ==> !matches(flags[i], text)
  {
    if flags != [] {
      NoFlagIffNoMatch(flags[1..], text, matches);
      assert forall i :: 0 < i < |flags| ==> flags[i] == flags[1..][i - 1];
    }
  }

  method CollectMissingFields(payload: seq<Entry>, text: Text) returns (errors: seq<ValidationError>)
    ensures errors == MissingFields(payload, REQUIRED_FIELDS, text)
  {
    errors := [];
    for i := 0 to |REQUIRED_FIELDS|
      invariant errors + MissingFields(payload, REQUIRED_FIELDS[i..], text)
                == MissingFields(payload, REQUIRED_FIELDS, text)
    {
      if IsMissing(Get(payload, REQUIRED_FIELDS[i]), text.isSpace) {
        errors := errors + [MissingField(REQUIRED_FIELDS[i])];
      }
    }
  }

  function AllErrors(payload: seq<Entry>, requestSymbol: Option<string>, text: Text): seq<ValidationError> {
    MissingFields(payload, REQUIRED_FIELDS, text)
    + ResolveTemplate(payload, text).1
    + ParameterErrors(payload, text)
    + if ResolveSymbol(payload, requestSymbol, text) == None then [MissingSymbol] else []
  }

  lemma {:induction false} MissingFieldsAre(payload: seq<Entry>, fields: seq<string>, text: Text)
    ensures forall e :: e in MissingFields(payload, fields, text) ==> e.MissingField?
    ensures MissingFields(payload, fields, text) == [] <==>
            forall i :: 0 <= i < |fields| ==> !IsMissing(Get(payload, fields[i]), text.isSpace)
  {
    if fields != [] {
      MissingFieldsAre(payload, fields[1..], text);
      assert forall i :: 0 < i < |fields| ==> fields[i] == fields[1..][i - 1];
    }
  }

  /** The template complaint is made exactly when the template is what cannot be told. */
  lemma TemplateErrorIff(payload: seq<Entry>, requestSymbol: Option<string>, text: Text)
    ensures TemplateNotInferable in AllErrors(payload, requestSymbol, text)
            <==> ResolveTemplate(payload, text).0 == NeedsReview
  {
    MissingFieldsAre(payload, REQUIRED_FIELDS, text);
    assert TemplateNotInferable !in ParameterErrors(payload, text);
    assert TemplateNotInferable in ResolveTemplate(payload, text).1
           <==> ResolveTemplate(payload, text).0 == NeedsReview;
  }

  /** A specification is free of complaints exactly when every required field is there, the
      template is named as ma_cross or inferable, the numbers make a strategy and a positive
      amount, and a symbol is known. */
  lemma NoErrorsExactly(payload: seq<Entry>, requestSymbol: Option<string>, text: Text)
    ensures AllErrors(payload, requestSymbol, text) == [] <==>
            && (forall i :: 0 <= i < |REQUIRED_FIELDS| ==> !IsMissing(Get(payload, REQUIRED_FIELDS[i]), text.isSpace))
            && (var named := NamedTemplate(payload, TEMPLATE_KEYS, text);
                if named.Some? then named.value == SUPPORTED_TEMPLATE else HasMACrossEvidence(payload, text))
            && ShortWindow(payload, text).Ok? && LongWindow(payload, text).Ok? && OrderSize(payload, text).Ok?
            && MACross.Constructible(MACross.Settings(
                 ShortWindow(payload, text).value, LongWindow(payload, text).value, OrderSize(payload, text).value))
            && InitialCash(payload, text).Ok?
            && ResolveSymbol(payload, requestSymbol, text).Some?
  {
    MissingFieldsAre(payload, REQUIRED_FIELDS, text);
  }

  lemma OnlyTemplateError(payload: seq<Entry>, requestSymbol: Option<string>, text: Text)
    ensures AllErrors(payload, requestSymbol, text) == [TemplateNotInferable] <==>
            ResolveTemplate(payload, text).0 == NeedsReview && |AllErrors(payload, requestSymbol, text)| == 1
  {
    TemplateErrorIff(payload, requestSymbol, text);
    var all := AllErrors(payload, requestSymbol, text);
    if |all| == 1 {
      assert all == [all[0]];
    }
  }

  /** Every verdict: `passed` exactly without flags and errors, `needs_review` exactly when the
      only complaint is the template, payloads exactly when passed, and a passed request is
      one the workflow accepts, for the amount that was asked for. */
  method ValidateStrategyCandidate(payload: seq<Entry>, requestSymbol: Option<string>, text: Text) returns (v: Verdict)
    ensures v.errors == AllErrors(payload, requestSymbol, text)
    ensures v.flags == FlagsFrom(FLAGS, FlatText(Dict(payload), text), text.matches)
    ensures v.status == Passed <==> v.flags == [] && v.errors == []
    ensures v.status == NeedsReview <==> v.flags == [] && v.errors == [TemplateNotInferable]
    ensures v.request.Some? <==> v.status == Passed
    ensures v.candidate.Some? <==> v.status == Passed
    ensures v.status == Passed ==>
              var r := v.request.value;
              && ValidateSymbol(r.symbol, text.isSpace).Ok?
              && ValidateMACross(r.settings).Ok?
              && MACross.Construct(r.settings).Ok?
              && (RoundTrips(text) ==> ValidatePositiveDecimal(r.initialCash, text).Ok?)
              && v.candidate.value == Candidate(SUPPORTED_TEMPLATE, r.symbol, r.settings)
              && Some(r.symbol) == ResolveSymbol(payload, requestSymbol, text)
              && Ok(r.settings.shortWindow) == ShortWindow(payload, text)
              && Ok(r.settings.longWindow) == LongWindow(payload, text)
              && Ok(r.settings.orderSize) == OrderSize(payload, text)
              && Ok(r.initialCash) == InitialCash(payload, text)
              && var asked := FindNestedValue(Dict(payload), "initial_cash", Str("100000"));
                 && asked.Str?
                 && (RoundTrips(text) ==>
                       text.parseDecimal(r.initialCash) == text.parseDecimal(Strip(asked.s, text.isSpace)))
  {
    var flags := ScanSafetyFlags(payload, text);
    var errors := CollectMissingFields(payload, text);
    var (templateStatus, templateErrors) := ResolveTemplate(payload, text);
    errors := errors + templateErrors;
    var parameters, parameterErrors := ParseParameters(payload, text);
    errors := errors + parameterErrors;
    var symbol := ResolveSymbol(payload, requestSymbol, text);
    if symbol.None? {
      errors := errors + [MissingSymbol];
    }
    assert errors == AllErrors(payload, requestSymbol, text);
    OnlyTemplateError(payload, requestSymbol, text);
    if flags != [] || errors != [] {
      var status := if templateStatus == NeedsReview then NeedsReview else Failed;
      if status == NeedsReview && (flags != [] || |errors| > 1) {
        status := Failed;
      }
      return Verdict(status, errors, flags, None, None);
    }
    ResolvedSymbolValidates(payload, requestSymbol, text);
    var p := parameters.value;
    return Verdict(Passed, [], [], Some(Candidate(SUPPORTED_TEMPLATE, symbol.value, p.settings)),
                   Some(BacktestRequest(symbol.value, p.settings, p.initialCash)));
  }
}
