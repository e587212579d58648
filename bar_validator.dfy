/**
 * Validation and normalisation of incoming volume bars (utils/validateVolumeBar.ts).
 *
 * A bar arrives as a loosely typed JavaScript value. `ValidateVolumeBar`
 * collects one error per violated field rule, in a fixed field order, and on
 * success returns the normalised record; `ValidateVolumeBarBatch` adds the
 * array and size checks and is all-or-nothing. Both methods are proved equal
 * to the specification functions `BarValidation` and `BatchValidation`, about
 * which the lemmas below state what a caller may rely on.
 */
module BarValidator {
  import opened Js
  import opened Text

  const VALID_TIMEFRAMES: seq<string> := ["1m", "5m", "15m", "30m", "1h", "4h", "1d"]
  const VALID_SYMBOLS: seq<string> := ["MNQ", "NQ", "ES", "MES", "YM", "MYM", "RTY", "M2K"]
  const VALID_SOURCES: seq<string> := ["NinjaTrader", "Rithmic", "CQG", "Manual"]

  /** Fallback for an absent or empty related_symbol. */
  const DEFAULT_RELATED_SYMBOL: string := "QQQ"
  /** How far past the validation instant a bar_time may lie: 5 * 60 * 1000 ms. */
  const FUTURE_TOLERANCE_MS: int := 300000
  /** Allowed difference between delta_volume and open_volume - close_volume. */
  const DELTA_TOLERANCE: real := 0.01
  const MAX_BATCH_SIZE: nat := 100

  /** The normalised record handed to storage. */
  datatype VolumeBarInput = VolumeBarInput(
    symbol: string,
    related_symbol: string,
    bar_time: string,
    open_volume: real,
    close_volume: real,
    delta_volume: real,
    timeframe: string,
    source: string)

  /** One message of `validateVolumeBar`; the interpolated texts are kept as data. */
  datatype BarError =
    | NotAnObject
    | SymbolRequired
    | SymbolNotAllowed
    | BarTimeRequired
    | BarTimeInvalid
    | BarTimeInFuture
    | OpenVolumeRequired
    | OpenVolumeNegative
    | CloseVolumeRequired
    | CloseVolumeNegative
    | DeltaVolumeRequired
    | DeltaMismatch(delta: real, expected: real)
    | TimeframeRequired
    | TimeframeNotAllowed
    | SourceRequired
    | SourceNotAllowed
    | RelatedSymbolNotString

  /** One message of `validateVolumeBarBatch`; `BarInvalid(i, es)` is "Bar i: " followed by es joined. */
  datatype BatchError =
    | NotAnArray
    | EmptyBatch
    | BatchTooLarge
    | BarInvalid(index: nat, errors: seq<BarError>)

  /** `ValidationResult`: the verdict, the collected errors and, on success, the data. */
  datatype Validation<T, E> = Validation(valid: bool, errors: seq<E>, data: Option<T>)

  /** The eight properties the validator reads, each `undefined` when absent. */
  datatype RawBar = RawBar(
    symbol: JsValue,
    bar_time: JsValue,
    open_volume: JsValue,
    close_volume: JsValue,
    delta_volume: JsValue,
    timeframe: JsValue,
    source: JsValue,
    related_symbol: JsValue)

  function Fields(data: JsValue): RawBar
  {
    RawBar(
      Get(data, "symbol"),
      Get(data, "bar_time"),
      Get(data, "open_volume"),
      Get(data, "close_volume"),
      Get(data, "delta_volume"),
      Get(data, "timeframe"),
      Get(data, "source"),
      Get(data, "related_symbol"))
  }

  function Abs(x: real): real
  {
    if x < 0.0 then -x else x
  }

  // ---------------------------------------------------------------------------
  // One check per field, in the order the source runs them
  // ---------------------------------------------------------------------------

  /** The position of a field in the order the checks run; NotAnObject comes before all. */
  function FieldRank(e: BarError): nat
  {
    match e
    case NotAnObject => 0
    case SymbolRequired | SymbolNotAllowed => 1
    case BarTimeRequired | BarTimeInvalid | BarTimeInFuture => 2
    case OpenVolumeRequired | OpenVolumeNegative => 3
    case CloseVolumeRequired | CloseVolumeNegative => 4
    case DeltaVolumeRequired | DeltaMismatch(_, _) => 5
    case TimeframeRequired | TimeframeNotAllowed => 6
    case SourceRequired | SourceNotAllowed => 7
    case RelatedSymbolNotString => 8
  }

  predicate IsObjectLike(data: JsValue)
  {
    Truthy(data) && TypeOf(data) == ObjectTag
  }

  /** A present, non-empty string (the `!x || typeof x !== 'string'` guard fails). */
  predicate IsFilledString(v: JsValue)
  {
    Truthy(v) && TypeOf(v) == StringTag
  }

  /** At most one error, and only one about the field of the given rank. */
  predicate OnField(errors: seq<BarError>, rank: nat)
  {
    |errors| <= 1 && forall e :: e in errors ==> FieldRank(e) == rank
  }

  /** The symbol passes when it is a string whose upper-case form is allow-listed. */
  function SymbolCheck(symbol: JsValue): (r: seq<BarError>)
    ensures OnField(r, 1)
    ensures r == [] <==> symbol.Str? && Upper(symbol.s) in VALID_SYMBOLS
    ensures !(symbol.Str? && symbol.s != "") ==> r == [SymbolRequired]
    ensures symbol.Str? && symbol.s != "" && Upper(symbol.s) !in VALID_SYMBOLS ==> r == [SymbolNotAllowed]
  {
    if !IsFilledString(symbol) then [SymbolRequired]
    else if Upper(symbol.s) !in VALID_SYMBOLS then [SymbolNotAllowed]
    else []
  }

  /** An unparseable time makes the future comparison false (NaN), so only one error is possible. */
  function BarTimeCheck(barTime: JsValue, now: int, parse: string -> Option<int>): (r: seq<BarError>)
    ensures OnField(r, 2)
    ensures r == [] <==>
      && barTime.Str? && barTime.s != ""
      && parse(barTime.s).Some? && parse(barTime.s).value <= now + FUTURE_TOLERANCE_MS
    ensures !(barTime.Str? && barTime.s != "") ==> r == [BarTimeRequired]
    ensures barTime.Str? && barTime.s != "" && parse(barTime.s).None? ==> r == [BarTimeInvalid]
    ensures barTime.Str? && barTime.s != "" && parse(barTime.s).Some? && parse(barTime.s).value > now + FUTURE_TOLERANCE_MS
      ==> r == [BarTimeInFuture]
  {
    if !IsFilledString(barTime) then [BarTimeRequired]
    else
      match parse(barTime.s)
      case None => [BarTimeInvalid]
      case Some(t) => if t > now + FUTURE_TOLERANCE_MS then [BarTimeInFuture] else []
  }

  function OpenVolumeCheck(openVolume: JsValue): (r: seq<BarError>)
    ensures OnField(r, 3)
    ensures r == [] <==> openVolume.Num? && openVolume.n >= 0.0
    ensures !openVolume.Num? ==> r == [OpenVolumeRequired]
    ensures openVolume.Num? && openVolume.n < 0.0 ==> r == [OpenVolumeNegative]
  {
    if TypeOf(openVolume) != NumberTag then [OpenVolumeRequired]
    else if openVolume.n < 0.0 then [OpenVolumeNegative]
    else []
  }

  function CloseVolumeCheck(closeVolume: JsValue): (r: seq<BarError>)
    ensures OnField(r, 4)
    ensures r == [] <==> closeVolume.Num? && closeVolume.n >= 0.0
    ensures !closeVolume.Num? ==> r == [CloseVolumeRequired]
    ensures closeVolume.Num? && closeVolume.n < 0.0 ==> r == [CloseVolumeNegative]
  {
    if TypeOf(closeVolume) != NumberTag then [CloseVolumeRequired]
    else if closeVolume.n < 0.0 then [CloseVolumeNegative]
    else []
  }

  /** The consistency check runs whenever all three are numbers, whatever their signs. */
  function DeltaVolumeCheck(deltaVolume: JsValue, openVolume: JsValue, closeVolume: JsValue): (r: seq<BarError>)
    ensures OnField(r, 5)
    ensures r == [] <==>
      && deltaVolume.Num?
      && (openVolume.Num? && closeVolume.Num? ==>
            Abs(deltaVolume.n - (openVolume.n - closeVolume.n)) <= DELTA_TOLERANCE)
    ensures !deltaVolume.Num? ==> r == [DeltaVolumeRequired]
    ensures (&& deltaVolume.Num? && openVolume.Num? && closeVolume.Num?
             && Abs(deltaVolume.n - (openVolume.n - closeVolume.n)) > DELTA_TOLERANCE)
      ==> r == [DeltaMismatch(deltaVolume.n, openVolume.n - closeVolume.n)]
  {
    if TypeOf(deltaVolume) != NumberTag then [DeltaVolumeRequired]
    else if TypeOf(openVolume) == NumberTag && TypeOf(closeVolume) == NumberTag
         && Abs(deltaVolume.n - (openVolume.n - closeVolume.n)) > DELTA_TOLERANCE
    then [DeltaMismatch(deltaVolume.n, openVolume.n - closeVolume.n)]
    else []
  }

  function TimeframeCheck(timeframe: JsValue): (r: seq<BarError>)
    ensures OnField(r, 6)
    ensures r == [] <==> timeframe.Str? && Lower(timeframe.s) in VALID_TIMEFRAMES
    ensures !(timeframe.Str? && timeframe.s != "") ==> r == [TimeframeRequired]
    ensures timeframe.Str? && timeframe.s != "" && Lower(timeframe.s) !in VALID_TIMEFRAMES ==> r == [TimeframeNotAllowed]
  {
    if !IsFilledString(timeframe) then [TimeframeRequired]
    else if Lower(timeframe.s) !in VALID_TIMEFRAMES then [TimeframeNotAllowed]
    else []
  }

  /** Sources are compared exactly, without case folding. */
  function SourceCheck(source: JsValue): (r: seq<BarError>)
    ensures OnField(r, 7)
    ensures r == [] <==> source.Str? && source.s in VALID_SOURCES
    ensures !(source.Str? && source.s != "") ==> r == [SourceRequired]
    ensures source.Str? && source.s != "" && source.s !in VALID_SOURCES ==> r == [SourceNotAllowed]
  {
    if !IsFilledString(source) then [SourceRequired]
    else if source.s !in VALID_SOURCES then [SourceNotAllowed]
    else []
  }

  /** `null` is not `undefined`, so an explicit null related_symbol is an error. */
  function RelatedSymbolCheck(relatedSymbol: JsValue): (r: seq<BarError>)
    ensures OnField(r, 8)
    ensures r == [] <==> relatedSymbol.Undefined? || relatedSymbol.Str?
    ensures !(relatedSymbol.Undefined? || relatedSymbol.Str?) ==> r == [RelatedSymbolNotString]
  {
    if relatedSymbol != Undefined && TypeOf(relatedSymbol) != StringTag then [RelatedSymbolNotString]
    else []
  }

  /** Every field has the JavaScript type the normalisation reads it at. */
  predicate WellShaped(f: RawBar)
  {
    && f.symbol.Str?
    && f.bar_time.Str?
    && f.open_volume.Num?
    && f.close_volume.Num?
    && f.delta_volume.Num?
    && f.timeframe.Str?
    && f.source.Str?
    && (f.related_symbol.Undefined? || f.related_symbol.Str?)
  }

  /** The field-level errors of an object, in the order the checks run. */
  function FieldErrors(f: RawBar, now: int, parse: string -> Option<int>): (r: seq<BarError>)
    ensures r == [] ==> WellShaped(f)
  {
    SymbolCheck(f.symbol)
    + BarTimeCheck(f.bar_time, now, parse)
    + OpenVolumeCheck(f.open_volume)
    + CloseVolumeCheck(f.close_volume)
    + DeltaVolumeCheck(f.delta_volume, f.open_volume, f.close_volume)
    + TimeframeCheck(f.timeframe)
    + SourceCheck(f.source)
    + RelatedSymbolCheck(f.related_symbol)
  }

  /** All the errors `validateVolumeBar` collects for `data`. */
  function BarErrors(data: JsValue, now: int, parse: string -> Option<int>): seq<BarError>
  {
    if !IsObjectLike(data) then [NotAnObject] else FieldErrors(Fields(data), now, parse)
  }

  /** The record returned on success: symbols upper-cased, timeframe lower-cased, the rest as given. */
  function Normalize(f: RawBar): VolumeBarInput
    requires WellShaped(f)
  {
    VolumeBarInput(
      Upper(f.symbol.s),
      if f.related_symbol.Str? && Upper(f.related_symbol.s) != "" then Upper(f.related_symbol.s)
      else DEFAULT_RELATED_SYMBOL,
      f.bar_time.s,
      f.open_volume.n,
      f.close_volume.n,
      f.delta_volume.n,
      Lower(f.timeframe.s),
      f.source.s)
  }

  /** The specification of `validateVolumeBar`. */
  function BarValidation(data: JsValue, now: int, parse: string -> Option<int>): Validation<VolumeBarInput, BarError>
  {
    var errors := BarErrors(data, now, parse);
    if |errors| > 0 then Validation(false, errors, None)
    else Validation(true, [], Some(Normalize(Fields(data))))
  }

  // ---------------------------------------------------------------------------
  // What a stored record satisfies
  // ---------------------------------------------------------------------------

  /** The record-level invariants every accepted bar satisfies after normalisation. */
  predicate Admissible(b: VolumeBarInput, now: int, parse: string -> Option<int>)
  {
    && b.symbol in VALID_SYMBOLS
    && b.related_symbol != "" && Upper(b.related_symbol) == b.related_symbol
    && b.bar_time != ""
    && parse(b.bar_time).Some? && parse(b.bar_time).value <= now + FUTURE_TOLERANCE_MS
    && b.open_volume >= 0.0
    && b.close_volume >= 0.0
    && Abs(b.delta_volume - (b.open_volume - b.close_volume)) <= DELTA_TOLERANCE
    && b.timeframe in VALID_TIMEFRAMES
    && b.source in VALID_SOURCES
  }

  /** The eight properties of the stored form of a record. */
  function StoredFields(b: VolumeBarInput): RawBar
  {
    RawBar(Str(b.symbol), Str(b.bar_time), Num(b.open_volume), Num(b.close_volume),
           Num(b.delta_volume), Str(b.timeframe), Str(b.source), Str(b.related_symbol))
  }

  /** The record as a JavaScript object, the shape in which it is stored and could be resubmitted. */
  function ToJs(b: VolumeBarInput): JsValue
  {
    Obj(map[
      "symbol" := Str(b.symbol),
      "related_symbol" := Str(b.related_symbol),
      "bar_time" := Str(b.bar_time),
      "open_volume" := Num(b.open_volume),
      "close_volume" := Num(b.close_volume),
      "delta_volume" := Num(b.delta_volume),
      "timeframe" := Str(b.timeframe),
      "source" := Str(b.source)])
  }

  // ---------------------------------------------------------------------------
  // validateVolumeBar
  // ---------------------------------------------------------------------------

  // Each rule of `validateVolumeBar` pushes at most one message onto the list
  // collected so far; the branches are the source's own.

  method PushSymbolError(errors: seq<BarError>, symbol: JsValue) returns (out: seq<BarError>)
    ensures out == errors + SymbolCheck(symbol)
  {
    out := errors;
    if !Truthy(symbol) || TypeOf(symbol) != StringTag {
      out := out + [SymbolRequired];
    } else if Upper(symbol.s) !in VALID_SYMBOLS {
      out := out + [SymbolNotAllowed];
    }
  }

  method PushBarTimeErrors(errors: seq<BarError>, barTime: JsValue, now: int, parse: string -> Option<int>)
    returns (out: seq<BarError>)
    ensures out == errors + BarTimeCheck(barTime, now, parse)
  {
    out := errors;
    if !Truthy(barTime) || TypeOf(barTime) != StringTag {
      out := out + [BarTimeRequired];
    } else {
      var timestamp := parse(barTime.s);
      if timestamp.None? {
        out := out + [BarTimeInvalid];
      }
      // An unparseable time compares false against the limit.
      if timestamp.Some? && timestamp.value > now + FUTURE_TOLERANCE_MS {
        out := out + [BarTimeInFuture];
      }
    }
  }

  method PushOpenVolumeError(errors: seq<BarError>, openVolume: JsValue) returns (out: seq<BarError>)
    ensures out == errors + OpenVolumeCheck(openVolume)
  {
    out := errors;
    if TypeOf(openVolume) != NumberTag {
      out := out + [OpenVolumeRequired];
    } else if openVolume.n < 0.0 {
      out := out + [OpenVolumeNegative];
    }
  }

  method PushCloseVolumeError(errors: seq<BarError>, closeVolume: JsValue) returns (out: seq<BarError>)
    ensures out == errors + CloseVolumeCheck(closeVolume)
  {
    out := errors;
    if TypeOf(closeVolume) != NumberTag {
      out := out + [CloseVolumeRequired];
    } else if closeVolume.n < 0.0 {
      out := out + [CloseVolumeNegative];
    }
  }

  method PushDeltaVolumeError(errors: seq<BarError>, deltaVolume: JsValue, openVolume: JsValue, closeVolume: JsValue)
    returns (out: seq<BarError>)
    ensures out == errors + DeltaVolumeCheck(deltaVolume, openVolume, closeVolume)
  {
    out := errors;
    if TypeOf(deltaVolume) != NumberTag {
      out := out + [DeltaVolumeRequired];
    } else {
      if TypeOf(openVolume) == NumberTag && TypeOf(closeVolume) == NumberTag {
        var expectedDelta := openVolume.n - closeVolume.n;
        if Abs(deltaVolume.n - expectedDelta) > DELTA_TOLERANCE {
          out := out + [DeltaMismatch(deltaVolume.n, expectedDelta)];
        }
      }
    }
  }

  method PushTimeframeError(errors: seq<BarError>, timeframe: JsValue) returns (out: seq<BarError>)
    ensures out == errors + TimeframeCheck(timeframe)
  {
    out := errors;
    if !Truthy(timeframe) || TypeOf(timeframe) != StringTag {
      out := out + [TimeframeRequired];
    } else if Lower(timeframe.s) !in VALID_TIMEFRAMES {
      out := out + [TimeframeNotAllowed];
    }
  }

  method PushSourceError(errors: seq<BarError>, source: JsValue) returns (out: seq<BarError>)
    ensures out == errors + SourceCheck(source)
  {
    out := errors;
    if !Truthy(source) || TypeOf(source) != StringTag {
      out := out + [SourceRequired];
    } else if source.s !in VALID_SOURCES {
      out := out + [SourceNotAllowed];
    }
  }

  method PushRelatedSymbolError(errors: seq<BarError>, relatedSymbol: JsValue) returns (out: seq<BarError>)
    ensures out == errors + RelatedSymbolCheck(relatedSymbol)
  {
    out := errors;
    if relatedSymbol != Undefined && TypeOf(relatedSymbol) != StringTag {
      out := out + [RelatedSymbolNotString];
    }
  }

  method ValidateVolumeBar(data: JsValue, now: int, parse: string -> Option<int>)
    returns (r: Validation<VolumeBarInput, BarError>)
    ensures r == BarValidation(data, now, parse)
  {
    if !Truthy(data) || TypeOf(data) != ObjectTag {
      return Validation(false, [NotAnObject], None);
    }

    ghost var f := Fields(data);
    var errors: seq<BarError> := [];
    errors := PushSymbolError(errors, Get(data, "symbol"));
    assert errors == SymbolCheck(f.symbol);
    errors := PushBarTimeErrors(errors, Get(data, "bar_time"), now, parse);
    errors := PushOpenVolumeError(errors, Get(data, "open_volume"));
    errors := PushCloseVolumeError(errors, Get(data, "close_volume"));
    errors := PushDeltaVolumeError(errors, Get(data, "delta_volume"), Get(data, "open_volume"), Get(data, "close_volume"));
    errors := PushTimeframeError(errors, Get(data, "timeframe"));
    errors := PushSourceError(errors, Get(data, "source"));
    errors := PushRelatedSymbolError(errors, Get(data, "related_symbol"));
    assert errors == FieldErrors(Fields(data), now, parse);

    if |errors| > 0 {
      return Validation(false, errors, None);
    }

    var symbol, barTime, timeframe, source := Get(data, "symbol"), Get(data, "bar_time"), Get(data, "timeframe"), Get(data, "source");
    var openVolume, closeVolume, deltaVolume := Get(data, "open_volume"), Get(data, "close_volume"), Get(data, "delta_volume");
    var relatedSymbol := Get(data, "related_symbol");
    var related := if relatedSymbol.Str? && Upper(relatedSymbol.s) != "" then Upper(relatedSymbol.s) else DEFAULT_RELATED_SYMBOL;
    r := Validation(true, [], Some(VolumeBarInput(
      Upper(symbol.s),
      related,
      barTime.s,
      openVolume.n,
      closeVolume.n,
      deltaVolume.n,
      Lower(timeframe.s),
      source.s)));
  }

  // ---------------------------------------------------------------------------
  // Properties of the single-record validator
  // ---------------------------------------------------------------------------

  /**
   * A non-object is rejected with the single NotAnObject error; otherwise the
   * errors are those of the field rules, and a record is valid exactly when
   * there are none, in which case (and only then) it carries data.
   */
  lemma BarValidationShape(data: JsValue, now: int, parse: string -> Option<int>)
    ensures var r := BarValidation(data, now, parse);
      && (!IsObjectLike(data) ==> r == Validation(false, [NotAnObject], None))
      && r.errors == (if r.valid then [] else BarErrors(data, now, parse))
      && (r.valid <==> BarErrors(data, now, parse) == [])
      && (r.valid <==> r.errors == [])
      && (r.valid <==> r.data.Some?)
  {
  }

  /** Errors are collected field by field in source order, at most one per field. */
  predicate FollowsFieldOrder(errors: seq<BarError>)
  {
    forall i, j :: 0 <= i < j < |errors| ==> FieldRank(errors[i]) < FieldRank(errors[j])
  }

  lemma AppendFieldErrors(acc: seq<BarError>, next: seq<BarError>, rank: nat)
    requires FollowsFieldOrder(acc)
    requires forall e :: e in acc ==> FieldRank(e) < rank
    requires OnField(next, rank)
    ensures FollowsFieldOrder(acc + next)
    ensures forall e :: e in acc + next ==> FieldRank(e) <= rank
  {
    var all := acc + next;
    forall i, j | 0 <= i < j < |all|
      ensures FieldRank(all[i]) < FieldRank(all[j])
    {
      if j >= |acc| {
        assert all[j] in next;
        assert all[i] in acc;
      }
    }
  }

  /**
   * A non-object yields the single NotAnObject error; otherwise every field
   * contributes at most one error, in the order symbol, bar_time,
   * open_volume, close_volume, delta_volume, timeframe, source,
   * related_symbol, and NotAnObject does not occur.
   */
  lemma ErrorsFollowFieldOrder(data: JsValue, now: int, parse: string -> Option<int>)
    ensures !IsObjectLike(data) ==> BarErrors(data, now, parse) == [NotAnObject]
    ensures IsObjectLike(data) ==> NotAnObject !in BarErrors(data, now, parse)
    ensures FollowsFieldOrder(BarErrors(data, now, parse))
    ensures |BarErrors(data, now, parse)| <= 8
  {
    if IsObjectLike(data) {
      var f := Fields(data);
      var e1 := SymbolCheck(f.symbol);
      var e2 := BarTimeCheck(f.bar_time, now, parse);
      var e3 := OpenVolumeCheck(f.open_volume);
      var e4 := CloseVolumeCheck(f.close_volume);
      var e5 := DeltaVolumeCheck(f.delta_volume, f.open_volume, f.close_volume);
      var e6 := TimeframeCheck(f.timeframe);
      var e7 := SourceCheck(f.source);
      var e8 := RelatedSymbolCheck(f.related_symbol);
      AppendFieldErrors([], e1, 1);
      AppendFieldErrors(e1, e2, 2);
      AppendFieldErrors(e1 + e2, e3, 3);
      AppendFieldErrors(e1 + e2 + e3, e4, 4);
      AppendFieldErrors(e1 + e2 + e3 + e4, e5, 5);
      AppendFieldErrors(e1 + e2 + e3 + e4 + e5, e6, 6);
      AppendFieldErrors(e1 + e2 + e3 + e4 + e5 + e6, e7, 7);
      AppendFieldErrors(e1 + e2 + e3 + e4 + e5 + e6 + e7, e8, 8);
      assert BarErrors(data, now, parse) == e1 + e2 + e3 + e4 + e5 + e6 + e7 + e8;
    }
  }

  /** The errors about the field of the given rank, in the order they were collected. */
  function ErrorsOfRank(es: seq<BarError>, rank: nat): (r: seq<BarError>)
    ensures forall e :: e in r ==> e in es && FieldRank(e) == rank
    ensures forall e :: e in es && FieldRank(e) == rank ==> e in r
  {
    if es == [] then []
    else (if FieldRank(es[0]) == rank then [es[0]] else []) + ErrorsOfRank(es[1..], rank)
  }

  /** A list with no error of rank k filters to nothing. */
  lemma ErrorsOfRankNone(errors: seq<BarError>, k: nat)
    requires forall e :: e in errors ==> FieldRank(e) != k
    ensures ErrorsOfRank(errors, k) == []
  {
    var r := ErrorsOfRank(errors, k);
    assert forall i :: 0 <= i < |r| ==> r[i] in r;
  }

  /** In a list ordered by field, at most one error is about a given field. */
  lemma {:induction false} OnePerRank(errors: seq<BarError>, k: nat)
    requires FollowsFieldOrder(errors)
    ensures |ErrorsOfRank(errors, k)| <= 1
  {
    if errors != [] {
      var rest := errors[1..];
      assert FollowsFieldOrder(rest) by {
        forall i, j | 0 <= i < j < |rest|
          ensures FieldRank(rest[i]) < FieldRank(rest[j])
        {
          assert rest[i] == errors[i + 1] && rest[j] == errors[j + 1];
        }
      }
      OnePerRank(rest, k);
      if FieldRank(errors[0]) == k {
        forall e | e in rest
          ensures FieldRank(e) != k
        {
          var i :| 0 <= i < |rest| && rest[i] == e;
          assert errors[i + 1] == e;
        }
        ErrorsOfRankNone(rest, k);
      }
    }
  }

  /** Two lists of at most one element with the same members are equal. */
  lemma SameSmallLists(a: seq<BarError>, b: seq<BarError>)
    requires |a| <= 1 && |b| <= 1
    requires forall e :: e in a <==> e in b
    ensures a == b
  {
    if a != [] {
      assert a[0] in b;
    }
    if b != [] {
      assert b[0] in a;
    }
  }

  /** In an ordered list, the errors of rank k are the part that holds exactly its rank-k errors. */
  lemma RankIsPart(errors: seq<BarError>, part: seq<BarError>, k: nat)
    requires FollowsFieldOrder(errors)
    requires OnField(part, k)
    requires forall e :: e in part <==> e in errors && FieldRank(e) == k
    ensures ErrorsOfRank(errors, k) == part
  {
    OnePerRank(errors, k);
    SameSmallLists(ErrorsOfRank(errors, k), part);
  }

  /** Filtering the eight rules' errors, in order, by a rank gives that rank's rule's errors. */
  lemma RanksOfRules(e1: seq<BarError>, e2: seq<BarError>, e3: seq<BarError>, e4: seq<BarError>,
                     e5: seq<BarError>, e6: seq<BarError>, e7: seq<BarError>, e8: seq<BarError>)
    requires OnField(e1, 1) && OnField(e2, 2) && OnField(e3, 3) && OnField(e4, 4)
    requires OnField(e5, 5) && OnField(e6, 6) && OnField(e7, 7) && OnField(e8, 8)
    requires FollowsFieldOrder(e1 + e2 + e3 + e4 + e5 + e6 + e7 + e8)
    ensures var es := e1 + e2 + e3 + e4 + e5 + e6 + e7 + e8;
      && ErrorsOfRank(es, 1) == e1 && ErrorsOfRank(es, 2) == e2
      && ErrorsOfRank(es, 3) == e3 && ErrorsOfRank(es, 4) == e4
      && ErrorsOfRank(es, 5) == e5 && ErrorsOfRank(es, 6) == e6
      && ErrorsOfRank(es, 7) == e7 && ErrorsOfRank(es, 8) == e8
  {
    var es := e1 + e2 + e3 + e4 + e5 + e6 + e7 + e8;
    RankIsPart(es, e1, 1);
    RankIsPart(es, e2, 2);
    RankIsPart(es, e3, 3);
    RankIsPart(es, e4, 4);
    RankIsPart(es, e5, 5);
    RankIsPart(es, e6, 6);
    RankIsPart(es, e7, 7);
    RankIsPart(es, e8, 8);
  }

  /**
   * Every rule runs, whatever the others find: for an object, the errors
   * reported about each field are exactly the errors of that field's rule,
   * so each bad field is reported.
   */
  lemma EveryRuleReports(data: JsValue, now: int, parse: string -> Option<int>)
    ensures IsObjectLike(data) ==>
      var es, f := BarErrors(data, now, parse), Fields(data);
      && ErrorsOfRank(es, 1) == SymbolCheck(f.symbol)
      && ErrorsOfRank(es, 2) == BarTimeCheck(f.bar_time, now, parse)
      && ErrorsOfRank(es, 3) == OpenVolumeCheck(f.open_volume)
      && ErrorsOfRank(es, 4) == CloseVolumeCheck(f.close_volume)
      && ErrorsOfRank(es, 5) == DeltaVolumeCheck(f.delta_volume, f.open_volume, f.close_volume)
      && ErrorsOfRank(es, 6) == TimeframeCheck(f.timeframe)
      && ErrorsOfRank(es, 7) == SourceCheck(f.source)
      && ErrorsOfRank(es, 8) == RelatedSymbolCheck(f.related_symbol)
  {
    if IsObjectLike(data) {
      var f := Fields(data);
      var e1 := SymbolCheck(f.symbol);
      var e2 := BarTimeCheck(f.bar_time, now, parse);
      var e3 := OpenVolumeCheck(f.open_volume);
      var e4 := CloseVolumeCheck(f.close_volume);
      var e5 := DeltaVolumeCheck(f.delta_volume, f.open_volume, f.close_volume);
      var e6 := TimeframeCheck(f.timeframe);
      var e7 := SourceCheck(f.source);
      var e8 := RelatedSymbolCheck(f.related_symbol);
      assert BarErrors(data, now, parse) == e1 + e2 + e3 + e4 + e5 + e6 + e7 + e8;
      ErrorsFollowFieldOrder(data, now, parse);
      RanksOfRules(e1, e2, e3, e4, e5, e6, e7, e8);
    }
  }

  /**
   * With all three volumes numeric, the record carries a delta-mismatch error
   * exactly when delta_volume is further than the tolerance from
   * open_volume - close_volume; the signs of the volumes play no part.
   */
  lemma DeltaToleranceDecides(data: JsValue, now: int, parse: string -> Option<int>)
    requires IsObjectLike(data)
    requires Fields(data).open_volume.Num? && Fields(data).close_volume.Num? && Fields(data).delta_volume.Num?
    ensures var f := Fields(data);
      var o, c, d := f.open_volume.n, f.close_volume.n, f.delta_volume.n;
      && (DeltaMismatch(d, o - c) in BarErrors(data, now, parse) <==> Abs(d - (o - c)) > DELTA_TOLERANCE)
      && (Abs(d - (o - c)) > DELTA_TOLERANCE ==> !BarValidation(data, now, parse).valid)
  {
    var f := Fields(data);
    var o, c, d := f.open_volume.n, f.close_volume.n, f.delta_volume.n;
    var before := SymbolCheck(f.symbol) + BarTimeCheck(f.bar_time, now, parse)
      + OpenVolumeCheck(f.open_volume) + CloseVolumeCheck(f.close_volume);
    var delta := DeltaVolumeCheck(f.delta_volume, f.open_volume, f.close_volume);
    var after := TimeframeCheck(f.timeframe) + SourceCheck(f.source) + RelatedSymbolCheck(f.related_symbol);
    assert BarErrors(data, now, parse) == before + delta + after;
    assert DeltaMismatch(d, o - c) !in before;
    assert DeltaMismatch(d, o - c) !in after;
  }

  /** The allow-listed codes are already in their normal case. */
  lemma AllowListsAreNormalized(symbol: string, timeframe: string)
    ensures symbol in VALID_SYMBOLS ==> Upper(symbol) == symbol && symbol != ""
    ensures timeframe in VALID_TIMEFRAMES ==> Lower(timeframe) == timeframe
  {
    if symbol in VALID_SYMBOLS {
      UpperFixed(symbol);
    }
    if timeframe in VALID_TIMEFRAMES {
      LowerFixed(timeframe);
    }
  }

  /** No field error means that every rule passed. */
  lemma EveryRulePassed(f: RawBar, now: int, parse: string -> Option<int>)
    requires FieldErrors(f, now, parse) == []
    ensures && SymbolCheck(f.symbol) == []
            && BarTimeCheck(f.bar_time, now, parse) == []
            && OpenVolumeCheck(f.open_volume) == []
            && CloseVolumeCheck(f.close_volume) == []
            && DeltaVolumeCheck(f.delta_volume, f.open_volume, f.close_volume) == []
            && TimeframeCheck(f.timeframe) == []
            && SourceCheck(f.source) == []
            && RelatedSymbolCheck(f.related_symbol) == []
  {
  }

  /** The normalised form of a record on which every rule passed satisfies the record invariants. */
  lemma PassingFieldsNormalizeAdmissibly(f: RawBar, now: int, parse: string -> Option<int>)
    requires FieldErrors(f, now, parse) == []
    ensures Admissible(Normalize(f), now, parse)
  {
    EveryRulePassed(f, now, parse);
    if f.related_symbol.Str? && f.related_symbol.s != "" {
      UpperIdempotent(f.related_symbol.s);
    } else {
      UpperFixed(DEFAULT_RELATED_SYMBOL);
    }
  }

  /**
   * A record that passes is returned normalised: symbol and related_symbol
   * upper-cased (related_symbol falling back to QQQ when absent or empty),
   * timeframe lower-cased, source, bar_time and the numbers unchanged; and the
   * result satisfies every record invariant.
   */
  lemma ValidIsAdmissible(data: JsValue, now: int, parse: string -> Option<int>)
    requires BarValidation(data, now, parse).valid
    ensures BarValidation(data, now, parse).errors == []
    ensures var f, b := Fields(data), BarValidation(data, now, parse).data;
      && b.Some?
      && b.value.symbol == Upper(f.symbol.s)
      && b.value.related_symbol == (match f.related_symbol
                                    case Str(s) => if s == "" then DEFAULT_RELATED_SYMBOL else Upper(s)
                                    case _ => DEFAULT_RELATED_SYMBOL)
      && b.value.bar_time == f.bar_time.s
      && b.value.open_volume == f.open_volume.n
      && b.value.close_volume == f.close_volume.n
      && b.value.delta_volume == f.delta_volume.n
      && b.value.timeframe == Lower(f.timeframe.s)
      && b.value.source == f.source.s
      && Admissible(b.value, now, parse)
  {
    var f := Fields(data);
    assert IsObjectLike(data);
    assert FieldErrors(f, now, parse) == [];
    PassingFieldsNormalizeAdmissibly(f, now, parse);
  }

  /** Reading the eight properties back from the stored form gives the stored values. */
  lemma FieldsOfToJs(b: VolumeBarInput)
    ensures IsObjectLike(ToJs(b))
    ensures Fields(ToJs(b)) == StoredFields(b)
  {
  }

  /** Every rule passes on the stored form of a record satisfying the invariants. */
  lemma AdmissibleFieldsPass(b: VolumeBarInput, now: int, parse: string -> Option<int>)
    requires Admissible(b, now, parse)
    ensures FieldErrors(StoredFields(b), now, parse) == []
  {
    var f := StoredFields(b);
    AllowListsAreNormalized(b.symbol, b.timeframe);
    assert SymbolCheck(f.symbol) == [];
    assert BarTimeCheck(f.bar_time, now, parse) == [];
    assert DeltaVolumeCheck(f.delta_volume, f.open_volume, f.close_volume) == [];
    assert TimeframeCheck(f.timeframe) == [];
    assert SourceCheck(f.source) == [];
  }

  /** Normalising the stored form of a record satisfying the invariants gives the record back. */
  lemma AdmissibleIsNormal(b: VolumeBarInput, now: int, parse: string -> Option<int>)
    requires Admissible(b, now, parse)
    ensures WellShaped(StoredFields(b)) && Normalize(StoredFields(b)) == b
  {
    AllowListsAreNormalized(b.symbol, b.timeframe);
  }

  /** A record satisfying the invariants passes validation unchanged. */
  lemma AdmissibleValidates(b: VolumeBarInput, now: int, parse: string -> Option<int>)
    requires Admissible(b, now, parse)
    ensures BarValidation(ToJs(b), now, parse) == Validation(true, [], Some(b))
  {
    FieldsOfToJs(b);
    AdmissibleFieldsPass(b, now, parse);
    AdmissibleIsNormal(b, now, parse);
  }

  /**
   * Round trip: a record submitted in stored form validates to itself exactly
   * when it satisfies the record invariants.
   */
  lemma RoundTrip(b: VolumeBarInput, now: int, parse: string -> Option<int>)
    ensures BarValidation(ToJs(b), now, parse) == Validation(true, [], Some(b)) <==> Admissible(b, now, parse)
  {
    if BarValidation(ToJs(b), now, parse) == Validation(true, [], Some(b)) {
      ValidIsAdmissible(ToJs(b), now, parse);
    }
    if Admissible(b, now, parse) {
      AdmissibleValidates(b, now, parse);
    }
  }

  /** Validating the normalised output of a valid record again gives the same result. */
  lemma RevalidationIsStable(data: JsValue, now: int, parse: string -> Option<int>)
    requires BarValidation(data, now, parse).valid
    ensures var b := BarValidation(data, now, parse).data.value;
      BarValidation(ToJs(b), now, parse) == BarValidation(data, now, parse)
  {
    ValidIsAdmissible(data, now, parse);
    RoundTrip(BarValidation(data, now, parse).data.value, now, parse);
  }

  // ---------------------------------------------------------------------------
  // validateVolumeBarBatch
  // ---------------------------------------------------------------------------

  type BarResult = Validation<VolumeBarInput, BarError>

  /** The single-record verdict on every element, in order. */
  function ElementResults(items: seq<JsValue>, now: int, parse: string -> Option<int>): (rs: seq<BarResult>)
    ensures |rs| == |items|
  {
    if items == [] then []
    else ElementResults(items[..|items| - 1], now, parse) + [BarValidation(items[|items| - 1], now, parse)]
  }

  /** The j-th verdict is the single-record validation of the j-th element. */
  lemma {:induction false} ElementResultAt(items: seq<JsValue>, now: int, parse: string -> Option<int>, j: nat)
    requires j < |items|
    ensures ElementResults(items, now, parse)[j] == BarValidation(items[j], now, parse)
  {
    if j < |items| - 1 {
      ElementResultAt(items[..|items| - 1], now, parse, j);
    }
  }

  /** The j-th verdict is the j-th element's validation, and carries data exactly when it is valid. */
  lemma ElementVerdict(items: seq<JsValue>, now: int, parse: string -> Option<int>, j: nat)
    requires j < |items|
    ensures ElementResults(items, now, parse)[j] == BarValidation(items[j], now, parse)
    ensures ElementResults(items, now, parse)[j].valid <==> ElementResults(items, now, parse)[j].data.Some?
  {
    ElementResultAt(items, now, parse, j);
    BarValidationShape(items[j], now, parse);
  }

  /** The "Bar i: ..." entries the loop has collected after the first k verdicts. */
  function ElementErrors(results: seq<BarResult>, k: nat): seq<BatchError>
    requires k <= |results|
  {
    if k == 0 then []
    else
      ElementErrors(results, k - 1)
      + (if !results[k - 1].valid then [BarInvalid(k - 1, results[k - 1].errors)] else [])
  }

  /** The normalised records the loop has collected after the first k verdicts. */
  function ValidBars(results: seq<BarResult>, k: nat): seq<VolumeBarInput>
    requires k <= |results|
  {
    if k == 0 then []
    else
      ValidBars(results, k - 1)
      + (if results[k - 1].valid && results[k - 1].data.Some? then [results[k - 1].data.value] else [])
  }

  /** The specification of `validateVolumeBarBatch`. */
  function BatchValidation(dataArray: JsValue, now: int, parse: string -> Option<int>)
    : Validation<seq<VolumeBarInput>, BatchError>
  {
    if !dataArray.Arr? then Validation(false, [NotAnArray], None)
    else if |dataArray.items| == 0 then Validation(false, [EmptyBatch], None)
    else if |dataArray.items| > MAX_BATCH_SIZE then Validation(false, [BatchTooLarge], None)
    else
      var results := ElementResults(dataArray.items, now, parse);
      var allErrors := ElementErrors(results, |results|);
      if |allErrors| > 0 then Validation(false, allErrors, None)
      else Validation(true, [], Some(ValidBars(results, |results|)))
  }

  /** No error is collected exactly when each of the first k verdicts is valid. */
  lemma {:induction false} NoElementErrorsIffAllValid(results: seq<BarResult>, k: nat)
    requires k <= |results|
    ensures ElementErrors(results, k) == [] <==> forall j :: 0 <= j < k ==> results[j].valid
  {
    if k > 0 {
      NoElementErrorsIffAllValid(results, k - 1);
    }
  }

  /** When every verdict so far is a success, the collected records are their data, in order. */
  lemma {:induction false} ValidBarsAligned(results: seq<BarResult>, k: nat)
    requires k <= |results|
    requires forall j :: 0 <= j < k ==> results[j].valid && results[j].data.Some?
    ensures |ValidBars(results, k)| == k
    ensures forall j :: 0 <= j < k ==> ValidBars(results, k)[j] == results[j].data.value
  {
    if k > 0 {
      ValidBarsAligned(results, k - 1);
    }
  }

  /** Each entry of `es` names a failed verdict below k and carries its error list. */
  predicate ReportsFailures(results: seq<BarResult>, es: seq<BatchError>, k: nat)
    requires k <= |results|
  {
    forall p :: 0 <= p < |es| ==>
      && es[p].BarInvalid? && es[p].index < k
      && !results[es[p].index].valid && es[p].errors == results[es[p].index].errors
  }

  lemma {:induction false} ElementErrorsSound(results: seq<BarResult>, k: nat)
    requires k <= |results|
    ensures ReportsFailures(results, ElementErrors(results, k), k)
  {
    if k > 0 {
      ElementErrorsSound(results, k - 1);
      var prev := ElementErrors(results, k - 1);
      if !results[k - 1].valid {
        assert ElementErrors(results, k) == prev + [BarInvalid(k - 1, results[k - 1].errors)];
      }
    }
  }

  /** The entries of `es` name strictly increasing indices, so none is repeated. */
  predicate IncreasingIndices(es: seq<BatchError>)
  {
    forall p, q :: 0 <= p < q < |es| ==> es[p].BarInvalid? && es[q].BarInvalid? && es[p].index < es[q].index
  }

  lemma {:induction false} ElementErrorsIncreasing(results: seq<BarResult>, k: nat)
    requires k <= |results|
    ensures IncreasingIndices(ElementErrors(results, k))
  {
    if k > 0 {
      ElementErrorsIncreasing(results, k - 1);
      ElementErrorsSound(results, k - 1);
      var prev := ElementErrors(results, k - 1);
      if !results[k - 1].valid {
        assert ElementErrors(results, k) == prev + [BarInvalid(k - 1, results[k - 1].errors)];
      }
    }
  }

  /** Every failed verdict below k has an entry in `es`. */
  predicate CoversFailures(results: seq<BarResult>, es: seq<BatchError>, k: nat)
    requires k <= |results|
  {
    forall j :: 0 <= j < k && !results[j].valid ==>
      exists p :: 0 <= p < |es| && es[p] == BarInvalid(j, results[j].errors)
  }

  lemma {:induction false} ElementErrorsComplete(results: seq<BarResult>, k: nat)
    requires k <= |results|
    ensures CoversFailures(results, ElementErrors(results, k), k)
  {
    if k > 0 {
      ElementErrorsComplete(results, k - 1);
      var prev, es := ElementErrors(results, k - 1), ElementErrors(results, k);
      forall j | 0 <= j < k && !results[j].valid
        ensures exists p :: 0 <= p < |es| && es[p] == BarInvalid(j, results[j].errors)
      {
        if j == k - 1 {
          assert es[|prev|] == BarInvalid(j, results[j].errors);
        } else {
          var p :| 0 <= p < |prev| && prev[p] == BarInvalid(j, results[j].errors);
          assert es[p] == prev[p];
        }
      }
    }
  }

  /** The array checks come first, in the order of the source. */
  lemma BatchSizeChecks(dataArray: JsValue, now: int, parse: string -> Option<int>)
    ensures var r := BatchValidation(dataArray, now, parse);
      && (!dataArray.Arr? ==> r == Validation(false, [NotAnArray], None))
      && (dataArray.Arr? && |dataArray.items| == 0 ==> r == Validation(false, [EmptyBatch], None))
      && (dataArray.Arr? && |dataArray.items| > MAX_BATCH_SIZE ==> r == Validation(false, [BatchTooLarge], None))
      && (r.valid <==> r.errors == [])
      && (r.valid <==> r.data.Some?)
  {
    if dataArray.Arr? && 1 <= |dataArray.items| <= MAX_BATCH_SIZE {
      var results := ElementResults(dataArray.items, now, parse);
      NoElementErrorsIffAllValid(results, |results|);
    }
  }

  /** All-or-nothing: a batch of acceptable size passes exactly when each element does. */
  lemma BatchValidIffAllValid(dataArray: JsValue, now: int, parse: string -> Option<int>)
    ensures BatchValidation(dataArray, now, parse).valid <==>
      && dataArray.Arr? && 1 <= |dataArray.items| <= MAX_BATCH_SIZE
      && forall j :: 0 <= j < |dataArray.items| ==> BarValidation(dataArray.items[j], now, parse).valid
  {
    if dataArray.Arr? && 1 <= |dataArray.items| <= MAX_BATCH_SIZE {
      var items := dataArray.items;
      var results := ElementResults(items, now, parse);
      NoElementErrorsIffAllValid(results, |results|);
      forall j | 0 <= j < |items|
        ensures results[j] == BarValidation(items[j], now, parse)
      {
        ElementResultAt(items, now, parse, j);
      }
    }
  }

  /** When every verdict is valid, the collected records are the elements' own records, in order. */
  lemma ResultsAligned(items: seq<JsValue>, now: int, parse: string -> Option<int>)
    requires forall j :: 0 <= j < |items| ==> ElementResults(items, now, parse)[j].valid
    ensures var bars := ValidBars(ElementResults(items, now, parse), |items|);
      && |bars| == |items|
      && forall j :: 0 <= j < |items| ==> Some(bars[j]) == BarValidation(items[j], now, parse).data
  {
    var results := ElementResults(items, now, parse);
    forall j | 0 <= j < |items|
      ensures results[j] == BarValidation(items[j], now, parse) && results[j].data.Some?
    {
      ElementVerdict(items, now, parse, j);
    }
    ValidBarsAligned(results, |items|);
  }

  /**
   * A valid batch carries one normalised record per element, in input order,
   * each the element's own single-record result.
   */
  lemma ValidBatchIsAligned(dataArray: JsValue, now: int, parse: string -> Option<int>)
    requires BatchValidation(dataArray, now, parse).valid
    ensures var r := BatchValidation(dataArray, now, parse);
      && dataArray.Arr? && r.data.Some?
      && |r.data.value| == |dataArray.items|
      && forall j :: 0 <= j < |dataArray.items| ==>
           Some(r.data.value[j]) == BarValidation(dataArray.items[j], now, parse).data
  {
    var items := dataArray.items;
    NoElementErrorsIffAllValid(ElementResults(items, now, parse), |items|);
    ResultsAligned(items, now, parse);
  }

  /** Every record of a valid batch satisfies the record invariants. */
  lemma ValidBatchIsAdmissible(dataArray: JsValue, now: int, parse: string -> Option<int>)
    requires BatchValidation(dataArray, now, parse).valid
    ensures var r := BatchValidation(dataArray, now, parse);
      && r.data.Some?
      && forall b :: b in r.data.value ==> Admissible(b, now, parse)
  {
    ValidBatchIsAligned(dataArray, now, parse);
    BatchValidIffAllValid(dataArray, now, parse);
    var items, bars := dataArray.items, BatchValidation(dataArray, now, parse).data.value;
    forall j | 0 <= j < |bars|
      ensures Admissible(bars[j], now, parse)
    {
      ValidIsAdmissible(items[j], now, parse);
    }
  }

  /** The records a valid batch hands on number between 1 and 100 and each satisfies the record invariants. */
  lemma ValidBatchRows(dataArray: JsValue, now: int, parse: string -> Option<int>)
    requires BatchValidation(dataArray, now, parse).valid
    ensures var r := BatchValidation(dataArray, now, parse);
      && r.data.Some?
      && 1 <= |r.data.value| <= MAX_BATCH_SIZE
      && forall b :: b in r.data.value ==> Admissible(b, now, parse)
  {
    BatchValidIffAllValid(dataArray, now, parse);
    ValidBatchIsAligned(dataArray, now, parse);
    ValidBatchIsAdmissible(dataArray, now, parse);
  }

  /** Validates element `index` of a batch; the result is that element's verdict. */
  method ValidateElement(items: seq<JsValue>, index: nat, now: int, parse: string -> Option<int>)
    returns (result: BarResult)
    requires index < |items|
    ensures result == ElementResults(items, now, parse)[index]
  {
    result := ValidateVolumeBar(items[index], now, parse);
    ElementResultAt(items, now, parse, index);
  }

  /**
   * The rejected elements are reported by index, in increasing order, each
   * once and with its own error list; no other entry appears.
   */
  lemma InvalidBatchNamesFailures(dataArray: JsValue, now: int, parse: string -> Option<int>)
    requires dataArray.Arr? && 1 <= |dataArray.items| <= MAX_BATCH_SIZE
    requires !BatchValidation(dataArray, now, parse).valid
    ensures var es, items := BatchValidation(dataArray, now, parse).errors, dataArray.items;
      && ReportsFailures(ElementResults(items, now, parse), es, |items|)
      && IncreasingIndices(es)
      && CoversFailures(ElementResults(items, now, parse), es, |items|)
  {
    var results := ElementResults(dataArray.items, now, parse);
    ElementErrorsSound(results, |results|);
    ElementErrorsIncreasing(results, |results|);
    ElementErrorsComplete(results, |results|);
  }

  /**
   * The loop of `validateVolumeBarBatch`: every element is validated, the
   * failures are collected as "Bar i" entries and the successes' records kept.
   */
  method ValidateElements(items: seq<JsValue>, now: int, parse: string -> Option<int>)
    returns (allErrors: seq<BatchError>, validBars: seq<VolumeBarInput>)
    ensures allErrors == ElementErrors(ElementResults(items, now, parse), |items|)
    ensures validBars == ValidBars(ElementResults(items, now, parse), |items|)
  {
    ghost var results := ElementResults(items, now, parse);
    allErrors, validBars := [], [];
    for index := 0 to |items|
      invariant allErrors == ElementErrors(results, index)
      invariant validBars == ValidBars(results, index)
    {
      var result := ValidateElement(items, index, now, parse);
      if !result.valid {
        allErrors := allErrors + [BarInvalid(index, result.errors)];
        assert ValidBars(results, index + 1) == ValidBars(results, index) + [];
      } else {
        assert ElementErrors(results, index + 1) == ElementErrors(results, index) + [];
        if result.data.Some? {
          validBars := validBars + [result.data.value];
        } else {
          assert ValidBars(results, index + 1) == ValidBars(results, index) + [];
        }
      }
    }
  }

  method ValidateVolumeBarBatch(dataArray: JsValue, now: int, parse: string -> Option<int>)
    returns (r: Validation<seq<VolumeBarInput>, BatchError>)
    ensures r == BatchValidation(dataArray, now, parse)
  {
    if !dataArray.Arr? {
      return Validation(false, [NotAnArray], None);
    }
    var items := dataArray.items;
    if |items| == 0 {
      return Validation(false, [EmptyBatch], None);
    }
    if |items| > MAX_BATCH_SIZE {
      return Validation(false, [BatchTooLarge], None);
    }

    var allErrors, validBars := ValidateElements(items, now, parse);
    if |allErrors| > 0 {
      return Validation(false, allErrors, None);
    }
    r := Validation(true, [], Some(validBars));
  }
}
