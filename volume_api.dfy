/**
 * The ingestion endpoint `POST /api/volume` (pages/api/volume.ts) as a
 * decision procedure: from the request method, the parsed JSON body and the
 * outcome the storage layer reports for the insert, to the response status,
 * the response body and the rows handed to storage (none when storage is
 * never called).
 */
module VolumeApi {
  import opened Js
  import opened Text
  import opened BarValidator

  /** What the single awaited insert into `volume_data` comes back with. */
  datatype StorageOutcome =
    | Inserted(rows: Option<seq<JsValue>>)  // `{ data, error: null }`; data may be null
    | StorageError(message: string)         // `{ error }` with `error.message`
    | Threw(thrown: Option<string>)         // the insert threw; `error.message` may be absent

  /** One entry of the `errors` array of an error response. */
  datatype Reason =
    | BarReason(barError: BarError)
    | BatchReason(batchError: BatchError)
    | Message(text: string)

  datatype ResponseBody =
    | Success(message: string, inserted: nat, data: Option<seq<JsValue>>)
    | Failure(error: string, errors: Option<seq<Reason>>)

  /** The response, and the rows given to the insert when it is attempted. */
  datatype Outcome = Outcome(status: int, body: ResponseBody, stored: Option<seq<VolumeBarInput>>)

  const METHOD_NOT_ALLOWED: string := "Method not allowed. Use POST."
  const VALIDATION_FAILED: string := "Validation failed"
  const INSERT_FAILED: string := "Database insertion failed"
  const INTERNAL_ERROR: string := "Internal server error"
  const UNKNOWN_ERROR: string := "Unknown error occurred"

  function BarReasons(errors: seq<BarError>): (reasons: seq<Reason>)
    ensures |reasons| == |errors|
    ensures forall i :: 0 <= i < |errors| ==> reasons[i] == BarReason(errors[i])
  {
    seq(|errors|, i requires 0 <= i < |errors| => BarReason(errors[i]))
  }

  function BatchReasons(errors: seq<BatchError>): (reasons: seq<Reason>)
    ensures |reasons| == |errors|
    ensures forall i :: 0 <= i < |errors| ==> reasons[i] == BatchReason(errors[i])
  {
    seq(|errors|, i requires 0 <= i < |errors| => BatchReason(errors[i]))
  }

  /**
   * The validation step: an array goes to the batch validator, anything else
   * to the single-record one. The answer is the rows to insert or the errors.
   */
  function Route(body: JsValue, now: int, parse: string -> Option<int>): Result
  {
    if body.Arr? then
      var v := BatchValidation(body, now, parse);
      if !v.valid || v.data.None? then Rejected(BatchReasons(v.errors)) else Accepted(v.data.value)
    else
      var v := BarValidation(body, now, parse);
      if !v.valid || v.data.None? then Rejected(BarReasons(v.errors)) else Accepted([v.data.value])
  }

  datatype Result = Accepted(rows: seq<VolumeBarInput>) | Rejected(reasons: seq<Reason>)

  /** `insertedData?.length || 1`. */
  function InsertedCount(rows: Option<seq<JsValue>>): (n: nat)
  {
    if rows.Some? && |rows.value| > 0 then |rows.value| else 1
  }

  /** `error.message || 'Unknown error occurred'`. */
  function ThrownMessage(message: Option<string>): (text: string)
  {
    if message.Some? && message.value != "" then message.value else UNKNOWN_ERROR
  }

  /** The response once validation has passed and `rows` went to the insert. */
  function AfterInsert(rows: seq<VolumeBarInput>, storage: StorageOutcome): (o: Outcome)
  {
    match storage
    case StorageError(message) => Outcome(500, Failure(INSERT_FAILED, Some([Message(message)])), Some(rows))
    case Threw(message) => Outcome(500, Failure(INTERNAL_ERROR, Some([Message(ThrownMessage(message))])), Some(rows))
    case Inserted(data) =>
      var n := InsertedCount(data);
      Outcome(200, Success("Successfully inserted " + NatToString(n) + " volume bar(s)", n, data), Some(rows))
  }

  /** `handler(req, res)`. */
  function Handler(httpMethod: string, body: JsValue, now: int, parse: string -> Option<int>, storage: StorageOutcome)
    : (o: Outcome)
  {
    if httpMethod != "POST" then Outcome(405, Failure(METHOD_NOT_ALLOWED, None), None)
    else
      match Route(body, now, parse)
      case Rejected(reasons) => Outcome(400, Failure(VALIDATION_FAILED, Some(reasons)), None)
      case Accepted(rows) => AfterInsert(rows, storage)
  }

  // ---------------------------------------------------------------------------
  // Properties
  // ---------------------------------------------------------------------------

  /** Routing follows `Array.isArray`, and its verdict is the validator's verdict. */
  lemma RouteFollowsValidator(body: JsValue, now: int, parse: string -> Option<int>)
    ensures body.Arr? ==>
      Route(body, now, parse) ==
        (if BatchValidation(body, now, parse).valid
         then Accepted(BatchValidation(body, now, parse).data.value)
         else Rejected(BatchReasons(BatchValidation(body, now, parse).errors)))
    ensures !body.Arr? ==>
      Route(body, now, parse) ==
        (if BarValidation(body, now, parse).valid
         then Accepted([BarValidation(body, now, parse).data.value])
         else Rejected(BarReasons(BarValidation(body, now, parse).errors)))
  {
    BatchSizeChecks(body, now, parse);
    BarValidationShape(body, now, parse);
  }

  /** Anything but POST is refused with 405 before validation, and storage is not touched. */
  lemma OnlyPostIsServed(httpMethod: string, body: JsValue, now: int, parse: string -> Option<int>, storage: StorageOutcome)
    ensures var o := Handler(httpMethod, body, now, parse, storage);
      && (o.status == 405 <==> httpMethod != "POST")
      && (httpMethod != "POST" ==> o == Outcome(405, Failure(METHOD_NOT_ALLOWED, None), None))
  {
  }

  /**
   * A rejected POST answers 400 with the validator's errors, in its order,
   * and nothing is stored; an accepted one always reaches storage.
   */
  lemma ValidationGatesStorage(body: JsValue, now: int, parse: string -> Option<int>, storage: StorageOutcome)
    ensures var o := Handler("POST", body, now, parse, storage);
      && (o.stored.None? <==> Route(body, now, parse).Rejected?)
      && (o.status == 400 <==> Route(body, now, parse).Rejected?)
      && (Route(body, now, parse).Rejected? ==>
            o.body == Failure(VALIDATION_FAILED, Some(Route(body, now, parse).reasons)))
      && (Route(body, now, parse).Accepted? ==> o.stored == Some(Route(body, now, parse).rows))
  {
  }

  /** An accepted body yields between 1 and 100 rows, each satisfying the record invariants. */
  lemma RouteAcceptsOnlyAdmissibleBars(body: JsValue, now: int, parse: string -> Option<int>)
    ensures var route := Route(body, now, parse);
      route.Accepted? ==>
        && 1 <= |route.rows| <= MAX_BATCH_SIZE
        && forall b :: b in route.rows ==> Admissible(b, now, parse)
  {
    if Route(body, now, parse).Accepted? {
      if body.Arr? {
        ValidBatchRows(body, now, parse);
      } else {
        ValidIsAdmissible(body, now, parse);
      }
    }
  }

  /**
   * Whatever the request and whatever storage answers, the rows handed to
   * storage number between 1 and 100 and each satisfies the record invariants.
   */
  lemma StoresOnlyAdmissibleBars(httpMethod: string, body: JsValue, now: int, parse: string -> Option<int>,
                                 storage: StorageOutcome)
    ensures var o := Handler(httpMethod, body, now, parse, storage);
      o.stored.Some? ==>
        && httpMethod == "POST"
        && 1 <= |o.stored.value| <= MAX_BATCH_SIZE
        && forall b :: b in o.stored.value ==> Admissible(b, now, parse)
  {
    if httpMethod == "POST" {
      RouteAcceptsOnlyAdmissibleBars(body, now, parse);
    }
  }

  /**
   * After the insert: a storage error is 500 with its message, an exception
   * is 500 with its message or the fallback text, and success is 200 with
   * the number of rows storage returned, counted as 1 when it returned none.
   */
  lemma StorageOutcomeDecides(rows: seq<VolumeBarInput>, storage: StorageOutcome)
    ensures var o := AfterInsert(rows, storage);
      && o.stored == Some(rows)
      && o.status == (if storage.Inserted? then 200 else 500)
      && (storage.StorageError? ==> o.body == Failure(INSERT_FAILED, Some([Message(storage.message)])))
      && (storage.Threw? ==>
            o.body.Failure? && o.body.error == INTERNAL_ERROR
            && o.body.errors == Some([Message(if storage.thrown.Some? && storage.thrown.value != ""
                                              then storage.thrown.value else UNKNOWN_ERROR)]))
      && (storage.Inserted? ==>
            o.body.Success? && o.body.data == storage.rows && o.body.inserted >= 1
            && (storage.rows.Some? && |storage.rows.value| > 0 ==> o.body.inserted == |storage.rows.value|)
            && (storage.rows.None? || storage.rows == Some([]) ==> o.body.inserted == 1))
  {
  }

  /** The success message states the inserted count in decimal. */
  lemma SuccessMessageStatesCount(rows: seq<VolumeBarInput>, storage: StorageOutcome)
    requires storage.Inserted?
    ensures var body := AfterInsert(rows, storage).body;
      var prefix, suffix := "Successfully inserted ", " volume bar(s)";
      && body.Success?
      && |body.message| > |prefix| + |suffix|
      && body.message[..|prefix|] == prefix
      && body.message[|body.message| - |suffix|..] == suffix
      && DecimalValue(body.message[|prefix|..|body.message| - |suffix|]) == body.inserted
      && (forall i :: |prefix| <= i < |body.message| - |suffix| ==> '0' <= body.message[i] <= '9')
      && body.message[|prefix|] != '0'
  {
    var n := InsertedCount(storage.rows);
    var prefix, digits, suffix := "Successfully inserted ", NatToString(n), " volume bar(s)";
    var message := prefix + digits + suffix;
    assert message[..|prefix|] == prefix;
    assert message[|message| - |suffix|..] == suffix;
    assert message[|prefix|..|message| - |suffix|] == digits;
    NatToStringRoundTrip(n);
  }

  /** A record that satisfies the invariants, posted on its own, is stored as itself. */
  lemma PostedAdmissibleBarIsStored(b: VolumeBarInput, now: int, parse: string -> Option<int>,
                                    storage: StorageOutcome)
    requires Admissible(b, now, parse)
    ensures Handler("POST", ToJs(b), now, parse, storage).stored == Some([b])
    ensures storage.Inserted? ==> Handler("POST", ToJs(b), now, parse, storage).status == 200
  {
    AdmissibleValidates(b, now, parse);
  }

  /** An array body is never read as a single record: an empty array is refused as an empty batch. */
  lemma EmptyArrayIsAnEmptyBatch(now: int, parse: string -> Option<int>, storage: StorageOutcome)
    ensures Handler("POST", Arr([]), now, parse, storage)
      == Outcome(400, Failure(VALIDATION_FAILED, Some([BatchReason(EmptyBatch)])), None)
  {
    assert BatchReasons([EmptyBatch]) == [BatchReason(EmptyBatch)];
  }
}
