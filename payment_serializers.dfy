/**
  The payment serializers with behaviour of their own: the input of transaction creation
  (`CreateTxSerializer`) and the payment listing's representation (`PaymentSerializer`).
*/
module PaymentSerializers {
  import opened Common
  import opened Text
  import opened Store

  // ---------------------------------------------------------------------------
  // CreateTxSerializer
  // ---------------------------------------------------------------------------

  /** The validated input of transaction creation. */
  datatype CreateTxInput = CreateTxInput(signature: Option<string>, callback: string)

  const FieldRequired := "This field is required."
  const FieldBlank := "This field may not be blank."
  const NullCharacters := "Null characters are not allowed."

  /**
    A present value of a `CharField` with the defaults: refused when blank, otherwise trimmed,
    and the trimmed value refused when it holds a NUL character.
  */
  function CharField(value: string): (r: Result<string, string>)
    ensures r.Err? <==> AllSpace(value) || '\0' in Strip(value)
    ensures AllSpace(value) ==> r == Err(FieldBlank)
    ensures !AllSpace(value) && '\0' in Strip(value) ==> r == Err(NullCharacters)
    ensures r.Ok? ==> r.value == Strip(value) && r.value != "" && '\0' !in r.value
  {
    StripEmptyIffAllSpace(value);
    var v := Strip(value);
    if v == "" then Err(FieldBlank)
    else if '\0' in v then Err(NullCharacters)
    else Ok(v)
  }

  /** `value` passes a `CharField` with the defaults. */
  predicate Acceptable(value: string) {
    !AllSpace(value) && '\0' !in Strip(value)
  }

  /**
    `CreateTxSerializer`: `callback` is required, `signature` optional; each present value must
    be acceptable to a `CharField`. The errors map each refused field to its message.
  */
  function ValidateCreateTx(data: map<string, string>): (r: Result<CreateTxInput, map<string, string>>)
    ensures r.Ok? <==>
              "callback" in data && Acceptable(data["callback"])
              && ("signature" in data ==> Acceptable(data["signature"]))
    ensures r.Ok? ==>
              && r.value.callback == Strip(data["callback"])
              && (r.value.signature.Some? <==> "signature" in data)
              && (r.value.signature.Some? ==> r.value.signature.value == Strip(data["signature"]))
    ensures r.Err? ==>
              && ("callback" in r.error <==> "callback" !in data || !Acceptable(data["callback"]))
              && ("signature" in r.error <==> "signature" in data && !Acceptable(data["signature"]))
              && ("callback" !in data ==> r.error["callback"] == FieldRequired)
              && ("callback" in data && "callback" in r.error ==> r.error["callback"] == CharField(data["callback"]).error)
              && ("signature" in r.error ==> r.error["signature"] == CharField(data["signature"]).error)
  {
    var callback := if "callback" in data then CharField(data["callback"]) else Err(FieldRequired);
    var signature := OptionalCharField(data, "signature");
    if callback.Ok? && signature.Ok? then
      Ok(CreateTxInput(signature.value, callback.value))
    else
      Err(FieldErrors(callback, signature))
  }

  /** A `CharField` with `required=False`: an absent value is valid and stays absent. */
  function OptionalCharField(data: map<string, string>, key: string): (r: Result<Option<string>, string>)
    ensures key !in data ==> r == Ok(None)
    ensures key in data ==> (r.Ok? <==> CharField(data[key]).Ok?)
    ensures key in data && r.Ok? ==> r.value == Some(CharField(data[key]).value)
    ensures key in data && r.Err? ==> r.error == CharField(data[key]).error
  {
    if key !in data then Ok(None)
    else
      var v := CharField(data[key]);
      if v.Ok? then Ok(Some(v.value)) else Err(v.error)
  }

  /** The serializer's `errors`: each refused field mapped to its message, and nothing else. */
  function FieldErrors(callback: Result<string, string>, signature: Result<Option<string>, string>)
    : (e: map<string, string>)
    ensures "callback" in e <==> callback.Err?
    ensures "signature" in e <==> signature.Err?
    ensures callback.Err? ==> e["callback"] == callback.error
    ensures signature.Err? ==> e["signature"] == signature.error
  {
    (if callback.Err? then map["callback" := callback.error] else map[])
    + (if signature.Err? then map["signature" := signature.error] else map[])
  }

  // ---------------------------------------------------------------------------
  // PaymentSerializer
  // ---------------------------------------------------------------------------

  /** A serialized field value. */
  datatype Value = Null | Text(text: string) | Number(number: int) | Flag(flag: bool)

  /** `Meta.exclude`. */
  const Excluded: set<string> := {"bank_account", "id"}

  /** The `ModelSerializer` representation: every serialized model field except the excluded ones. */
  function BaseRepresentation(fields: map<string, Value>): map<string, Value> {
    fields - Excluded
  }

  /** `str(t).split()` of a well-formed date and time gives back its two halves. */
  lemma SplitStr(t: Timestamp)
    requires t.WellFormed()
    ensures Words(t.Str()) == [t.date, t.time]
  {
    WordsOfTwo(t.date, t.time);
  }

  /**
    The representation with `date` and `time` unpacked from `str(stamp).split()`, or both
    `None` when there is no stamp; unpacking raises unless there are exactly two parts.
  */
  method WithDateTime(fields: map<string, Value>, stamp: Option<Timestamp>)
    returns (r: Result<map<string, Value>, string>)
    ensures stamp.None? ==> r.Ok?
    ensures stamp.Some? ==> (r.Ok? <==> |Words(stamp.value.Str())| == 2)
    ensures stamp.Some? && stamp.value.WellFormed() ==>
              r.Ok? && "date" in r.value && "time" in r.value && r.value["date"] == Text(stamp.value.date) && r.value["time"] == Text(stamp.value.time)
    ensures r.Ok? ==>
              && "bank_account" !in r.value && "id" !in r.value
              && "date" in r.value && "time" in r.value
              && (stamp.None? ==> r.value["date"] == Null && r.value["time"] == Null)
              && (stamp.Some? ==>
                    && r.value["date"] == Text(Words(stamp.value.Str())[0])
                    && r.value["time"] == Text(Words(stamp.value.Str())[1]))
              && (forall k :: k !in {"date", "time", "bank_account", "id"} ==>
                    (k in r.value <==> k in fields) && (k in r.value ==> r.value[k] == fields[k]))
  {
    var rep := BaseRepresentation(fields);

    var date: Value, time: Value := Null, Null;
    if stamp.Some? {
      if stamp.value.WellFormed() {
        SplitStr(stamp.value);
      }
      var parts := Words(stamp.value.Str());
      if |parts| != 2 {
        return Err("ValueError");
      }
      date, time := Text(parts[0]), Text(parts[1]);
    }
    rep := rep["date" := date];
    rep := rep["time" := time];
    r := Ok(rep);
  }

  /**
    `PaymentSerializer.to_representation` as written: for a paid transaction, `date` and
    `time` are taken from `str(instance.created)`, the creation time.
  */
  method ToRepresentation(instance: Transaction, fields: map<string, Value>)
    returns (r: Result<map<string, Value>, string>)
    ensures instance.paidAt.None? ==>
              r.Ok? && "date" in r.value && "time" in r.value && r.value["date"] == Null && r.value["time"] == Null
    ensures instance.paidAt.Some? && instance.created.WellFormed() ==>
              r.Ok? && "date" in r.value && "time" in r.value && r.value["date"] == Text(instance.created.date) && r.value["time"] == Text(instance.created.time)
    ensures r.Ok? ==>
              && "bank_account" !in r.value && "id" !in r.value
              && (forall k :: k !in {"date", "time", "bank_account", "id"} ==>
                    (k in r.value <==> k in fields) && (k in r.value ==> r.value[k] == fields[k]))
  {
    r := WithDateTime(fields, if instance.paidAt.Some? then Some(instance.created) else None);
  }

  /**
    The representation as evidently intended: `date` and `time` are those of `paidAt`, the
    moment the payment was completed.
  */
  method ToRepresentationAtPayment(instance: Transaction, fields: map<string, Value>)
    returns (r: Result<map<string, Value>, string>)
    ensures instance.paidAt.None? ==>
              r.Ok? && "date" in r.value && "time" in r.value && r.value["date"] == Null && r.value["time"] == Null
    ensures instance.paidAt.Some? && instance.paidAt.value.WellFormed() ==>
              && r.Ok? && "date" in r.value && "time" in r.value
              && r.value["date"] == Text(instance.paidAt.value.date)
              && r.value["time"] == Text(instance.paidAt.value.time)
    ensures r.Ok? ==>
              && "bank_account" !in r.value && "id" !in r.value
              && (forall k :: k !in {"date", "time", "bank_account", "id"} ==>
                    (k in r.value <==> k in fields) && (k in r.value ==> r.value[k] == fields[k]))
  {
    r := WithDateTime(fields, instance.paidAt);
  }

  /**
    A transaction paid on a later day than it was created (with `created` not re-stamped by
    the save that recorded the payment): the listing as written reports the creation day as
    the day the payment was completed, where the corrected one reports the payment day.
  */
  method PaymentListedAtCreationDay() returns (asWritten: Value, intended: Value)
    ensures asWritten == Text("2024-01-01") && intended == Text("2024-01-02")
    ensures asWritten != intended
  {
    var tx := Transaction("ref", 100, Success, Some(Timestamp("2024-01-02", "09:00:00")),
                          None, "order", Some(1), Timestamp("2024-01-01", "10:00:00"));
    assert NoSpace("2024-01-01") && NoSpace("10:00:00");
    assert NoSpace("2024-01-02") && NoSpace("09:00:00");
    var listed := ToRepresentation(tx, map[]);
    var corrected := ToRepresentationAtPayment(tx, map[]);
    asWritten, intended := listed.value["date"], corrected.value["date"];
  }
}
