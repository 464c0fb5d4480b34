/** `ETL_msg`, which both the batch loader and the Kafka consumer define: it
    replaces a message's `InvoiceDate` by an epoch-millisecond `timestamp`,
    in place, POSTs the message to the `recommender_system` index, and logs
    according to the status of the response. Nothing catches an exception,
    so an error here ends the calling process. */
module Etl {
  import opened Values
  import opened Text
  import opened Timestamp
  import opened Calendar

  datatype EtlError =
    | MissingKey(key: string)              // KeyError
    | NotAString(key: string, value: Json) // AttributeError or TypeError on a non-string
    | BadDate(cause: TimestampError)       // raised inside get_timestamp

  /** The two copies of `ETL_msg` differ only in what they log on success. */
  datatype Variant = Batch | Streaming

  /** Where the message is POSTed (the document type `basket` of the index). */
  const IndexUrl: string := "http://elasticsearch:9200/recommender_system/basket"

  /** The status Elasticsearch answers a successful indexing with. */
  const Created: nat := 201

  /** `get_timestamp(msg["InvoiceDate"])`, with its errors. */
  function InvoiceTimestamp(msg: map<string, Json>): (r: Result<int, EtlError>)
    ensures "InvoiceDate" !in msg ==> r == Err(MissingKey("InvoiceDate"))
    ensures r.Ok? <==> "InvoiceDate" in msg && msg["InvoiceDate"].JStr?
                       && GetTimestamp(msg["InvoiceDate"].s).Ok?
    ensures r.Ok? ==> r.value == GetTimestamp(msg["InvoiceDate"].s).value
  {
    if "InvoiceDate" !in msg then Err(MissingKey("InvoiceDate"))
    else match msg["InvoiceDate"]
      case JStr(s) => (match GetTimestamp(s)
        case Ok(ms) => Ok(ms)
        case Err(e) => Err(BadDate(e)))
      case v => Err(NotAString("InvoiceDate", v))
  }

  /** `msg["timestamp"] = get_timestamp(msg["InvoiceDate"])` then
      `del msg["InvoiceDate"]`, as a value; `ReshapedSpec` states what it
      does. */
  function Reshaped(msg: map<string, Json>): Result<map<string, Json>, EtlError> {
    var ms :- InvoiceTimestamp(msg);
    Ok(msg["timestamp" := JInt(ms)] - {"InvoiceDate"})
  }

  /** The message after the reshape: `timestamp` holds the epoch milliseconds
      of the old `InvoiceDate`, `InvoiceDate` is gone, every other key keeps
      its value. When the timestamp cannot be computed the reshape stops
      with its error before changing anything. */
  lemma ReshapedSpec(msg: map<string, Json>)
    ensures Reshaped(msg).Ok? <==> InvoiceTimestamp(msg).Ok?
    ensures Reshaped(msg).Err? ==> Reshaped(msg).error == InvoiceTimestamp(msg).error
    ensures Reshaped(msg).Ok? ==>
      "timestamp" in Reshaped(msg).value && Reshaped(msg).value["timestamp"] == JInt(InvoiceTimestamp(msg).value)
    ensures Reshaped(msg).Ok? ==> "InvoiceDate" !in Reshaped(msg).value
    ensures Reshaped(msg).Ok? ==> forall k :: k != "timestamp" && k != "InvoiceDate" ==>
      (k in Reshaped(msg).value <==> k in msg) && (k in msg ==> Reshaped(msg).value[k] == msg[k])
  {
    if Reshaped(msg).Ok? {
      var r := Reshaped(msg).value;
      assert r == msg["timestamp" := JInt(InvoiceTimestamp(msg).value)] - {"InvoiceDate"};
    }
  }

  /** A message whose `InvoiceDate` is written in the data set's format
      reshapes, and its `timestamp` is the epoch milliseconds of that date. */
  lemma ReshapedTimestamp(msg: map<string, Json>, t: DateTime)
    requires "InvoiceDate" in msg && t.year >= 0 && IsTimestamp(t)
    requires msg["InvoiceDate"] == JStr(Format(t))
    ensures Reshaped(msg) == Ok(msg["timestamp" := JInt(1000 * EpochSeconds(t))] - {"InvoiceDate"})
  {
    GetTimestampOfFormat(t);
    var secs := EpochSeconds(t);
    assert Millis(secs) == 1000 * secs;
    assert InvoiceTimestamp(msg) == Ok(1000 * secs);
  }

  /** The keys after the reshape. */
  lemma ReshapedKeys(msg: map<string, Json>)
    requires Reshaped(msg).Ok?
    ensures Reshaped(msg).value.Keys == msg.Keys - {"InvoiceDate"} + {"timestamp"}
  {
    var r := Reshaped(msg).value;
    forall k ensures k in r.Keys <==> k in msg.Keys - {"InvoiceDate"} + {"timestamp"} {
      if k != "timestamp" && k != "InvoiceDate" {
        assert k in r.Keys <==> k in msg.Keys;
      }
    }
  }

  /** The reshape cannot be applied twice: the second lookup of
      `InvoiceDate` raises KeyError. */
  lemma ReshapeOnce(msg: map<string, Json>)
    requires Reshaped(msg).Ok?
    ensures Reshaped(Reshaped(msg).value) == Err(MissingKey("InvoiceDate"))
  {
  }

  /** Putting the date back and dropping the timestamp restores a message
      that had no `timestamp` of its own: the reshape loses nothing else. */
  lemma ReshapeUndone(msg: map<string, Json>)
    requires Reshaped(msg).Ok? && "timestamp" !in msg
    ensures (Reshaped(msg).value - {"timestamp"})["InvoiceDate" := msg["InvoiceDate"]] == msg
  {
    var back := (Reshaped(msg).value - {"timestamp"})["InvoiceDate" := msg["InvoiceDate"]];
    ReshapedKeys(msg);
    assert back.Keys == msg.Keys;
    forall k | k in msg ensures back[k] == msg[k] {
      if k != "InvoiceDate" {
        assert k != "timestamp";
      }
    }
  }

  /** What a call of `ETL_msg` did: the document it POSTed (none when the
      reshape failed), the lines it logged, and the error that ended it. */
  datatype Outcome = Outcome(posted: Option<map<string, Json>>, log: seq<string>, error: Option<EtlError>)

  function Repeat(c: char, n: nat): (s: string)
    ensures |s| == n && forall i :: 0 <= i < n ==> s[i] == c
  {
    seq(n, _ => c)
  }

  const FailurePrefix: string := "Error sending message: status code "

  /** The three lines logged for a status other than 201. */
  function FailureLines(status: nat): seq<string> {
    [Repeat(' ', 100), Repeat('*', 80), FailurePrefix + ShowNat(status)]
  }

  /** `"consumed basket " + msg['InvoiceNo']`, which needs the key and a string
      value. */
  function ConsumedLine(doc: map<string, Json>): (r: Result<string, EtlError>)
    ensures r.Ok? <==> "InvoiceNo" in doc && doc["InvoiceNo"].JStr?
    ensures r.Ok? ==> r.value == "consumed basket " + doc["InvoiceNo"].s
  {
    if "InvoiceNo" !in doc then Err(MissingKey("InvoiceNo"))
    else match doc["InvoiceNo"]
      case JStr(s) => Ok("consumed basket " + s)
      case v => Err(NotAString("InvoiceNo", v))
  }

  /** `ETL_msg(msg)` when the POST is answered with `status`. */
  function EtlMsg(v: Variant, msg: map<string, Json>, status: nat): Outcome {
    match Reshaped(msg)
    case Err(e) => Outcome(None, [], Some(e))
    case Ok(doc) =>
      if status != Created then Outcome(Some(doc), FailureLines(status), None)
      else if v == Batch then Outcome(Some(doc), [], None)
      else match ConsumedLine(doc)
        case Ok(line) => Outcome(Some(doc), [line], None)
        case Err(e) => Outcome(Some(doc), [], Some(e))
  }

  /** The document POSTed is the reshaped message, whatever the status: the
      status decides only what is logged, and whether the streaming copy
      raises afterwards. */
  lemma PostedIsReshaped(v: Variant, msg: map<string, Json>, status: nat)
    ensures EtlMsg(v, msg, status).posted.Some? <==> Reshaped(msg).Ok?
    ensures EtlMsg(v, msg, status).posted.Some? ==> EtlMsg(v, msg, status).posted.value == Reshaped(msg).value
    ensures Reshaped(msg).Err? ==> EtlMsg(v, msg, status) == Outcome(None, [], Some(Reshaped(msg).error))
  {
    var o := EtlMsg(v, msg, status);
    match Reshaped(msg)
    case Err(e) => assert o == Outcome(None, [], Some(e));
    case Ok(doc) => assert o.posted == Some(doc);
  }

  /** A status other than 201 is logged as three lines, the last of which
      reads back as the status; a 201 is never logged as a failure. */
  lemma FailureLogged(v: Variant, msg: map<string, Json>, status: nat)
    requires Reshaped(msg).Ok?
    ensures var o := EtlMsg(v, msg, status);
      status != Created <==> |o.log| == 3 && o.log[2][..|FailurePrefix|] == FailurePrefix
    ensures var o := EtlMsg(v, msg, status);
      status != Created ==> o.error == None && ParseInt(o.log[2][|FailurePrefix|..]) == Some(status)
  {
    var o := EtlMsg(v, msg, status);
    if status != Created {
      ParseShowNat(status);
      assert o.log[2][|FailurePrefix|..] == ShowNat(status);
    } else {
      assert |o.log| <= 1;
    }
  }

  /** Once the reshape succeeds, the batch copy POSTs and never raises; it
      logs only a status other than 201. */
  lemma BatchNeverRaisesAfterReshape(msg: map<string, Json>, status: nat)
    requires Reshaped(msg).Ok?
    ensures EtlMsg(Batch, msg, status)
            == Outcome(Some(Reshaped(msg).value), if status != Created then FailureLines(status) else [], None)
  {
  }

  /** The batch copy logs nothing on success and never raises once the
      reshape has succeeded; the streaming copy logs the invoice number on
      success and raises exactly when that is not a string. */
  lemma SuccessLogged(msg: map<string, Json>)
    requires Reshaped(msg).Ok?
    ensures EtlMsg(Batch, msg, Created) == Outcome(Some(Reshaped(msg).value), [], None)
    ensures var doc := Reshaped(msg).value;
      EtlMsg(Streaming, msg, Created).error.None? <==> "InvoiceNo" in doc && doc["InvoiceNo"].JStr?
    ensures var doc := Reshaped(msg).value;
      EtlMsg(Streaming, msg, Created).error.None? ==>
        EtlMsg(Streaming, msg, Created).log == ["consumed basket " + doc["InvoiceNo"].s]
  {
  }

  /** The message dict that `ETL_msg` receives and changes in place. */
  class Document {
    var fields: map<string, Json>

    constructor(fields0: map<string, Json>)
      ensures fields == fields0
    {
      fields := fields0;
    }

    /** `msg["timestamp"] = get_timestamp(msg["InvoiceDate"])` followed by
        `del msg["InvoiceDate"]`. */
    method Reshape() returns (r: Result<int, EtlError>)
      modifies this
      ensures r == InvoiceTimestamp(old(fields))
      ensures r.Ok? ==> fields == Reshaped(old(fields)).value
      ensures r.Err? ==> fields == old(fields)
    {
      if "InvoiceDate" !in fields {
        return Err(MissingKey("InvoiceDate"));
      }
      var date := fields["InvoiceDate"];
      if !date.JStr? {
        return Err(NotAString("InvoiceDate", date));
      }
      var ts := GetTimestamp(date.s);
      if ts.Err? {
        return Err(BadDate(ts.error));
      }
      fields := fields["timestamp" := JInt(ts.value)];
      fields := fields - {"InvoiceDate"};
      r := Ok(ts.value);
    }

    /** `ETL_msg(msg)`: reshape, POST the result (answered with `status`),
        log. */
    method Load(v: Variant, status: nat) returns (o: Outcome)
      modifies this
      ensures o == EtlMsg(v, old(fields), status)
      ensures fields == if Reshaped(old(fields)).Ok? then Reshaped(old(fields)).value else old(fields)
    {
      var r := Reshape();
      if r.Err? {
        return Outcome(None, [], Some(r.error));
      }
      if status != Created {
        o := Outcome(Some(fields), FailureLines(status), None);
      } else if v == Batch {
        o := Outcome(Some(fields), [], None);
      } else {
        var line := ConsumedLine(fields);
        if line.Ok? {
          o := Outcome(Some(fields), [line.value], None);
        } else {
          o := Outcome(Some(fields), [], Some(line.error));
        }
      }
    }
  }
}
