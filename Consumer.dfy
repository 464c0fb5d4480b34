/** The Kafka consumer's `while True` loop: each poll result is dispatched on
    its kind, and each delivered basket goes through `ETL_msg` once, in poll
    order. Only the polls the loop makes are modelled, as a finite sequence;
    the POSTs are answered by `postStatus`, indexed by the number of POSTs
    made before. */
module Consumer {
  import opened Values
  import opened Etl

  /** `KafkaError._PARTITION_EOF` of librdkafka. */
  const PartitionEof: int := -191

  /** What one `c.poll(timeout=10.0)` returns. A delivered value is already
      UTF-8-decoded and JSON-parsed: None when either step fails. */
  datatype Poll =
    | NoMessage               // poll timed out: None
    | Errored(code: int)      // a message whose error() is set
    | Delivered(value: Option<Json>)

  /** Why the loop stopped. A Kafka error other than partition-EOF runs
      `raise KafkaException(...)`, a name the program never imports, so it
      ends the process with NameError. */
  datatype Stop =
    | Raised(code: int)
    | Undecodable
    | NotADict(value: Json)   // TypeError at msg["InvoiceDate"]
    | EtlFailed(error: EtlError)

  /** Everything the loop did so far: documents POSTed, lines logged, and
      the exception that ended it, if any. */
  datatype State = State(posted: seq<map<string, Json>>, log: seq<string>, stopped: Option<Stop>)

  const Start: State := State([], [], None)

  /** One pass of the loop body. A stopped loop does nothing more. */
  function Step(s: State, p: Poll, postStatus: nat -> nat): State {
    if s.stopped.Some? then s
    else match p
      case NoMessage => s
      case Errored(code) =>
        if code == PartitionEof then s else s.(stopped := Some(Raised(code)))
      case Delivered(None) => s.(stopped := Some(Undecodable))
      case Delivered(Some(v)) =>
        if !v.JObj? then s.(stopped := Some(NotADict(v)))
        else
          var o := EtlMsg(Streaming, v.fields, postStatus(|s.posted|));
          State(s.posted + (if o.posted.Some? then [o.posted.value] else []),
                s.log + o.log,
                if o.error.Some? then Some(EtlFailed(o.error.value)) else None)
  }

  /** The loop over a finite sequence of polls. */
  function Run(polls: seq<Poll>, postStatus: nat -> nat): State {
    if polls == [] then Start
    else Step(Run(polls[..|polls| - 1], postStatus), polls[|polls| - 1], postStatus)
  }

  lemma RunSnoc(polls: seq<Poll>, p: Poll, postStatus: nat -> nat)
    ensures Run(polls + [p], postStatus) == Step(Run(polls, postStatus), p, postStatus)
  {
    SnocFront(polls, p);
  }

  /** A poll that returns nothing, and a partition-EOF error, change
      nothing: the loop just polls again. */
  lemma IdlePollsChangeNothing(polls: seq<Poll>, postStatus: nat -> nat)
    ensures Run(polls + [NoMessage], postStatus) == Run(polls, postStatus)
    ensures Run(polls + [Errored(PartitionEof)], postStatus) == Run(polls, postStatus)
  {
    RunSnoc(polls, NoMessage, postStatus);
    RunSnoc(polls, Errored(PartitionEof), postStatus);
  }

  /** Any other error ends the loop, with nothing POSTed or logged. */
  lemma OtherErrorsStop(polls: seq<Poll>, code: int, postStatus: nat -> nat)
    requires code != PartitionEof && Run(polls, postStatus).stopped.None?
    ensures Run(polls + [Errored(code)], postStatus)
            == Run(polls, postStatus).(stopped := Some(Raised(code)))
  {
    RunSnoc(polls, Errored(code), postStatus);
  }

  /** Once stopped, the loop stays stopped: later polls never happen. */
  lemma {:induction false} StoppedIsFinal(polls: seq<Poll>, later: seq<Poll>, postStatus: nat -> nat)
    requires Run(polls, postStatus).stopped.Some?
    ensures Run(polls + later, postStatus) == Run(polls, postStatus)
    decreases |later|
  {
    if later != [] {
      var front := later[..|later| - 1];
      AppendFront(polls, later);
      StoppedIsFinal(polls, front, postStatus);
      RunSnoc(polls + front, later[|later| - 1], postStatus);
    } else {
      AppendEmpty(polls);
    }
  }

  /** What was POSTed and logged is never taken back: the record of a prefix
      of the polls is a prefix of the record of all of them. */
  lemma {:induction false} RunGrows(polls: seq<Poll>, later: seq<Poll>, postStatus: nat -> nat)
    ensures Run(polls, postStatus).posted <= Run(polls + later, postStatus).posted
    ensures Run(polls, postStatus).log <= Run(polls + later, postStatus).log
    decreases |later|
  {
    if later != [] {
      var front := later[..|later| - 1];
      AppendFront(polls, later);
      RunGrows(polls, front, postStatus);
      RunSnoc(polls + front, later[|later| - 1], postStatus);
    } else {
      AppendEmpty(polls);
    }
  }

  /** A poll the loop gets through without stopping, whatever the status
      of a POST: nothing, partition-EOF, or a basket whose date converts and
      whose invoice number is text. */
  predicate Harmless(p: Poll) {
    match p
    case NoMessage => true
    case Errored(code) => code == PartitionEof
    case Delivered(v) =>
      v.Some? && v.value.JObj? && Reshaped(v.value.fields).Ok?
      && ConsumedLine(Reshaped(v.value.fields).value).Ok?
  }

  /** The reshaped baskets carried by the polls, in poll order. */
  function Baskets(polls: seq<Poll>): seq<map<string, Json>>
    requires forall i :: 0 <= i < |polls| ==> Harmless(polls[i])
  {
    if polls == [] then []
    else
      var p := polls[|polls| - 1];
      assert Harmless(p);
      Baskets(polls[..|polls| - 1])
      + if p.Delivered? then [Reshaped(p.value.value.fields).value] else []
  }

  /** Over harmless polls, every basket is POSTed once, reshaped, in poll
      order, and the loop is still running. */
  lemma {:induction false} HarmlessPollsPostEveryBasket(polls: seq<Poll>, postStatus: nat -> nat)
    requires forall i :: 0 <= i < |polls| ==> Harmless(polls[i])
    ensures Run(polls, postStatus).posted == Baskets(polls)
    ensures Run(polls, postStatus).stopped.None?
  {
    if polls != [] {
      var front := polls[..|polls| - 1];
      HarmlessPollsPostEveryBasket(front, postStatus);
      var p := polls[|polls| - 1];
      assert Harmless(p);
      if p.Delivered? {
        var m := p.value.value.fields;
        var s := Run(front, postStatus);
        PostedIsReshaped(Streaming, m, postStatus(|s.posted|));
        SuccessLogged(m);
      }
    }
  }

  /** The documents indexed over a run are the baskets that come before the
      first error other than partition-EOF, which ends the loop. */
  lemma IndexedBeforeFirstError(good: seq<Poll>, code: int, later: seq<Poll>, postStatus: nat -> nat)
    requires forall i :: 0 <= i < |good| ==> Harmless(good[i])
    requires code != PartitionEof
    ensures Run(good + [Errored(code)] + later, postStatus).posted == Baskets(good)
    ensures Run(good + [Errored(code)] + later, postStatus).stopped == Some(Raised(code))
  {
    HarmlessPollsPostEveryBasket(good, postStatus);
    OtherErrorsStop(good, code, postStatus);
    StoppedIsFinal(good + [Errored(code)], later, postStatus);
  }

  /** The loop as the consumer runs it, over the polls it makes; each
      delivered value becomes a fresh dict that `ETL_msg` changes in
      place. */
  method Consume(polls: seq<Poll>, postStatus: nat -> nat) returns (s: State)
    ensures s == Run(polls, postStatus)
  {
    var posted: seq<map<string, Json>> := [];
    var log: seq<string> := [];
    var stopped: Option<Stop> := None;
    var i := 0;
    while i < |polls|
      invariant 0 <= i <= |polls|
      invariant State(posted, log, stopped) == Run(polls[..i], postStatus)
      invariant stopped.None?
    {
      var p := polls[i];
      RunSnoc(polls[..i], p, postStatus);
      assert polls[..i + 1] == polls[..i] + [p];
      i := i + 1;
      if p.NoMessage? {
        continue;
      }
      if p.Errored? {
        if p.code == PartitionEof {
          continue;
        }
        stopped := Some(Raised(p.code));
      } else if p.value.None? {
        stopped := Some(Undecodable);
      } else if !p.value.value.JObj? {
        stopped := Some(NotADict(p.value.value));
      } else {
        var doc := new Document(p.value.value.fields);
        var o := doc.Load(Streaming, postStatus(|posted|));
        if o.posted.Some? {
          posted := posted + [o.posted.value];
        }
        log := log + o.log;
        if o.error.Some? {
          stopped := Some(EtlFailed(o.error.value));
        }
      }
      assert State(posted, log, stopped) == Run(polls[..i], postStatus);
      if stopped.Some? {
        StoppedIsFinal(polls[..i], polls[i..], postStatus);
        assert polls[..i] + polls[i..] == polls;
        break;
      }
    }
    if stopped.None? {
      assert polls[..i] == polls;
    }
    s := State(posted, log, stopped);
  }
}
