/** One pass of the Kafka producer's outer loop (`KafkaProducer.py`): for each
    invoice group it resets the basket and the four lists, and for each row
    it overwrites the scalar keys, appends to the lists, stores them, and
    produces the basket as it stands. A group of n rows therefore yields n
    messages, the k-th carrying the basket of its first k rows. After the
    last group the producer flushes. */
module Producer {
  import opened Values
  import opened Basket

  /** The topic every message goes to. */
  const Topic: string := "recommender.system.1"

  /** What the producer does that the outside world sees. A produced
      message is the basket that is serialised to JSON and encoded as
      UTF-8. */
  datatype Event =
    | Produced(topic: string, message: Json)
    | Logged(line: string)
    | Flushed

  /** The basket produced after the first `k` rows of a group. */
  function Snapshot(g: Group, k: nat): Json
    requires k <= |g.rows|
  {
    JObj(BasketOf(g.rows[..k]))
  }

  /** The baskets produced for the first `k` rows of a group, in order. */
  function Snapshots(g: Group, k: nat): (s: seq<Json>)
    requires k <= |g.rows|
    ensures |s| == k && forall i :: 0 <= i < k ==> s[i] == Snapshot(g, i + 1)
  {
    seq(k, i requires 0 <= i < k => Snapshot(g, i + 1))
  }

  /** Each message produced, followed by the line logged for it. */
  function Emit(messages: seq<Json>, line: string): seq<Event> {
    if messages == [] then []
    else Emit(messages[..|messages| - 1], line) + [Produced(Topic, messages[|messages| - 1]), Logged(line)]
  }

  /** The events of the first `k` rows of a group. */
  function GroupEvents(g: Group, k: nat): seq<Event>
    requires k <= |g.rows|
  {
    Emit(Snapshots(g, k), "produced basket " + g.name)
  }

  /** Row `k` adds its basket and its line. */
  lemma GroupEventsSnoc(g: Group, k: nat)
    requires k < |g.rows|
    ensures GroupEvents(g, k + 1)
            == GroupEvents(g, k) + [Produced(Topic, JObj(BasketOf(g.rows[..k + 1]))), Logged("produced basket " + g.name)]
  {
    assert Snapshots(g, k + 1)[..k] == Snapshots(g, k);
  }

  /** The events of all rows of the groups, in group order. */
  function GroupsEvents(groups: seq<Group>): seq<Event> {
    if groups == [] then []
    else
      var g := groups[|groups| - 1];
      GroupsEvents(groups[..|groups| - 1]) + GroupEvents(g, |g.rows|)
  }

  /** One pass: every group, then the flush. */
  function PassEvents(groups: seq<Group>): seq<Event> {
    GroupsEvents(groups) + [Flushed, Logged("Done flushing")]
  }

  /** The messages among the events, in order. */
  function Messages(events: seq<Event>): seq<Json> {
    if events == [] then []
    else
      var e := events[|events| - 1];
      Messages(events[..|events| - 1]) + if e.Produced? then [e.message] else []
  }

  function TotalRows(groups: seq<Group>): nat {
    if groups == [] then 0 else TotalRows(groups[..|groups| - 1]) + |groups[|groups| - 1].rows|
  }

  lemma {:induction false} MessagesAppend(a: seq<Event>, b: seq<Event>)
    ensures Messages(a + b) == Messages(a) + Messages(b)
    decreases |b|
  {
    if b == [] {
      AppendEmpty(a);
    } else {
      AppendFront(a, b);
      MessagesAppend(a, b[..|b| - 1]);
    }
  }

  /** A message and its log line add just that message. */
  lemma ProducedThenLogged(a: seq<Event>, x: Json, line: string)
    ensures Messages(a + [Produced(Topic, x), Logged(line)]) == Messages(a) + [x]
  {
    var tail := [Produced(Topic, x), Logged(line)];
    MessagesAppend(a, tail);
    assert tail[..|tail| - 1] == [tail[0]];
    assert [tail[0]][..0] == [];
    assert Messages([tail[0]]) == [x];
    assert Messages(tail) == Messages([tail[0]]);
  }

  /** The messages among the emitted events are the messages emitted. */
  lemma {:induction false} EmitMessages(messages: seq<Json>, line: string)
    ensures Messages(Emit(messages, line)) == messages
  {
    if messages != [] {
      var front := messages[..|messages| - 1];
      EmitMessages(front, line);
      ProducedThenLogged(Emit(front, line), messages[|messages| - 1], line);
      assert front + [messages[|messages| - 1]] == messages;
    }
  }

  /** The k-th message of a group (counting from 0) is the basket of its
      first k + 1 rows: one message per row. */
  lemma GroupMessages(g: Group, k: nat)
    requires k <= |g.rows|
    ensures |Messages(GroupEvents(g, k))| == k
    ensures forall i :: 0 <= i < k ==> Messages(GroupEvents(g, k))[i] == Snapshot(g, i + 1)
  {
    EmitMessages(Snapshots(g, k), "produced basket " + g.name);
  }

  /** The lists of the k-th message of a group have k + 1 entries, and are a
      prefix of the lists of every later message of the group. */
  lemma MessagesGrow(g: Group, i: nat, j: nat, c: Column)
    requires i <= j < |g.rows|
    ensures var m := Messages(GroupEvents(g, |g.rows|));
      && |m| == |g.rows|
      && m[i].JObj? && ListKey(c) in m[i].fields && m[i].fields[ListKey(c)].JList?
      && |m[i].fields[ListKey(c)].items| == i + 1
      && m[j].JObj? && ListKey(c) in m[j].fields && m[j].fields[ListKey(c)].JList?
      && |m[j].fields[ListKey(c)].items| == j + 1
      && m[i].fields[ListKey(c)].items == m[j].fields[ListKey(c)].items[..i + 1]
  {
    GroupMessages(g, |g.rows|);
    BasketColumn(g.rows[..i + 1], c);
    BasketColumn(g.rows[..j + 1], c);
    TakeTake(g.rows, i + 1, j + 1);
    ColumnPrefix(g.rows[..j + 1], i + 1, c);
  }

  /** The message produced after row `i` of a group carries that row's scalar
      values, and in each list the cells of rows 0 .. i, in row order. */
  lemma MessageOfRow(g: Group, i: nat, c: Column)
    requires i < |g.rows|
    ensures var m := Messages(GroupEvents(g, |g.rows|));
      && |m| == |g.rows| && m[i].JObj?
      && "InvoiceNo" in m[i].fields && m[i].fields["InvoiceNo"] == g.rows[i].invoiceNo
      && "CustomerID" in m[i].fields && m[i].fields["CustomerID"] == g.rows[i].customerId
      && "InvoiceDate" in m[i].fields && m[i].fields["InvoiceDate"] == g.rows[i].invoiceDate
      && "Country" in m[i].fields && m[i].fields["Country"] == g.rows[i].country
      && ListKey(c) in m[i].fields && m[i].fields[ListKey(c)].JList?
      && |m[i].fields[ListKey(c)].items| == i + 1
      && forall j :: 0 <= j <= i ==> m[i].fields[ListKey(c)].items[j] == Cell(g.rows[j], c)
  {
    var rows := g.rows[..i + 1];
    GroupMessages(g, |g.rows|);
    BasketKeys(rows);
    BasketScalars(rows);
    BasketColumns(rows, c);
    assert rows[i] == g.rows[i];
  }

  /** The last message of a group is the basket the batch loader builds for
      the whole group. */
  lemma LastMessageIsWholeBasket(g: Group)
    requires g.rows != []
    ensures |Messages(GroupEvents(g, |g.rows|))| == |g.rows|
    ensures Messages(GroupEvents(g, |g.rows|))[|g.rows| - 1] == JObj(BasketOf(g.rows))
  {
    GroupMessages(g, |g.rows|);
    assert g.rows[..|g.rows|] == g.rows;
  }

  /** One message per row of every group, and nothing else is produced. */
  lemma {:induction false} MessagePerRow(groups: seq<Group>)
    ensures |Messages(GroupsEvents(groups))| == TotalRows(groups)
    ensures |Messages(PassEvents(groups))| == TotalRows(groups)
  {
    if groups != [] {
      var g := groups[|groups| - 1];
      MessagePerRow(groups[..|groups| - 1]);
      MessagesAppend(GroupsEvents(groups[..|groups| - 1]), GroupEvents(g, |g.rows|));
      GroupMessages(g, |g.rows|);
    }
    MessagesAppend(GroupsEvents(groups), [Flushed, Logged("Done flushing")]);
    assert Messages([Flushed, Logged("Done flushing")]) == [] by {
      assert [Flushed, Logged("Done flushing")][..1] == [Flushed];
      assert [Flushed][..0] == [];
    }
  }

  /** The events emitted alternate between a message and its line. */
  lemma {:induction false} EmitShape(messages: seq<Json>, line: string)
    ensures |Emit(messages, line)| == 2 * |messages|
    ensures forall i :: 0 <= i < |messages| ==>
      Emit(messages, line)[2 * i] == Produced(Topic, messages[i]) && Emit(messages, line)[2 * i + 1] == Logged(line)
  {
    if messages != [] {
      EmitShape(messages[..|messages| - 1], line);
    }
  }

  /** Every message goes to the recommender topic, and is followed by the
      line naming its group. */
  lemma GroupEventsShape(g: Group, k: nat)
    requires k <= |g.rows|
    ensures |GroupEvents(g, k)| == 2 * k
    ensures forall i :: 0 <= i < k ==>
      GroupEvents(g, k)[2 * i].Produced? && GroupEvents(g, k)[2 * i].topic == Topic
      && GroupEvents(g, k)[2 * i + 1] == Logged("produced basket " + g.name)
  {
    EmitShape(Snapshots(g, k), "produced basket " + g.name);
  }

  /** No flush happens while groups are being produced. */
  lemma {:induction false} NoFlushInGroups(groups: seq<Group>)
    ensures forall i :: 0 <= i < |GroupsEvents(groups)| ==> !GroupsEvents(groups)[i].Flushed?
  {
    if groups != [] {
      var front, g := groups[..|groups| - 1], groups[|groups| - 1];
      NoFlushInGroups(front);
      GroupEventsShape(g, |g.rows|);
      var a: seq<Event>, b: seq<Event> := GroupsEvents(front), GroupEvents(g, |g.rows|);
      forall i | 0 <= i < |a + b| ensures !(a + b)[i].Flushed? {
        if i >= |a| {
          var j := i - |a|;
          assert (a + b)[i] == b[j];
          assert b[j] == b[2 * (j / 2) + j % 2];
        }
      }
    }
  }

  /** The pass flushes exactly once, after every message of every group. */
  lemma FlushOnceAtEnd(groups: seq<Group>)
    ensures var e := PassEvents(groups);
      |e| >= 2 && e[|e| - 2] == Flushed && e[|e| - 1] == Logged("Done flushing")
      && forall i :: 0 <= i < |e| - 2 ==> !e[i].Flushed?
  {
    NoFlushInGroups(groups);
  }

  /** One pass of the outer loop as the producer runs it: the groups in
      order, then the flush. */
  method ProducePass(groups: seq<Group>) returns (events: seq<Event>)
    ensures events == PassEvents(groups)
  {
    events := [];
    for n := 0 to |groups|
      invariant events == GroupsEvents(groups[..n])
    {
      var produced := ProduceGroup(groups[n]);
      assert groups[..n + 1][..n] == groups[..n];
      events := events + produced;
    }
    assert groups[..|groups|] == groups;
    events := events + [Flushed, Logged("Done flushing")];
  }

  /** The body of the group loop: a fresh basket and fresh lists, then one
      message per row. */
  method ProduceGroup(g: Group) returns (events: seq<Event>)
    ensures events == GroupEvents(g, |g.rows|)
  {
    events := [];
    var basket: map<string, Json> := map[];
    var stockcodes, descriptions, quantities, unitprices := [], [], [], [];
    for k := 0 to |g.rows|
      invariant k == 0 ==> basket == map[]
      invariant k > 0 ==> basket == BasketOf(g.rows[..k])
      invariant stockcodes == ColumnOf(g.rows[..k], StockCodes)
      invariant descriptions == ColumnOf(g.rows[..k], Descriptions)
      invariant quantities == ColumnOf(g.rows[..k], Quantities)
      invariant unitprices == ColumnOf(g.rows[..k], UnitPrices)
      invariant events == GroupEvents(g, k)
    {
      var row := g.rows[k];
      ghost var expected := WithRow(basket, g.rows[..k], row);
      basket := basket["InvoiceNo" := row.invoiceNo];
      basket := basket["CustomerID" := row.customerId];
      basket := basket["InvoiceDate" := row.invoiceDate];
      basket := basket["Country" := row.country];
      stockcodes := stockcodes + [row.stockCode];
      descriptions := descriptions + [row.description];
      quantities := quantities + [row.quantity];
      unitprices := unitprices + [row.unitPrice];
      basket := basket["StockCodes" := JList(stockcodes)];
      basket := basket["Descriptions" := JList(descriptions)];
      basket := basket["Quantities" := JList(quantities)];
      basket := basket["UnitPrices" := JList(unitprices)];
      assert basket == expected;
      assert basket == BasketOf(g.rows[..k + 1]) by {
        BasketSnoc(if k == 0 then map[] else BasketOf(g.rows[..k]), g.rows[..k], row);
        TakeSnoc(g.rows, k);
      }
      assert stockcodes == ColumnOf(g.rows[..k + 1], StockCodes)
          && descriptions == ColumnOf(g.rows[..k + 1], Descriptions)
          && quantities == ColumnOf(g.rows[..k + 1], Quantities)
          && unitprices == ColumnOf(g.rows[..k + 1], UnitPrices) by {
        TakeSnoc(g.rows, k);
        ColumnSnoc(g.rows[..k], row, StockCodes);
        ColumnSnoc(g.rows[..k], row, Descriptions);
        ColumnSnoc(g.rows[..k], row, Quantities);
        ColumnSnoc(g.rows[..k], row, UnitPrices);
      }
      GroupEventsSnoc(g, k);
      events := events + [Produced(Topic, JObj(basket)), Logged("produced basket " + g.name)];
    }
  }
}
