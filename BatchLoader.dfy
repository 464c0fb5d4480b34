/** The batch loader's main loop (`StaticElasticsearchFling.py`): for each
    invoice group, build its basket from fresh lists and call `ETL_msg` on
    it once. The POSTs are answered by `postStatus`, indexed by the number of
    POSTs made before. */
module BatchLoader {
  import opened Values
  import opened Basket
  import opened Etl

  /** What the loop did: documents POSTed, lines logged, and the error that
      ended the process, if any. */
  datatype Load = Load(posted: seq<map<string, Json>>, log: seq<string>, error: Option<EtlError>)

  /** The basket of each group, in group order: every group starts from
      fresh lists, so each basket holds only its own group's rows. */
  function Baskets(groups: seq<Group>): (bs: seq<map<string, Json>>)
    ensures |bs| == |groups| && forall i :: 0 <= i < |groups| ==> bs[i] == BasketOf(groups[i].rows)
  {
    seq(|groups|, i requires 0 <= i < |groups| => BasketOf(groups[i].rows))
  }

  /** `ETL_msg` on each basket in turn; the first failing call ends the
      loop. */
  function Fling(baskets: seq<map<string, Json>>, postStatus: nat -> nat): Load {
    if baskets == [] then Load([], [], None)
    else
      var l := Fling(baskets[..|baskets| - 1], postStatus);
      if l.error.Some? then l
      else
        var o := EtlMsg(Batch, baskets[|baskets| - 1], postStatus(|l.posted|));
        Load(l.posted + (if o.posted.Some? then [o.posted.value] else []), l.log + o.log, o.error)
  }

  lemma FlingSnoc(baskets: seq<map<string, Json>>, b: map<string, Json>, postStatus: nat -> nat)
    ensures var l := Fling(baskets, postStatus);
      Fling(baskets + [b], postStatus)
      == if l.error.Some? then l
         else var o := EtlMsg(Batch, b, postStatus(|l.posted|));
              Load(l.posted + (if o.posted.Some? then [o.posted.value] else []), l.log + o.log, o.error)
  {
    SnocFront(baskets, b);
  }

  /** Each basket, reshaped. */
  function Documents(baskets: seq<map<string, Json>>): (docs: seq<map<string, Json>>)
    requires forall i :: 0 <= i < |baskets| ==> Reshaped(baskets[i]).Ok?
    ensures |docs| == |baskets| && forall i :: 0 <= i < |baskets| ==> docs[i] == Reshaped(baskets[i]).value
  {
    seq(|baskets|, i requires 0 <= i < |baskets| => Reshaped(baskets[i]).value)
  }

  lemma DocumentsSnoc(baskets: seq<map<string, Json>>, b: map<string, Json>)
    requires forall i :: 0 <= i < |baskets| ==> Reshaped(baskets[i]).Ok?
    requires Reshaped(b).Ok?
    ensures Documents(baskets + [b]) == Documents(baskets) + [Reshaped(b).value]
  {
    var bs := baskets + [b];
    var d, e := Documents(bs), Documents(baskets) + [Reshaped(b).value];
    forall i | 0 <= i < |bs| ensures d[i] == e[i] {
      if i < |baskets| {
        assert bs[i] == baskets[i];
      }
    }
    SameElements(d, e);
  }

  /** A basket that reshapes is POSTed reshaped, and the loop goes on. */
  lemma FlingGoodStep(baskets: seq<map<string, Json>>, b: map<string, Json>, postStatus: nat -> nat)
    requires Fling(baskets, postStatus).error.None? && Reshaped(b).Ok?
    ensures Fling(baskets + [b], postStatus).error.None?
    ensures Fling(baskets + [b], postStatus).posted == Fling(baskets, postStatus).posted + [Reshaped(b).value]
  {
    var l := Fling(baskets, postStatus);
    BatchNeverRaisesAfterReshape(b, postStatus(|l.posted|));
    FlingSnoc(baskets, b, postStatus);
  }

  /** When every basket reshapes, each is POSTed exactly once, in order, and
      the loop ends without an error. */
  lemma {:induction false} FlingPostsEveryBasket(baskets: seq<map<string, Json>>, postStatus: nat -> nat)
    requires forall i :: 0 <= i < |baskets| ==> Reshaped(baskets[i]).Ok?
    ensures Fling(baskets, postStatus).error.None?
    ensures Fling(baskets, postStatus).posted == Documents(baskets)
  {
    if baskets != [] {
      var front, b := baskets[..|baskets| - 1], baskets[|baskets| - 1];
      FrontLast(baskets);
      FlingPostsEveryBasket(front, postStatus);
      FlingGoodStep(front, b, postStatus);
      DocumentsSnoc(front, b);
    }
  }

  /** When every group's basket reshapes, each group is POSTed exactly once,
      in group order, as its own basket reshaped: nothing of one group
      reaches another. */
  lemma FlingPostsEveryGroup(groups: seq<Group>, postStatus: nat -> nat)
    requires forall i :: 0 <= i < |groups| ==> Reshaped(BasketOf(groups[i].rows)).Ok?
    ensures Fling(Baskets(groups), postStatus).error.None?
    ensures |Fling(Baskets(groups), postStatus).posted| == |groups|
    ensures forall i :: 0 <= i < |groups| ==>
      Fling(Baskets(groups), postStatus).posted[i] == Reshaped(BasketOf(groups[i].rows)).value
  {
    FlingPostsEveryBasket(Baskets(groups), postStatus);
  }

  /** A failed loop stays failed. */
  lemma {:induction false} FailedIsFinal(baskets: seq<map<string, Json>>, later: seq<map<string, Json>>, postStatus: nat -> nat)
    requires Fling(baskets, postStatus).error.Some?
    ensures Fling(baskets + later, postStatus) == Fling(baskets, postStatus)
    decreases |later|
  {
    if later == [] {
      AppendEmpty(baskets);
    } else {
      var front := later[..|later| - 1];
      AppendFront(baskets, later);
      FailedIsFinal(baskets, front, postStatus);
    }
  }

  /** The first basket that cannot be reshaped ends the process, with the
      error of that reshape; the baskets before it were all POSTed and the
      baskets after it never are. */
  lemma FlingStopsAtFirstBadBasket(good: seq<map<string, Json>>, bad: map<string, Json>,
                                   later: seq<map<string, Json>>, postStatus: nat -> nat)
    requires forall i :: 0 <= i < |good| ==> Reshaped(good[i]).Ok?
    requires Reshaped(bad).Err?
    ensures Fling(good + [bad] + later, postStatus).posted == Documents(good)
    ensures Fling(good + [bad] + later, postStatus).error == Some(Reshaped(bad).error)
  {
    FlingPostsEveryBasket(good, postStatus);
    FlingSnoc(good, bad, postStatus);
    PostedIsReshaped(Batch, bad, postStatus(|Documents(good)|));
    FailedIsFinal(good + [bad], later, postStatus);
  }

  /** The loop as the batch loader runs it: aggregate each group, then
      `ETL_msg` its basket. */
  method FlingAll(groups: seq<Group>, postStatus: nat -> nat) returns (l: Load)
    ensures l == Fling(Baskets(groups), postStatus)
  {
    ghost var baskets := Baskets(groups);
    var posted: seq<map<string, Json>> := [];
    var log: seq<string> := [];
    var k := 0;
    TakeEnds(baskets);
    while k < |groups|
      invariant 0 <= k <= |groups|
      invariant Load(posted, log, None) == Fling(baskets[..k], postStatus)
    {
      var basket := AggregateGroup(groups[k].rows);
      var doc := new Document(basket);
      var o := doc.Load(Batch, postStatus(|posted|));
      assert Fling(baskets[..k + 1], postStatus)
          == Load(posted + (if o.posted.Some? then [o.posted.value] else []), log + o.log, o.error) by {
        FlingSnoc(baskets[..k], basket, postStatus);
        TakeSnoc(baskets, k);
      }
      if o.posted.Some? {
        posted := posted + [o.posted.value];
      }
      log := log + o.log;
      k := k + 1;
      if o.error.Some? {
        assert Fling(baskets, postStatus) == Load(posted, log, o.error) by {
          FailedIsFinal(baskets[..k], baskets[k..], postStatus);
          TakeDrop(baskets, k);
        }
        return Load(posted, log, o.error);
      }
    }
    l := Load(posted, log, None);
  }
}
