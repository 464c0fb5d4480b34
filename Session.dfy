/** The query program's interaction (`QueryElasticsearch.py`, the main block):
    the user gets four attempts at naming a product. Every attempt reads a
    line, searches for its token, and shows recommendations when any are
    found; otherwise, for the first three attempts, it suggests product
    names that contain the token and asks again; after the fourth it says
    good-bye. The console and Elasticsearch are replaced by a sequence of
    exchanges: the line typed for each attempt, the response to its
    descriptions query, and the response to the match-all query made when
    nothing was found. Running out of exchanges is running out of input. */
module Session {
  import opened Values
  import opened Text
  import opened Query

  datatype Exchange = Exchange(raw: string, answer: Response, catalog: Response)

  /** What the program shows or sends, in order. */
  datatype Event =
    | Searched(query: Json)                         // a search is sent
    | SearchFailed                                  // "Error executing query"
    | Recommended(token: string, pairs: seq<Pair>)  // `similar_items`
    | NotFound(token: string)                       // "The item ... does not appear ..."
    | Suggested(token: string, products: set<string>) // the table of `not_found_continue`
    | Notice(line: string)                          // the attempts left
    | Goodbye                                       // "You have no more attempts. Good bye!"

  /** The events of a session and the exception that ended it, if any. */
  datatype Outcome = Outcome(events: seq<Event>, error: Option<QueryError>)

  function Token(x: Exchange): string {
    Normalise(x.raw)
  }

  /** What `user_query` shows: its search, and the failure line when the
      status is not 200. */
  function AskEvents(x: Exchange): seq<Event> {
    [Searched(QueryDescriptions(Token(x)))] + if x.answer.status != 200 then [SearchFailed] else []
  }

  /** What `not_found_continue` shows before its table. */
  function BrowseEvents(x: Exchange): seq<Event> {
    [NotFound(Token(x)), Searched(QueryAll())] + if x.catalog.status != 200 then [SearchFailed] else []
  }

  /** The line printed after the suggestions of attempt `i`. */
  function AttemptsLeft(i: nat): string
    requires i < 3
  {
    "You have " + ShowNat(3 - i) + if i == 2 then " attempt left." else " attempts left."
  }

  /** What one exchange gives the loop: the token read, what asking shows
      and the recommendations found, what browsing the catalogue shows and
      the product names suggested. */
  datatype Turn = Turn(token: string, asked: seq<Event>, found: Result<seq<Pair>, QueryError>,
                       browsed: seq<Event>, offered: Result<set<string>, QueryError>)

  function TurnOf(x: Exchange): Turn {
    Turn(Token(x), AskEvents(x), Recommendations(x.answer), BrowseEvents(x), Suggestions(x.catalog, Token(x)))
  }

  function Turns(xs: seq<Exchange>): (ts: seq<Turn>)
    ensures |ts| == |xs| && forall i :: 0 <= i < |xs| ==> ts[i] == TurnOf(xs[i])
  {
    seq(|xs|, i requires 0 <= i < |xs| => TurnOf(xs[i]))
  }

  /** The loop from iteration `i` on: `pairs` is what turn `i` found,
      `shown` what was shown before. */
  function Attempts(ts: seq<Turn>, i: nat, pairs: seq<Pair>, shown: seq<Event>): Outcome
    requires i < |ts| && i <= 3
    decreases 3 - i
  {
    var t := ts[i];
    if |pairs| != 0 then Outcome(shown + [Recommended(t.token, pairs)], None)
    else if i == 3 then Outcome(shown + [NotFound(t.token), Goodbye], None)
    else
      var browsed := shown + t.browsed;
      match t.offered
      case Err(e) => Outcome(browsed, Some(e))
      case Ok(products) =>
        var told := browsed + [Suggested(t.token, products), Notice(AttemptsLeft(i))];
        if i + 1 == |ts| then Outcome(told, Some(EndOfInput))
        else
          var asked := told + ts[i + 1].asked;
          match ts[i + 1].found
          case Err(e) => Outcome(asked, Some(e))
          case Ok(next) => Attempts(ts, i + 1, next, asked)
  }

  /** The session over the turns: the first question, then the loop. */
  function Play(ts: seq<Turn>): Outcome {
    if ts == [] then Outcome([], Some(EndOfInput))
    else
      match ts[0].found
      case Err(e) => Outcome(ts[0].asked, Some(e))
      case Ok(pairs) => Attempts(ts, 0, pairs, ts[0].asked)
  }

  /** The whole session. */
  function Run(xs: seq<Exchange>): Outcome {
    Play(Turns(xs))
  }

  // ---------------------------------------------------------------- the program

  /** `queryUserinput().user_query()` on one exchange. */
  method UserQuery(x: Exchange) returns (token: string, shown: seq<Event>, r: Result<seq<Pair>, QueryError>)
    ensures token == Token(x) && shown == AskEvents(x) && r == Recommendations(x.answer)
  {
    var sanitized := Sanitize(x.raw);
    token := Strip(Upper(sanitized));
    shown := [Searched(QueryDescriptions(token))];
    var res := Execute(x.answer);
    if res.None? {
      shown := shown + [SearchFailed];
      return token, shown, Err(NoResult);
    }
    var buckets := Lookup(res.value, BucketsPath);
    if buckets.Err? {
      return token, shown, Err(buckets.error);
    }
    var items := Items(buckets.value);
    if items.Err? {
      return token, shown, Err(items.error);
    }
    r := AlsoBought(items.value);
  }

  /** `prettyResponse(token, []).not_found_continue()` on one exchange. */
  method NotFoundContinue(x: Exchange, token: string) returns (shown: seq<Event>, r: Result<set<string>, QueryError>)
    requires token == Token(x)
    ensures shown == BrowseEvents(x) && r == Suggestions(x.catalog, token)
  {
    shown := [NotFound(token), Searched(QueryAll())];
    var res := Execute(x.catalog);
    if res.None? {
      shown := shown + [SearchFailed];
      return shown, Err(NoResult);
    }
    var hitsValue := Lookup(res.value, ["hits", "hits"]);
    if hitsValue.Err? {
      return shown, Err(hitsValue.error);
    }
    var hits := Items(hitsValue.value);
    if hits.Err? {
      return shown, Err(hits.error);
    }
    var names := CollectMatches(hits.value, token);
    if names.Err? {
      return shown, Err(names.error);
    }
    r := Hashed(names.value);
  }

  /** The main block: one question, then `for i in range(0, 4)`. */
  method Interact(xs: seq<Exchange>) returns (o: Outcome)
    ensures o == Run(xs)
  {
    if |xs| == 0 {
      return Outcome([], Some(EndOfInput));
    }
    var token, events, r := UserQuery(xs[0]);
    if r.Err? {
      return Outcome(events, Some(r.error));
    }
    var alsoBought := r.value;
    o := Outcome([], None);
    for i := 0 to 4
      invariant i < 4 ==> i < |xs| && token == Token(xs[i])
      invariant i < 4 ==> Attempts(Turns(xs), i, alsoBought, events) == Run(xs)
      invariant i == 4 ==> o == Run(xs)
    {
      if i < 3 {
        if |alsoBought| == 0 {
          var browsed, found := NotFoundContinue(xs[i], token);
          events := events + browsed;
          if found.Err? {
            return Outcome(events, Some(found.error));
          }
          events := events + [Suggested(token, found.value), Notice(AttemptsLeft(i))];
          if i + 1 == |xs| {
            return Outcome(events, Some(EndOfInput));
          }
          var asked, next;
          token, asked, next := UserQuery(xs[i + 1]);
          events := events + asked;
          if next.Err? {
            return Outcome(events, Some(next.error));
          }
          alsoBought := next.value;
        } else {
          o := Outcome(events + [Recommended(token, alsoBought)], None);
          break;
        }
      } else {
        if |alsoBought| == 0 {
          o := Outcome(events + [NotFound(token), Goodbye], None);
        } else {
          o := Outcome(events + [Recommended(token, alsoBought)], None);
        }
      }
    }
  }

  // ---------------------------------------------------------------- what a session looks like

  /** A turn that finds nothing and whose suggestions can be shown. */
  predicate Missed(t: Turn) {
    t.found == Ok([]) && t.offered.Ok?
  }

  /** The events of the first `n` turns when each of them missed: its
      question, the suggestions, the attempts left. */
  function Misses(ts: seq<Turn>, n: nat): seq<Event>
    requires n <= |ts| && n <= 3
    requires forall m :: 0 <= m < n ==> Missed(ts[m])
  {
    if n == 0 then []
    else
      var t := ts[n - 1];
      assert Missed(t);
      Misses(ts, n - 1) + t.asked + t.browsed + [Suggested(t.token, t.offered.value), Notice(AttemptsLeft(n - 1))]
  }

  /** How the last turn ends the session: with its recommendations when it
      found some, with good-bye otherwise. */
  function Ending(t: Turn): seq<Event>
    requires t.found.Ok?
  {
    if t.found.value != [] then [Recommended(t.token, t.found.value)] else [NotFound(t.token), Goodbye]
  }

  lemma {:induction false} AttemptsAfterMisses(ts: seq<Turn>, i: nat, n: nat)
    requires i <= n <= 3 && n < |ts|
    requires forall m :: 0 <= m < n ==> Missed(ts[m])
    requires ts[n].found.Ok? && (ts[n].found.value != [] || n == 3)
    requires ts[i].found.Ok?
    ensures Attempts(ts, i, ts[i].found.value, Misses(ts, i) + ts[i].asked)
         == Outcome(Misses(ts, n) + ts[n].asked + Ending(ts[n]), None)
    decreases n - i
  {
    if i < n {
      var t := ts[i];
      assert Missed(t);
      AttemptsAfterMisses(ts, i + 1, n);
      assert Misses(ts, i + 1) + ts[i + 1].asked
          == Misses(ts, i) + t.asked + t.browsed
             + [Suggested(t.token, t.offered.value), Notice(AttemptsLeft(i))]
             + ts[i + 1].asked;
    }
  }

  lemma PlayShape(ts: seq<Turn>, n: nat)
    requires n <= 3 && n < |ts|
    requires forall m :: 0 <= m < n ==> Missed(ts[m])
    requires ts[n].found.Ok? && (ts[n].found.value != [] || n == 3)
    ensures Play(ts) == Outcome(Misses(ts, n) + ts[n].asked + Ending(ts[n]), None)
  {
    if n > 0 {
      assert Missed(ts[0]);
    }
    AttemptsAfterMisses(ts, 0, n);
    assert Misses(ts, 0) + ts[0].asked == ts[0].asked;
  }

  /** A session in which attempts 0 .. n-1 find nothing and attempt n finds
      something, or is the fourth: every missed attempt shows its question,
      its suggestions and the attempts left; the session ends with the
      recommendations of attempt n, or, when the fourth attempt finds
      nothing either, with good-bye and no suggestions; nothing follows. */
  lemma SessionShape(xs: seq<Exchange>, n: nat)
    requires n <= 3 && n < |xs|
    requires forall m :: 0 <= m < n ==> Missed(TurnOf(xs[m]))
    requires TurnOf(xs[n]).found.Ok? && (TurnOf(xs[n]).found.value != [] || n == 3)
    ensures Run(xs) == Outcome(Misses(Turns(xs), n) + AskEvents(xs[n]) + Ending(TurnOf(xs[n])), None)
  {
    var ts := Turns(xs);
    assert ts[n] == TurnOf(xs[n]);
    PlayShape(ts, n);
  }

  /** The first attempt that finds something ends the session right away. */
  lemma FirstHitEnds(xs: seq<Exchange>)
    requires xs != [] && Recommendations(xs[0].answer).Ok? && Recommendations(xs[0].answer).value != []
    ensures Run(xs) == Outcome(AskEvents(xs[0]) + [Recommended(Token(xs[0]), Recommendations(xs[0].answer).value)], None)
  {
    var ts := Turns(xs);
    assert ts[0] == TurnOf(xs[0]);
  }

  // ---------------------------------------------------------------- at most four questions

  function ProductSearches(events: seq<Event>): nat {
    if events == [] then 0
    else
      var e := events[|events| - 1];
      ProductSearches(events[..|events| - 1]) + if e.Searched? && e.query != QueryAll() then 1 else 0
  }

  function CatalogSearches(events: seq<Event>): nat {
    if events == [] then 0
    else
      var e := events[|events| - 1];
      CatalogSearches(events[..|events| - 1]) + if e == Searched(QueryAll()) then 1 else 0
  }

  lemma {:induction false} SearchesAppend(a: seq<Event>, b: seq<Event>)
    ensures ProductSearches(a + b) == ProductSearches(a) + ProductSearches(b)
    ensures CatalogSearches(a + b) == CatalogSearches(a) + CatalogSearches(b)
    decreases |b|
  {
    if b == [] {
      AppendEmpty(a);
    } else {
      AppendFront(a, b);
      SearchesAppend(a, b[..|b| - 1]);
    }
  }

  lemma SearchesOfAsk(x: Exchange)
    ensures ProductSearches(AskEvents(x)) == 1 && CatalogSearches(AskEvents(x)) == 0
  {
    var q := QueryDescriptions(Token(x));
    QueryAllIsNotDescriptions(Token(x));
    SearchesAppend([Searched(q)], if x.answer.status != 200 then [SearchFailed] else []);
    assert [Searched(q)][..0] == [];
    if x.answer.status != 200 {
      assert [SearchFailed][..0] == [];
    }
  }

  lemma SearchesOfBrowse(x: Exchange)
    ensures ProductSearches(BrowseEvents(x)) == 0 && CatalogSearches(BrowseEvents(x)) == 1
  {
    var head := [NotFound(Token(x)), Searched(QueryAll())];
    SearchesAppend(head, if x.catalog.status != 200 then [SearchFailed] else []);
    assert head[..1] == [NotFound(Token(x))];
    assert [NotFound(Token(x))][..0] == [];
    if x.catalog.status != 200 {
      assert [SearchFailed][..0] == [];
    }
  }

  lemma SearchesOfOthers(t: string, pairs: seq<Pair>, products: set<string>, line: string)
    ensures ProductSearches([Recommended(t, pairs)]) == 0 && CatalogSearches([Recommended(t, pairs)]) == 0
    ensures ProductSearches([NotFound(t), Goodbye]) == 0 && CatalogSearches([NotFound(t), Goodbye]) == 0
    ensures ProductSearches([Suggested(t, products), Notice(line)]) == 0
    ensures CatalogSearches([Suggested(t, products), Notice(line)]) == 0
  {
    assert [Recommended(t, pairs)][..0] == [];
    assert [NotFound(t), Goodbye][..1] == [NotFound(t)];
    assert [NotFound(t)][..0] == [];
    assert [Suggested(t, products), Notice(line)][..1] == [Suggested(t, products)];
    assert [Suggested(t, products)][..0] == [];
  }

  /** Asking sends one descriptions query, browsing one match-all query. */
  predicate Counted(t: Turn) {
    ProductSearches(t.asked) == 1 && CatalogSearches(t.asked) == 0
    && ProductSearches(t.browsed) == 0 && CatalogSearches(t.browsed) == 1
  }

  lemma TurnOfCounted(x: Exchange)
    ensures Counted(TurnOf(x))
  {
    SearchesOfAsk(x);
    SearchesOfBrowse(x);
  }

  lemma {:induction false} AttemptsSearchBound(ts: seq<Turn>, i: nat, pairs: seq<Pair>, shown: seq<Event>)
    requires i < |ts| && i <= 3
    requires forall m :: 0 <= m < |ts| ==> Counted(ts[m])
    ensures ProductSearches(Attempts(ts, i, pairs, shown).events) <= ProductSearches(shown) + 3 - i
    ensures CatalogSearches(Attempts(ts, i, pairs, shown).events) <= CatalogSearches(shown) + 3 - i
    decreases 3 - i
  {
    var t := ts[i];
    SearchesOfOthers(t.token, pairs, {}, "");
    if |pairs| != 0 {
      SearchesAppend(shown, [Recommended(t.token, pairs)]);
    } else if i == 3 {
      SearchesAppend(shown, [NotFound(t.token), Goodbye]);
    } else {
      assert Counted(t);
      var browsed := shown + t.browsed;
      SearchesAppend(shown, t.browsed);
      match t.offered
      case Err(e) =>
      case Ok(products) =>
        var told := browsed + [Suggested(t.token, products), Notice(AttemptsLeft(i))];
        SearchesOfOthers(t.token, pairs, products, AttemptsLeft(i));
        SearchesAppend(browsed, [Suggested(t.token, products), Notice(AttemptsLeft(i))]);
        if i + 1 < |ts| {
          assert Counted(ts[i + 1]);
          var asked := told + ts[i + 1].asked;
          SearchesAppend(told, ts[i + 1].asked);
          match ts[i + 1].found
          case Err(e) =>
          case Ok(next) =>
            AttemptsSearchBound(ts, i + 1, next, asked);
        }
    }
  }

  /** A session sends at most four descriptions queries (one before the
      loop, at most three in it) and at most three match-all queries. */
  lemma AtMostFourQuestions(xs: seq<Exchange>)
    ensures ProductSearches(Run(xs).events) <= 4
    ensures CatalogSearches(Run(xs).events) <= 3
  {
    var ts := Turns(xs);
    forall m | 0 <= m < |ts| ensures Counted(ts[m]) {
      TurnOfCounted(xs[m]);
    }
    if ts != [] {
      match ts[0].found
      case Err(e) =>
      case Ok(pairs) =>
        AttemptsSearchBound(ts, 0, pairs, ts[0].asked);
    }
  }

  /** The attempts-left notices count down from three, singular at one. */
  lemma AttemptsLeftLines()
    ensures AttemptsLeft(0) == "You have 3 attempts left."
    ensures AttemptsLeft(1) == "You have 2 attempts left."
    ensures AttemptsLeft(2) == "You have 1 attempt left."
  {
    assert ShowNat(3) == "3" && ShowNat(2) == "2" && ShowNat(1) == "1";
  }
}
