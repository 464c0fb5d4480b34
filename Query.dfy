/** The pieces of the query program (`QueryElasticsearch.py`) that shape data:
    the sanitiser, the token a user's input becomes, the two search bodies,
    the reading of a search response, the recommendations drawn from its
    buckets and the product names suggested when nothing is found. */
module Query {
  import opened Values
  import opened Text

  // ---------------------------------------------------------------- sanitize

  /** What the sanitiser writes for one character. */
  function EscapeChar(c: char): string {
    if c == '>' then "&gt;" else if c == '<' then "&lt;" else [c]
  }

  /** The sanitised string: the characters of `s` in order, each written as
      `EscapeChar` writes it. */
  function Escaped(s: string): string {
    if s == [] then [] else Escaped(s[..|s| - 1]) + EscapeChar(s[|s| - 1])
  }

  predicate IsAngle(c: char) { c == '<' || c == '>' }

  predicate NoAngle(s: string) {
    forall i :: 0 <= i < |s| ==> !IsAngle(s[i])
  }

  /** How many characters of `s` are angle brackets. */
  function Angles(s: string): nat {
    if s == [] then 0 else Angles(s[..|s| - 1]) + if IsAngle(s[|s| - 1]) then 1 else 0
  }

  /** `sanitize(input_string)`: builds the output one character at a time. */
  method Sanitize(input: string) returns (output: string)
    ensures output == Escaped(input)
  {
    output := "";
    for i := 0 to |input|
      invariant output == Escaped(input[..i])
    {
      var c := input[i];
      var outchar: string;
      if c == '>' {
        outchar := "&gt;";
      } else if c == '<' {
        outchar := "&lt;";
      } else {
        outchar := [c];
      }
      assert input[..i + 1][..i] == input[..i];
      output := output + outchar;
    }
    assert input[..|input|] == input;
  }

  lemma NoAngleAppend(a: string, b: string)
    requires NoAngle(a) && NoAngle(b)
    ensures NoAngle(a + b)
  {
    forall i | 0 <= i < |a + b| ensures !IsAngle((a + b)[i]) {
      if i >= |a| { assert (a + b)[i] == b[i - |a|]; }
    }
  }

  /** No angle bracket survives the sanitiser. */
  lemma {:induction false} EscapedNoAngle(s: string)
    ensures NoAngle(Escaped(s))
  {
    if s != [] {
      EscapedNoAngle(s[..|s| - 1]);
      NoAngleAppend(Escaped(s[..|s| - 1]), EscapeChar(s[|s| - 1]));
    }
  }

  /** Each angle bracket grows into four characters, every other character
      stays one. */
  lemma {:induction false} EscapedLength(s: string)
    ensures |Escaped(s)| == |s| + 3 * Angles(s)
  {
    if s != [] {
      EscapedLength(s[..|s| - 1]);
    }
  }

  /** The sanitiser works character by character: it distributes over
      concatenation. */
  lemma {:induction false} EscapedAppend(a: string, b: string)
    ensures Escaped(a + b) == Escaped(a) + Escaped(b)
    decreases |b|
  {
    if b == [] {
      AppendEmpty(a);
    } else {
      var front, last := b[..|b| - 1], b[|b| - 1];
      AppendFront(a, b);
      assert (a + b)[|a + b| - 1] == last;
      EscapedAppend(a, front);
      AppendAssoc(Escaped(a), Escaped(front), EscapeChar(last));
    }
  }

  /** Characters other than `<` and `>` are copied unchanged and in order. */
  lemma {:induction false} EscapedCopies(s: string)
    requires NoAngle(s)
    ensures Escaped(s) == s
  {
    if s != [] {
      EscapedCopies(s[..|s| - 1]);
    }
  }

  /** Sanitising twice is sanitising once: `&` is left alone, so the
      entities written the first time are not rewritten. */
  lemma EscapedIdempotent(s: string)
    ensures Escaped(Escaped(s)) == Escaped(s)
  {
    EscapedNoAngle(s);
    EscapedCopies(Escaped(s));
  }

  // ---------------------------------------------------------------- the token

  /** `sanitize(input(...)).upper().strip()`. A `<` therefore ends up as
      `&LT;`. */
  function Normalise(raw: string): string {
    Strip(Upper(Escaped(raw)))
  }

  lemma UpperKeepsNoAngle(s: string)
    requires NoAngle(s)
    ensures NoAngle(Upper(s))
  {
  }

  /** A piece cut out of a string without angle brackets has none. */
  lemma NoAngleSlice(s: string, i: int, j: int)
    requires NoAngle(s) && 0 <= i <= j <= |s|
    ensures NoAngle(s[i..j])
  {
    forall k | 0 <= k < j - i ensures !IsAngle(s[i..j][k]) {
      assert s[i..j][k] == s[i + k];
    }
  }

  /** Every character of `s` is already upper case as `upper()` writes it. */
  predicate IsUpper(s: string) {
    forall i :: 0 <= i < |s| ==> UpperChar(s[i]) == s[i]
  }

  lemma UpperIsUpper(s: string)
    ensures IsUpper(Upper(s))
  {
  }

  lemma UpperOfUpper(s: string)
    requires IsUpper(s)
    ensures Upper(s) == s
  {
  }

  lemma IsUpperSlice(s: string, i: int, j: int)
    requires IsUpper(s) && 0 <= i <= j <= |s|
    ensures IsUpper(s[i..j])
  {
    forall k | 0 <= k < j - i ensures UpperChar(s[i..j][k]) == s[i..j][k] {
      assert s[i..j][k] == s[i + k];
    }
  }

  /** The token has no angle bracket and no whitespace at either end, and
      all of its letters are capitals. */
  lemma NormaliseClean(raw: string)
    ensures NoAngle(Normalise(raw))
    ensures Normalise(raw) != [] ==> !IsSpace(Normalise(raw)[0]) && !IsSpace(Normalise(raw)[|Normalise(raw)| - 1])
    ensures IsUpper(Normalise(raw))
  {
    var u := Upper(Escaped(raw));
    EscapedNoAngle(raw);
    UpperKeepsNoAngle(Escaped(raw));
    UpperIsUpper(Escaped(raw));
    StripRemovesSpace(u);
    var i, j :| 0 <= i <= j <= |u| && Strip(u) == u[i..j] && AllSpace(u[..i]) && AllSpace(u[j..]);
    NoAngleSlice(u, i, j);
    IsUpperSlice(u, i, j);
  }

  /** Normalising a token again gives the same token. */
  lemma NormaliseIdempotent(raw: string)
    ensures Normalise(Normalise(raw)) == Normalise(raw)
  {
    var t := Normalise(raw);
    NormaliseClean(raw);
    EscapedCopies(t);
    UpperOfUpper(t);
    StripOfStripped(t);
  }

  // ---------------------------------------------------------------- the query bodies

  /** `queryType(token).query_descriptions()`: documents whose descriptions
      hold the token, and the significant terms among their descriptions
      that appear in at least ten documents, the token itself excluded; no
      hits returned. */
  function QueryDescriptions(token: string): Json {
    JObj(map[
      "size" := JInt(0),
      "query" := JObj(map["bool" := JObj(map["filter" := JList([
        JObj(map["term" := JObj(map["Descriptions" := JStr(token)])])])])]),
      "aggs" := JObj(map["correlated_words" := JObj(map["significant_terms" := JObj(map[
        "field" := JStr("Descriptions"),
        "exclude" := JStr(token),
        "min_doc_count" := JInt(10)])])])])
  }

  /** `queryType(token).query_all()`: every document, whatever the token. */
  function QueryAll(): Json {
    JObj(map["query" := JObj(map["match_all" := JObj(map[])])])
  }

  /** The token a descriptions query filters on, read back from the body:
      the value of its single `term` filter on `Descriptions`, when the
      aggregation excludes the same value. */
  function FilterToken(q: Json): Option<string> {
    match (GetPath(q, ["query", "bool", "filter"]), GetPath(q, ["aggs", "correlated_words", "significant_terms"]))
    case (Some(JList(filters)), Some(terms)) =>
      if |filters| == 1 then
        match GetPath(filters[0], ["term", "Descriptions"])
        case Some(JStr(t)) => if Get(terms, "exclude") == Some(JStr(t)) then Some(t) else None
        case _ => None
      else None
    case _ => None
  }

  /** The descriptions query asks for no hits and for terms of the
      `Descriptions` field found in at least ten documents. */
  lemma QueryDescriptionsFields(token: string)
    ensures Get(QueryDescriptions(token), "size") == Some(JInt(0))
    ensures GetPath(QueryDescriptions(token), ["aggs", "correlated_words", "significant_terms", "field"]) == Some(JStr("Descriptions"))
    ensures GetPath(QueryDescriptions(token), ["aggs", "correlated_words", "significant_terms", "min_doc_count"]) == Some(JInt(10))
  {
    var aggs := QueryDescriptions(token).fields["aggs"].fields["correlated_words"];
    assert ["aggs", "correlated_words", "significant_terms", "field"][1..][1..] == ["significant_terms", "field"];
    assert ["aggs", "correlated_words", "significant_terms", "min_doc_count"][1..][1..] == ["significant_terms", "min_doc_count"];
    assert GetPath(aggs, ["significant_terms", "field"]) == Some(JStr("Descriptions"));
    assert GetPath(aggs, ["significant_terms", "min_doc_count"]) == Some(JInt(10));
  }

  /** The descriptions query uses the token both as the filter and as the
      excluded term, so the token can be read back from it and different
      tokens give different queries. */
  lemma QueryDescriptionsToken(token: string)
    ensures FilterToken(QueryDescriptions(token)) == Some(token)
  {
    var q := QueryDescriptions(token);
    var terms := q.fields["aggs"].fields["correlated_words"].fields["significant_terms"];
    assert ["aggs", "correlated_words", "significant_terms"][1..] == ["correlated_words", "significant_terms"];
    assert GetPath(q, ["aggs", "correlated_words", "significant_terms"]) == Some(terms);
    assert ["query", "bool", "filter"][1..] == ["bool", "filter"];
    assert GetPath(q, ["query", "bool", "filter"]) == Some(q.fields["query"].fields["bool"].fields["filter"]);
    assert ["term", "Descriptions"][1..] == ["Descriptions"];
  }

  /** The match-all query has no filter to read a token from. */
  lemma QueryAllHasNoToken()
    ensures FilterToken(QueryAll()) == None
  {
    assert "query" in QueryAll().fields;
  }

  /** The match-all query is never a descriptions query. */
  lemma QueryAllIsNotDescriptions(token: string)
    ensures QueryAll() != QueryDescriptions(token)
  {
    assert "size" !in QueryAll().fields;
  }

  // ---------------------------------------------------------------- responses

  /** A search response: its HTTP status and its JSON body. */
  datatype Response = Response(status: nat, body: Json)

  /** The errors that end the query program. */
  datatype QueryError =
    | NoResult               // TypeError: the None of a failed search subscripted
    | MissingKey(key: string) // KeyError, or TypeError on a non-dict
    | NotAList(value: Json)   // a value iterated that is not a list
    | NotAContainer(value: Json) // TypeError: `token in` a number, a boolean or null
    | Unhashable(value: Json)  // TypeError: `set()` of a list holding a list or a dict
    | EndOfInput             // EOFError: no more input lines

  /** `execute_es_query`: the body of a 200 response, None otherwise. */
  function Execute(r: Response): (res: Option<Json>)
    ensures res.Some? <==> r.status == 200
    ensures res.Some? ==> res.value == r.body
  {
    if r.status != 200 then None else Some(r.body)
  }

  /** `v[k0][k1]...`, failing at the first missing key. */
  function Lookup(v: Json, path: seq<string>): (r: Result<Json, QueryError>)
    ensures r.Ok? <==> GetPath(v, path).Some?
    ensures r.Ok? ==> r.value == GetPath(v, path).value
    decreases |path|
  {
    if path == [] then Ok(v)
    else
      match Get(v, path[0])
      case None => Err(MissingKey(path[0]))
      case Some(w) => Lookup(w, path[1..])
  }

  /** A chain of subscripts raises at the first key that is missing. */
  lemma {:induction false} LookupFirstMissing(v: Json, path: seq<string>, i: nat)
    requires i < |path|
    requires GetPath(v, path[..i]).Some? && Get(GetPath(v, path[..i]).value, path[i]).None?
    ensures Lookup(v, path) == Err(MissingKey(path[i]))
    decreases i
  {
    if i > 0 {
      assert path[..i][0] == path[0];
      assert path[..i][1..] == path[1..][..i - 1];
      LookupFirstMissing(Get(v, path[0]).value, path[1..], i - 1);
    }
  }

  /** The items of a value the program iterates over. */
  function Items(v: Json): (r: Result<seq<Json>, QueryError>)
    ensures r.Ok? <==> v.JList?
    ensures r.Ok? ==> r.value == v.items
  {
    if v.JList? then Ok(v.items) else Err(NotAList(v))
  }

  // ---------------------------------------------------------------- recommendations

  /** One recommendation: `[bucket['key'], bucket['doc_count']]`. */
  datatype Pair = Pair(product: Json, count: Json)

  predicate IsBucket(b: Json) {
    Get(b, "key").Some? && Get(b, "doc_count").Some?
  }

  /** The recommendations of a list of buckets: one pair per bucket, in
      bucket order; the first bucket without `key` or `doc_count` raises. */
  function Pairs(buckets: seq<Json>): (r: Result<seq<Pair>, QueryError>)
    ensures r.Ok? <==> forall i :: 0 <= i < |buckets| ==> IsBucket(buckets[i])
    ensures r.Ok? ==> |r.value| == |buckets|
    ensures r.Ok? ==> forall i :: 0 <= i < |buckets| ==>
      r.value[i] == Pair(buckets[i].fields["key"], buckets[i].fields["doc_count"])
  {
    if buckets == [] then Ok([])
    else
      var front :- Pairs(buckets[..|buckets| - 1]);
      var b := buckets[|buckets| - 1];
      var key :- Lookup(b, ["key"]);
      var count :- Lookup(b, ["doc_count"]);
      Ok(front + [Pair(key, count)])
  }

  /** The loop that fills `also_bought`. */
  method AlsoBought(buckets: seq<Json>) returns (r: Result<seq<Pair>, QueryError>)
    ensures r == Pairs(buckets)
  {
    var alsoBought: seq<Pair> := [];
    for i := 0 to |buckets|
      invariant Pairs(buckets[..i]) == Ok(alsoBought)
    {
      var b := buckets[i];
      assert buckets[..i + 1][..i] == buckets[..i];
      var key := Lookup(b, ["key"]);
      if key.Err? {
        PairsFailurePersists(buckets, i + 1);
        return Err(key.error);
      }
      var count := Lookup(b, ["doc_count"]);
      if count.Err? {
        PairsFailurePersists(buckets, i + 1);
        return Err(count.error);
      }
      alsoBought := alsoBought + [Pair(key.value, count.value)];
    }
    assert buckets[..|buckets|] == buckets;
    r := Ok(alsoBought);
  }

  /** A failure on a prefix of the buckets is the failure on all of them. */
  lemma {:induction false} PairsFailurePersists(buckets: seq<Json>, k: nat)
    requires k <= |buckets| && Pairs(buckets[..k]).Err?
    ensures Pairs(buckets) == Pairs(buckets[..k])
    decreases |buckets| - k
  {
    if k < |buckets| {
      assert buckets[..k + 1][..k] == buckets[..k];
      PairsFailurePersists(buckets, k + 1);
    } else {
      assert buckets[..k] == buckets;
    }
  }

  /** Where a descriptions search answers with its buckets. */
  const BucketsPath: seq<string> := ["aggregations", "correlated_words", "buckets"]

  /** `user_query` once the input line has been read: the token, and the
      recommendations found in the response to its descriptions query. */
  function Recommendations(response: Response): Result<seq<Pair>, QueryError> {
    var res :- (match Execute(response) case None => Err(NoResult) case Some(v) => Ok(v));
    var buckets :- Lookup(res, BucketsPath);
    var items :- Items(buckets);
    Pairs(items)
  }

  /** The list of buckets of a search body, empty when there is none. */
  function BucketsOf(body: Json): seq<Json> {
    match GetPath(body, BucketsPath)
    case Some(JList(items)) => items
    case _ => []
  }

  /** The recommendations are read exactly when the search answered 200 with
      a list of buckets every one of which has `key` and `doc_count`; they are
      then one `[key, doc_count]` pair per bucket, in bucket order. A search
      that failed ends the program. */
  lemma RecommendationsSpec(response: Response)
    ensures response.status != 200 ==> Recommendations(response) == Err(NoResult)
    ensures Recommendations(response).Ok? <==>
      && response.status == 200
      && GetPath(response.body, BucketsPath).Some?
      && GetPath(response.body, BucketsPath).value.JList?
      && forall i :: 0 <= i < |BucketsOf(response.body)| ==> IsBucket(BucketsOf(response.body)[i])
    ensures Recommendations(response).Ok? ==>
      && |Recommendations(response).value| == |BucketsOf(response.body)|
      && forall i :: 0 <= i < |BucketsOf(response.body)| ==>
           Recommendations(response).value[i]
           == Pair(BucketsOf(response.body)[i].fields["key"], BucketsOf(response.body)[i].fields["doc_count"])
  {
    var found := GetPath(response.body, BucketsPath);
    if response.status == 200 && found.Some? && found.value.JList? {
      assert Recommendations(response) == Pairs(found.value.items);
      assert BucketsOf(response.body) == found.value.items;
    }
  }

  // ---------------------------------------------------------------- suggestions

  /** `token in description`: a substring test on a string, an element test
      on a list (where only a string can equal the token), a key test on a
      dict; None where Python raises TypeError (a number, a boolean, null). */
  function In(token: string, description: Json): Option<bool> {
    match description
    case JStr(d) => Some(Contains(d, token))
    case JList(items) => Some(JStr(token) in items)
    case JObj(fields) => Some(token in fields)
    case _ => None
  }

  /** The loop appends `description` to `products_list`. */
  predicate Kept(token: string, description: Json) {
    In(token, description) == Some(true)
  }

  /** The descriptions of one hit that the loop appends, in order; the first
      description `in` cannot test raises. */
  function HitMatches(descriptions: seq<Json>, token: string): (r: Result<seq<Json>, QueryError>)
    ensures r.Ok? <==> forall j :: 0 <= j < |descriptions| ==> In(token, descriptions[j]).Some?
    ensures r.Ok? ==> forall x :: x in r.value <==> x in descriptions && Kept(token, x)
  {
    if descriptions == [] then Ok([])
    else
      var front :- HitMatches(descriptions[..|descriptions| - 1], token);
      var last := descriptions[|descriptions| - 1];
      assert descriptions == descriptions[..|descriptions| - 1] + [last];
      match In(token, last)
      case None => Err(NotAContainer(last))
      case Some(kept) => Ok(front + if kept then [last] else [])
  }

  /** `hit['_source']['Descriptions']` as a list. */
  function HitDescriptions(hit: Json): Result<seq<Json>, QueryError> {
    var v :- Lookup(hit, ["_source", "Descriptions"]);
    Items(v)
  }

  /** `products_list` before duplicates are removed: the descriptions kept
      from every hit, hit by hit. */
  function Matches(hits: seq<Json>, token: string): Result<seq<Json>, QueryError> {
    if hits == [] then Ok([])
    else
      var front :- Matches(hits[..|hits| - 1], token);
      var descriptions :- HitDescriptions(hits[|hits| - 1]);
      var more :- HitMatches(descriptions, token);
      Ok(front + more)
  }

  /** A hit whose descriptions the loop reads and tests without raising. */
  predicate WellFormedHit(hit: Json, token: string) {
    HitDescriptions(hit).Ok?
    && forall j :: 0 <= j < |HitDescriptions(hit).value| ==> In(token, HitDescriptions(hit).value[j]).Some?
  }

  /** `x` is one of the descriptions of hit `i`. */
  predicate DescribedBy(hits: seq<Json>, i: int, x: Json)
    requires 0 <= i < |hits| && HitDescriptions(hits[i]).Ok?
  {
    x in HitDescriptions(hits[i]).value
  }

  /** The loop gets through the hits exactly when every hit is well formed. */
  lemma {:induction false} MatchesOk(hits: seq<Json>, token: string)
    ensures Matches(hits, token).Ok? <==> forall i :: 0 <= i < |hits| ==> WellFormedHit(hits[i], token)
  {
    if hits != [] {
      var front, last := hits[..|hits| - 1], hits[|hits| - 1];
      MatchesOk(front, token);
      if forall i :: 0 <= i < |hits| ==> WellFormedHit(hits[i], token) {
        forall i | 0 <= i < |front| ensures WellFormedHit(front[i], token) {
          assert front[i] == hits[i];
        }
        assert WellFormedHit(last, token);
      } else {
        var i :| 0 <= i < |hits| && !WellFormedHit(hits[i], token);
        if i < |front| {
          assert front[i] == hits[i];
        }
      }
    }
  }

  /** `x` is a description of one of the hits. */
  predicate DescribedByAny(hits: seq<Json>, x: Json) {
    exists i :: 0 <= i < |hits| && HitDescriptions(hits[i]).Ok? && DescribedBy(hits, i, x)
  }

  lemma DescribedByAnySnoc(hits: seq<Json>, x: Json)
    requires hits != [] && HitDescriptions(hits[|hits| - 1]).Ok?
    ensures DescribedByAny(hits, x) <==>
      DescribedByAny(hits[..|hits| - 1], x) || DescribedBy(hits, |hits| - 1, x)
  {
    var front := hits[..|hits| - 1];
    if DescribedByAny(hits, x) {
      var i :| 0 <= i < |hits| && HitDescriptions(hits[i]).Ok? && DescribedBy(hits, i, x);
      if i < |front| {
        assert front[i] == hits[i];
        assert DescribedBy(front, i, x);
      }
    }
    if DescribedByAny(front, x) {
      var i :| 0 <= i < |front| && HitDescriptions(front[i]).Ok? && DescribedBy(front, i, x);
      assert front[i] == hits[i];
      assert DescribedBy(hits, i, x);
    }
  }

  /** The values collected are exactly the descriptions of the hits that the
      `in` test keeps: each is kept, and none that is kept is missed. */
  lemma {:induction false} MatchesExact(hits: seq<Json>, token: string, x: Json)
    requires Matches(hits, token).Ok?
    ensures x in Matches(hits, token).value <==> Kept(token, x) && DescribedByAny(hits, x)
  {
    if hits != [] {
      var front, last := hits[..|hits| - 1], hits[|hits| - 1];
      MatchesExact(front, token, x);
      DescribedByAnySnoc(hits, x);
      var more := HitMatches(HitDescriptions(last).value, token);
      assert Matches(hits, token).value == Matches(front, token).value + more.value;
    }
  }

  /** `not_found_continue`'s loop over hits and their descriptions. */
  method CollectMatches(hits: seq<Json>, token: string) returns (r: Result<seq<Json>, QueryError>)
    ensures r == Matches(hits, token)
  {
    var productsList: seq<Json> := [];
    for i := 0 to |hits|
      invariant Matches(hits[..i], token) == Ok(productsList)
    {
      assert hits[..i + 1][..i] == hits[..i];
      var descriptions := HitDescriptions(hits[i]);
      if descriptions.Err? {
        MatchesFailurePersists(hits, token, i + 1);
        return Err(descriptions.error);
      }
      var found := CollectHitMatches(descriptions.value, token);
      if found.Err? {
        MatchesFailurePersists(hits, token, i + 1);
        return Err(found.error);
      }
      productsList := productsList + found.value;
    }
    assert hits[..|hits|] == hits;
    r := Ok(productsList);
  }

  /** The inner loop, over the descriptions of one hit. */
  method CollectHitMatches(items: seq<Json>, token: string) returns (r: Result<seq<Json>, QueryError>)
    ensures r == HitMatches(items, token)
  {
    var found: seq<Json> := [];
    for j := 0 to |items|
      invariant HitMatches(items[..j], token) == Ok(found)
    {
      var description := items[j];
      assert items[..j + 1] == items[..j] + [description];
      HitMatchesSnoc(items[..j], description, token);
      var kept: bool;
      if description.JStr? {
        kept := Contains(description.s, token);
      } else if description.JList? {
        kept := JStr(token) in description.items;
      } else if description.JObj? {
        kept := token in description.fields;
      } else {
        HitMatchesFailurePersists(items, token, j + 1);
        return Err(NotAContainer(description));
      }
      if kept {
        found := found + [description];
      } else {
        assert found + [] == found;
      }
    }
    assert items[..|items|] == items;
    r := Ok(found);
  }

  lemma HitMatchesSnoc(items: seq<Json>, description: Json, token: string)
    ensures HitMatches(items + [description], token)
         == if HitMatches(items, token).Err? then HitMatches(items, token)
            else if In(token, description).None? then Err(NotAContainer(description))
            else Ok(HitMatches(items, token).value + if Kept(token, description) then [description] else [])
  {
    assert (items + [description])[..|items + [description]| - 1] == items;
  }

  lemma {:induction false} HitMatchesFailurePersists(items: seq<Json>, token: string, k: nat)
    requires k <= |items| && HitMatches(items[..k], token).Err?
    ensures HitMatches(items, token) == HitMatches(items[..k], token)
    decreases |items| - k
  {
    if k < |items| {
      assert items[..k + 1][..k] == items[..k];
      HitMatchesFailurePersists(items, token, k + 1);
    } else {
      assert items[..k] == items;
    }
  }

  lemma {:induction false} MatchesFailurePersists(hits: seq<Json>, token: string, k: nat)
    requires k <= |hits| && Matches(hits[..k], token).Err?
    ensures Matches(hits, token) == Matches(hits[..k], token)
    decreases |hits| - k
  {
    if k < |hits| {
      assert hits[..k + 1][..k] == hits[..k];
      MatchesFailurePersists(hits, token, k + 1);
    } else {
      assert hits[..k] == hits;
    }
  }

  /** `set(products_list)`: the strings collected. A list or a dict among
      them cannot be hashed, and the first one raises TypeError. */
  function Hashed(names: seq<Json>): (r: Result<set<string>, QueryError>)
    ensures r.Ok? <==> forall i :: 0 <= i < |names| ==> names[i].JStr?
    ensures r.Ok? ==> forall d :: d in r.value <==> JStr(d) in names
  {
    if names == [] then Ok({})
    else
      var front :- Hashed(names[..|names| - 1]);
      var last := names[|names| - 1];
      assert names == names[..|names| - 1] + [last];
      if last.JStr? then Ok(front + {last.s}) else Err(Unhashable(last))
  }

  /** The product names suggested for a token: `list(set(products_list))`,
      taken from the response to the match-all query. The order in which
      the table lists them is the set's, so the model keeps the set. */
  function Suggestions(response: Response, token: string): Result<set<string>, QueryError> {
    var res :- (match Execute(response) case None => Err(NoResult) case Some(v) => Ok(v));
    var hitsValue :- Lookup(res, ["hits", "hits"]);
    var hits :- Items(hitsValue);
    var names :- Matches(hits, token);
    Hashed(names)
  }

  /** The list under `hits.hits` of a search body, empty when there is none. */
  function HitsOf(body: Json): seq<Json> {
    match GetPath(body, ["hits", "hits"])
    case Some(JList(items)) => items
    case _ => []
  }

  /** Every suggestion contains the token and is the description of a hit
      of the response, and every such description is suggested. */
  lemma SuggestionsExact(response: Response, token: string, d: string)
    requires Suggestions(response, token).Ok?
    ensures d in Suggestions(response, token).value <==> Contains(d, token) && DescribedByAny(HitsOf(response.body), JStr(d))
  {
    MatchesExact(HitsOf(response.body), token, JStr(d));
  }

  /** The suggestions can be shown exactly when the match-all search answered
      200 with a list under `hits.hits`, `in` can test every description of
      every hit, and no description kept is a list or a dict, which `set()`
      cannot hash. A search that failed ends the program. */
  lemma SuggestionsSpec(response: Response, token: string)
    ensures response.status != 200 ==> Suggestions(response, token) == Err(NoResult)
    ensures Suggestions(response, token).Ok? <==>
      && response.status == 200
      && GetPath(response.body, ["hits", "hits"]).Some?
      && GetPath(response.body, ["hits", "hits"]).value.JList?
      && (forall i :: 0 <= i < |HitsOf(response.body)| ==> WellFormedHit(HitsOf(response.body)[i], token))
      && (forall x :: DescribedByAny(HitsOf(response.body), x) && Kept(token, x) ==> x.JStr?)
  {
    var hits := HitsOf(response.body);
    MatchesOk(hits, token);
    if Matches(hits, token).Ok? {
      var names := Matches(hits, token).value;
      forall x ensures x in names <==> Kept(token, x) && DescribedByAny(hits, x) {
        MatchesExact(hits, token, x);
      }
    }
  }
}
