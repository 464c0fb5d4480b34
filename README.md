# ElasticsearchRecommender, modelled in Dafny

ElasticsearchRecommender loads the "Online Retail" invoice data set into an
Elasticsearch index of shopping baskets. It then answers "customers who
bought X also bought ..." questions from that index. This project models its
four programs, each in its own module:

- **Batch loader** (`StaticElasticsearchFling.py`, modules `Basket` and
  `BatchLoader`). It builds one basket per invoice group: the last row's
  invoice number, customer, date and country, plus four per-line lists. It
  then hands each basket to `ETL_msg`.
- **ETL step** (`ETL_msg` and `get_timestamp`, modules `Calendar`,
  `Timestamp` and `Etl`). The step replaces `InvoiceDate` by a `timestamp`
  in epoch milliseconds, changing the dict in place. It POSTs the result
  and logs according to the response status. The step appears twice in the
  source, once in the batch loader and once in the Kafka consumer, and the
  two copies differ only in what they log on success.
- **Kafka producer** (`KafkaProducer.py`, module `Producer`). It accumulates
  the same baskets but produces a message after every row. A group of n
  rows therefore yields n messages, and the k-th message holds the basket
  of the first k rows. Each pass over the data ends with one flush.
- **Kafka consumer** (`KafkaConsumer.py`, module `Consumer`). Its poll loop
  dispatches on what each poll returns:
  - nothing: poll again;
  - a partition-EOF error: poll again;
  - any other error: the process ends;
  - a message: it is decoded and handed to `ETL_msg`.
- **Query program** (`QueryElasticsearch.py`, modules `Query` and
  `Session`). The pieces it models:
  - the sanitiser and the token a user's input line becomes;
  - the two search bodies;
  - the recommendations read from a response's buckets;
  - the product names suggested when nothing is found;
  - the four-attempt dialogue.

`Values` holds the JSON values, options and results the modules share.
`Text` holds the Python string built-ins the programs rely on: `split()`,
`split(sep)`, `strip()`, `upper()`, `int()`, `str()` of a natural number,
and substring `in`. `Calendar` computes seconds since the epoch with the
expression of section 4.16 of the POSIX.1-2017 Base Definitions. It checks
that expression against a day count built year by year.

The outside world becomes inputs:

- the HTTP status of every POST is a function of the number of POSTs made
  before;
- the consumer's polls are a finite sequence;
- the query program's input lines and search responses are a sequence of
  exchanges.

Exceptions are error values, because no `try` in these programs catches
one: an error value ends the process. Mutable state keeps its imperative
form:

- the dict that `ETL_msg` changes is the class `Etl.Document`;
- the loops are methods proved equal to functions that specify them, and
  the properties are proved about those functions.

Where the code and its design description disagree, the model follows the
code:

- A date that cannot be converted is not skipped and counted. Its
  exception ends the loader and the consumer, and the later baskets are
  never indexed (`BatchLoader.FlingStopsAtFirstBadBasket`).
- The producer emits one message per row, not one per invoice
  (`Producer.GroupMessages`).
- The streaming `ETL_msg` is not exception-free on success. It builds
  `"consumed basket " + msg['InvoiceNo']`, which raises unless the invoice
  number is a string (`Etl.SuccessLogged`).
- pandas' own range checks on the date fields (month, day, time of day,
  and the 64-bit nanosecond range) are an error path, not a precondition.

## Model

| member | source | states |
|---|---|---|
| Query.Sanitize | QueryElasticsearch.py:27-40 | the output built character by character equals `Escaped(input)`, the input with each `>` written as `&gt;` and each `<` as `&lt;` |
| Query.EscapedNoAngle | QueryElasticsearch.py:27-40 | no `<` or `>` survives sanitising |
| Query.EscapedLength | QueryElasticsearch.py:31-38 | the output is as long as the input plus three characters per angle bracket |
| Query.EscapedAppend | QueryElasticsearch.py:31-38 | sanitising works character by character: it distributes over concatenation |
| Query.EscapedCopies | QueryElasticsearch.py:31-38 | a string with no angle brackets is copied unchanged and in order |
| Query.EscapedIdempotent | QueryElasticsearch.py:27-40 | sanitising twice gives the same string as sanitising once |
| Query.NormaliseClean | QueryElasticsearch.py:103-104 | the token `sanitize(raw).upper().strip()` has no angle bracket, no whitespace at either end, and is all upper case |
| Query.NormaliseIdempotent | QueryElasticsearch.py:103-104 | normalising a token again gives the same token |
| Query.QueryDescriptionsFields | QueryElasticsearch.py:51-75 | the descriptions query has `size` 0 and aggregates significant terms of the `Descriptions` field with `min_doc_count` 10 |
| Query.QueryDescriptionsToken | QueryElasticsearch.py:51-75 | the descriptions query uses the token both as its single term filter on `Descriptions` and as the excluded term, so the token reads back from it and different tokens give different queries |
| Query.QueryAllHasNoToken | QueryElasticsearch.py:77-85 | the match-all query carries no token filter to read back |
| Query.QueryAllIsNotDescriptions | QueryElasticsearch.py:51-85 | the match-all query differs from every descriptions query |
| Query.LookupFirstMissing | QueryElasticsearch.py:110 | when the keys before position i are present and key i is not, the chain of subscripts raises KeyError naming key i |
| Query.Pairs | QueryElasticsearch.py:110-117 | the recommendations succeed exactly when every bucket has `key` and `doc_count`; there is then one `[key, doc_count]` pair per bucket, in bucket order |
| Query.AlsoBought | QueryElasticsearch.py:113-115 | the loop that fills `also_bought` returns `Pairs(buckets)`, including its first failure |
| Query.PairsFailurePersists | QueryElasticsearch.py:113-115 | a bucket that raises ends the loop: the failure on a prefix is the failure on the whole list |
| Query.RecommendationsSpec | QueryElasticsearch.py:107-117 | a search that did not answer 200 raises (the None of `execute_es_query` subscripted); otherwise the recommendations are read exactly when the body has a list under `aggregations.correlated_words.buckets` whose every bucket has `key` and `doc_count`, and they are one `[key, doc_count]` pair per bucket, in bucket order |
| Query.HitMatches | QueryElasticsearch.py:160-162 | the inner loop gets through exactly when `token in description` can be evaluated for every description (a string, a list or a dict); the values appended are then exactly the descriptions for which it holds: substring of a string, element of a list, key of a dict |
| Query.MatchesOk | QueryElasticsearch.py:158-162 | the loop over the hits gets through exactly when every hit has a list under `_source.Descriptions` on whose every element `token in` can be evaluated |
| Query.MatchesExact | QueryElasticsearch.py:158-162 | a value is collected exactly when the `in` test keeps it and it is a description of some hit |
| Query.CollectMatches | QueryElasticsearch.py:158-162 | the nested loop filling `products_list` returns `Matches(hits, token)` |
| Query.CollectHitMatches | QueryElasticsearch.py:160-162 | the inner loop over one hit's descriptions returns `HitMatches`, including its first failure |
| Query.Hashed | QueryElasticsearch.py:167 | `set()` succeeds exactly when every value collected is a string, and holds exactly those strings; a list or a dict raises TypeError |
| Query.HitMatchesFailurePersists | QueryElasticsearch.py:160-162 | a description that raises ends the inner loop with that error |
| Query.MatchesFailurePersists | QueryElasticsearch.py:158-162 | a hit that raises ends the outer loop with that error |
| Query.SuggestionsExact | QueryElasticsearch.py:153-167 | the de-duplicated suggestions are exactly the string descriptions of the match-all hits that contain the token |
| Query.SuggestionsSpec | QueryElasticsearch.py:153-167 | a search that did not answer 200 raises; otherwise the suggestions exist exactly when the body has a list under `hits.hits`, every hit's descriptions can be tested with `in`, and every description kept is a string (a kept list or dict makes `set()` raise) |
| Session.UserQuery | QueryElasticsearch.py:96-117 | `user_query` on one exchange returns the normalised token, shows its descriptions search (and the failure line for a non-200 status), and yields the recommendations of the response |
| Session.NotFoundContinue | QueryElasticsearch.py:142-170 | `not_found_continue` shows the not-found line and the match-all search, and yields the set of suggested names |
| Session.Interact | QueryElasticsearch.py:183-224 | the main block's four-attempt loop yields exactly the session outcome `Run(xs)` |
| Session.SessionShape | QueryElasticsearch.py:190-224 | when attempts 0..n-1 find nothing and attempt n finds something (or n is 3): each miss shows its search, suggestions and attempts-left line; the session ends with attempt n's recommendations, or with good-bye and no suggestions at the fourth miss; nothing follows |
| Session.FirstHitEnds | QueryElasticsearch.py:186-212 | a first search that finds something shows the recommendations right after it, and the session ends with no further prompt |
| Session.AtMostFourQuestions | QueryElasticsearch.py:186-224 | a session sends at most four descriptions searches (one before the loop, at most three in it) and at most three match-all searches |
| Session.AttemptsLeftLines | QueryElasticsearch.py:199-202 | the attempts-left line reads 3, 2, then "1 attempt" (singular) |
| Session.TurnOfCounted | QueryElasticsearch.py:107-109 | asking sends one descriptions search and browsing one match-all search |
| Session.AttemptsSearchBound | QueryElasticsearch.py:190-212 | from iteration i on, the loop adds at most 3-i searches of each kind |
| Text.Split | StaticElasticsearchFling.py:76-82 | `str.split(sep)` yields at least one piece, and no piece contains the separator |
| Text.SplitJoin | StaticElasticsearchFling.py:76-82 | splitting pieces joined by the separator gives the pieces back |
| Text.Tokens | StaticElasticsearchFling.py:73-74 | the tokens of `str.split()` are non-empty and contain no whitespace |
| Text.TokensJoin | StaticElasticsearchFling.py:73-74 | splitting non-empty words joined by spaces gives the words back |
| Text.TokensAppendWord | StaticElasticsearchFling.py:73-74 | appending a space and a word adds exactly that token at the end |
| Text.Strip | QueryElasticsearch.py:104 | the stripped string neither starts nor ends with whitespace |
| Text.StripRemovesSpace | QueryElasticsearch.py:104 | strip removes only whitespace, and only at the ends |
| Text.UpperIdempotent | QueryElasticsearch.py:104 | upper-casing twice is upper-casing once |
| Text.StripUpperCommute | QueryElasticsearch.py:104 | `upper()` keeps whitespace where it is, so `s.upper().strip()` equals `s.strip().upper()` |
| Text.StripOfStripped | QueryElasticsearch.py:104 | a string with no whitespace at either end is its own strip |
| Text.ParseShowNat | StaticElasticsearchFling.py:76-82 | `int()` reads back every natural number written by `str()`, also with one leading zero |
| Text.ParseDigitString | StaticElasticsearchFling.py:76-82 | `int()` of a string of ASCII digits is its decimal value |
| Calendar.LeapDaysStep | StaticElasticsearchFling.py:84 | the leap-day terms of the POSIX expression grow by one exactly at Gregorian leap years |
| Calendar.YearTermCountsDays | StaticElasticsearchFling.py:84 | the year terms of the POSIX expression count exactly the days from 1970 to the year's start, counted year by year (before 1970 too) |
| Calendar.MonthTableCountsDays | StaticElasticsearchFling.py:84 | the cumulative month table counts exactly the days of the months before |
| Calendar.EpochSecondsCountsDays | StaticElasticsearchFling.py:84 | the POSIX seconds equal the day count since 1970-01-01 times 86400 plus the second of the day |
| Calendar.EpochSecondsStrictlyIncreasing | StaticElasticsearchFling.py:84 | a later valid date-time has strictly more epoch seconds |
| Timestamp.GetTimestamp | StaticElasticsearchFling.py:70-84 | a result is a whole number of seconds in milliseconds, within pandas' range; fewer than two tokens raise IndexError (the same function as KafkaConsumer.py:74-88) |
| Timestamp.GetTimestampOfFormat | StaticElasticsearchFling.py:73-84 | a date-time written as "YYYY-MM-DD HH:MM:SS" parses back to its six fields, in order, and converts to 1000 times its POSIX epoch seconds |
| Timestamp.FormatTokens | StaticElasticsearchFling.py:73-74 | a formatted date-time splits into its date token and its time token |
| Timestamp.FieldsOfPieces | StaticElasticsearchFling.py:76-82 | year, month and day come from the date token cut at `-`, and hours, minutes and seconds from the time token cut at `:` |
| Timestamp.GetTimestampReads | StaticElasticsearchFling.py:70-84 | `get_timestamp` gives a value exactly when the text has two tokens, the date token cut at `-` and the time token cut at `:` each have at least three pieces whose first three are integers for `int()`, and the six numbers form a date-time pandas accepts; the value is then 1000 times the epoch seconds of those six numbers |
| Timestamp.GetTimestampTooFewPieces | StaticElasticsearchFling.py:76-82 | a date token with fewer than three `-` pieces or a time token with fewer than three `:` pieces makes `get_timestamp` raise: IndexError, or the ValueError of a piece read before the missing one |
| Timestamp.GetTimestampReadOrder | StaticElasticsearchFling.py:76-82 | year, month and day are read before hours, minutes and seconds: a failed read of the date is the error raised, and a failed read of the time is the error only once the date has been read |
| Timestamp.GetTimestampExtraPieces | StaticElasticsearchFling.py:76-82 | pieces after the third of the date token and of the time token are never read: two texts whose first three pieces agree on both sides give the same result |
| Timestamp.ReadThreeFirstBad | StaticElasticsearchFling.py:76-82 | of three pieces read in turn, the first that `int()` refuses is the ValueError raised, naming that piece |
| Timestamp.ReadThreeOk | StaticElasticsearchFling.py:76-82 | three reads succeed exactly when there are three pieces and each is an integer, and give those integers in order; a failure is IndexError or ValueError |
| Timestamp.ReadFieldsOk | StaticElasticsearchFling.py:76-82 | the six reads succeed exactly when the date and the time each have three pieces that parse, and give those six integers in order |
| Timestamp.TooFewPieces | StaticElasticsearchFling.py:76-82 | fewer than three pieces on either side is an error, IndexError or an earlier ValueError, never a value |
| Timestamp.ExtraPiecesIgnored | StaticElasticsearchFling.py:76-82 | the fields read depend only on the first three pieces of each side |
| Timestamp.SampleTimestamp | StaticElasticsearchFling.py:70-84 | "2011-03-04 10:20:30" converts to 1299234030000 |
| Timestamp.GetTimestampIgnoresLaterTokens | StaticElasticsearchFling.py:73-74 | tokens after the second are never looked at |
| Timestamp.DateWithoutTimeFails | StaticElasticsearchFling.py:73-74 | "2011/03/04" raises IndexError rather than giving a value |
| Timestamp.GetTimestampStrictlyIncreasing | StaticElasticsearchFling.py:84 | later invoice dates give strictly larger timestamps |
| Etl.ReshapedTimestamp | StaticElasticsearchFling.py:90 | a message whose `InvoiceDate` is a valid date-time written "YYYY-MM-DD HH:MM:SS" reshapes into the same message with `InvoiceDate` removed and `timestamp` set to 1000 times the POSIX epoch seconds of that date-time |
| Etl.ReshapedSpec | StaticElasticsearchFling.py:90-91 | after the reshape, `timestamp` holds the converted date, `InvoiceDate` is gone and every other key keeps its value; a failed conversion changes nothing and carries its error |
| Etl.ReshapedKeys | StaticElasticsearchFling.py:90-91 | the reshaped keys are the old keys, without `InvoiceDate` and with `timestamp` |
| Etl.ReshapeOnce | StaticElasticsearchFling.py:90-91 | reshaping a reshaped message raises KeyError on `InvoiceDate` |
| Etl.ReshapeUndone | StaticElasticsearchFling.py:90-91 | putting the date back and dropping the timestamp restores the message: the reshape loses nothing else |
| Etl.PostedIsReshaped | KafkaConsumer.py:94-98 | a document is POSTed exactly when the reshape succeeds, and it is the reshaped message, whatever the status; a failed reshape POSTs and logs nothing |
| Etl.FailureLogged | KafkaConsumer.py:101-104 | a status other than 201 is logged as three lines whose last reads back as the status, and raises nothing; a 201 is never logged as a failure |
| Etl.BatchNeverRaisesAfterReshape | StaticElasticsearchFling.py:94-102 | once the reshape succeeds, the loader's copy POSTs and never raises; it logs only a status other than 201 |
| Etl.SuccessLogged | KafkaConsumer.py:101-109 | on 201 the loader's copy logs nothing; the consumer's copy logs "consumed basket" and the invoice number, and raises exactly when that number is not a string |
| Etl.Document.Reshape | KafkaConsumer.py:94-95 | the in-place reshape of the dict leaves `Reshaped(old dict)`, and leaves the dict untouched when the conversion fails |
| Etl.Document.Load | KafkaConsumer.py:90-109 | `ETL_msg` on the dict: its outcome is `EtlMsg` of the old dict, and the dict ends reshaped |
| Basket.AggregateGroup | StaticElasticsearchFling.py:146-170 | the row loop builds exactly `BasketOf(rows)` |
| Basket.ScalarsOverwritten | StaticElasticsearchFling.py:156-159 | writing a row's four scalar keys leaves just that row's values |
| Basket.BasketSnoc | KafkaProducer.py:112-135 | one more row written into a fresh dict, or into the basket of the rows before, gives the basket of all the rows: nothing of an earlier group survives |
| Basket.BasketKeys | StaticElasticsearchFling.py:146-170 | a basket holds the four list keys, and the four scalar keys once a row has been read |
| Basket.BasketColumns | StaticElasticsearchFling.py:162-170 | each list holds one entry per row, that row's cell, in row order |
| Basket.BasketScalars | StaticElasticsearchFling.py:155-159 | the scalar keys hold the last row's values |
| Basket.BasketPrefix | KafkaProducer.py:128-135 | the lists of the basket of the first k rows are the first k entries of the lists of the whole basket |
| BatchLoader.FlingAll | StaticElasticsearchFling.py:144-173 | the group loop POSTs and logs exactly `Fling(Baskets(groups))`: one `ETL_msg` per group, in group order, until the first error |
| BatchLoader.FlingGoodStep | StaticElasticsearchFling.py:173 | a basket that reshapes is POSTed reshaped, and the loop goes on |
| BatchLoader.FlingPostsEveryBasket | StaticElasticsearchFling.py:144-173 | when every basket reshapes, each is POSTed once, reshaped, in order, and the loop ends without error |
| BatchLoader.FlingPostsEveryGroup | StaticElasticsearchFling.py:144-173 | when every group's basket reshapes, exactly one document per group is POSTed, in group order: the group's own basket, reshaped |
| BatchLoader.FailedIsFinal | StaticElasticsearchFling.py:144-173 | an error ends the loader: later groups are never processed |
| BatchLoader.FlingStopsAtFirstBadBasket | StaticElasticsearchFling.py:144-173 | the first basket whose date does not convert ends the process with that error; the baskets before it were POSTed and the ones after never are |
| Consumer.Consume | KafkaConsumer.py:143-163 | the poll loop's record of POSTs, log lines and stopping exception equals `Run(polls)` |
| Consumer.RunSnoc | KafkaConsumer.py:143-163 | one more poll is one more step of the loop |
| Consumer.IdlePollsChangeNothing | KafkaConsumer.py:149-153 | an empty poll and a partition-EOF error change nothing |
| Consumer.OtherErrorsStop | KafkaConsumer.py:154-155 | any other error ends the loop, with nothing POSTed or logged |
| Consumer.StoppedIsFinal | KafkaConsumer.py:143-163 | once stopped, later polls change nothing |
| Consumer.RunGrows | KafkaConsumer.py:143-163 | POSTs and log lines are never taken back: a prefix of the polls yields a prefix of both |
| Consumer.HarmlessPollsPostEveryBasket | KafkaConsumer.py:158-163 | over polls that do not stop the loop, every delivered basket is POSTed once, reshaped, in poll order |
| Consumer.IndexedBeforeFirstError | KafkaConsumer.py:143-163 | the documents indexed are the baskets before the first error other than partition-EOF, which ends the loop with that error |
| Producer.GroupEventsSnoc | KafkaProducer.py:137-140 | each row adds its basket's message and its "produced basket" line |
| Producer.ProduceGroup | KafkaProducer.py:109-140 | the group's body, from a fresh basket and fresh lists, emits exactly `GroupEvents(g)` |
| Producer.ProducePass | KafkaProducer.py:109-143 | one pass emits every group's events in order, then the flush and "Done flushing" |
| Producer.GroupMessages | KafkaProducer.py:119-140 | a group of n rows yields n messages, the k-th being the basket of its first k + 1 rows |
| Producer.MessagesGrow | KafkaProducer.py:119-140 | message i of a group has lists of length i + 1, and they are prefixes of the lists of every later message of the group |
| Producer.MessageOfRow | KafkaProducer.py:122-135 | the message after row i carries row i's scalar values, and in each list the cells of rows 0..i in order |
| Producer.LastMessageIsWholeBasket | KafkaProducer.py:119-140 | the last message of a group is the basket the batch loader builds for the whole group |
| Producer.MessagePerRow | KafkaProducer.py:109-143 | a pass produces one message per row of every group, and nothing else |
| Producer.EmitShape | KafkaProducer.py:138-140 | the events alternate between a message and the line logged for it |
| Producer.GroupEventsShape | KafkaProducer.py:138-140 | every message goes to the topic `recommender.system.1` (line 68) and is followed by the line naming its group |
| Producer.NoFlushInGroups | KafkaProducer.py:109-140 | no flush happens while the groups are produced |
| Producer.FlushOnceAtEnd | KafkaProducer.py:109-143 | a pass flushes exactly once, after every message of every group |

## Left out

- Network and broker I/O is not modelled. This covers the HTTP calls to Elasticsearch and index creation, deletion and listing. It also covers the Kafka consumer, producer and admin clients, the topic delete/create loops, poll timeouts, `flush` acknowledgements and `time.sleep`. A POST's status is an input. The consumer's polls and the query program's search responses are inputs.
- The outer `while True` of the producer is modelled as one pass. The consumer's unbounded loop is modelled over a finite sequence of polls.
- The pandas file handling is outside the model: reading the Excel and CSV files, `dropna` and `groupby`. The input is the already grouped rows, with each group's key as `str()` prints it.
- UTF-8 encoding and the `ujson` serialisation are not modelled. A produced message is the basket as a JSON value. A consumed payload is the decoded JSON value, or None when decoding or parsing fails.
- Timestamp.GetTimestamp, Timestamp.Millis: the milliseconds are the exact product `1000 * seconds`. pandas computes `round(ns / 1e9, 6) * 1000` in floating point, which gives the same value only while the seconds stay below 2^32 in magnitude, that is from 1833-11-24 to 2106-02-07 (the data set's dates are in 2010 and 2011). Beyond that, the source can give 1 ms less, not a multiple of 1000: "2212-12-14 01:17:37" gives 7666795056999 where the model gives 7666795057000.
- Text.Upper: maps ASCII letters only; the Unicode case mapping of `str.upper()` is not modelled.
- Text.ParseInt: accepts ASCII digits only, with an optional sign, underscores between digits and surrounding whitespace; other Unicode digits are not modelled. It also accepts the separators U+001C..U+001F around the digits, where `int()` raises ValueError; the pieces it reads come from `split()` tokens, which never hold them.
- Query.Suggestions: keeps the suggestions as a set, since `list(set(...))` gives an order Python does not fix.
- The PrettyTable rendering and the blank and rule lines around the query program's tables are not modelled. The events record what each table and message shows.
- The significant-terms statistics are not modelled: Elasticsearch computes them. The model builds the query and reads the buckets of the response.
- `not_found_continue` and `not_found_end` read the module-global `userinput`. The model passes the same token explicitly.
- A Kafka error other than partition-EOF runs `raise KafkaException(...)`, a name the consumer never imports (KafkaConsumer.py:19), so it surfaces as NameError. The model records only that the loop stopped on that error code.
- Iterating a dict or a string where the program expects a list is modelled as the error `NotAList`. Python would iterate its keys or characters and fail, or not fail, later.
