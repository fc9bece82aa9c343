# Leaderboard API model

A Dafny model of the leaderboard service in `app.py`: a Flask application
over the Firestore collection `leaderboard`. A game client submits
`{username, ip, score}` to `/add_score` and reads the ranked list from
`/get_leaderboard`.

- `add_score` validates the request. It requires a JSON content type, a
  truthy `username` and a `score` that is not `None`. It then builds the
  document `{username, score: int(score), ip_address, timestamp}` and
  `set()`s it under the document id `username`. The write is a full
  overwrite: a resubmission replaces every field, and an absent `ip` stores
  `None` over the previous address. Every exception becomes a 500 in the
  catch-all handler.
- `get_leaderboard` streams the collection ordered by `score`, descending.
  It numbers the documents 1, 2, 3, ... in stream order, so equal scores
  still get distinct ranks. Each entry copies `username` and `score`, with
  `'Bilinmeyen'` and `0` as defaults for absent fields.

Modules:

- `JsonValue` (`json_value.dfy`): decoded JSON values, Python truth testing
  and `dict.get`.
- `PyInt` (`py_int.dfy`): Python's `int()` on such a value. For strings it
  follows CPython's base-10 rules. Surrounding whitespace is skipped: ASCII
  space, tab, newline, vertical tab, form feed and carriage return, plus
  the non-ASCII characters Python counts as whitespace (not U+001C to
  U+001F). One sign is allowed. Digits may have single underscores between
  them. At most 4300 digits are accepted, leading zeros included, which is
  CPython's default limit (3.11 on, and the 3.10.7, 3.9.14, 3.8.14 and
  3.7.14 security releases).
- `App` (`app.dfy`): the two handlers. `Submit` is the specification of one
  `add_score` call. `Ranked` is the specification of the listing. The class
  `App.Collection` holds the collection as a `map` from document id to
  document. Its method `AddScore` updates that map in place. Its method
  `GetLeaderboard` builds the list in a numbering loop.

The Firestore calls are parameters. `writeOk` says whether `set()`
succeeds. It fails when the store is not reached, and also when the store
client cannot encode a field of the document: an `ip` holding an integer
outside 64 bits, for example. `QueryResult` is what
`order_by(...).stream()` yields: either a failure, or a sequence of
document ids. `App.IsScoreQuery` states what that
sequence must satisfy: every document exactly once, with non-increasing
integer scores. The order among equal scores is the store's. The model does
not choose one.

The code differs from its docstring in one place, and from what a caller
might expect in another. The model follows the code:

- The `get_leaderboard` docstring promises the first 10 scores
  (app.py:108). No `limit` is applied (app.py:115-119), so every document is
  listed.
- Some failures one might expect to be 400s are 500s. A score that `int()`
  refuses raises inside the `try` (app.py:72), and the catch-all handler
  answers 500 (app.py:99-101). The same holds for a JSON body that does not
  decode and for a body that is not an object.

## Model

| member | source | states |
|---|---|---|
| `PyInt.TrimStart` | app.py:72 | `int()` skips leading whitespace (ASCII space and `\t`-`\r`, and Python's non-ASCII whitespace): the result is a suffix of the input, everything cut is whitespace, and the result does not start with whitespace |
| `PyInt.TrimEnd` | app.py:72 | `int()` skips trailing whitespace (the same characters): the result is a prefix, everything cut is whitespace, and the result does not end with whitespace |
| `PyInt.ParseDecimal` | app.py:72 | round trip: `int()` of the decimal spelling of any integer n of at most 4300 digits, padded with any whitespace `int()` skips, is n |
| `PyInt.ParsedDigitLimit` | app.py:72 | a string `int()` accepts has at most 4300 digits once stripped, leading zeros counted |
| `PyInt.ToIntNonStrings` | app.py:72 | `int(True)` is 1, `int(False)` is 0, an integer converts to itself, and `None`, a list and a dict are refused |
| `PyInt.ParsedCharsAreNumeric` | app.py:72 | a string `int()` accepts holds only whitespace, signs, digits and underscores, so a score such as "12a" is refused |
| `App.Submit` | app.py:49-101 | the answer is 400 exactly for a non-JSON request, or for an object body whose `username` is falsy or whose `score` is `None`. A JSON body that does not decode, or that is not an object, gets 500. A score `int()` refuses gets 500. Every other failure is a 500 too, and no failure changes the collection. Created (201) happens exactly when the username is a non-empty string, the score converts into the 64-bit range and `set()` succeeds. The write then puts {username, int(score), ip as sent, server timestamp} under the username key. It adds no other key and changes no other document. Integer scores are kept throughout the collection |
| `App.SubmitSize` | app.py:84-89 | one document per username: a successful submission grows the collection by one document only when the username is new |
| `App.SubmitTwiceLastWins` | app.py:84-89 | two successful submissions for one username leave what the second alone would have left |
| `App.ResubmitClearsIp` | app.py:58-89 | a submission without `ip` stores `ip_address: None`, whatever the previous document held |
| `App.Collection.constructor` | app.py:84 | the collection starts with the documents already stored, each with an integer score |
| `App.Collection.AddScore` | app.py:43-101 | the answer and the new collection are those of `Submit` on the old collection. The integer-score invariant is kept |
| `App.RankFromAt` | app.py:122-138 | numbering from `first` gives one entry per document, in order, the k-th with rank `first + k` |
| `App.RankedAt` | app.py:122-138 | the listing has as many entries as the query returned, with no cut at 10. Entry k has rank k + 1 and the document's `username` and `score` fields, or 'Bilinmeyen' and 0 when a field is absent |
| `App.TiesGetDistinctRanks` | app.py:123-138 | any two positions get distinct, increasing ranks, whatever their scores |
| `App.RankedScoresNonIncreasing` | app.py:115-135 | over a score-descending query, every listed score is an integer and the scores never increase along the list |
| `App.ListingCoversCollection` | app.py:115-138 | the listing has exactly as many entries as the collection has documents |
| `App.Collection.GetLeaderboard` | app.py:104-145 | on a collection keeping its invariant: a failed stream gives 500. Otherwise the loop yields `Ranked` of the streamed documents with status 200 |
| `App.HighestScoreExists` | app.py:115-116 | a non-empty collection of integer-scored documents has a document of highest score |
| `App.PrependHighest` | app.py:115-116 | a highest-score document followed by a query order of the other documents is a query order of the whole collection |
| `App.ScoreQueryExists` | app.py:115-119 | every collection with integer scores, so every state `AddScore` leaves, has a score-descending query order, so the listing can always be produced |
| `App.AliceThenBobStored` | app.py:69-89 | alice with 100, then bob with 90, stored into an empty collection give two documents with `ip_address: None` |
| `App.AliceThenBobListed` | app.py:115-138 | for that collection every valid query order is alice then bob, and the listing is rank 1 alice 100, rank 2 bob 90 |

## Left out

- Firebase initialisation, credential loading and the `exit()` on failure
  (app.py:11-30): process start-up and I/O.
- Flask app creation, CORS, routing, `jsonify` and the `home()` liveness
  text (app.py:33-40): framework wiring. Response bodies are modelled as
  their status and an outcome tag, not as JSON text.
- `print` logging and the exception text in `details` (app.py:91, 100-101,
  144-145). The `ServerErrorCause` tag stands in for the text.
- Firestore's sort and stream. The query is a parameter, specified only by
  `App.IsScoreQuery`. Documents whose `score` is missing or not an integer
  are not modelled: Firestore leaves them out of an ordered query or orders
  them across types, and neither is visible in the source. The class
  invariant `App.Collection.Valid` therefore demands an integer score in
  every document. A stream that fails midway is modelled as a stream that
  fails.
- `firestore.SERVER_TIMESTAMP` (app.py:75) is the constant
  `App.ServerTimestamp`. The time the store puts in its place is not
  modelled.
- Firestore document paths. Every string username is taken as one key of
  the collection. Firestore's splitting of an id at `/` into a nested path,
  and its reserved ids, are not modelled.
- Firestore's 64-bit integer encoding is modelled only as the range check
  `App.InInt64`. The failure is a 500 with nothing written.
- Floating-point JSON numbers, and Python's truncation of floats in
  `int()`, are not modelled: `JsonValue.Json` has no float case.
- `PyInt.ParseInt`: Unicode decimal digits other than ASCII `0`-`9` are
  not accepted, although CPython's `int()` accepts them. The digit limit is
  the default 4300. A limit changed with `sys.set_int_max_str_digits`, and
  interpreters without the limit (before 3.11, 3.10.7, 3.9.14, 3.8.14 and
  3.7.14), are not modelled.
- Firestore's encoding of the other document fields, an `ip` it cannot
  store for one, is not modelled field by field. Its failure is part of
  `writeOk`.
- Concurrent requests and store atomicity: each call is one atomic step on
  the map.
- `check_username`, `update_score` and `get_rank` do not appear in
  `app.py`, so there is nothing to model.
