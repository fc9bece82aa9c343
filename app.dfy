/** The leaderboard service of app.py: score submission (`add_score`),
    which overwrites the document keyed by the username in the Firestore
    collection `leaderboard`, and the ranked listing (`get_leaderboard`),
    which numbers the documents of a score-descending query 1, 2, 3, ...

    The collection is the field `docs` of the class `Collection`. The two
    calls into Firestore that can fail or that the service cannot see are
    parameters: whether the `set()` write succeeds, and what
    `order_by('score', DESCENDING).stream()` yields. */
module App {
  import opened JsonValue
  import opened PyInt

  // ---------------------------------------------------------------------
  // Stored documents

  /** A field of a stored document: a JSON value, or the placeholder
      `firestore.SERVER_TIMESTAMP` that the store replaces by its clock. */
  datatype Field = Value(v: Json) | ServerTimestamp

  /** A Firestore document: field name to field value. */
  type Document = map<string, Field>

  /** The dict `user_data` that `add_score` writes: the username as sent,
      `int(score)` and the ip as sent (`None` when absent). */
  datatype Record = Record(username: Json, score: int, ip: Json)

  function ToDocument(r: Record): Document
  {
    map["username" := Value(r.username),
        "score" := Value(JInt(r.score)),
        "ip_address" := Value(r.ip),
        "timestamp" := ServerTimestamp]
  }

  /** Firestore stores integers as 64-bit signed values. */
  predicate InInt64(n: int)
  {
    -0x8000_0000_0000_0000 <= n < 0x8000_0000_0000_0000
  }

  predicate HasIntScore(d: Document)
  {
    "score" in d && d["score"].Value? && d["score"].v.JInt?
  }

  function ScoreKey(d: Document): int
    requires HasIntScore(d)
  {
    d["score"].v.i
  }

  /** Every document of the collection carries an integer score, the field
      the listing query orders by. */
  predicate AllIntScores(docs: map<string, Document>)
  {
    forall id | id in docs :: HasIntScore(docs[id])
  }

  // ---------------------------------------------------------------------
  // add_score

  /** Body as Flask's `request.get_json()` yields it: a decoded JSON
      value, or a body that does not decode (get_json raises). */
  datatype Body = Undecodable | Decoded(data: Json)

  /** `isJson` is Flask's `request.is_json` (the content type). */
  datatype Request = Request(isJson: bool, body: Body)

  datatype BadRequestReason = NotJson | MissingFields

  /** Why the catch-all handler answered 500. */
  datatype ServerErrorCause =
    | UndecodableBody    // get_json() raised
    | BodyNotObject      // `data.get` on a decoded value that is not a dict
    | ScoreNotInteger    // int(score) raised
    | UsernameNotString  // the document path cannot be built from the username
    | ScoreOutOfRange    // set() cannot encode an integer outside 64 bits
    | StoreFailure       // set() raised for another reason: the store was not
                         // reached, or it could not encode a field of the document

  datatype AddOutcome =
    | Created(username: string)
    | BadRequest(reason: BadRequestReason)
    | ServerError(cause: ServerErrorCause)

  /** The HTTP status `add_score` answers with. */
  function Status(o: AddOutcome): int
  {
    match o
    case Created(_) => 201
    case BadRequest(_) => 400
    case ServerError(_) => 500
  }

  /** The request body decoded to a dict, the only shape `data.get` works on. */
  predicate IsObjectPayload(req: Request)
  {
    req.isJson && req.body.Decoded? && req.body.data.JObject?
  }

  /** `data.get(key)` on an object payload. */
  function Param(req: Request, key: string): Json
    requires IsObjectPayload(req)
  {
    Get(req.body.data.fields, key)
  }

  /** Answer and collection after one `add_score` call. */
  datatype Submission = Submission(outcome: AddOutcome, collection: map<string, Document>)

  /** What one `add_score` call answers and leaves in the collection, given
      whether `set()` succeeds. */
  function Submit(docs: map<string, Document>, req: Request, writeOk: bool): (s: Submission)
    // A body that is not JSON: 400, nothing written.
    ensures !req.isJson ==> s == Submission(BadRequest(NotJson), docs)
    // Missing or empty username, or no score: 400, and only then.
    ensures IsObjectPayload(req) ==>
      (s.outcome == BadRequest(MissingFields) <==>
       !Truthy(Param(req, "username")) || Param(req, "score") == JNull)
    // A score int() refuses: 500, nothing written.
    ensures IsObjectPayload(req) && Truthy(Param(req, "username")) &&
            Param(req, "score") != JNull && ToInt(Param(req, "score")).None? ==>
      s == Submission(ServerError(ScoreNotInteger), docs)
    // 400 exactly for a non-JSON request and for missing fields.
    ensures s.outcome.BadRequest? <==>
      !req.isJson ||
      (IsObjectPayload(req) && (!Truthy(Param(req, "username")) || Param(req, "score") == JNull))
    // A JSON request whose body does not decode, or is not an object: 500.
    ensures req.isJson && req.body.Undecodable? ==> s == Submission(ServerError(UndecodableBody), docs)
    ensures req.isJson && req.body.Decoded? && !req.body.data.JObject? ==>
      s == Submission(ServerError(BodyNotObject), docs)
    // Every failure leaves the collection as it was.
    ensures !s.outcome.Created? ==> s.collection == docs
    ensures !writeOk ==> s.collection == docs
    // Exactly when the write happens.
    ensures s.outcome.Created? <==>
      && IsObjectPayload(req)
      && Param(req, "username").JStr? && Param(req, "username").s != ""
      && ToInt(Param(req, "score")).Some?
      && InInt64(ToInt(Param(req, "score")).value)
      && writeOk
    // The write is a full overwrite of one key: the new document holds the
    // username, int(score) and the ip as sent; no other key changes.
    ensures s.outcome.Created? ==>
      var k := s.outcome.username;
      && Status(s.outcome) == 201
      && Param(req, "username") == JStr(k)
      && s.collection.Keys == docs.Keys + {k}
      && s.collection[k] == ToDocument(Record(JStr(k), ToInt(Param(req, "score")).value, Param(req, "ip")))
      && (forall other | other in docs && other != k :: s.collection[other] == docs[other])
    ensures AllIntScores(docs) ==> AllIntScores(s.collection)
  {
    if !req.isJson then Submission(BadRequest(NotJson), docs)
    else if req.body.Undecodable? then Submission(ServerError(UndecodableBody), docs)
    else if !req.body.data.JObject? then Submission(ServerError(BodyNotObject), docs)
    else
      var username := Param(req, "username");
      var score := Param(req, "score");
      if !Truthy(username) || score == JNull then Submission(BadRequest(MissingFields), docs)
      else if ToInt(score).None? then Submission(ServerError(ScoreNotInteger), docs)
      else if !username.JStr? then Submission(ServerError(UsernameNotString), docs)
      else if !InInt64(ToInt(score).value) then Submission(ServerError(ScoreOutOfRange), docs)
      else if !writeOk then Submission(ServerError(StoreFailure), docs)
      else
        var record := Record(username, ToInt(score).value, Param(req, "ip"));
        Submission(Created(username.s), docs[username.s := ToDocument(record)])
  }

  /** Keyed overwrite: one document per username, so a write adds a
      document only when the username is new. */
  lemma SubmitSize(docs: map<string, Document>, req: Request, writeOk: bool)
    requires Submit(docs, req, writeOk).outcome.Created?
    ensures var s := Submit(docs, req, writeOk);
      |s.collection| == if s.outcome.username in docs then |docs| else |docs| + 1
  {
  }

  /** Submitting twice for one username leaves only the second write. */
  lemma SubmitTwiceLastWins(docs: map<string, Document>, first: Request, second: Request,
                            writeOk1: bool, writeOk2: bool)
    requires Submit(docs, first, writeOk1).outcome.Created?
    requires Submit(Submit(docs, first, writeOk1).collection, second, writeOk2).outcome
             == Created(Submit(docs, first, writeOk1).outcome.username)
    ensures Submit(Submit(docs, first, writeOk1).collection, second, writeOk2).collection
            == Submit(docs, second, writeOk2).collection
  {
  }

  /** A resubmission without an `ip` stores `ip_address: None`, replacing
      whatever address the previous document held. */
  lemma ResubmitClearsIp(docs: map<string, Document>, req: Request, writeOk: bool)
    requires IsObjectPayload(req) && "ip" !in req.body.data.fields
    requires Submit(docs, req, writeOk).outcome.Created?
    ensures var s := Submit(docs, req, writeOk);
      s.collection[s.outcome.username]["ip_address"] == Value(JNull)
  {
  }

  // ---------------------------------------------------------------------
  // get_leaderboard

  /** What `get_leaderboard` puts in the list for one document. */
  datatype Entry = Entry(rank: int, username: Field, score: Field)

  datatype QueryResult = Streamed(ids: seq<string>) | StreamFailed

  datatype Listing = Listed(entries: seq<Entry>) | ListingFailed

  function ListingStatus(l: Listing): int
  {
    if l.Listed? then 200 else 500
  }

  const UnknownUsername: string := "Bilinmeyen"

  /** `entry.get('username', 'Bilinmeyen')` */
  function UsernameOr(d: Document): Field
  {
    if "username" in d then d["username"] else Value(JStr(UnknownUsername))
  }

  /** `entry.get('score', 0)` */
  function ScoreOr(d: Document): Field
  {
    if "score" in d then d["score"] else Value(JInt(0))
  }

  function EntryFor(d: Document, rank: int): Entry
  {
    Entry(rank, UsernameOr(d), ScoreOr(d))
  }

  /** The listing of `snaps`, numbered from `first` on. */
  function RankFrom(snaps: seq<Document>, first: int): seq<Entry>
  {
    if snaps == [] then [] else [EntryFor(snaps[0], first)] + RankFrom(snaps[1..], first + 1)
  }

  /** The listing of the documents in query order, ranks from 1. */
  function Ranked(snaps: seq<Document>): seq<Entry>
  {
    RankFrom(snaps, 1)
  }

  /** What `order_by('score', direction=DESCENDING).stream()` may yield for
      the collection: every document id once, scores non-increasing. The
      order among equal scores is the store's and is left open. */
  predicate IsScoreQuery(ids: seq<string>, docs: map<string, Document>)
  {
    && (forall i | 0 <= i < |ids| :: ids[i] in docs && HasIntScore(docs[ids[i]]))
    && (forall id | id in docs :: id in ids)
    && (forall i, j | 0 <= i < j < |ids| :: ids[i] != ids[j])
    && (forall i, j | 0 <= i < j < |ids| :: ScoreKey(docs[ids[i]]) >= ScoreKey(docs[ids[j]]))
  }

  /** `doc.to_dict()` for each streamed document. */
  function Snapshots(ids: seq<string>, docs: map<string, Document>): seq<Document>
    requires forall i | 0 <= i < |ids| :: ids[i] in docs
  {
    seq(|ids|, i requires 0 <= i < |ids| => docs[ids[i]])
  }

  /** One entry per document in the same order, no cut-off at ten; the
      k-th entry has rank k + 1 and the document's username and score, or
      'Bilinmeyen' and 0 when the field is absent. */
  lemma {:induction false} RankFromAt(snaps: seq<Document>, first: int)
    ensures |RankFrom(snaps, first)| == |snaps|
    ensures forall k | 0 <= k < |snaps| :: RankFrom(snaps, first)[k] == EntryFor(snaps[k], first + k)
  {
    if snaps != [] {
      RankFromAt(snaps[1..], first + 1);
    }
  }

  lemma RankedAt(snaps: seq<Document>)
    ensures |Ranked(snaps)| == |snaps|
    ensures forall k | 0 <= k < |snaps| ::
      && Ranked(snaps)[k].rank == k + 1
      && Ranked(snaps)[k].username == (if "username" in snaps[k] then snaps[k]["username"] else Value(JStr("Bilinmeyen")))
      && Ranked(snaps)[k].score == (if "score" in snaps[k] then snaps[k]["score"] else Value(JInt(0)))
  {
    RankFromAt(snaps, 1);
  }

  /** Ranks never repeat, not even between equal scores. */
  lemma TiesGetDistinctRanks(snaps: seq<Document>, i: int, j: int)
    requires 0 <= i < j < |snaps|
    ensures |Ranked(snaps)| == |snaps|
    ensures Ranked(snaps)[i].rank < Ranked(snaps)[j].rank
  {
    RankedAt(snaps);
  }

  /** Because the query is ordered by score, the listed scores are integers
      and never increase along the list. */
  lemma RankedScoresNonIncreasing(ids: seq<string>, docs: map<string, Document>)
    requires IsScoreQuery(ids, docs)
    ensures var r := Ranked(Snapshots(ids, docs));
      && |r| == |ids|
      && (forall k | 0 <= k < |r| :: r[k].score.Value? && r[k].score.v.JInt?)
      && (forall i, j | 0 <= i < j < |r| :: r[i].score.v.i >= r[j].score.v.i)
  {
    var snaps := Snapshots(ids, docs);
    RankedAt(snaps);
    var r := Ranked(snaps);
    forall k | 0 <= k < |r|
      ensures r[k].score == Value(JInt(ScoreKey(docs[ids[k]])))
    {
      assert snaps[k] == docs[ids[k]];
    }
  }

  lemma {:induction false} DistinctCard(ids: seq<string>)
    requires forall i, j | 0 <= i < j < |ids| :: ids[i] != ids[j]
    ensures |set id | id in ids| == |ids|
  {
    if ids != [] {
      var rest := ids[1..];
      DistinctCard(rest);
      assert (set id | id in ids) == (set id | id in rest) + {ids[0]};
      assert ids[0] !in rest;
    }
  }

  /** The listing has exactly one entry per document of the collection. */
  lemma ListingCoversCollection(ids: seq<string>, docs: map<string, Document>)
    requires IsScoreQuery(ids, docs)
    ensures |Ranked(Snapshots(ids, docs))| == |docs|
  {
    DistinctCard(ids);
    assert (set id | id in ids) == docs.Keys;
    RankedAt(Snapshots(ids, docs));
  }

  /** A finite collection of integer-scored documents has a document of
      highest score. */
  lemma {:induction false} HighestScoreExists(docs: map<string, Document>)
    requires AllIntScores(docs) && docs != map[]
    ensures exists top | top in docs :: forall id | id in docs :: ScoreKey(docs[id]) <= ScoreKey(docs[top])
    decreases docs.Keys
  {
    var k :| k in docs;
    var rest := docs - {k};
    if rest == map[] {
      assert docs.Keys - {k} == rest.Keys == {};
      assert docs.Keys == {k};
    } else {
      assert rest.Keys < docs.Keys;
      HighestScoreExists(rest);
      var top :| top in rest && forall id | id in rest :: ScoreKey(rest[id]) <= ScoreKey(rest[top]);
      if ScoreKey(docs[k]) <= ScoreKey(docs[top]) {
        assert forall id | id in docs :: ScoreKey(docs[id]) <= ScoreKey(docs[top]) by {
          forall id | id in docs ensures ScoreKey(docs[id]) <= ScoreKey(docs[top]) {
            if id != k { assert rest[id] == docs[id]; }
          }
        }
      } else {
        assert forall id | id in docs :: ScoreKey(docs[id]) <= ScoreKey(docs[k]) by {
          forall id | id in docs ensures ScoreKey(docs[id]) <= ScoreKey(docs[k]) {
            if id != k { assert rest[id] == docs[id]; }
          }
        }
      }
    }
  }

  /** A document of highest score followed by a query order of the other
      documents is a query order of the whole collection. */
  lemma PrependHighest(top: string, tail: seq<string>, docs: map<string, Document>)
    requires AllIntScores(docs) && top in docs
    requires forall id | id in docs :: ScoreKey(docs[id]) <= ScoreKey(docs[top])
    requires IsScoreQuery(tail, docs - {top})
    ensures IsScoreQuery([top] + tail, docs)
  {
    var rest := docs - {top};
    var ids := [top] + tail;
    assert forall i | 0 <= i < |tail| :: tail[i] in rest && tail[i] != top && docs[tail[i]] == rest[tail[i]];
    assert forall i | 1 <= i < |ids| :: ids[i] == tail[i - 1];
    forall id | id in docs ensures id in ids {
      if id != top {
        assert id in rest;
      }
    }
  }

  /** Every collection of integer-scored documents has a score-descending
      query order, so the listing can be produced in every state the class
      invariant allows. */
  lemma {:induction false} ScoreQueryExists(docs: map<string, Document>)
    requires AllIntScores(docs)
    ensures exists ids :: IsScoreQuery(ids, docs)
    decreases docs.Keys
  {
    if docs == map[] {
      assert IsScoreQuery([], docs);
    } else {
      HighestScoreExists(docs);
      var top :| top in docs && forall id | id in docs :: ScoreKey(docs[id]) <= ScoreKey(docs[top]);
      var rest := docs - {top};
      assert rest.Keys < docs.Keys;
      ScoreQueryExists(rest);
      var tail :| IsScoreQuery(tail, rest);
      PrependHighest(top, tail, docs);
    }
  }

  // ---------------------------------------------------------------------
  // The collection

  /** The Firestore collection `leaderboard`, keyed by document id. */
  class Collection {
    var docs: map<string, Document>

    ghost predicate Valid()
      reads this
    {
      AllIntScores(docs)
    }

    /** The collection as other writers have left it. */
    constructor (existing: map<string, Document>)
      requires AllIntScores(existing)
      ensures Valid() && docs == existing
    {
      docs := existing;
    }

    /** `add_score`: validate the request, then `set()` the document whose
        id is the username. */
    method AddScore(req: Request, writeOk: bool) returns (outcome: AddOutcome)
      requires Valid()
      modifies this
      ensures Valid()
      ensures Submission(outcome, docs) == Submit(old(docs), req, writeOk)
    {
      if !req.isJson {
        return BadRequest(NotJson);
      }
      if req.body.Undecodable? {
        return ServerError(UndecodableBody);
      }
      var data := req.body.data;
      if !data.JObject? {
        return ServerError(BodyNotObject);
      }
      var username := Get(data.fields, "username");
      var ipAddress := Get(data.fields, "ip");
      var score := Get(data.fields, "score");
      if !Truthy(username) || score == JNull {
        return BadRequest(MissingFields);
      }
      var converted := ToInt(score);
      if converted.None? {
        return ServerError(ScoreNotInteger);
      }
      var userData := Record(username, converted.value, ipAddress);
      if !username.JStr? {
        return ServerError(UsernameNotString);
      }
      if !InInt64(userData.score) {
        return ServerError(ScoreOutOfRange);
      }
      if !writeOk {
        return ServerError(StoreFailure);
      }
      docs := docs[username.s := ToDocument(userData)];
      return Created(username.s);
    }

    /** `get_leaderboard`: number the streamed documents 1, 2, 3, ... */
    method GetLeaderboard(query: QueryResult) returns (listing: Listing)
      requires Valid()
      requires query.Streamed? ==> IsScoreQuery(query.ids, docs)
      ensures ListingStatus(listing) == if query.Streamed? then 200 else 500
      ensures query.StreamFailed? ==> listing == ListingFailed
      ensures query.Streamed? ==> listing == Listed(Ranked(Snapshots(query.ids, docs)))
    {
      if query.StreamFailed? {
        return ListingFailed;
      }
      var results := query.ids;
      var leaderboardData: seq<Entry> := [];
      var rank := 1;
      for i := 0 to |results|
        invariant rank == i + 1
        invariant |leaderboardData| == i
        invariant forall k | 0 <= k < i :: leaderboardData[k] == EntryFor(docs[results[k]], k + 1)
      {
        var entry := docs[results[i]];
        leaderboardData := leaderboardData + [Entry(rank, UsernameOr(entry), ScoreOr(entry))];
        rank := rank + 1;
      }
      RankedAt(Snapshots(results, docs));
      return Listed(leaderboardData);
    }
  }

  // ---------------------------------------------------------------------
  // A worked scenario

  function ScoreRequest(username: string, score: int): Request
  {
    Request(true, Decoded(JObject(map["username" := JStr(username), "score" := JInt(score)])))
  }

  function AliceAndBob(): map<string, Document>
  {
    map["alice" := ToDocument(Record(JStr("alice"), 100, JNull)),
        "bob" := ToDocument(Record(JStr("bob"), 90, JNull))]
  }

  /** Submitting alice with 100, then bob with 90, to an empty collection
      stores one document each, with no ip address. */
  lemma AliceThenBobStored()
    ensures Submit(Submit(map[], ScoreRequest("alice", 100), true).collection,
                   ScoreRequest("bob", 90), true).collection == AliceAndBob()
  {
  }

  /** Whatever order the store streams them in, the listing of alice (100)
      and bob (90) is alice with rank 1, then bob with rank 2. */
  lemma AliceThenBobListed(ids: seq<string>)
    requires IsScoreQuery(ids, AliceAndBob())
    ensures ids == ["alice", "bob"]
    ensures Ranked(Snapshots(ids, AliceAndBob()))
            == [Entry(1, Value(JStr("alice")), Value(JInt(100))),
                Entry(2, Value(JStr("bob")), Value(JInt(90)))]
  {
    var docs := AliceAndBob();
    DistinctCard(ids);
    assert (set id | id in ids) == {"alice", "bob"};
    assert |ids| == 2;
    assert ScoreKey(docs[ids[0]]) >= ScoreKey(docs[ids[1]]);
    assert ids == ["alice", "bob"];
    RankedAt(Snapshots(ids, docs));
  }
}
