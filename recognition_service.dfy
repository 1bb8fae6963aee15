/** The recognition service: identification of a person from the faces the
    extractor finds in an image, verification of a claimed person, the
    recognition-log table every attempt appends to, and the paged listing
    and success-rate statistics over that table.

    The face model, the vector store and the database are external: each
    call into them is a parameter whose answer is an `Outcome`. */
module Recognition {
  import opened Common
  import Pagination

  type Embedding = seq<real>

  /** One face found by the extractor; `qualityScore` is `None` when the
      extractor's dictionary has no `quality_score` key. */
  datatype FaceData = FaceData(qualityScore: Option<real>, embedding: Embedding)

  /** One hit of the vector store, in the order the store returns them. */
  datatype Match = Match(personId: string, similarity: real)

  /** A row of the `persons` table, as far as this service reads it. */
  datatype PersonRow = PersonRow(id: string, name: string)

  /** The status strings of the recognition-log table. */
  datatype Status = Success | NoMatch | NoFace | Error | Verified | NotVerified

  /** A recognition-log row (the processing time is not modelled). */
  datatype LogRow = LogRow(personId: Option<string>, confidence: real, status: Status)

  /** The dictionary `identify_person` returns. */
  datatype Identification = Identification(
    personId: Option<string>,
    personName: Option<string>,
    confidence: real,
    status: Status,
    recognized: bool,
    matches: Option<nat>,
    message: Option<string>)

  /** The dictionary `verify_person` returns. */
  datatype Verification = Verification(
    personId: string,
    personName: string,
    confidence: real,
    threshold: real,
    verified: bool,
    status: Status,
    message: Option<string>)

  /** The exceptions the service raises to its callers. */
  datatype ServiceError = RecognitionFailure(message: string) | NoFaceDetected

  const IdentifyTopK: nat := 5
  const VerifyTopK: nat := 10

  /** `threshold` defaults to the configured confidence threshold only when
      it is not passed (0.0 is a passed value). */
  function EffectiveThreshold(given: Option<real>, configured: real): (t: real)
    ensures given == None ==> t == configured
    ensures given.Some? ==> t == given.value
  {
    given.GetOr(configured)
  }

  /** `x.get('quality_score', 0)`. */
  function Quality(f: FaceData): real {
    f.qualityScore.GetOr(0.0)
  }

  /** The index Python's `max(faces, key=quality)` picks: a face of maximal
      quality, and the first one among equals. */
  function BestIndex(faces: seq<FaceData>): (k: nat)
    requires |faces| > 0
    ensures k < |faces|
    ensures forall j :: 0 <= j < |faces| ==> Quality(faces[j]) <= Quality(faces[k])
    ensures forall j :: 0 <= j < k ==> Quality(faces[j]) < Quality(faces[k])
  {
    if |faces| == 1 then 0
    else
      var k := BestIndex(faces[..|faces| - 1]);
      if Quality(faces[|faces| - 1]) > Quality(faces[k]) then |faces| - 1 else k
  }

  /** The embedding the vector store is queried with. */
  function QueryEmbedding(faces: seq<FaceData>): Embedding
    requires |faces| > 0
  {
    faces[BestIndex(faces)].embedding
  }

  /** The matches of the vector store that belong to `personId`, in order. */
  function MatchesOf(matches: seq<Match>, personId: string): (r: seq<Match>)
    ensures forall m :: m in r <==> m in matches && m.personId == personId
    ensures |r| <= |matches|
  {
    if |matches| == 0 then []
    else if matches[0].personId == personId then [matches[0]] + MatchesOf(matches[1..], personId)
    else MatchesOf(matches[1..], personId)
  }

  /** The largest similarity of a non-empty match list. */
  function MaxSimilarity(matches: seq<Match>): (c: real)
    requires |matches| > 0
    ensures exists i :: 0 <= i < |matches| && matches[i].similarity == c
    ensures forall i :: 0 <= i < |matches| ==> matches[i].similarity <= c
  {
    if |matches| == 1 then matches[0].similarity
    else
      var rest := MaxSimilarity(matches[1..]);
      assert forall i :: 1 <= i < |matches| ==> matches[i] == matches[1..][i - 1];
      if matches[0].similarity >= rest then matches[0].similarity else rest
  }

  /** The outcome of one identification attempt: what is returned or raised,
      and the one log row written. */
  datatype IdentifyAttempt = IdentifyAttempt(result: Result<Identification, ServiceError>, row: LogRow)

  function IdentifyError(message: string): IdentifyAttempt {
    IdentifyAttempt(Err(RecognitionFailure("Recognition failed: " + message)), LogRow(None, 0.0, Error))
  }

  const NoFaceIdentification := Identification(None, None, 0.0, NoFace, false, None, Some("No face detected in image"))
  const NoMatchIdentification := Identification(None, None, 0.0, NoMatch, false, None, Some("No matching person found"))

  /** `identify_person` with the threshold already defaulted. */
  function Identify(
    threshold: real,
    extracted: Outcome<seq<FaceData>>,
    search: (Embedding, nat, real) -> Outcome<seq<Match>>,
    persons: string -> Outcome<seq<PersonRow>>): (a: IdentifyAttempt)
    // the status logged is the status returned; a raised error logs `error`
    ensures a.result.Ok? ==> a.row.status == a.result.value.status
    ensures a.result.Err? ==> a.row.status == Error && a.result.error.RecognitionFailure?
    // recognised exactly on success, which always names a person
    ensures a.result.Ok? ==> (a.result.value.recognized <==> a.result.value.status == Success)
    ensures a.result.Ok? && a.result.value.status == Success ==> a.result.value.personId.Some?
    // the success row records the returned person and confidence
    ensures a.result.Ok? && a.result.value.status == Success ==>
      a.row == LogRow(a.result.value.personId, a.result.value.confidence, Success)
    // no face: a soft outcome with confidence 0.0
    ensures extracted == Answer([]) ==>
      a.result == Ok(NoFaceIdentification) && a.row == LogRow(None, 0.0, NoFace)
    // a raising extractor, store or person lookup is one recognition failure
    ensures extracted.Raises? ==> a == IdentifyError(extracted.message)
    ensures extracted.Answer? && |extracted.value| > 0
            && search(QueryEmbedding(extracted.value), IdentifyTopK, threshold).Raises? ==>
      a == IdentifyError(search(QueryEmbedding(extracted.value), IdentifyTopK, threshold).message)
    ensures extracted.Answer? && |extracted.value| > 0
            && search(QueryEmbedding(extracted.value), IdentifyTopK, threshold).Answer?
            && |search(QueryEmbedding(extracted.value), IdentifyTopK, threshold).value| > 0
            && persons(search(QueryEmbedding(extracted.value), IdentifyTopK, threshold).value[0].personId).Raises? ==>
      a == IdentifyError(persons(search(QueryEmbedding(extracted.value), IdentifyTopK, threshold).value[0].personId).message)
    ensures a.row.status != Success ==> a.row.personId == None && a.row.confidence == 0.0
  {
    match extracted
    case Raises(e) => IdentifyError(e)
    case Answer(faces) =>
      if |faces| == 0 then IdentifyAttempt(Ok(NoFaceIdentification), LogRow(None, 0.0, NoFace))
      else
        match search(QueryEmbedding(faces), IdentifyTopK, threshold)
        case Raises(e) => IdentifyError(e)
        case Answer(matches) =>
          if |matches| == 0 then IdentifyAttempt(Ok(NoMatchIdentification), LogRow(None, 0.0, NoMatch))
          else
            var best := matches[0];
            match persons(best.personId)
            case Raises(e) => IdentifyError(e)
            case Answer(rows) =>
              var name := if |rows| > 0 then rows[0].name else "Unknown";
              IdentifyAttempt(
                Ok(Identification(Some(best.personId), Some(name), best.similarity, Success, true, Some(|matches|), None)),
                LogRow(Some(best.personId), best.similarity, Success))
  }

  /** With faces found and a non-empty store answer for the best face, the
      identification trusts the store's FIRST match, counts all matches,
      and names the person "Unknown" when the lookup finds no row. */
  lemma IdentifyTrustsFirstMatch(
    threshold: real, faces: seq<FaceData>,
    search: (Embedding, nat, real) -> Outcome<seq<Match>>,
    persons: string -> Outcome<seq<PersonRow>>)
    requires |faces| > 0
    requires search(QueryEmbedding(faces), IdentifyTopK, threshold).Answer?
    requires |search(QueryEmbedding(faces), IdentifyTopK, threshold).value| > 0
    requires persons(search(QueryEmbedding(faces), IdentifyTopK, threshold).value[0].personId).Answer?
    ensures var matches := search(QueryEmbedding(faces), IdentifyTopK, threshold).value;
            var rows := persons(matches[0].personId).value;
            var r := Identify(threshold, Answer(faces), search, persons).result;
            && r.Ok?
            && r.value.status == Success
            && r.value.personId == Some(matches[0].personId)
            && r.value.confidence == matches[0].similarity
            && r.value.matches == Some(|matches|)
            && r.value.personName == Some(if rows == [] then "Unknown" else rows[0].name)
  {
  }

  /** An empty store answer is a `no_match` with confidence 0.0. */
  lemma IdentifyNoMatch(
    threshold: real, faces: seq<FaceData>,
    search: (Embedding, nat, real) -> Outcome<seq<Match>>,
    persons: string -> Outcome<seq<PersonRow>>)
    requires |faces| > 0
    requires search(QueryEmbedding(faces), IdentifyTopK, threshold) == Answer([])
    ensures Identify(threshold, Answer(faces), search, persons)
         == IdentifyAttempt(Ok(NoMatchIdentification), LogRow(None, 0.0, NoMatch))
  {
  }

  /** Only the best-quality face matters: two extractions whose best faces
      carry the same embedding are identified alike. */
  lemma IdentifyDependsOnlyOnBestFace(
    threshold: real, faces1: seq<FaceData>, faces2: seq<FaceData>,
    search: (Embedding, nat, real) -> Outcome<seq<Match>>,
    persons: string -> Outcome<seq<PersonRow>>)
    requires |faces1| > 0 && |faces2| > 0
    requires QueryEmbedding(faces1) == QueryEmbedding(faces2)
    ensures Identify(threshold, Answer(faces1), search, persons) == Identify(threshold, Answer(faces2), search, persons)
  {
  }

  /** The outcome of one verification attempt: what is returned or raised,
      and the log rows written (none or one). */
  datatype VerifyAttempt = VerifyAttempt(result: Result<Verification, ServiceError>, rows: seq<LogRow>)

  function VerifyError(personId: string, message: string): (a: VerifyAttempt)
    ensures a.result.Err? && a.result.error.RecognitionFailure?
    ensures a.result.error.message == "Verification failed: " + message && a.result.error.message[0] == 'V'
    ensures a.rows == [LogRow(Some(personId), 0.0, Error)]
  {
    VerifyAttempt(Err(RecognitionFailure("Verification failed: " + message)), [LogRow(Some(personId), 0.0, Error)])
  }

  /** `verify_person` with the threshold already defaulted. */
  function Verify(
    personId: string,
    threshold: real,
    persons: string -> Outcome<seq<PersonRow>>,
    extracted: Outcome<seq<FaceData>>,
    search: (Embedding, nat, real) -> Outcome<seq<Match>>): (a: VerifyAttempt)
    ensures |a.rows| <= 1
    // verified is decided locally against the threshold
    ensures a.result.Ok? ==> (a.result.value.verified ==> a.result.value.confidence >= threshold)
    ensures a.result.Ok? ==> a.result.value.status == (if a.result.value.verified then Verified else NotVerified)
    // the returned record echoes the claimed person and the threshold used
    ensures a.result.Ok? ==> a.result.value.personId == personId && a.result.value.threshold == threshold
    // every returned verification logs one row with the same status and confidence
    ensures a.result.Ok? ==> a.rows == [LogRow(Some(personId), a.result.value.confidence, a.result.value.status)]
    // the re-raised exceptions write no row; unexpected errors log `error`
    ensures a.rows == [] <==>
      a.result == Err(NoFaceDetected) || a.result == Err(RecognitionFailure("Person " + personId + " not found"))
    ensures a.result.Err? && a.rows != [] ==> a.rows[0].status == Error
    // a raising lookup, extractor or store is one verification failure with an error row
    ensures persons(personId).Raises? ==> a == VerifyError(personId, persons(personId).message)
    ensures persons(personId).Answer? && |persons(personId).value| > 0 && extracted.Raises? ==>
      a == VerifyError(personId, extracted.message)
    ensures persons(personId).Answer? && |persons(personId).value| > 0
            && extracted.Answer? && |extracted.value| > 0
            && search(QueryEmbedding(extracted.value), VerifyTopK, 0.0).Raises? ==>
      a == VerifyError(personId, search(QueryEmbedding(extracted.value), VerifyTopK, 0.0).message)
  {
    match persons(personId)
    case Raises(e) => VerifyError(personId, e)
    case Answer(found) =>
      if |found| == 0 then VerifyAttempt(Err(RecognitionFailure("Person " + personId + " not found")), [])
      else
        var person := found[0];
        match extracted
        case Raises(e) => VerifyError(personId, e)
        case Answer(faces) =>
          if |faces| == 0 then VerifyAttempt(Err(NoFaceDetected), [])
          else
            match search(QueryEmbedding(faces), VerifyTopK, 0.0)
            case Raises(e) => VerifyError(personId, e)
            case Answer(matches) =>
              var own := MatchesOf(matches, personId);
              if |own| > 0 then
                var confidence := MaxSimilarity(own);
                var verified := confidence >= threshold;
                var status := if verified then Verified else NotVerified;
                VerifyAttempt(
                  Ok(Verification(personId, person.name, confidence, threshold, verified, status, None)),
                  [LogRow(Some(personId), confidence, status)])
              else
                VerifyAttempt(
                  Ok(Verification(personId, person.name, 0.0, threshold, false, NotVerified, Some("Person verification failed"))),
                  [LogRow(Some(personId), 0.0, NotVerified)])
  }

  /** Once the person exists and a face is found, the confidence is the
      largest similarity among the store's matches for THAT person (0.0 when
      there is none), and `verified` holds exactly when such a match exists
      and reaches the threshold -- so with no own match even a threshold
      of 0.0 does not verify. */
  lemma VerifyDecision(
    personId: string, threshold: real,
    persons: string -> Outcome<seq<PersonRow>>,
    faces: seq<FaceData>,
    search: (Embedding, nat, real) -> Outcome<seq<Match>>)
    requires persons(personId).Answer? && |persons(personId).value| > 0
    requires |faces| > 0
    requires search(QueryEmbedding(faces), VerifyTopK, 0.0).Answer?
    ensures var matches := search(QueryEmbedding(faces), VerifyTopK, 0.0).value;
            var r := Verify(personId, threshold, persons, Answer(faces), search).result;
            && r.Ok?
            && r.value.personName == persons(personId).value[0].name
            && (r.value.verified <==>
                  exists m :: m in matches && m.personId == personId && m.similarity >= threshold)
            && (forall m :: m in matches && m.personId == personId ==> m.similarity <= r.value.confidence)
            && ((exists m :: m in matches && m.personId == personId) ==>
                  exists m :: m in matches && m.personId == personId && m.similarity == r.value.confidence)
            && ((forall m :: m in matches ==> m.personId != personId) ==> r.value.confidence == 0.0 && !r.value.verified)
  {
    var matches := search(QueryEmbedding(faces), VerifyTopK, 0.0).value;
    var own := MatchesOf(matches, personId);
    if |own| > 0 {
      var c := MaxSimilarity(own);
      assert forall m :: m in own ==> m.similarity <= c by {
        forall m | m in own ensures m.similarity <= c {
          var i :| 0 <= i < |own| && own[i] == m;
        }
      }
      var i :| 0 <= i < |own| && own[i].similarity == c;
      assert own[i] in own;
    } else {
      assert own == [];
    }
  }

  /** The recognition service object: its configured threshold and the
      recognition-log table that every attempt appends to. */
  class RecognitionService {
    const confidenceThreshold: real
    var logs: seq<LogRow>

    constructor (confidenceThreshold: real)
      ensures this.confidenceThreshold == confidenceThreshold && logs == []
    {
      this.confidenceThreshold := confidenceThreshold;
      logs := [];
    }

    /** `_log_recognition`: one insert into the recognition-log table. */
    method LogRecognition(personId: Option<string>, confidence: real, status: Status)
      modifies this
      ensures logs == old(logs) + [LogRow(personId, confidence, status)]
    {
      logs := logs + [LogRow(personId, confidence, status)];
    }

    /** `identify_person`: every path appends exactly one row, whose status
        is the status returned (`error` when it raises). */
    method IdentifyPerson(
      threshold: Option<real>,
      extracted: Outcome<seq<FaceData>>,
      search: (Embedding, nat, real) -> Outcome<seq<Match>>,
      persons: string -> Outcome<seq<PersonRow>>)
      returns (r: Result<Identification, ServiceError>)
      modifies this
      ensures var a := Identify(EffectiveThreshold(threshold, confidenceThreshold), extracted, search, persons);
              r == a.result && logs == old(logs) + [a.row]
    {
      var t := if threshold.None? then confidenceThreshold else threshold.value;
      if extracted.Raises? {
        LogRecognition(None, 0.0, Error);
        return Err(RecognitionFailure("Recognition failed: " + extracted.message));
      }
      var faces := extracted.value;
      if |faces| == 0 {
        LogRecognition(None, 0.0, NoFace);
        return Ok(NoFaceIdentification);
      }
      var best := BestIndex(faces);
      var found := search(faces[best].embedding, IdentifyTopK, t);
      if found.Raises? {
        LogRecognition(None, 0.0, Error);
        return Err(RecognitionFailure("Recognition failed: " + found.message));
      }
      var matches := found.value;
      if |matches| == 0 {
        LogRecognition(None, 0.0, NoMatch);
        return Ok(NoMatchIdentification);
      }
      var personId := matches[0].personId;
      var confidence := matches[0].similarity;
      var lookup := persons(personId);
      if lookup.Raises? {
        LogRecognition(None, 0.0, Error);
        return Err(RecognitionFailure("Recognition failed: " + lookup.message));
      }
      var name := if |lookup.value| > 0 then lookup.value[0].name else "Unknown";
      LogRecognition(Some(personId), confidence, Success);
      r := Ok(Identification(Some(personId), Some(name), confidence, Success, true, Some(|matches|), None));
    }

    /** `verify_person`: a missing person and a missing face are raised
        without a row; every other path appends one row. */
    method VerifyPerson(
      personId: string,
      threshold: Option<real>,
      persons: string -> Outcome<seq<PersonRow>>,
      extracted: Outcome<seq<FaceData>>,
      search: (Embedding, nat, real) -> Outcome<seq<Match>>)
      returns (r: Result<Verification, ServiceError>)
      modifies this
      ensures var a := Verify(personId, EffectiveThreshold(threshold, confidenceThreshold), persons, extracted, search);
              r == a.result && logs == old(logs) + a.rows
    {
      var lookup := persons(personId);
      if lookup.Raises? {
        LogRecognition(Some(personId), 0.0, Error);
        return Err(RecognitionFailure("Verification failed: " + lookup.message));
      }
      if |lookup.value| == 0 {
        return Err(RecognitionFailure("Person " + personId + " not found"));
      }
      var person := lookup.value[0];
      var t := if threshold.None? then confidenceThreshold else threshold.value;
      if extracted.Raises? {
        LogRecognition(Some(personId), 0.0, Error);
        return Err(RecognitionFailure("Verification failed: " + extracted.message));
      }
      var faces := extracted.value;
      if |faces| == 0 {
        return Err(NoFaceDetected);
      }
      var best := BestIndex(faces);
      var found := search(faces[best].embedding, VerifyTopK, 0.0);
      if found.Raises? {
        LogRecognition(Some(personId), 0.0, Error);
        return Err(RecognitionFailure("Verification failed: " + found.message));
      }
      var own := MatchesOf(found.value, personId);
      if |own| > 0 {
        var confidence := MaxSimilarity(own);
        var verified := confidence >= t;
        var status := if verified then Verified else NotVerified;
        LogRecognition(Some(personId), confidence, status);
        r := Ok(Verification(personId, person.name, confidence, t, verified, status, None));
      } else {
        LogRecognition(Some(personId), 0.0, NotVerified);
        r := Ok(Verification(personId, person.name, 0.0, t, false, NotVerified, Some("Person verification failed")));
      }
    }
  }

  /** A filter of the log listing; both queries of one listing use the same list. */
  datatype LogFilter = PersonIs(personId: string) | StatusIs(status: string)

  /** A query on the recognition-log table: its equality filters, and for
      the data query the newest-first order and the requested row range. */
  datatype LogsQuery = LogsQuery(filters: seq<LogFilter>, newestFirst: bool, range: Option<Pagination.RowRange>)

  /** A stored log row joined with its person's name (`None` without a person row). */
  datatype StoredLog = StoredLog(
    id: string, personId: Option<string>, joinedName: Option<string>, confidence: real,
    status: string, processingTime: real, createdAt: string, imagePath: Option<string>)

  /** A log row as the listing shows it. */
  datatype LogView = LogView(
    id: string, personId: Option<string>, personName: Option<string>, confidence: real,
    status: string, processingTime: real, createdAt: string)

  datatype LogsPage = LogsPage(logs: seq<LogView>, total: int, page: int, size: int, hasNext: bool)

  /** The filters of a listing: a person filter and a status filter, each
      only when its argument is a non-empty string. */
  function LogFilters(personId: Option<string>, status: Option<string>): (r: seq<LogFilter>)
    ensures forall p :: PersonIs(p) in r <==> NonEmpty(personId) && p == personId.value
    ensures forall s :: StatusIs(s) in r <==> NonEmpty(status) && s == status.value
    ensures |r| <= 2
  {
    (if NonEmpty(personId) then [PersonIs(personId.value)] else [])
    + (if NonEmpty(status) then [StatusIs(status.value)] else [])
  }

  function View(row: StoredLog): LogView {
    LogView(row.id, row.personId, row.joinedName, row.confidence, row.status, row.processingTime, row.createdAt)
  }

  /** The loop of `get_recognition_logs` that turns stored rows into listing rows. */
  method ProjectLogs(rows: seq<StoredLog>) returns (logs: seq<LogView>)
    ensures |logs| == |rows|
    ensures forall i :: 0 <= i < |rows| ==> logs[i] == View(rows[i])
  {
    logs := [];
    var i := 0;
    while i < |rows|
      invariant 0 <= i <= |rows|
      invariant |logs| == i
      invariant forall j :: 0 <= j < i ==> logs[j] == View(rows[j])
    {
      logs := logs + [View(rows[i])];
      i := i + 1;
    }
  }

  /** `get_recognition_logs`: the data query asks for one page, newest
      first; the count query repeats exactly the same filters without order
      or range; any failure becomes one service error. */
  method GetRecognitionLogs(
    page: int, size: int, personId: Option<string>, status: Option<string>,
    fetch: LogsQuery -> Outcome<seq<StoredLog>>,
    count: LogsQuery -> Outcome<int>)
    returns (r: Result<LogsPage, ServiceError>)
    ensures var data := LogsQuery(LogFilters(personId, status), true, Some(Pagination.PageRange(page, size)));
            var counting := LogsQuery(LogFilters(personId, status), false, None);
            && (r.Ok? <==> fetch(data).Answer? && count(counting).Answer?)
            && (r.Err? ==> r.error == RecognitionFailure("Failed to retrieve recognition logs"))
            && (r.Ok? ==>
                  && |r.value.logs| == |fetch(data).value|
                  && (forall i :: 0 <= i < |r.value.logs| ==> r.value.logs[i] == View(fetch(data).value[i]))
                  && r.value.total == count(counting).value
                  && r.value.page == page && r.value.size == size
                  && r.value.hasNext == Pagination.HasNext(page, size, count(counting).value))
  {
    var filters := LogFilters(personId, status);
    var result := fetch(LogsQuery(filters, true, Some(Pagination.PageRange(page, size))));
    if result.Raises? {
      return Err(RecognitionFailure("Failed to retrieve recognition logs"));
    }
    var counted := count(LogsQuery(filters, false, None));
    if counted.Raises? {
      return Err(RecognitionFailure("Failed to retrieve recognition logs"));
    }
    var total := counted.value;
    var hasNext := Pagination.Offset(page, size) + size < total;
    var logs := ProjectLogs(result.value);
    r := Ok(LogsPage(logs, total, page, size, hasNext));
  }

  /** The part of `get_recognition_stats` that is not clock or float work. */
  datatype RecognitionStats = RecognitionStats(total: int, successful: int, successRate: real)

  function RecognitionStatsOf(total: Outcome<int>, successful: Outcome<int>): (r: Result<RecognitionStats, ServiceError>)
    ensures r.Ok? <==> total.Answer? && successful.Answer?
    ensures r.Err? ==> r.error == RecognitionFailure("Failed to retrieve recognition statistics")
    ensures r.Ok? ==> r.value.total == total.value && r.value.successful == successful.value
    ensures r.Ok? && total.value <= 0 ==> r.value.successRate == 0.0
    ensures r.Ok? && total.value > 0 ==> r.value.successRate * total.value as real == successful.value as real * 100.0
  {
    if total.Raises? || successful.Raises? then Err(RecognitionFailure("Failed to retrieve recognition statistics"))
    else Ok(RecognitionStats(total.value, successful.value, SuccessRate(successful.value, total.value)))
  }

  /** The number of log rows with a given status. */
  function CountStatus(rows: seq<LogRow>, status: Status): nat
  {
    if |rows| == 0 then 0
    else CountStatus(rows[..|rows| - 1], status) + (if rows[|rows| - 1].status == status then 1 else 0)
  }

  lemma {:induction false} CountStatusBound(rows: seq<LogRow>, status: Status)
    ensures CountStatus(rows, status) <= |rows|
  {
    if |rows| > 0 {
      CountStatusBound(rows[..|rows| - 1], status);
    }
  }

  /** When the two counts are taken over the service's own log table, the
      success rate is a percentage. */
  lemma StatsOfLogTableArePercentages(rows: seq<LogRow>)
    ensures var r := RecognitionStatsOf(Answer(|rows|), Answer(CountStatus(rows, Success)));
            r.Ok? && 0.0 <= r.value.successRate <= 100.0
  {
    CountStatusBound(rows, Success);
  }

  /** Every identification appends one row; with the row appended, the
      success count grows by one exactly when the returned status is success. */
  lemma IdentifyAdvancesSuccessCount(
    rows: seq<LogRow>, threshold: real,
    extracted: Outcome<seq<FaceData>>,
    search: (Embedding, nat, real) -> Outcome<seq<Match>>,
    persons: string -> Outcome<seq<PersonRow>>)
    ensures var a := Identify(threshold, extracted, search, persons);
            CountStatus(rows + [a.row], Success)
            == CountStatus(rows, Success) + (if a.result.Ok? && a.result.value.status == Success then 1 else 0)
  {
    var a := Identify(threshold, extracted, search, persons);
    assert (rows + [a.row])[..|rows|] == rows;
  }
}
