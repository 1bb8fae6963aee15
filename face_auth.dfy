/** Face-ID login: the decision cascade from the faces found in an image to
    an access token or an HTTP error, with the audit table each exit writes
    to; the builder of the audit-log listing query; and the statistics
    record over that table. */
module FaceAuth {
  import opened Common
  import Recognition
  import Pagination

  /** The status strings of the face-auth audit table. */
  datatype AuthStatus = AuthSuccess | Denied | NoFace | NoMatch

  /** One audit row (the processing time is not modelled). */
  datatype AuditRow = AuditRow(
    personId: Option<string>, confidence: real, status: AuthStatus,
    ipAddress: Option<string>, userAgent: Option<string>, errorMessage: Option<string>)

  /** A `persons` row as the login query selects it. `active` and
      `canUseFaceAuth` are nullable columns; `role` and `email` are read
      with `.get`. */
  datatype FacePerson = FacePerson(
    id: string, name: string, email: Field<string>, role: Field<string>,
    canUseFaceAuth: Option<bool>, active: Option<bool>)

  /** The claims the access token is created from (the token encoding
      itself is external). */
  datatype TokenClaims = TokenClaims(
    sub: string, username: string, email: Option<string>, role: Option<string>, authMethod: string)

  datatype UserInfo = UserInfo(id: string, username: string, email: Option<string>, fullName: string, role: Option<string>)

  datatype LoginResponse =
    | Granted(claims: TokenClaims, tokenType: string, authMethod: string, user: UserInfo, confidence: real)
    | HttpError(code: nat, detail: string)

  /** The outcome of one login attempt: the response and the audit rows
      written (none or one). */
  datatype LoginAttempt = LoginAttempt(response: LoginResponse, rows: seq<AuditRow>)

  /** What `str(KeyError('quality_score'))` renders to. */
  const MissingQualityKey := "'quality_score'"

  function Failed(message: string): LoginResponse {
    HttpError(InternalServerError, "Face ID authentication failed: " + message)
  }

  /** `max(faces, key=lambda x: x['quality_score'])` reads the key of every
      face, so one face without it raises. */
  predicate AllScored(faces: seq<Recognition.FaceData>) {
    forall i :: 0 <= i < |faces| ==> faces[i].qualityScore.Some?
  }

  /** The claims of a granted login: the MATCHED id as subject, the
      person's name, `person.get("email")`, `person.get("role", "user")`. */
  function ClaimsFor(personId: string, person: FacePerson): (c: TokenClaims)
    ensures c.sub == personId && c.username == person.name && c.authMethod == "face_id"
    ensures person.role == Absent ==> c.role == Some("user")
    ensures person.role.Present? ==> c.role == Some(person.role.value)
    ensures c.email.Some? <==> person.email.Present?
  {
    TokenClaims(personId, person.name, if person.email.Present? then Some(person.email.value) else None,
                person.role.Get("user"), "face_id")
  }

  /** `face_id_login`. */
  function FaceLogin(
    ip: Option<string>, userAgent: Option<string>, threshold: real,
    extracted: Outcome<seq<Recognition.FaceData>>,
    search: (Recognition.Embedding, nat, real) -> Outcome<seq<Recognition.Match>>,
    persons: string -> Outcome<seq<FacePerson>>): (a: LoginAttempt)
    ensures |a.rows| <= 1
    // one audit row for 400, 401, 403 and success; none for 404 and 500
    ensures a.rows == [] <==> a.response.HttpError? && a.response.code in {NotFound, InternalServerError}
    ensures a.response.HttpError? ==> a.response.code in {BadRequest, Unauthorized, Forbidden, NotFound, InternalServerError}
    ensures a.response.HttpError? && a.response.code == BadRequest ==>
      a.rows == [AuditRow(None, 0.0, NoFace, ip, userAgent, Some("No face detected in image"))]
    ensures a.response.HttpError? && a.response.code == Unauthorized ==>
      a.rows == [AuditRow(None, 0.0, NoMatch, ip, userAgent, Some("No matching person found"))]
    ensures a.response.HttpError? && a.response.code == Forbidden ==> a.rows[0].status == Denied
    ensures a.response.Granted? ==> a.rows[0].status == AuthSuccess
    // denied and success rows carry the match confidence and the person
    ensures a.response.Granted? ==>
      a.rows[0].personId == Some(a.response.claims.sub) && a.rows[0].confidence == a.response.confidence
    ensures a.response.Granted? ==>
      a.response.claims.authMethod == "face_id" && a.response.tokenType == "bearer" && a.response.user.id == a.response.claims.sub
    ensures extracted == Answer([]) ==> a.response == HttpError(BadRequest, "No face detected in the image")
  {
    match extracted
    case Raises(e) => LoginAttempt(Failed(e), [])
    case Answer(faces) =>
      if |faces| == 0 then
        LoginAttempt(HttpError(BadRequest, "No face detected in the image"),
                     [AuditRow(None, 0.0, NoFace, ip, userAgent, Some("No face detected in image"))])
      else if !AllScored(faces) then LoginAttempt(Failed(MissingQualityKey), [])
      else
        match search(Recognition.QueryEmbedding(faces), 5, threshold)
        case Raises(e) => LoginAttempt(Failed(e), [])
        case Answer(matches) =>
          if |matches| == 0 then
            LoginAttempt(HttpError(Unauthorized, "Face not recognized. No matching person found in database."),
                         [AuditRow(None, 0.0, NoMatch, ip, userAgent, Some("No matching person found"))])
          else
            var personId := matches[0].personId;
            var confidence := matches[0].similarity;
            match persons(personId)
            case Raises(e) => LoginAttempt(Failed(e), [])
            case Answer(found) =>
              if |found| == 0 then LoginAttempt(HttpError(NotFound, "Person not found"), [])
              else
                var person := found[0];
                if !Truthy(person.active) then
                  LoginAttempt(HttpError(Forbidden, "Account is inactive. Contact administrator."),
                               [AuditRow(Some(personId), confidence, Denied, ip, userAgent, Some("Person account is inactive"))])
                else if !Truthy(person.canUseFaceAuth) then
                  LoginAttempt(HttpError(Forbidden, "Face ID authentication is not enabled for this account. Contact administrator."),
                               [AuditRow(Some(personId), confidence, Denied, ip, userAgent, Some("Face authentication not enabled for this person"))])
                else
                  var claims := ClaimsFor(personId, person);
                  LoginAttempt(
                    Granted(claims, "bearer", "face_id",
                            UserInfo(personId, person.name, claims.email, person.name, claims.role), confidence),
                    [AuditRow(Some(personId), confidence, AuthSuccess, ip, userAgent, None)])
  }

  /** Every unexpected error -- a raising extractor, a face without a
      quality score, a raising store or person lookup -- is a 500 carrying
      the error's text, and no audit row is written. */
  lemma FaceLoginFaults(
    ip: Option<string>, userAgent: Option<string>, threshold: real,
    extracted: Outcome<seq<Recognition.FaceData>>,
    search: (Recognition.Embedding, nat, real) -> Outcome<seq<Recognition.Match>>,
    persons: string -> Outcome<seq<FacePerson>>)
    ensures var a := FaceLogin(ip, userAgent, threshold, extracted, search, persons);
            extracted.Raises? ==> a == LoginAttempt(Failed(extracted.message), [])
    ensures var a := FaceLogin(ip, userAgent, threshold, extracted, search, persons);
            extracted.Answer? && |extracted.value| > 0 && !AllScored(extracted.value) ==>
              a == LoginAttempt(Failed(MissingQualityKey), [])
    ensures extracted.Answer? && |extracted.value| > 0 && AllScored(extracted.value) ==>
            var a := FaceLogin(ip, userAgent, threshold, extracted, search, persons);
            var found := search(Recognition.QueryEmbedding(extracted.value), 5, threshold);
            && (found.Raises? ==> a == LoginAttempt(Failed(found.message), []))
            && (found.Answer? && |found.value| > 0 && persons(found.value[0].personId).Raises? ==>
                  a == LoginAttempt(Failed(persons(found.value[0].personId).message), []))
  {
  }

  /** The store's first match is trusted: once a person row is found for
      it, an inactive account is denied -- whatever its face-auth
      permission -- with a row keeping the match's similarity; an active
      account without the permission is denied likewise; otherwise the
      token is issued for that person. */
  lemma LoginCascadeOrder(
    ip: Option<string>, userAgent: Option<string>, threshold: real,
    faces: seq<Recognition.FaceData>,
    search: (Recognition.Embedding, nat, real) -> Outcome<seq<Recognition.Match>>,
    persons: string -> Outcome<seq<FacePerson>>)
    requires |faces| > 0 && AllScored(faces)
    requires search(Recognition.QueryEmbedding(faces), 5, threshold).Answer?
    requires |search(Recognition.QueryEmbedding(faces), 5, threshold).value| > 0
    requires var m := search(Recognition.QueryEmbedding(faces), 5, threshold).value[0];
             persons(m.personId).Answer? && |persons(m.personId).value| > 0
    ensures var m := search(Recognition.QueryEmbedding(faces), 5, threshold).value[0];
            var person := persons(m.personId).value[0];
            var a := FaceLogin(ip, userAgent, threshold, Answer(faces), search, persons);
            && (!Truthy(person.active) ==>
                  a == LoginAttempt(HttpError(Forbidden, "Account is inactive. Contact administrator."),
                                    [AuditRow(Some(m.personId), m.similarity, Denied, ip, userAgent, Some("Person account is inactive"))]))
            && (Truthy(person.active) && !Truthy(person.canUseFaceAuth) ==>
                  a.response.HttpError? && a.response.code == Forbidden
                  && a.rows == [AuditRow(Some(m.personId), m.similarity, Denied, ip, userAgent,
                                         Some("Face authentication not enabled for this person"))])
            && (Truthy(person.active) && Truthy(person.canUseFaceAuth) <==> a.response.Granted?)
            && (a.response.Granted? ==>
                  a.response.claims.sub == m.personId && a.response.confidence == m.similarity
                  && a.response.claims.username == person.name
                  && a.response.claims.role == person.role.Get("user"))
  {
  }

  /** A person id the store returns but the database does not know is a 404
      and leaves no audit row. */
  lemma UnknownPersonIsNotAudited(
    ip: Option<string>, userAgent: Option<string>, threshold: real,
    faces: seq<Recognition.FaceData>,
    search: (Recognition.Embedding, nat, real) -> Outcome<seq<Recognition.Match>>,
    persons: string -> Outcome<seq<FacePerson>>)
    requires |faces| > 0 && AllScored(faces)
    requires search(Recognition.QueryEmbedding(faces), 5, threshold).Answer?
    requires |search(Recognition.QueryEmbedding(faces), 5, threshold).value| > 0
    requires persons(search(Recognition.QueryEmbedding(faces), 5, threshold).value[0].personId) == Answer([])
    ensures FaceLogin(ip, userAgent, threshold, Answer(faces), search, persons)
         == LoginAttempt(HttpError(NotFound, "Person not found"), [])
  {
  }

  /** An empty store answer is a 401 with one `no_match` row of confidence 0.0. */
  lemma NoMatchIsUnauthorized(
    ip: Option<string>, userAgent: Option<string>, threshold: real,
    faces: seq<Recognition.FaceData>,
    search: (Recognition.Embedding, nat, real) -> Outcome<seq<Recognition.Match>>,
    persons: string -> Outcome<seq<FacePerson>>)
    requires |faces| > 0 && AllScored(faces)
    requires search(Recognition.QueryEmbedding(faces), 5, threshold) == Answer([])
    ensures FaceLogin(ip, userAgent, threshold, Answer(faces), search, persons)
         == LoginAttempt(HttpError(Unauthorized, "Face not recognized. No matching person found in database."),
                         [AuditRow(None, 0.0, NoMatch, ip, userAgent, Some("No matching person found"))])
  {
  }

  /** The face-auth audit table the login handler inserts into. */
  class AuditTable {
    var rows: seq<AuditRow>

    constructor ()
      ensures rows == []
    {
      rows := [];
    }

    method Insert(row: AuditRow)
      modifies this
      ensures rows == old(rows) + [row]
    {
      rows := rows + [row];
    }

    /** `face_id_login` against this table. */
    method FaceIdLogin(
      ip: Option<string>, userAgent: Option<string>, threshold: real,
      extracted: Outcome<seq<Recognition.FaceData>>,
      search: (Recognition.Embedding, nat, real) -> Outcome<seq<Recognition.Match>>,
      persons: string -> Outcome<seq<FacePerson>>)
      returns (response: LoginResponse)
      modifies this
      ensures var a := FaceLogin(ip, userAgent, threshold, extracted, search, persons);
              response == a.response && rows == old(rows) + a.rows
    {
      if extracted.Raises? {
        return Failed(extracted.message);
      }
      var faces := extracted.value;
      if |faces| == 0 {
        Insert(AuditRow(None, 0.0, NoFace, ip, userAgent, Some("No face detected in image")));
        return HttpError(BadRequest, "No face detected in the image");
      }
      if !AllScored(faces) {
        return Failed(MissingQualityKey);
      }
      var best := Recognition.BestIndex(faces);
      var found := search(faces[best].embedding, 5, threshold);
      if found.Raises? {
        return Failed(found.message);
      }
      var matches := found.value;
      if |matches| == 0 {
        Insert(AuditRow(None, 0.0, NoMatch, ip, userAgent, Some("No matching person found")));
        return HttpError(Unauthorized, "Face not recognized. No matching person found in database.");
      }
      var personId := matches[0].personId;
      var confidence := matches[0].similarity;
      var lookup := persons(personId);
      if lookup.Raises? {
        return Failed(lookup.message);
      }
      if |lookup.value| == 0 {
        return HttpError(NotFound, "Person not found");
      }
      var person := lookup.value[0];
      if !Truthy(person.active) {
        Insert(AuditRow(Some(personId), confidence, Denied, ip, userAgent, Some("Person account is inactive")));
        return HttpError(Forbidden, "Account is inactive. Contact administrator.");
      }
      if !Truthy(person.canUseFaceAuth) {
        Insert(AuditRow(Some(personId), confidence, Denied, ip, userAgent, Some("Face authentication not enabled for this person")));
        return HttpError(Forbidden, "Face ID authentication is not enabled for this account. Contact administrator.");
      }
      var claims := ClaimsFor(personId, person);
      Insert(AuditRow(Some(personId), confidence, AuthSuccess, ip, userAgent, None));
      response := Granted(claims, "bearer", "face_id", UserInfo(personId, person.name, claims.email, person.name, claims.role), confidence);
    }
  }

  /** A positional SQL parameter. */
  datatype SqlParam = Text(text: string) | Number(number: int)

  /** A statement on the audit table: its WHERE clause and parameters.
      A paged statement is the row select, whose fixed text adds
      `ORDER BY fal.created_at DESC` and `PageClause` after the WHERE
      clause; an unpaged one is the `COUNT(*)` select, whose fixed text adds
      nothing. No other fixed text holds a placeholder. */
  datatype AuditQuery = AuditQuery(paged: bool, whereClause: string, params: seq<SqlParam>)

  const PageClause := " LIMIT " + "%s" + " OFFSET " + "%s"
  const StatusCondition := "fal.status = " + "%s"

  lemma PageClausePlaceholders()
    ensures Placeholders(PageClause) == 2
  {
    PlaceholdersAppend(" LIMIT ", "%s");
    PlaceholdersAppend(" LIMIT " + "%s", " OFFSET ");
    PlaceholdersAppend(" LIMIT " + "%s" + " OFFSET ", "%s");
  }

  /** The placeholders of a statement's text. */
  function QueryPlaceholders(q: AuditQuery): nat {
    Placeholders(q.whereClause) + (if q.paged then Placeholders(PageClause) else 0)
  }

  /** The conditions of the listing: the neutral `1=1`, then the status
      condition only with a (non-empty) status filter. */
  function Conditions(statusFilter: Option<string>): seq<string> {
    ["1=1"] + (if NonEmpty(statusFilter) then [StatusCondition] else [])
  }

  /** The parameters the conditions bind. */
  function FilterParams(statusFilter: Option<string>): seq<SqlParam> {
    if NonEmpty(statusFilter) then [Text(statusFilter.value)] else []
  }

  function RowsQuery(page: int, size: int, statusFilter: Option<string>): AuditQuery {
    AuditQuery(true, Join(Conditions(statusFilter), " AND "),
               FilterParams(statusFilter) + [Number(size), Number(Pagination.Offset(page, size))])
  }

  function CountQuery(statusFilter: Option<string>): AuditQuery {
    AuditQuery(false, Join(Conditions(statusFilter), " AND "), FilterParams(statusFilter))
  }

  /** Both statements of a listing share one WHERE clause starting with
      `1=1`, and each binds every placeholder of its text with exactly one
      parameter: the filter parameters for the count, the filter parameters
      then size and offset for the rows. */
  lemma ListingQueriesAreWellFormed(page: int, size: int, statusFilter: Option<string>)
    ensures var rows := RowsQuery(page, size, statusFilter);
            var count := CountQuery(statusFilter);
            && "1=1" <= rows.whereClause && count.whereClause == rows.whereClause
            && rows.params[..|rows.params| - 2] == count.params
            && QueryPlaceholders(rows) == |rows.params|
            && QueryPlaceholders(count) == |count.params|
  {
    PageClausePlaceholders();
    WhereClausePlaceholders(statusFilter);
    var rows := RowsQuery(page, size, statusFilter);
    assert rows.params[..|rows.params| - 2] == FilterParams(statusFilter);
  }

  lemma StatusConditionPlaceholders()
    ensures Placeholders(StatusCondition) == 1
  {
    NoPercentNoPlaceholders("fal.status = ");
    assert Placeholders("%s") == 1;
    PlaceholdersAppend("fal.status = ", "%s");
  }

  /** The WHERE clause holds one placeholder per filter parameter. */
  lemma WhereClausePlaceholders(statusFilter: Option<string>)
    ensures "1=1" <= Join(Conditions(statusFilter), " AND ")
    ensures Placeholders(Join(Conditions(statusFilter), " AND ")) == |FilterParams(statusFilter)|
  {
    NoPercentNoPlaceholders("1=1");
    if NonEmpty(statusFilter) {
      var parts := Conditions(statusFilter);
      assert parts == ["1=1", StatusCondition];
      assert parts[..1] == ["1=1"];
      assert Join(parts, " AND ") == "1=1" + " AND " + StatusCondition;
      NoPercentNoPlaceholders("1=1" + " AND ");
      StatusConditionPlaceholders();
      PlaceholdersAppend("1=1" + " AND ", StatusCondition);
    } else {
      assert Join(Conditions(statusFilter), " AND ") == "1=1";
    }
  }

  /** The condition-and-parameter assembly of `get_face_auth_logs`, by
      appends as the handler does it. */
  method BuildAuthLogQueries(page: int, size: int, statusFilter: Option<string>)
    returns (rowsQuery: AuditQuery, countQuery: AuditQuery)
    ensures rowsQuery == RowsQuery(page, size, statusFilter)
    ensures countQuery == CountQuery(statusFilter)
  {
    var conditions := ["1=1"];
    var params: seq<SqlParam> := [];
    if NonEmpty(statusFilter) {
      conditions := conditions + [StatusCondition];
      params := params + [Text(statusFilter.value)];
    }
    var whereClause := Join(conditions, " AND ");
    var offset := (page - 1) * size;
    params := params + [Number(size), Number(offset)];
    rowsQuery := AuditQuery(true, whereClause, params);
    countQuery := AuditQuery(false, whereClause, params[..|params| - 2]);
  }

  /** One audit row as the listing returns it (joined with the person). */
  datatype AuditView = AuditView(
    id: string, personId: Option<string>, confidence: real, status: string, ipAddress: Option<string>,
    processingTime: real, errorMessage: Option<string>, createdAt: string,
    personName: Option<string>, personRole: Option<string>)

  datatype AuditPage = AuditPage(logs: seq<AuditView>, total: int, page: int, size: int)

  /** `get_face_auth_logs`: `result or []`, and the count's first row or 0. */
  method GetFaceAuthLogs(
    page: int, size: int, statusFilter: Option<string>,
    select: AuditQuery -> Outcome<seq<AuditView>>,
    count: AuditQuery -> Outcome<seq<int>>)
    returns (r: Result<AuditPage, LoginResponse>)
    ensures var rows := RowsQuery(page, size, statusFilter);
            var counting := CountQuery(statusFilter);
            && (r.Ok? <==> select(rows).Answer? && count(counting).Answer?)
            && (r.Err? ==> r.error == HttpError(InternalServerError, "Failed to retrieve face authentication logs"))
            && (r.Ok? ==>
                  && r.value.logs == select(rows).value
                  && r.value.total == (if count(counting).value == [] then 0 else count(counting).value[0])
                  && r.value.page == page && r.value.size == size)
  {
    var rowsQuery, countQuery := BuildAuthLogQueries(page, size, statusFilter);
    var result := select(rowsQuery);
    if result.Raises? {
      return Err(HttpError(InternalServerError, "Failed to retrieve face authentication logs"));
    }
    var counted := count(countQuery);
    if counted.Raises? {
      return Err(HttpError(InternalServerError, "Failed to retrieve face authentication logs"));
    }
    var total := if |counted.value| > 0 then counted.value[0] else 0;
    r := Ok(AuditPage(result.value, total, page, size));
  }

  /** The aggregate row of the statistics query; every column is nullable. */
  datatype StatsRow = StatsRow(
    totalAttempts: Option<int>, successfulAttempts: Option<int>, deniedAttempts: Option<int>,
    noFaceAttempts: Option<int>, noMatchAttempts: Option<int>,
    avgConfidence: Option<real>, avgProcessingTime: Option<real>, uniqueUsers: Option<int>)

  datatype AuthStats = AuthStats(
    totalAttempts: int, successfulAttempts: int, successRate: real, deniedAttempts: int,
    noFaceAttempts: int, noMatchAttempts: int, averageConfidence: real, averageProcessingTime: real,
    uniqueUsers: int)

  const ZeroStats := AuthStats(0, 0, 0.0, 0, 0, 0, 0.0, 0.0, 0)

  /** `get_face_auth_stats` over the rows the aggregate query returns. */
  function FaceAuthStats(result: Outcome<seq<StatsRow>>): (r: Result<AuthStats, LoginResponse>)
    ensures result.Raises? <==> r.Err?
    ensures r.Err? ==> r.error == HttpError(InternalServerError, "Failed to retrieve face authentication statistics")
    ensures result == Answer([]) ==> r == Ok(ZeroStats)
    ensures result.Answer? && |result.value| > 0 ==>
      var row := result.value[0];
      && r.Ok?
      && r.value.totalAttempts == OrZero(row.totalAttempts)
      && r.value.successfulAttempts == OrZero(row.successfulAttempts)
      && (OrZero(row.totalAttempts) > 0 ==>
            r.value.successRate * OrZero(row.totalAttempts) as real == OrZero(row.successfulAttempts) as real * 100.0)
      && (OrZero(row.totalAttempts) <= 0 ==> r.value.successRate == 0.0)
      && r.value.deniedAttempts == OrZero(row.deniedAttempts)
      && r.value.noFaceAttempts == OrZero(row.noFaceAttempts)
      && r.value.noMatchAttempts == OrZero(row.noMatchAttempts)
      && r.value.uniqueUsers == OrZero(row.uniqueUsers)
      && r.value.averageConfidence == OrZeroReal(row.avgConfidence)
      && r.value.averageProcessingTime == OrZeroReal(row.avgProcessingTime)
  {
    match result
    case Raises(_) => Err(HttpError(InternalServerError, "Failed to retrieve face authentication statistics"))
    case Answer(rows) =>
      if |rows| == 0 then Ok(ZeroStats)
      else
        var row := rows[0];
        var total := OrZero(row.totalAttempts);
        var success := OrZero(row.successfulAttempts);
        Ok(AuthStats(total, success, SuccessRate(success, total), OrZero(row.deniedAttempts),
                     OrZero(row.noFaceAttempts), OrZero(row.noMatchAttempts), OrZeroReal(row.avgConfidence),
                     OrZeroReal(row.avgProcessingTime), OrZero(row.uniqueUsers)))
  }
}
