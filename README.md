# Face Recognition Pro backend: a verified model of its decision logic

This project models the deterministic part of the Face Recognition Pro
backend (a FastAPI service that enrols persons with face photos and
identifies and verifies them). The external collaborators are left
abstract:

- the face extractor: a list of faces, each with an optional quality score and an embedding;
- the vector store: an ordered list of `(person_id, similarity)` matches, with no assumption that it sorts, filters or aggregates;
- the databases: rows, or an exception.

Each external call is a parameter of the model. Its answer is an
`Outcome` (an answer or a raised message). With those answers fixed, the
model gives each operation's result, and the rows or writes it issues.

The modules follow the backend's files:

- `Recognition` (`recognition_service.py`):
  - identification and verification, with the recognition-log table that every attempt appends to;
  - the paged log listing and the success-rate statistics.
- `FaceAuth` (`face_auth.py`):
  - the Face-ID login cascade (400, 401, 404, 403, 403, token), with its audit table;
  - the builder of the audit-listing SQL, its WHERE clause and positional parameters;
  - the statistics record.
- `Persons` (`person_service.py`):
  - create, get, list, update, delete and photo enrolment;
  - every write to a store is recorded, in order, by the service object.
- `Auth` (`auth.py`): registration duplicate checks and the password-login decision order.
- `Analytics` (`analytics.py`): the per-day series, the top persons, the peak-hour label, and the per-person report.
- `LiveDetection` (`simple_main.py`): the anti-spoofing rule of the live-detection endpoint.
- `Validation` (`validation.py`): the suffix, length and alphanumeric rules.
- `Config` (`config.py`): the required-environment check and the settings defaults.
- `ImageProcessor` (`image_processor.py`): the image-shape guard.
- `Pagination` and `Common` hold what several files share:
  - the page arithmetic;
  - `Option`, `Outcome`, `Result`;
  - the `.get` reading of dictionary keys (`Field`);
  - `x or 0`;
  - success rates as exact reals;
  - `", ".join`.

Code that updates state step by step is modelled imperatively:

- the log and audit tables;
- the person service's write trace;
- the photo-collection loop;
- the delete loop;
- the daily-series loop;
- the environment check loop;
- the query builder.

Each such method is proved equal to a pure specification function. The
properties are then proved about that function.

## Model

| member | source | states |
|---|---|---|
| Common.SuccessRate | backend/app/services/recognition_service.py:285 | 0 without attempts; otherwise rate times total is 100 times successes, and it lies in 0..100 when successes do not exceed the total |
| Common.PlaceholdersAppend | backend/app/api/face_auth.py:210 | the `%s` placeholders of a concatenation are those of its parts when the seam cannot form a new one |
| Pagination.PageRange | backend/app/services/recognition_service.py:220-234 | the requested inclusive range starts at `(page-1)*size` and has exactly `size` slots |
| Pagination.PageOf | backend/app/services/person_service.py:76-86 | every row index lies in the range of some page >= 1 |
| Pagination.NextPageIsAdjacent | backend/app/services/person_service.py:76-86 | page p+1 starts right after page p ends: no row is skipped or repeated |
| Pagination.PageIsUnique | backend/app/services/recognition_service.py:220-234 | a row index lies on exactly one page |
| Pagination.HasNextIffLaterRow | backend/app/services/recognition_service.py:245 | `offset + size < total` holds exactly when an existing row lies on a later page |
| Recognition.EffectiveThreshold | backend/app/services/recognition_service.py:28-29 | the configured threshold is used exactly when none is passed (0.0 is a passed value) |
| Recognition.BestIndex | backend/app/services/recognition_service.py:38 | the chosen face has maximal quality (missing counts as 0), and every earlier face has strictly lower quality, so it is the first maximum |
| Recognition.MatchesOf | backend/app/services/recognition_service.py:154 | exactly the store's matches for the requested person |
| Recognition.MaxSimilarity | backend/app/services/recognition_service.py:159-160 | the result is one of the similarities and bounds all of them |
| Recognition.Identify | backend/app/services/recognition_service.py:22-122 | the logged status is the returned status (`error` when it raises); recognised exactly on success, which names a person and logs a `success` row with that person and confidence; no face gives `no_face` at 0.0 with one `no_face` row; a raising extractor, vector store or person lookup gives "Recognition failed: " + its message with one `error` row |
| Recognition.IdentifyTrustsFirstMatch | backend/app/services/recognition_service.py:46-72 | with matches, the result is success with the first match's id and similarity, the match count, and "Unknown" for an empty person lookup |
| Recognition.IdentifyNoMatch | backend/app/services/recognition_service.py:73-90 | an empty store answer returns `no_match` at 0.0 and logs one `no_match` row |
| Recognition.IdentifyDependsOnlyOnBestFace | backend/app/services/recognition_service.py:38-42 | two extractions with the same best-face embedding are identified alike |
| Recognition.VerifyError | backend/app/services/recognition_service.py:202-213 | an unexpected error raises the recognition failure "Verification failed: " + its message and logs one `error` row for the person at 0.0 |
| Recognition.Verify | backend/app/services/recognition_service.py:124-213 | at most one row; a returned record echoes the claimed person id and the threshold used; verified implies confidence >= threshold; the status follows `verified`; a returned verification logs one row with its status and confidence; no row exactly for an unknown person or no face; a raising person lookup, extractor or vector store is `VerifyError` with its message |
| Recognition.VerifyDecision | backend/app/services/recognition_service.py:151-198 | the confidence is the maximum similarity among the person's own matches, or 0.0 without one; verified exactly when an own match reaches the threshold, so a threshold of 0.0 does not verify without an own match |
| Recognition.RecognitionService.LogRecognition | backend/app/services/recognition_service.py:330-343 | appends exactly one row to the log table |
| Recognition.RecognitionService.IdentifyPerson | backend/app/services/recognition_service.py:22-122 | returns `Identify`'s result and appends its one row, using the configured threshold when none is given |
| Recognition.RecognitionService.VerifyPerson | backend/app/services/recognition_service.py:124-213 | returns `Verify`'s result and appends its rows (none or one) |
| Recognition.LogFilters | backend/app/services/recognition_service.py:228-231 | a person filter or a status filter exactly when that argument is a non-empty string |
| Recognition.ProjectLogs | backend/app/services/recognition_service.py:248-259 | one listing row per stored row, in order, with the joined person name |
| Recognition.GetRecognitionLogs | backend/app/services/recognition_service.py:215-271 | the data query asks for one page newest first; the count query carries the same filters without order or range; `has_next` is `offset + size < total`; any failure is "Failed to retrieve recognition logs" |
| Recognition.RecognitionStatsOf | backend/app/services/recognition_service.py:276-285 | the two counts and their success rate (0 without attempts); a failure is "Failed to retrieve recognition statistics" |
| Recognition.CountStatusBound | backend/app/services/recognition_service.py:281-282 | a status count never exceeds the number of rows |
| Recognition.StatsOfLogTableArePercentages | backend/app/services/recognition_service.py:285 | over the service's own log table, the success rate lies in 0..100 |
| Recognition.IdentifyAdvancesSuccessCount | backend/app/services/recognition_service.py:57-62 | each identification adds one to the success count exactly when it returns success |
| FaceAuth.ClaimsFor | backend/app/api/face_auth.py:145-153 | the subject is the matched person id; `auth_method` is `face_id`; a missing role defaults to `user`; the email is present only when the row has one |
| FaceAuth.FaceLogin | backend/app/api/face_auth.py:19-191 | at most one audit row, and none exactly for 404 and 500; 400 and 401 write `no_face`/`no_match` rows at 0.0; 403 writes `denied`; success writes `success` with the match's person and confidence |
| FaceAuth.LoginCascadeOrder | backend/app/api/face_auth.py:112-163 | the inactive check comes before the permission check, and each denial keeps the match similarity; a token is issued exactly for an active person with the permission, for the first match |
| FaceAuth.UnknownPersonIsNotAudited | backend/app/api/face_auth.py:104-108 | a match unknown to the database gives 404 and no audit row |
| FaceAuth.NoMatchIsUnauthorized | backend/app/api/face_auth.py:72-86 | an empty store answer gives 401 and one `no_match` row at 0.0 |
| FaceAuth.AuditTable.Insert | backend/app/api/face_auth.py:156-163 | appends exactly one audit row |
| FaceAuth.FaceLoginFaults | backend/app/api/face_auth.py:186-191 | a raising extractor, a face without `quality_score`, a raising vector store or person lookup each give 500 "Face ID authentication failed: " + the message, with no audit row |
| FaceAuth.AuditTable.FaceIdLogin | backend/app/api/face_auth.py:19-191 | returns `FaceLogin`'s response and appends its audit rows |
| FaceAuth.PageClausePlaceholders | backend/app/api/face_auth.py:229 | `LIMIT %s OFFSET %s` holds two placeholders |
| FaceAuth.WhereClausePlaceholders | backend/app/api/face_auth.py:203-210 | the WHERE clause starts with `1=1` and holds one placeholder per filter parameter |
| FaceAuth.ListingQueriesAreWellFormed | backend/app/api/face_auth.py:203-237 | both statements share one WHERE clause starting with `1=1`; the count's parameters are the rows' parameters minus size and offset; each statement binds every placeholder exactly once |
| FaceAuth.BuildAuthLogQueries | backend/app/api/face_auth.py:203-237 | the appends produce exactly the listing's two statements |
| FaceAuth.GetFaceAuthLogs | backend/app/api/face_auth.py:194-252 | succeeds exactly when both statements answer; the total is the first count row or 0; any failure is "Failed to retrieve face authentication logs" |
| FaceAuth.FaceAuthStats | backend/app/api/face_auth.py:255-312 | 500 exactly when the query raises; no row gives the all-zero record; otherwise every counter and average is the row's value, or 0 when it is `None`, and the rate is success per hundred attempts (0 without attempts) |
| Persons.GetPerson | backend/app/services/person_service.py:56-70 | an empty lookup raises not-found; any other failure returns `None`; otherwise the first row |
| Persons.ExistingPerson | backend/app/services/person_service.py:116-118 | a caller sees a failed lookup and a missing person as the same not-found error |
| Persons.Creation | backend/app/services/person_service.py:22-54 | one insert of a row with `photo_count` 0 and `created_by` the caller; an empty answer is "Failed to create person"; an exception is "Person creation failed" |
| Persons.NameFilter | backend/app/services/person_service.py:82-83 | a name filter exactly for a non-empty search, matching it anywhere in the name |
| Persons.ListPersons | backend/app/services/person_service.py:72-110 | one newest-first page; a count query with the same filter and no range; `has_next` as in the recognition listing; any failure is "Failed to retrieve persons" |
| Persons.UpdateFields | backend/app/services/person_service.py:121-129 | exactly the given fields among name, description and active, with their new values, and always `updated_at` |
| Persons.Updating | backend/app/services/person_service.py:112-151 | no write without an existing person; otherwise one partial update of that row; an empty answer is "Failed to update person"; an exception is "Person update failed" |
| Persons.ImageDeletions | backend/app/services/person_service.py:169-170 | one file deletion per stored path, in order |
| Persons.DeletionSteps | backend/app/services/person_service.py:167-176 | the photo files, then the photo rows, then the person row |
| Persons.Removal | backend/app/services/person_service.py:167-176 | the writes issued are a non-empty prefix of the steps, every one but the last answered, and the call fails with "Person deletion failed" exactly when the last one raised; on success every step was issued |
| Persons.Deleting | backend/app/services/person_service.py:153-188 | no write and not-found without a person; otherwise the embeddings are deleted first whatever they answer; a failed photo-path read stops after that write; every later failure is "Person deletion failed" |
| Persons.FirstFailure | backend/app/services/person_service.py:167-176 | every step before the index answered, and the step at it raised |
| Persons.FirstFailureAppend | backend/app/services/person_service.py:167-176 | the first failure of two plans run one after the other |
| Persons.DeletionOutcome | backend/app/services/person_service.py:153-188 | nothing is written without a person; the embedding deletion comes first and its failure is ignored; success exactly when the photo paths are read and every later step answers, and then every step was issued; any other failure is "Person deletion failed" |
| Persons.RemovalCases | backend/app/services/person_service.py:169-176 | the writes issued by the step that fails first |
| Persons.PersonRowGoesLast | backend/app/services/person_service.py:173-176 | the person row is deleted last, and only after every file and the photo rows were deleted without an error |
| Persons.Collect | backend/app/services/person_service.py:206-235 | at most one record per image, all for the person; embeddings are collected only together with a record |
| Persons.CollectConcat | backend/app/services/person_service.py:206 | collection over a concatenated image list is the concatenation of the collections |
| Persons.SkippedImageLeavesNoTrace | backend/app/services/person_service.py:207-235 | a rejected image, or one whose extraction raises, changes nothing |
| Persons.AcceptedImageAddsOneRecord | backend/app/services/person_service.py:218-232 | an accepted image adds all its embeddings and exactly one record |
| Persons.CollectPhotoRecords | backend/app/services/person_service.py:202-235 | the loop computes `Collect`, and `successful_count == len(photo_records)` |
| Persons.Adding | backend/app/services/person_service.py:190-269 | the summary counts; writes exactly when an embedding was collected, in the order upsert, photo rows, then count = old count (default 0) + successes; the summary is returned exactly when nothing was collected or all three writes answer on a non-`None` count; the writes stop at the first raising one, and a `None` count stops after the photo rows; errors are not-found or "Failed to add photos to person" |
| Persons.PhotoWithoutFaceIsReportedAdded | backend/app/services/person_service.py:218-258 | a stored image without a face is reported as one photo added while nothing is written |
| Persons.PersonService.Perform | backend/app/services/person_service.py:34 | records exactly one write and returns the store's answer |
| Persons.PersonService.CreatePerson | backend/app/services/person_service.py:22-54 | result and writes of `Creation` |
| Persons.PersonService.BuildUpdate | backend/app/services/person_service.py:121-129 | the conditional insertions build `UpdateFields` |
| Persons.PersonService.UpdatePerson | backend/app/services/person_service.py:112-151 | result and writes of `Updating` |
| Persons.PersonService.DeleteImages | backend/app/services/person_service.py:169-170 | issues the file deletions up to and including the first that raises |
| Persons.PersonService.RemoveStoredData | backend/app/services/person_service.py:167-176 | result and writes of `Removal` |
| Persons.PersonService.DeletePerson | backend/app/services/person_service.py:153-188 | result and writes of `Deleting` |
| Persons.PersonService.AddPhotosToPerson | backend/app/services/person_service.py:190-269 | result and writes of `Adding` |
| Auth.Register | backend/app/api/auth.py:17-71 | a taken email is refused with 400, then a taken username; only then is a row inserted, with the hashed password and `is_active` True; an empty insert answer is "Failed to create user"; a raising email lookup, username lookup or insert is 500 "Registration failed" |
| Auth.EmailCheckedBeforeUsername | backend/app/api/auth.py:22-34 | with a taken email the username lookup's answer does not matter and nothing is inserted |
| Auth.Login | backend/app/api/auth.py:74-114 | success exactly for a found user with a verified password and an active flag; the token has the user's id and username and 30 minutes; unexpected errors are "Login failed" |
| Auth.UnknownUserLooksLikeWrongPassword | backend/app/api/auth.py:83-90 | an unknown login and a wrong password give the same error |
| Auth.ActiveCheckFollowsPassword | backend/app/api/auth.py:89-94 | "Account is disabled" only with a verified password; a missing flag counts as active |
| Analytics.DayCountOf | backend/app/api/analytics.py:44-52 | the day's count, with `None` read as 0, dated like its row |
| Analytics.DayRateOf | backend/app/api/analytics.py:44-57 | the day's success rate per hundred attempts, 0 without attempts, dated like its row |
| Analytics.BuildDailySeries | backend/app/api/analytics.py:39-57 | one count entry and one rate entry per row, in row order, with equal dates |
| Analytics.TopPersons | backend/app/api/analytics.py:74-82 | one entry per row, in order, with its name and count |
| Analytics.TopPersonsAppend | backend/app/api/analytics.py:76-82 | the mapping commutes with splitting the rows, so the query order is kept |
| Analytics.AverageTime | backend/app/api/analytics.py:88 | 0 without a row or with a `None` average, the average otherwise |
| Analytics.Digits | backend/app/api/analytics.py:109 | a non-empty string of decimal digits |
| Analytics.DigitsRoundTrip | backend/app/api/analytics.py:109 | the digits read back as the number |
| Analytics.ZeroPad2 | backend/app/api/analytics.py:109 | at least two characters, all decimal digits for a non-negative hour (a leading '0' below 10), a '-' then digits otherwise |
| Analytics.PeakHour | backend/app/api/analytics.py:107-109 | "N/A" without a row or hour; otherwise a label ending in ":00" |
| Analytics.PeakHourRoundTrip | backend/app/api/analytics.py:109 | the label's hour part reads back as the hour; an hour below 100 gives a five-character label |
| Analytics.GetAnalyticsOverview | backend/app/api/analytics.py:13-127 | succeeds exactly when every query answers, and then is built from the series, top persons, average, `total_vectors` (default 0) and peak hour; the first of the five queries to raise gives 500 "Failed to retrieve analytics: " + its message |
| Analytics.PersonAnalytics | backend/app/api/analytics.py:130-215 | 404 for an unknown person; a missing statistics row reads as zero recognitions and no last recognition; a present row gives its counts, average confidence (0 for `None`) and last recognition; a raising person, statistics or trend query gives 500 "Failed to retrieve person analytics: " + its message |
| LiveDetection.Verdict | backend/simple_main.py:143-152 | spoofing exactly when sharpness < 100 or brightness is outside 50..200; liveness 0.2 when blurred, 0.3 for bad brightness, else 0.8 |
| LiveDetection.Detect | backend/simple_main.py:109-190 | no face gives `no_face` without metrics; success exactly when the rule does not fire; spoofing exactly when it does, echoing the metrics and liveness; `error` exactly when the face count raises, or the metrics raise once a face is found, with "Erro no processamento: " + that message |
| LiveDetection.NoFaceIgnoresMetrics | backend/simple_main.py:126-131 | without a face, the quality metrics are never consulted |
| LiveDetection.AntiSpoofingFlagIsIgnored | backend/simple_main.py:113 | the `anti_spoofing` field does not change the response |
| LiveDetection.BrightnessBoundsAreAccepted | backend/simple_main.py:150-152 | a sharp image exactly at brightness 50 or 200 is live |
| Validation.LastDot | backend/app/utils/validation.py:9 | the index of the last '.', or -1 |
| Validation.ExtensionOfSuffix | backend/app/utils/validation.py:9 | a name ending in "." + ext, with ext free of dots, has extension ext |
| Validation.SuffixOfExtension | backend/app/utils/validation.py:9 | a name with extension ext ends in "." + ext |
| Validation.ImageSuffixIsExtension | backend/app/utils/validation.py:7-11 | the suffix rule holds exactly when the text after the last dot is png, jpg or jpeg |
| Validation.UpperCaseExtensionIsRefused | backend/app/utils/validation.py:9 | the check is case-sensitive: "a.PNG" is refused |
| Validation.PhotoErrors | backend/app/utils/validation.py:7-11 | one error per photo without an image suffix, at that photo's index |
| Validation.ValidatePerson | backend/app/utils/validation.py:3-11 | valid exactly for a 1..100-character name and photos that all pass; a valid record is returned unchanged; an invalid one reports the name-length error exactly when the name fails, and a photo-format error for index i exactly when photo i fails |
| Validation.ValidateImage | backend/app/utils/validation.py:13-20 | valid exactly with an image suffix, returned unchanged |
| Validation.ValidateUser | backend/app/utils/validation.py:22-30 | valid exactly for a 3..50-character alphanumeric username and a password of at least 6 characters; each failed rule is reported; the alphanumeric rule is reported only for a username of valid length |
| Config.Missing | backend/app/config.py:95-98 | no more missing names than required names |
| Config.MissingMembers | backend/app/config.py:96-98 | a name is missing exactly when it is required and unset or empty |
| Config.MissingAppend | backend/app/config.py:96-98 | missing names keep their declaration order |
| Config.ValidateEnvironment | backend/app/config.py:82-103 | the loop computes the missing list; fails exactly when it is non-empty, with the names joined by ", " after the fixed prefix |
| Config.NothingUnsetNothingMissing | backend/app/config.py:96-98 | a list of set names has nothing missing |
| Config.CompleteEnvironmentPasses | backend/app/config.py:87-100 | an environment that sets every required variable passes |
| Config.LoadSettings | backend/app/config.py:6-47 | the settings load exactly when every field without a default is present; the defaults are threshold 0.6, 10485760 bytes (10 MiB) and 30 minutes; the service key is the `SUPABASE_KEY` value |
| Config.CheckIsWeakerThanSettings | backend/app/config.py:87-93 | an environment can pass the check while lacking `DATABASE_URL`, which the settings require |
| ImageProcessor.SizeZeroIffZeroDimension | backend/app/services/image_processor.py:18 | the size is 0 exactly when a dimension is 0 |
| ImageProcessor.ValidateImage | backend/app/services/image_processor.py:17-22 | valid exactly for a present three-dimensional image with 3 channels and non-zero height and width |
| ImageProcessor.RefusedShapes | backend/app/services/image_processor.py:18-21 | zero-size, two-dimensional, four-channel and empty shapes are refused |

## Left out

- Time and floating point: processing times, `round(...)`, `float` averages and `datetime.utcnow()` are not modelled. Rates are exact reals. The update time is a parameter `now`.
- The counts by time window in `get_recognition_stats` (today, this week, this month) and its averages are not modelled; they depend on the clock and on float averages.
- RecognitionStatsOf: a failure of the unmodelled average or time-window queries also gives "Failed to retrieve recognition statistics" in the source; the model only has the two count queries, so it states success exactly when those two answer.
- Recognition.RecognitionService.LogRecognition: the source swallows a failed insert, so no row is written. The model assumes every insert succeeds.
- FaceAuth.FaceLogin: an audit insert that raises turns into a 500 in the source. The model assumes audit inserts succeed.
- FaceAuth.FaceLogin: the access-token string and the processing time are not modelled. The token is represented by its claims.
- FaceAuth.FaceLogin: an `HTTPException` raised by a collaborator is re-raised with its own code and detail in the source (the vector-store wrapper raises 500 "Error searching embeddings: ..."). Collaborator errors are plain messages here, so the model always wraps them as 500 "Face ID authentication failed: ...".
- Auth.Login: password verification is an uninterpreted function. Token encoding is not modelled; the token is its claims and lifetime. The `user['email']` lookup used only for logging is not modelled.
- Auth.Register: the hash is an uninterpreted function. The `User(**created_user)` conversion is not modelled; the created row is returned as read.
- The `/me` and `/refresh` handlers of `auth.py` are not modelled; they are token plumbing.
- `get_person_stats` in `person_service.py` is not modelled; it only reads three counts.
- Persons.Adding: a face-recognition exception raised by batch processing or by the vector upsert is re-raised as itself in the source. The model reports every failure of those calls as the 500 error.
- Persons.Adding: the image processor's batch step and the extractor are parameters. A `cv2.imread` failure is folded into the extractor's answer.
- Persons.Collect: the source appends an image's embeddings before it builds the photo record, so a `KeyError` while building the record would leave embeddings without a record. The typed image data of the model has every key, so embeddings are always collected together with a record.
- Recognition.Identify: every exception of a collaborator is a generic one. An extractor or store raising the service's own no-face or recognition-failure exception would take that exception's branch (no-face result, or re-raise without a row in verification); the model takes the generic branch.
- Vector-store internals, the face model and image-library numerics (Laplacian variance, brightness) are parameters. This also covers the resize and normalise helpers of `image_processor.py`.
- Validation.ValidateUser: `str.isalnum` is taken over ASCII letters and digits only; Unicode letters and digits are not modelled.
- Validation: pydantic's error texts, its error-collection order and its coercion of inputs are not modelled; the errors are tags.
- Analytics.PeakHour: the hour read from `EXTRACT(HOUR ...)` is an integer. The truncation of a fractional value by `int(...)` is not modelled.
- The exception classes used for person-not-found and authentication failures are not defined in `exceptions.py`. They are modelled as error variants.
- Config.LoadSettings: overrides of defaulted fields from the environment or a `.env` file, and case-insensitive names, are not modelled. `create_directories` and the start-up printing are not modelled.
- The mock endpoints of `simple_main.py`, with their random responses and sleeps, are not modelled.
- The async handlers run no real concurrency. Every call is modelled sequentially.
