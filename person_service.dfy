/** The person service: creating, reading, listing, updating and deleting
    enrolled persons, and enrolling photos of a person (collecting the
    embeddings of every processed image and storing them with the photo
    records and the new photo count).

    Every database read is a parameter whose answer is an `Outcome`. Every
    write (to the database, the vector store or the image files) is a
    `Write` value; the service object keeps the writes it issued, in order,
    and one parameter `exec` answers each of them. */
module Persons {
  import opened Common
  import Pagination
  import Recognition

  type Embedding = Recognition.Embedding

  /** A `persons` row. `photoCount` is read with `.get("photo_count", 0)`. */
  datatype StoredPerson = StoredPerson(
    id: string, name: string, description: Option<string>, active: bool, photoCount: Field<int>)

  /** The fields of a creation request (`active` defaults to true in the request model). */
  datatype PersonInput = PersonInput(name: string, description: Option<string>, active: bool)

  /** The row `create_person` inserts. */
  datatype NewPerson = NewPerson(
    name: string, description: Option<string>, active: bool, photoCount: int, createdBy: string)

  /** A partial update: `None` means the field was not given. */
  datatype PersonUpdate = PersonUpdate(name: Option<string>, description: Option<string>, active: Option<bool>)

  datatype UpdateValue = Text(text: string) | Flag(flag: bool)

  /** What the image processor reports for one uploaded image. */
  datatype ImageData = ImageData(
    filename: string, filepath: string, width: int, height: int, fileSize: int, qualityScore: real)

  datatype ProcessedImage = Stored(index: int, data: ImageData) | Rejected(index: int)

  /** A `person_photos` row. */
  datatype PhotoRecord = PhotoRecord(
    personId: string, filename: string, filepath: string, width: int, height: int,
    fileSize: int, qualityScore: real)

  /** A write to one of the stores. */
  datatype Write =
    | InsertPerson(person: NewPerson)
    | UpdatePersonRow(personId: string, fields: map<string, UpdateValue>)
    | DeleteEmbeddings(personId: string)
    | DeleteImage(path: string)
    | DeletePhotoRows(personId: string)
    | DeletePersonRow(personId: string)
    | UpsertEmbeddings(personId: string, embeddings: seq<Embedding>, personName: string)
    | InsertPhotos(records: seq<PhotoRecord>)
    | SetPhotoCount(personId: string, count: int)

  /** The errors the service raises: the person-not-found exception, or an
      HTTP error with its status code and detail. */
  datatype PersonError = PersonNotFound(personId: string) | HttpError(code: nat, detail: string)

  /** The outcome of one operation: its result and the writes it issued. */
  datatype Effect<T> = Effect(result: Result<T, PersonError>, writes: seq<Write>)

  /** `get_person`: an empty answer raises not-found; any other failure of
      the lookup is swallowed into `None`. */
  function GetPerson(personId: string, lookup: string -> Outcome<seq<StoredPerson>>)
    : (r: Result<Option<StoredPerson>, PersonError>)
    ensures r == Err(PersonNotFound(personId)) <==> lookup(personId) == Answer([])
    ensures r == Ok(None) <==> lookup(personId).Raises?
    ensures r.Ok? && r.value.Some? <==> lookup(personId).Answer? && lookup(personId).value != []
    ensures r.Ok? && r.value.Some? ==> r.value.value == lookup(personId).value[0]
  {
    match lookup(personId)
    case Raises(_) => Ok(None)
    case Answer(rows) => if rows == [] then Err(PersonNotFound(personId)) else Ok(Some(rows[0]))
  }

  /** `existing = await self.get_person(id)` followed by
      `if not existing: raise PersonNotFoundException(id)`: to its callers
      a failed lookup and a missing person are the same not-found error. */
  function ExistingPerson(personId: string, lookup: string -> Outcome<seq<StoredPerson>>)
    : (r: Result<StoredPerson, PersonError>)
    ensures r.Ok? <==> lookup(personId).Answer? && lookup(personId).value != []
    ensures r.Ok? ==> r.value == lookup(personId).value[0]
    ensures r.Err? ==> r.error == PersonNotFound(personId)
  {
    match GetPerson(personId, lookup)
    case Err(e) => Err(e)
    case Ok(found) => if found.None? then Err(PersonNotFound(personId)) else Ok(found.value)
  }

  /** `create_person`: one insert of a row with no photos, created by the
      calling user. */
  function Creation(data: PersonInput, userId: string, exec: Write -> Outcome<seq<StoredPerson>>)
    : (e: Effect<StoredPerson>)
    ensures |e.writes| == 1 && e.writes[0].InsertPerson?
    ensures var p := e.writes[0].person;
            p.photoCount == 0 && p.createdBy == userId
            && p.name == data.name && p.description == data.description && p.active == data.active
    ensures e.result.Ok? <==> exec(e.writes[0]).Answer? && exec(e.writes[0]).value != []
    ensures e.result.Ok? ==> e.result.value == exec(e.writes[0]).value[0]
    ensures exec(e.writes[0]) == Answer([]) ==> e.result == Err(HttpError(InternalServerError, "Failed to create person"))
    ensures exec(e.writes[0]).Raises? ==> e.result == Err(HttpError(InternalServerError, "Person creation failed"))
  {
    var w := InsertPerson(NewPerson(data.name, data.description, data.active, 0, userId));
    match exec(w)
    case Raises(_) => Effect(Err(HttpError(InternalServerError, "Person creation failed")), [w])
    case Answer(rows) =>
      if rows == [] then Effect(Err(HttpError(InternalServerError, "Failed to create person")), [w])
      else Effect(Ok(rows[0]), [w])
  }

  /** A query on the `persons` table: the optional `ilike` pattern on the
      name, and for the data query the newest-first order and the row range. */
  datatype PersonsQuery = PersonsQuery(namePattern: Option<string>, newestFirst: bool, range: Option<Pagination.RowRange>)

  datatype PersonsPage = PersonsPage(persons: seq<StoredPerson>, total: int, page: int, size: int, hasNext: bool)

  /** The name filter of a listing: only a non-empty search adds one, and it
      matches the search text anywhere in the name. */
  function NameFilter(search: Option<string>): (f: Option<string>)
    ensures f.Some? <==> NonEmpty(search)
    ensures f.Some? ==> f.value == "%" + search.value + "%"
  {
    if NonEmpty(search) then Some("%" + search.value + "%") else None
  }

  /** `list_persons`: the data query asks for one page, newest first; the
      count query carries the same name filter and no range. A count that is
      `None` cannot be compared with `offset + size`, which fails the listing
      like any other error. */
  function ListPersons(
    page: int, size: int, search: Option<string>,
    fetch: PersonsQuery -> Outcome<seq<StoredPerson>>,
    count: PersonsQuery -> Outcome<Option<int>>)
    : (r: Result<PersonsPage, PersonError>)
    ensures var data := PersonsQuery(NameFilter(search), true, Some(Pagination.PageRange(page, size)));
            var counting := PersonsQuery(NameFilter(search), false, None);
            && (r.Ok? <==> fetch(data).Answer? && count(counting).Answer? && count(counting).value.Some?)
            && (r.Err? ==> r.error == HttpError(InternalServerError, "Failed to retrieve persons"))
            && (r.Ok? ==>
                  && r.value.persons == fetch(data).value
                  && r.value.total == count(counting).value.value
                  && r.value.page == page && r.value.size == size
                  && r.value.hasNext == Pagination.HasNext(page, size, r.value.total))
  {
    var filter := NameFilter(search);
    var result := fetch(PersonsQuery(filter, true, Some(Pagination.PageRange(page, size))));
    var counted := count(PersonsQuery(filter, false, None));
    if result.Raises? || counted.Raises? || counted.value.None? then
      Err(HttpError(InternalServerError, "Failed to retrieve persons"))
    else
      var total := counted.value.value;
      Ok(PersonsPage(result.value, total, page, size, Pagination.Offset(page, size) + size < total))
  }

  /** The dictionary `update_person` sends: exactly the given fields, each
      with its new value, and always the update time. */
  function UpdateFields(u: PersonUpdate, now: string): (d: map<string, UpdateValue>)
    ensures forall k :: k in d <==>
      k == "updated_at" || (k == "name" && u.name.Some?)
      || (k == "description" && u.description.Some?) || (k == "active" && u.active.Some?)
    ensures d["updated_at"] == Text(now)
    ensures u.name.Some? ==> d["name"] == Text(u.name.value)
    ensures u.description.Some? ==> d["description"] == Text(u.description.value)
    ensures u.active.Some? ==> d["active"] == Flag(u.active.value)
  {
    var withName := if u.name.Some? then map["name" := Text(u.name.value)] else map[];
    var withDescription :=
      if u.description.Some? then withName["description" := Text(u.description.value)] else withName;
    var withActive := if u.active.Some? then withDescription["active" := Flag(u.active.value)] else withDescription;
    withActive["updated_at" := Text(now)]
  }

  /** `update_person`: no write without an existing person; otherwise one
      partial update of that person's row. */
  function Updating(
    personId: string, u: PersonUpdate, now: string,
    lookup: string -> Outcome<seq<StoredPerson>>,
    exec: Write -> Outcome<seq<StoredPerson>>)
    : (e: Effect<StoredPerson>)
    ensures e.writes == [] <==> ExistingPerson(personId, lookup).Err?
    ensures e.writes == [] ==> e.result == Err(PersonNotFound(personId))
    ensures e.writes != [] ==> e.writes == [UpdatePersonRow(personId, UpdateFields(u, now))]
    ensures e.writes != [] ==>
      && (e.result.Ok? <==> exec(e.writes[0]).Answer? && exec(e.writes[0]).value != [])
      && (e.result.Ok? ==> e.result.value == exec(e.writes[0]).value[0])
      && (exec(e.writes[0]) == Answer([]) ==> e.result == Err(HttpError(InternalServerError, "Failed to update person")))
      && (exec(e.writes[0]).Raises? ==> e.result == Err(HttpError(InternalServerError, "Person update failed")))
  {
    match ExistingPerson(personId, lookup)
    case Err(err) => Effect(Err(err), [])
    case Ok(_) =>
      var w := UpdatePersonRow(personId, UpdateFields(u, now));
      match exec(w)
      case Raises(_) => Effect(Err(HttpError(InternalServerError, "Person update failed")), [w])
      case Answer(rows) =>
        if rows == [] then Effect(Err(HttpError(InternalServerError, "Failed to update person")), [w])
        else Effect(Ok(rows[0]), [w])
  }

  /** One file deletion per stored photo path, in the order the rows come. */
  function ImageDeletions(paths: seq<string>): (ws: seq<Write>)
    ensures |ws| == |paths|
    ensures forall i :: 0 <= i < |paths| ==> ws[i] == DeleteImage(paths[i])
  {
    if |paths| == 0 then [] else ImageDeletions(paths[..|paths| - 1]) + [DeleteImage(paths[|paths| - 1])]
  }

  /** The steps of `delete_person` after the vector-store deletion: the
      photo files, then the photo rows, then the person row. */
  function DeletionSteps(personId: string, paths: seq<string>): (plan: seq<Write>)
    ensures |plan| == |paths| + 2
    ensures forall i :: 0 <= i < |paths| ==> plan[i] == DeleteImage(paths[i])
    ensures plan[|paths|] == DeletePhotoRows(personId)
    ensures plan[|paths| + 1] == DeletePersonRow(personId)
  {
    ImageDeletions(paths) + [DeletePhotoRows(personId), DeletePersonRow(personId)]
  }

  /** The index of the first write of `plan` that raises, or `|plan|`. */
  function FirstFailure(plan: seq<Write>, exec: Write -> Outcome<seq<StoredPerson>>): (k: nat)
    ensures k <= |plan|
    ensures forall j :: 0 <= j < k ==> exec(plan[j]).Answer?
    ensures k < |plan| ==> exec(plan[k]).Raises?
  {
    if |plan| == 0 then 0
    else if exec(plan[0]).Raises? then 0
    else 1 + FirstFailure(plan[1..], exec)
  }

  /** The first failure of a concatenation of plans. */
  lemma {:induction false} FirstFailureAppend(a: seq<Write>, b: seq<Write>, exec: Write -> Outcome<seq<StoredPerson>>)
    ensures FirstFailure(a + b, exec)
            == if FirstFailure(a, exec) < |a| then FirstFailure(a, exec) else |a| + FirstFailure(b, exec)
  {
    if |a| > 0 {
      assert (a + b)[0] == a[0];
      assert (a + b)[1..] == a[1..] + b;
      FirstFailureAppend(a[1..], b, exec);
    } else {
      assert a + b == b;
    }
  }

  const DeletionFailed := HttpError(InternalServerError, "Person deletion failed")

  /** The steps of `delete_person` once the photo paths are read, run in
      order until one raises. */
  function Removal(personId: string, paths: seq<string>, exec: Write -> Outcome<seq<StoredPerson>>): (e: Effect<bool>)
    // the writes issued are a non-empty prefix of the plan
    ensures 0 < |e.writes| <= |paths| + 2 && e.writes == DeletionSteps(personId, paths)[..|e.writes|]
    // every write but the last answered; the call fails exactly when the last one raised
    ensures forall j :: 0 <= j < |e.writes| - 1 ==> exec(e.writes[j]).Answer?
    ensures e.result.Err? <==> exec(e.writes[|e.writes| - 1]).Raises?
    ensures e.result.Err? ==> e.result.error == DeletionFailed
    ensures e.result.Ok? ==> e.result.value && e.writes == DeletionSteps(personId, paths)
  {
    var plan := DeletionSteps(personId, paths);
    var k := FirstFailure(plan, exec);
    if k == |plan| then Effect(Ok(true), plan) else Effect(Err(DeletionFailed), plan[..k + 1])
  }

  /** `delete_person`: the embeddings are deleted first and a failure there
      is ignored; the photo paths are read; then the steps run in order
      until one raises. */
  function Deleting(
    personId: string,
    lookup: string -> Outcome<seq<StoredPerson>>,
    photos: string -> Outcome<seq<string>>,
    exec: Write -> Outcome<seq<StoredPerson>>)
    : (e: Effect<bool>)
    ensures ExistingPerson(personId, lookup).Err? ==> e == Effect(Err(PersonNotFound(personId)), [])
    // with a person, the embeddings are deleted first and their answer is not consulted
    ensures ExistingPerson(personId, lookup).Ok? ==> |e.writes| > 0 && e.writes[0] == DeleteEmbeddings(personId)
    ensures ExistingPerson(personId, lookup).Ok? && photos(personId).Raises? ==>
      e == Effect(Err(DeletionFailed), [DeleteEmbeddings(personId)])
    ensures ExistingPerson(personId, lookup).Ok? && e.result.Err? ==> e.result.error == DeletionFailed
  {
    match ExistingPerson(personId, lookup)
    case Err(err) => Effect(Err(err), [])
    case Ok(_) =>
      var head := [DeleteEmbeddings(personId)];
      match photos(personId)
      case Raises(_) => Effect(Err(DeletionFailed), head)
      case Answer(paths) =>
        var rest := Removal(personId, paths, exec);
        Effect(rest.result, head + rest.writes)
  }

  /** What `delete_person` does: nothing without a person; otherwise the
      embeddings first, whose failure is ignored; success exactly when the
      photo paths are read and every later step succeeds, and then every
      step was issued; any failure after the lookup is one deletion error. */
  lemma DeletionOutcome(
    personId: string,
    lookup: string -> Outcome<seq<StoredPerson>>,
    photos: string -> Outcome<seq<string>>,
    exec: Write -> Outcome<seq<StoredPerson>>)
    ensures var e := Deleting(personId, lookup, photos, exec);
            && (e.writes == [] <==> ExistingPerson(personId, lookup).Err?)
            && (e.writes != [] ==> e.writes[0] == DeleteEmbeddings(personId))
            && (e.result.Err? ==> e.result.error == if e.writes == [] then PersonNotFound(personId) else DeletionFailed)
            && (e.result.Ok? <==>
                  && ExistingPerson(personId, lookup).Ok?
                  && photos(personId).Answer?
                  && forall w :: w in DeletionSteps(personId, photos(personId).value) ==> exec(w).Answer?)
            && (e.result.Ok? ==>
                  e.result.value && e.writes == [DeleteEmbeddings(personId)] + DeletionSteps(personId, photos(personId).value))
            && (e.writes != [] && e.writes[|e.writes| - 1] != DeletePersonRow(personId) ==> e.result.Err?)
  {
    if ExistingPerson(personId, lookup).Ok? && photos(personId).Answer? {
      var plan := DeletionSteps(personId, photos(personId).value);
      var k := FirstFailure(plan, exec);
      if k < |plan| {
        assert plan[k] in plan;
      }
    }
  }

  /** `Removal` by the step that fails first. */
  lemma RemovalCases(personId: string, paths: seq<string>, exec: Write -> Outcome<seq<StoredPerson>>)
    ensures var images := ImageDeletions(paths);
            var k := FirstFailure(images, exec);
            var e := Removal(personId, paths, exec);
            && (k < |images| ==> e == Effect(Err(DeletionFailed), images[..k + 1]))
            && (k == |images| && exec(DeletePhotoRows(personId)).Raises? ==>
                  e == Effect(Err(DeletionFailed), images + [DeletePhotoRows(personId)]))
            && (k == |images| && exec(DeletePhotoRows(personId)).Answer? && exec(DeletePersonRow(personId)).Raises? ==>
                  e == Effect(Err(DeletionFailed), images + [DeletePhotoRows(personId), DeletePersonRow(personId)]))
            && (k == |images| && exec(DeletePhotoRows(personId)).Answer? && exec(DeletePersonRow(personId)).Answer? ==>
                  e == Effect(Ok(true), images + [DeletePhotoRows(personId), DeletePersonRow(personId)]))
  {
    var images := ImageDeletions(paths);
    var tail := [DeletePhotoRows(personId), DeletePersonRow(personId)];
    var plan := images + tail;
    FirstFailureAppend(images, tail, exec);
    var k := FirstFailure(images, exec);
    if k < |images| {
      assert plan[..k + 1] == images[..k + 1];
    } else {
      assert tail[1..] == [DeletePersonRow(personId)];
      assert plan[..|images| + 1] == images + [DeletePhotoRows(personId)];
      assert plan[..|images| + 2] == plan;
    }
  }

  /** The person row is deleted last, and only after the photo files and
      the photo rows were all deleted without an error. */
  lemma PersonRowGoesLast(
    personId: string,
    lookup: string -> Outcome<seq<StoredPerson>>,
    photos: string -> Outcome<seq<string>>,
    exec: Write -> Outcome<seq<StoredPerson>>)
    ensures var e := Deleting(personId, lookup, photos, exec);
            DeletePersonRow(personId) in e.writes ==>
              && e.writes[|e.writes| - 1] == DeletePersonRow(personId)
              && forall j :: 1 <= j < |e.writes| - 1 ==> exec(e.writes[j]).Answer?
  {
    var e := Deleting(personId, lookup, photos, exec);
    if DeletePersonRow(personId) in e.writes && ExistingPerson(personId, lookup).Ok? && photos(personId).Answer? {
      var paths := photos(personId).value;
      var plan := DeletionSteps(personId, paths);
      var k := FirstFailure(plan, exec);
      var done := if k == |plan| then plan else plan[..k + 1];
      assert e.writes == [DeleteEmbeddings(personId)] + done;
      var i :| 0 <= i < |e.writes| && e.writes[i] == DeletePersonRow(personId);
      assert i >= 1 && plan[i - 1] == DeletePersonRow(personId);
      assert i - 1 == |paths| + 1;
      assert done == plan;
      forall j | 1 <= j < |e.writes| - 1
        ensures exec(e.writes[j]).Answer?
      {
        assert e.writes[j] == plan[j - 1];
      }
    }
  }

  /** The embeddings and photo records the loop of `add_photos_to_person`
      collects. */
  datatype Collected = Collected(embeddings: seq<Embedding>, records: seq<PhotoRecord>)

  function RecordOf(personId: string, d: ImageData): PhotoRecord {
    PhotoRecord(personId, d.filename, d.filepath, d.width, d.height, d.fileSize, d.qualityScore)
  }

  /** An image contributes when the processor stored it and the extractor
      answers for its file; otherwise the loop skips it. */
  predicate Accepted(p: ProcessedImage, extract: string -> Outcome<seq<Embedding>>) {
    p.Stored? && extract(p.data.filepath).Answer?
  }

  /** Every accepted image contributes all its embeddings and one record. */
  function Collect(processed: seq<ProcessedImage>, personId: string, extract: string -> Outcome<seq<Embedding>>)
    : (c: Collected)
    ensures |c.records| <= |processed|
    ensures forall r :: r in c.records ==> r.personId == personId
    ensures c.embeddings != [] ==> c.records != []
  {
    if |processed| == 0 then Collected([], [])
    else
      var c := Collect(processed[..|processed| - 1], personId, extract);
      var last := processed[|processed| - 1];
      if Accepted(last, extract) then
        Collected(c.embeddings + extract(last.data.filepath).value, c.records + [RecordOf(personId, last.data)])
      else c
  }

  /** Collection distributes over concatenation of the image list. */
  lemma {:induction false} CollectConcat(
    a: seq<ProcessedImage>, b: seq<ProcessedImage>, personId: string, extract: string -> Outcome<seq<Embedding>>)
    ensures var ca := Collect(a, personId, extract);
            var cb := Collect(b, personId, extract);
            Collect(a + b, personId, extract) == Collected(ca.embeddings + cb.embeddings, ca.records + cb.records)
  {
    if |b| == 0 {
      assert a + b == a;
    } else {
      var init := b[..|b| - 1];
      assert (a + b)[..|a + b| - 1] == a + init;
      assert (a + b)[|a + b| - 1] == b[|b| - 1];
      CollectConcat(a, init, personId, extract);
    }
  }

  /** An image that is rejected or whose extraction fails leaves no trace:
      the loop goes on as if it were not in the list. */
  lemma SkippedImageLeavesNoTrace(
    before: seq<ProcessedImage>, image: ProcessedImage, after: seq<ProcessedImage>,
    personId: string, extract: string -> Outcome<seq<Embedding>>)
    requires !Accepted(image, extract)
    ensures Collect(before + [image] + after, personId, extract) == Collect(before + after, personId, extract)
  {
    CollectConcat(before + [image], after, personId, extract);
    CollectConcat(before, [image], personId, extract);
    CollectConcat(before, after, personId, extract);
    assert [image][..0] == [];
  }

  /** An accepted image adds exactly one photo record and all of its embeddings. */
  lemma AcceptedImageAddsOneRecord(
    before: seq<ProcessedImage>, image: ProcessedImage, after: seq<ProcessedImage>,
    personId: string, extract: string -> Outcome<seq<Embedding>>)
    requires Accepted(image, extract)
    ensures var with := Collect(before + [image] + after, personId, extract);
            var without := Collect(before + after, personId, extract);
            && |with.records| == |without.records| + 1
            && |with.embeddings| == |without.embeddings| + |extract(image.data.filepath).value|
  {
    CollectConcat(before + [image], after, personId, extract);
    CollectConcat(before, [image], personId, extract);
    CollectConcat(before, after, personId, extract);
    assert [image][..0] == [];
  }

  /** The loop of `add_photos_to_person`: the counter always equals the
      number of photo records. */
  method CollectPhotoRecords(
    processed: seq<ProcessedImage>, personId: string, extract: string -> Outcome<seq<Embedding>>)
    returns (embeddings: seq<Embedding>, records: seq<PhotoRecord>, successfulCount: nat)
    ensures Collected(embeddings, records) == Collect(processed, personId, extract)
    ensures successfulCount == |records|
  {
    embeddings := [];
    records := [];
    successfulCount := 0;
    for i := 0 to |processed|
      invariant Collected(embeddings, records) == Collect(processed[..i], personId, extract)
      invariant successfulCount == |records|
    {
      assert processed[..i + 1][..i] == processed[..i];
      var image := processed[i];
      if image.Stored? {
        var extracted := extract(image.data.filepath);
        if extracted.Answer? {
          var faces := extracted.value;
          ghost var before := embeddings;
          for j := 0 to |faces|
            invariant embeddings == before + faces[..j]
          {
            embeddings := embeddings + [faces[j]];
          }
          assert faces[..|faces|] == faces;
          records := records + [RecordOf(personId, image.data)];
          successfulCount := successfulCount + 1;
        }
      }
    }
    assert processed[..|processed|] == processed;
  }

  /** The summary `add_photos_to_person` returns. */
  datatype PhotoSummary = PhotoSummary(processedImages: nat, successfulImages: nat, totalEmbeddings: nat, photosAdded: nat)

  const AddPhotosFailed := HttpError(InternalServerError, "Failed to add photos to person")

  /** `add_photos_to_person`: the stores are written only when at least one
      embedding was collected, and then in the order embeddings, photo
      rows, photo count. A `photo_count` column holding `None` cannot be
      added to, which fails the call after the first two writes. */
  function Adding(
    personId: string, images: seq<string>,
    lookup: string -> Outcome<seq<StoredPerson>>,
    batch: (seq<string>, string) -> Outcome<seq<ProcessedImage>>,
    extract: string -> Outcome<seq<Embedding>>,
    exec: Write -> Outcome<seq<StoredPerson>>)
    : (e: Effect<PhotoSummary>)
    ensures e.result.Err? ==> e.result.error == PersonNotFound(personId) || e.result.error == AddPhotosFailed
    ensures ExistingPerson(personId, lookup).Err? ==> e == Effect(Err(PersonNotFound(personId)), [])
    ensures ExistingPerson(personId, lookup).Ok? && batch(images, personId).Answer? ==>
      var person := ExistingPerson(personId, lookup).value;
      var c := Collect(batch(images, personId).value, personId, extract);
      && (e.result.Ok? ==> e.result.value == PhotoSummary(|images|, |c.records|, |c.embeddings|, |c.records|))
      // the summary is returned when nothing was collected, or when all three writes answer
      && (e.result.Ok? <==>
            || c.embeddings == []
            || (&& exec(UpsertEmbeddings(personId, c.embeddings, person.name)).Answer?
                && exec(InsertPhotos(c.records)).Answer?
                && person.photoCount.Get(0).Some?
                && exec(SetPhotoCount(personId, person.photoCount.Get(0).value + |c.records|)).Answer?))
      && (e.writes != [] <==> c.embeddings != [])
      && (e.writes != [] ==> e.writes[0] == UpsertEmbeddings(personId, c.embeddings, person.name))
      // a failing write is the last one issued
      && (c.embeddings != [] ==>
            var upsert := UpsertEmbeddings(personId, c.embeddings, person.name);
            var insert := InsertPhotos(c.records);
            && (exec(upsert).Raises? ==> e == Effect(Err(AddPhotosFailed), [upsert]))
            && (exec(upsert).Answer? && exec(insert).Raises? ==> e == Effect(Err(AddPhotosFailed), [upsert, insert]))
            && (exec(upsert).Answer? && exec(insert).Answer? && person.photoCount.Get(0) == None ==>
                  e == Effect(Err(AddPhotosFailed), [upsert, insert]))
            && (exec(upsert).Answer? && exec(insert).Answer? && person.photoCount.Get(0).Some? ==>
                  var setCount := SetPhotoCount(personId, person.photoCount.Get(0).value + |c.records|);
                  e.writes == [upsert, insert, setCount]
                  && (e.result.Err? <==> exec(setCount).Raises?)))
      && (e.result.Ok? && e.writes != [] ==>
            && person.photoCount.Get(0).Some?
            && e.writes == [UpsertEmbeddings(personId, c.embeddings, person.name), InsertPhotos(c.records),
                            SetPhotoCount(personId, person.photoCount.Get(0).value + |c.records|)])
    ensures batch(images, personId).Raises? ==> e.result.Err? && e.writes == []
  {
    match ExistingPerson(personId, lookup)
    case Err(err) => Effect(Err(err), [])
    case Ok(person) =>
      match batch(images, personId)
      case Raises(_) => Effect(Err(AddPhotosFailed), [])
      case Answer(processed) =>
        var c := Collect(processed, personId, extract);
        var summary := PhotoSummary(|images|, |c.records|, |c.embeddings|, |c.records|);
        if c.embeddings == [] then Effect(Ok(summary), [])
        else
          var upsert := UpsertEmbeddings(personId, c.embeddings, person.name);
          var insert := InsertPhotos(c.records);
          if exec(upsert).Raises? then Effect(Err(AddPhotosFailed), [upsert])
          else if exec(insert).Raises? then Effect(Err(AddPhotosFailed), [upsert, insert])
          else match person.photoCount.Get(0)
            case None => Effect(Err(AddPhotosFailed), [upsert, insert])
            case Some(stored) =>
              var setCount := SetPhotoCount(personId, stored + |c.records|);
              if exec(setCount).Raises? then Effect(Err(AddPhotosFailed), [upsert, insert, setCount])
              else Effect(Ok(summary), [upsert, insert, setCount])
  }

  /** The summary counts photos that were collected, not photos that were
      stored: a single stored image in which no face is found is reported
      as one photo added, while nothing is written. */
  lemma PhotoWithoutFaceIsReportedAdded(
    personId: string, images: seq<string>, d: ImageData,
    lookup: string -> Outcome<seq<StoredPerson>>,
    batch: (seq<string>, string) -> Outcome<seq<ProcessedImage>>,
    extract: string -> Outcome<seq<Embedding>>,
    exec: Write -> Outcome<seq<StoredPerson>>)
    requires lookup(personId).Answer? && lookup(personId).value != []
    requires batch(images, personId) == Answer([Stored(0, d)])
    requires extract(d.filepath) == Answer([])
    ensures var e := Adding(personId, images, lookup, batch, extract, exec);
            e.result.Ok? && e.result.value.photosAdded == 1 && e.result.value.totalEmbeddings == 0 && e.writes == []
  {
    var processed := [Stored(0, d)];
    assert processed[..0] == [];
    assert Collect(processed, personId, extract) == Collected([], [RecordOf(personId, d)]);
  }

  /** The person service object, with the writes it has issued so far. */
  class PersonService {
    var writes: seq<Write>

    constructor ()
      ensures writes == []
    {
      writes := [];
    }

    /** Issues one write and returns the store's answer. */
    method Perform(w: Write, exec: Write -> Outcome<seq<StoredPerson>>) returns (o: Outcome<seq<StoredPerson>>)
      modifies this
      ensures o == exec(w) && writes == old(writes) + [w]
    {
      writes := writes + [w];
      o := exec(w);
    }

    method CreatePerson(data: PersonInput, userId: string, exec: Write -> Outcome<seq<StoredPerson>>)
      returns (r: Result<StoredPerson, PersonError>)
      modifies this
      ensures var e := Creation(data, userId, exec);
              r == e.result && writes == old(writes) + e.writes
    {
      var personRow := NewPerson(data.name, data.description, data.active, 0, userId);
      var result := Perform(InsertPerson(personRow), exec);
      if result.Raises? {
        return Err(HttpError(InternalServerError, "Person creation failed"));
      }
      if |result.value| == 0 {
        return Err(HttpError(InternalServerError, "Failed to create person"));
      }
      r := Ok(result.value[0]);
    }

    /** The conditional filling of `update_dict`. */
    static method BuildUpdate(u: PersonUpdate, now: string) returns (d: map<string, UpdateValue>)
      ensures d == UpdateFields(u, now)
    {
      d := map[];
      if u.name.Some? {
        d := d["name" := Text(u.name.value)];
      }
      if u.description.Some? {
        d := d["description" := Text(u.description.value)];
      }
      if u.active.Some? {
        d := d["active" := Flag(u.active.value)];
      }
      d := d["updated_at" := Text(now)];
    }

    method UpdatePerson(
      personId: string, u: PersonUpdate, now: string,
      lookup: string -> Outcome<seq<StoredPerson>>,
      exec: Write -> Outcome<seq<StoredPerson>>)
      returns (r: Result<StoredPerson, PersonError>)
      modifies this
      ensures var e := Updating(personId, u, now, lookup, exec);
              r == e.result && writes == old(writes) + e.writes
    {
      var existing := GetPerson(personId, lookup);
      if existing.Err? || existing.value.None? {
        return Err(PersonNotFound(personId));
      }
      var fields := BuildUpdate(u, now);
      var result := Perform(UpdatePersonRow(personId, fields), exec);
      if result.Raises? {
        return Err(HttpError(InternalServerError, "Person update failed"));
      }
      if |result.value| == 0 {
        return Err(HttpError(InternalServerError, "Failed to update person"));
      }
      r := Ok(result.value[0]);
    }

    /** The loop of `delete_person` over the stored photo paths: one file
        deletion per path, up to the first that raises. */
    method DeleteImages(paths: seq<string>, exec: Write -> Outcome<seq<StoredPerson>>) returns (ok: bool)
      modifies this
      ensures var k := FirstFailure(ImageDeletions(paths), exec);
              && (ok <==> k == |paths|)
              && writes == old(writes) + ImageDeletions(paths)[..if ok then k else k + 1]
    {
      ghost var plan := ImageDeletions(paths);
      for i := 0 to |paths|
        invariant writes == old(writes) + plan[..i]
        invariant i <= FirstFailure(plan, exec)
      {
        assert plan[..i + 1] == plan[..i] + [DeleteImage(paths[i])];
        var deleted := Perform(DeleteImage(paths[i]), exec);
        if deleted.Raises? {
          return false;
        }
      }
      assert plan[..|paths|] == plan;
      ok := true;
    }

    /** The tail of `delete_person`: the photo files, the photo rows, the person row. */
    method RemoveStoredData(personId: string, paths: seq<string>, exec: Write -> Outcome<seq<StoredPerson>>)
      returns (r: Result<bool, PersonError>)
      modifies this
      ensures var e := Removal(personId, paths, exec);
              r == e.result && writes == old(writes) + e.writes
    {
      RemovalCases(personId, paths, exec);
      var filesDeleted := DeleteImages(paths, exec);
      if !filesDeleted {
        return Err(DeletionFailed);
      }
      var photoRows := Perform(DeletePhotoRows(personId), exec);
      if photoRows.Raises? {
        return Err(DeletionFailed);
      }
      var personRow := Perform(DeletePersonRow(personId), exec);
      if personRow.Raises? {
        return Err(DeletionFailed);
      }
      r := Ok(true);
    }

    method DeletePerson(
      personId: string,
      lookup: string -> Outcome<seq<StoredPerson>>,
      photos: string -> Outcome<seq<string>>,
      exec: Write -> Outcome<seq<StoredPerson>>)
      returns (r: Result<bool, PersonError>)
      modifies this
      ensures var e := Deleting(personId, lookup, photos, exec);
              r == e.result && writes == old(writes) + e.writes
    {
      var existing := GetPerson(personId, lookup);
      if existing.Err? || existing.value.None? {
        return Err(PersonNotFound(personId));
      }
      var ignored := Perform(DeleteEmbeddings(personId), exec);
      var found := photos(personId);
      if found.Raises? {
        return Err(DeletionFailed);
      }
      r := RemoveStoredData(personId, found.value, exec);
    }

    method AddPhotosToPerson(
      personId: string, images: seq<string>,
      lookup: string -> Outcome<seq<StoredPerson>>,
      batch: (seq<string>, string) -> Outcome<seq<ProcessedImage>>,
      extract: string -> Outcome<seq<Embedding>>,
      exec: Write -> Outcome<seq<StoredPerson>>)
      returns (r: Result<PhotoSummary, PersonError>)
      modifies this
      ensures var e := Adding(personId, images, lookup, batch, extract, exec);
              r == e.result && writes == old(writes) + e.writes
    {
      var existing := GetPerson(personId, lookup);
      if existing.Err? || existing.value.None? {
        return Err(PersonNotFound(personId));
      }
      var person := existing.value.value;
      var processed := batch(images, personId);
      if processed.Raises? {
        return Err(AddPhotosFailed);
      }
      var embeddings, records, successfulCount := CollectPhotoRecords(processed.value, personId, extract);
      if |embeddings| > 0 {
        var upserted := Perform(UpsertEmbeddings(personId, embeddings, person.name), exec);
        if upserted.Raises? {
          return Err(AddPhotosFailed);
        }
        if |records| > 0 {
          var inserted := Perform(InsertPhotos(records), exec);
          if inserted.Raises? {
            return Err(AddPhotosFailed);
          }
        }
        var current := person.photoCount.Get(0);
        if current.None? {
          return Err(AddPhotosFailed);
        }
        var counted := Perform(SetPhotoCount(personId, current.value + successfulCount), exec);
        if counted.Raises? {
          return Err(AddPhotosFailed);
        }
      }
      r := Ok(PhotoSummary(|images|, successfulCount, |embeddings|, |records|));
    }
  }
}
