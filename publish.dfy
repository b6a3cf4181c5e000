/** Publishing a step's results to the remote repository: uploading files
    into a dataset (`upload_files`), attaching metadata to files and
    datasets, finding the dataset for file results (`process_result_file`)
    and finding or creating the dataset for container results
    (`process_result_dataset`).

    Every remote request is an entry of a call log. What the repository
    answers is given by `Replies`, whose functions receive the log of the
    calls made before the request, so an answer may depend on earlier
    requests (a lookup after a create, say). */
module Publish {
  import opened Base
  import opened Values
  import opened Metadata
  import opened Format

  datatype Call =
    | UploadToDataset(datasetId: Value, path: Value)
    | DeleteFileMetadata(fileId: string)
    | UploadFileMetadata(fileId: string, metadata: Value)
    | GetDatasetByName(name: string)
    | CreateDataset(name: string)
    | RemoveDatasetMetadata(datasetId: Value)
    | UploadDatasetMetadata(datasetId: Value, metadata: Value)

  /** `upload` gives the new file's id or None for a failed upload; the
      deletion of file metadata succeeds or raises (false); `lookup` gives
      the id of a dataset by name, if one exists; `create` gives the id of
      the new dataset, or None when the request fails or its answer has no
      `id`. */
  datatype Replies = Replies(
    upload: (seq<Call>, Value, Value) -> Option<string>,
    deleteOk: (seq<Call>, string) -> bool,
    lookup: (seq<Call>, string) -> Option<string>,
    create: (seq<Call>, string) -> Option<string>)

  /** The host of the request and the step's identity (docker version and
      makeflow file), which every metadata envelope names. */
  datatype Publisher = Publisher(host: string, version: string, creator: string, replies: Replies)

  /** An outcome together with the call log after it: requests made before
      an exception stay in the log. */
  datatype Out<T> = Out(result: Result<T>, log: seq<Call>)

  /** `for x in v`: a list yields its items, a mapping its keys, a string
      its characters; anything else raises TypeError. */
  function Iterate(v: Value): (r: Result<seq<Value>>)
    ensures v.List? ==> r == Ok(v.items)
    ensures v.Dict? ==> r.Ok? && |r.value| == |v.entries| && forall i :: 0 <= i < |v.entries| ==> r.value[i] == Str(v.entries[i].0)
    ensures r.Err? <==> v.Null? || v.Bool? || v.Int?
  {
    match v
    case List(items) => Ok(items)
    case Dict(es) => Ok(seq(|es|, i requires 0 <= i < |es| => Str(es[i].0)))
    case Str(s) => Ok(seq(|s|, i requires 0 <= i < |s| => Str([s[i]])))
    case _ => Err(TypeMismatch)
  }

  /** `replace` defaults to true; when the block has the key, its
      truthiness decides. */
  function ReplaceFlag(md: Value): (r: Result<bool>)
    ensures Contains(md, "replace") == Some(false) ==> r == Ok(true)
    ensures md.Dict? && HasKey(md.entries, "replace") ==> r == Ok(Truthy(Lookup(md.entries, "replace").value))
    ensures md.Dict? ==> r.Ok?
  {
    match Contains(md, "replace")
    case None => Err(TypeMismatch)
    case Some(false) => Ok(true)
    case Some(true) =>
      match Index(md, "replace")
      case Err(e) => Err(e)
      case Ok(v) => Ok(Truthy(v))
  }

  /** The block's `data` entry when it has one, otherwise the whole block. */
  function WorkingMetadata(md: Value): (r: Result<Value>)
    ensures md.Dict? && HasKey(md.entries, "data") ==> r == Ok(Lookup(md.entries, "data").value)
    ensures md.Dict? && !HasKey(md.entries, "data") ==> r == Ok(md)
  {
    match Contains(md, "data")
    case None => Err(TypeMismatch)
    case Some(false) => Ok(md)
    case Some(true) => Index(md, "data")
  }

  /** `update_file_metadata`: delete the old metadata when replacing, then
      upload; a failed deletion skips the upload, and no failure escapes. */
  function UpdateFileMetadata(r: Replies, fileId: string, replace: bool, md: Value, log: seq<Call>): (log': seq<Call>)
    ensures replace && r.deleteOk(log, fileId) ==> log' == log + [DeleteFileMetadata(fileId), UploadFileMetadata(fileId, md)]
    ensures replace && !r.deleteOk(log, fileId) ==> log' == log + [DeleteFileMetadata(fileId)]
    ensures !replace ==> log' == log + [UploadFileMetadata(fileId, md)]
  {
    if replace then
      var deleted := log + [DeleteFileMetadata(fileId)];
      if r.deleteOk(log, fileId) then deleted + [UploadFileMetadata(fileId, md)] else deleted
    else log + [UploadFileMetadata(fileId, md)]
  }

  /** The metadata attached to an uploaded file: flag, block, envelope
      (whose errors propagate), then the update. */
  function FileMetadata(p: Publisher, fileId: string, md: Value, log: seq<Call>): Out<Value> {
    match ReplaceFlag(md)
    case Err(e) => Out(Err(e), log)
    case Ok(replace) =>
      match WorkingMetadata(md)
      case Err(e) => Out(Err(e), log)
      case Ok(working) =>
        match PrepareMetadata(p.host, p.version, p.creator, working, Str(fileId), false)
        case Err(e) => Out(Err(e), log)
        case Ok(prepared) => Out(Ok(prepared), UpdateFileMetadata(p.replies, fileId, replace, prepared, log))
  }

  /** The record kept for an uploaded file: its result entry with `id` set. */
  function WithId(one: Value, fileId: string): Value
    requires one.Dict?
  {
    Dict(Put(one.entries, "id", Str(fileId)))
  }

  /** `r` is the record of the uploaded result entry `one`. */
  ghost predicate Recorded(one: Value, r: Value) {
    one.Dict? && exists id :: r == WithId(one, id)
  }

  /** One iteration of `upload_files`. */
  function UploadOne(p: Publisher, datasetId: Value, one: Value, log: seq<Call>): Out<Value> {
    match Index(one, "path")
    case Err(e) => Out(Err(e), log)
    case Ok(path) =>
      var uploaded := log + [UploadToDataset(datasetId, path)];
      match p.replies.upload(log, datasetId, path)
      case None => Out(Err(UploadFailed), uploaded)
      case Some(fileId) =>
        if !HasKey(one.entries, "metadata") then Out(Ok(WithId(one, fileId)), uploaded)
        else
          var m := FileMetadata(p, fileId, Lookup(one.entries, "metadata").value, uploaded);
          if m.result.Err? then Out(Err(m.result.error), m.log) else Out(Ok(WithId(one, fileId)), m.log)
  }

  /** The items uploaded one after another, stopping at the first failure. */
  function UploadAll(p: Publisher, datasetId: Value, items: seq<Value>, log: seq<Call>): Out<seq<Value>>
    decreases |items|
  {
    if items == [] then Out(Ok([]), log)
    else
      var prev := UploadAll(p, datasetId, items[..|items| - 1], log);
      if prev.result.Err? then prev
      else
        var one := UploadOne(p, datasetId, items[|items| - 1], prev.log);
        match one.result
        case Err(e) => Out(Err(e), one.log)
        case Ok(record) => Out(Ok(prev.result.value + [record]), one.log)
  }

  function UploadFilesOut(p: Publisher, datasetId: Value, fileResults: Value, log: seq<Call>): Out<seq<Value>> {
    match Iterate(fileResults)
    case Err(e) => Out(Err(e), log)
    case Ok(items) => UploadAll(p, datasetId, items, log)
  }

  /** `upload_files`. */
  method UploadFiles(p: Publisher, datasetId: Value, fileResults: Value, log: seq<Call>)
    returns (out: Out<seq<Value>>)
    ensures out == UploadFilesOut(p, datasetId, fileResults, log)
  {
    var items := Iterate(fileResults);
    if items.Err? {
      return Out(Err(items.error), log);
    }
    out := UploadItems(p, datasetId, items.value, log);
  }

  /** The upload loop of `upload_files`, one entry at a time. */
  method UploadItems(p: Publisher, datasetId: Value, items: seq<Value>, log: seq<Call>)
    returns (out: Out<seq<Value>>)
    ensures out == UploadAll(p, datasetId, items, log)
  {
    var uploaded: seq<Value> := [];
    var calls := log;
    var i := 0;
    while i < |items|
      invariant 0 <= i <= |items|
      invariant UploadAll(p, datasetId, items[..i], log) == Out(Ok(uploaded), calls)
    {
      UploadAllNext(p, datasetId, items, i, log);
      var one := UploadOne(p, datasetId, items[i], calls);
      if one.result.Err? {
        UploadAllErrPersists(p, datasetId, items, i + 1, log);
        return Out(Err(one.result.error), one.log);
      }
      uploaded := uploaded + [one.result.value];
      calls := one.log;
      i := i + 1;
    }
    assert items[..i] == items;
    out := Out(Ok(uploaded), calls);
  }

  /** The paths of the upload requests in a log, in order. */
  function Uploads(calls: seq<Call>): seq<Value>
    decreases |calls|
  {
    if calls == [] then []
    else Uploads(calls[..|calls| - 1]) + (if calls[|calls| - 1].UploadToDataset? then [calls[|calls| - 1].path] else [])
  }

  lemma {:induction false} UploadsAppend(a: seq<Call>, b: seq<Call>)
    ensures Uploads(a + b) == Uploads(a) + Uploads(b)
    decreases |b|
  {
    if b != [] {
      var ab, init, last := a + b, b[..|b| - 1], b[|b| - 1];
      assert ab[..|ab| - 1] == a + init;
      assert ab[|ab| - 1] == last;
      var tail := if last.UploadToDataset? then [last.path] else [];
      assert Uploads(ab) == Uploads(a + init) + tail;
      assert Uploads(b) == Uploads(init) + tail;
      UploadsAppend(a, init);
    } else {
      assert a + b == a;
    }
  }

  /** Attaching file metadata makes no upload request. */
  lemma FileMetadataLog(p: Publisher, fileId: string, md: Value, log: seq<Call>)
    ensures log <= FileMetadata(p, fileId, md, log).log
    ensures Uploads(FileMetadata(p, fileId, md, log).log) == Uploads(log)
  {
    if ReplaceFlag(md).Ok? && WorkingMetadata(md).Ok? {
      var prepared := PrepareMetadata(p.host, p.version, p.creator, WorkingMetadata(md).value, Str(fileId), false);
      if prepared.Ok? {
        UpdateFileMetadataLog(p.replies, fileId, ReplaceFlag(md).value, prepared.value, log);
      }
    }
  }

  lemma UpdateFileMetadataLog(r: Replies, fileId: string, replace: bool, md: Value, log: seq<Call>)
    ensures log <= UpdateFileMetadata(r, fileId, replace, md, log)
    ensures Uploads(UpdateFileMetadata(r, fileId, replace, md, log)) == Uploads(log)
  {
    var extra: seq<Call> :=
      if replace && r.deleteOk(log, fileId) then [DeleteFileMetadata(fileId), UploadFileMetadata(fileId, md)]
      else if replace then [DeleteFileMetadata(fileId)]
      else [UploadFileMetadata(fileId, md)];
    assert UpdateFileMetadata(r, fileId, replace, md, log) == log + extra;
    NoUploads(extra);
    UploadsAppend(log, extra);
  }

  /** One upload extends the log by its own request followed by file
      metadata requests only, and keeps what was there. */
  lemma UploadOneLog(p: Publisher, datasetId: Value, one: Value, log: seq<Call>)
    ensures var o := UploadOne(p, datasetId, one, log);
            && log <= o.log
            && (Index(one, "path").Ok? ==> Uploads(o.log) == Uploads(log) + [Index(one, "path").value])
            && (Index(one, "path").Err? ==> o.log == log && o.result.Err?)
  {
    var o := UploadOne(p, datasetId, one, log);
    if Index(one, "path").Ok? {
      var path := Index(one, "path").value;
      var uploaded := log + [UploadToDataset(datasetId, path)];
      assert Uploads(uploaded) == Uploads(log) + [path] by {
        assert uploaded[..|uploaded| - 1] == log;
      }
      var reply := p.replies.upload(log, datasetId, path);
      if reply.Some? && HasKey(one.entries, "metadata") {
        var m := FileMetadata(p, reply.value, Lookup(one.entries, "metadata").value, uploaded);
        FileMetadataLog(p, reply.value, Lookup(one.entries, "metadata").value, uploaded);
        assert o.log == m.log;
      }
    }
  }

  /** A successful upload answers the record of its entry. */
  lemma UploadOneRecord(p: Publisher, datasetId: Value, one: Value, log: seq<Call>)
    requires UploadOne(p, datasetId, one, log).result.Ok?
    ensures Index(one, "path").Ok?
    ensures Recorded(one, UploadOne(p, datasetId, one, log).result.value)
    ensures var answer := p.replies.upload(log, datasetId, Index(one, "path").value);
            && answer.Some?
            && UploadOne(p, datasetId, one, log).result.value == WithId(one, answer.value)
  {
  }

  /** A successful run is the successful run of all but its last item,
      followed by that item's record. */
  lemma UploadAllSnoc(p: Publisher, datasetId: Value, items: seq<Value>, log: seq<Call>)
    requires items != []
    requires UploadAll(p, datasetId, items, log).result.Ok?
    ensures var prev := UploadAll(p, datasetId, items[..|items| - 1], log);
            && prev.result.Ok?
            && var one := UploadOne(p, datasetId, items[|items| - 1], prev.log);
               && one.result.Ok?
               && UploadAll(p, datasetId, items, log) == Out(Ok(prev.result.value + [one.result.value]), one.log)
  {
  }

  lemma {:induction false} NoUploads(calls: seq<Call>)
    requires forall c :: c in calls ==> !c.UploadToDataset?
    ensures Uploads(calls) == []
    decreases |calls|
  {
    if calls != [] {
      assert calls[|calls| - 1] in calls;
      NoUploads(calls[..|calls| - 1]);
    }
  }

  lemma UploadAllNext(p: Publisher, datasetId: Value, items: seq<Value>, k: nat, log: seq<Call>)
    requires k < |items|
    ensures var prev := UploadAll(p, datasetId, items[..k], log);
            prev.result.Ok? ==>
              var one := UploadOne(p, datasetId, items[k], prev.log);
              UploadAll(p, datasetId, items[..k + 1], log)
              == if one.result.Err? then Out(Err(one.result.error), one.log)
                 else Out(Ok(prev.result.value + [one.result.value]), one.log)
  {
    assert items[..k + 1][..k] == items[..k];
  }

  /** Once a prefix of the items fails, the longer runs end the same way. */
  lemma {:induction false} UploadAllErrPersists(p: Publisher, datasetId: Value, items: seq<Value>, k: nat, log: seq<Call>)
    requires k <= |items|
    requires UploadAll(p, datasetId, items[..k], log).result.Err?
    ensures UploadAll(p, datasetId, items, log) == UploadAll(p, datasetId, items[..k], log)
    decreases |items| - k
  {
    if k < |items| {
      assert items[..k + 1][..k] == items[..k];
      UploadAllErrPersists(p, datasetId, items, k + 1, log);
    } else {
      assert items[..k] == items;
    }
  }

  /** A successful run answers one record per item: the item with its new
      file id. */
  lemma {:induction false} UploadAllRecords(p: Publisher, datasetId: Value, items: seq<Value>, log: seq<Call>)
    requires UploadAll(p, datasetId, items, log).result.Ok?
    ensures var rs := UploadAll(p, datasetId, items, log).result.value;
            && |rs| == |items|
            && forall i :: 0 <= i < |items| ==> Recorded(items[i], rs[i])
    decreases |items|
  {
    if items != [] {
      var init := items[..|items| - 1];
      var prev := UploadAll(p, datasetId, init, log);
      UploadAllSnoc(p, datasetId, items, log);
      UploadAllRecords(p, datasetId, init, log);
      var one := UploadOne(p, datasetId, items[|items| - 1], prev.log);
      UploadOneRecord(p, datasetId, items[|items| - 1], prev.log);
      var rs := UploadAll(p, datasetId, items, log).result.value;
      forall i | 0 <= i < |items| ensures Recorded(items[i], rs[i]) {
        if i < |init| {
          assert items[i] == init[i] && rs[i] == prev.result.value[i];
        } else {
          assert rs[i] == one.result.value;
        }
      }
    }
  }

  /** The `path` entries of result entries, in order, skipping entries
      without one. */
  function Paths(items: seq<Value>): seq<Value>
    decreases |items|
  {
    if items == [] then []
    else
      var path := Index(items[|items| - 1], "path");
      Paths(items[..|items| - 1]) + (if path.Ok? then [path.value] else [])
  }

  /** Every item of a successful run has a `path`. */
  lemma {:induction false} UploadAllHavePaths(p: Publisher, datasetId: Value, items: seq<Value>, log: seq<Call>)
    requires UploadAll(p, datasetId, items, log).result.Ok?
    ensures forall i :: 0 <= i < |items| ==> Index(items[i], "path").Ok?
    decreases |items|
  {
    if items != [] {
      var init := items[..|items| - 1];
      var last := items[|items| - 1];
      var prev := UploadAll(p, datasetId, init, log);
      UploadAllSnoc(p, datasetId, items, log);
      UploadAllHavePaths(p, datasetId, init, log);
      UploadOneRecord(p, datasetId, last, prev.log);
      forall i | 0 <= i < |items| ensures Index(items[i], "path").Ok? {
        if i < |init| { assert items[i] == init[i]; }
      }
    }
  }

  /** A successful run uploads every item's path, in order, after what the
      log already held. */
  lemma {:induction false} UploadAllPaths(p: Publisher, datasetId: Value, items: seq<Value>, log: seq<Call>)
    requires UploadAll(p, datasetId, items, log).result.Ok?
    ensures var o := UploadAll(p, datasetId, items, log);
            && log <= o.log
            && Uploads(o.log) == Uploads(log) + Paths(items)
    decreases |items|
  {
    if items != [] {
      var init := items[..|items| - 1];
      var prev := UploadAll(p, datasetId, init, log);
      UploadAllPaths(p, datasetId, init, log);
      var last := items[|items| - 1];
      var path := Index(last, "path").value;
      var o := UploadAll(p, datasetId, items, log);
      assert log <= o.log && Index(last, "path").Ok? && Uploads(o.log) == Uploads(prev.log) + [path] by {
        UploadOneLog(p, datasetId, last, prev.log);
        assert o.log == UploadOne(p, datasetId, last, prev.log).log;
      }
      assert Paths(items) == Paths(init) + [path];
      assert Uploads(log) + Paths(init) + [path] == Uploads(log) + (Paths(init) + [path]);
    }
  }

  /** The first failure ends the run: the outcome, log included, is that of
      the items up to and including the failing one, all of which before it
      succeeded. */
  lemma {:induction false} UploadAllStops(p: Publisher, datasetId: Value, items: seq<Value>, log: seq<Call>)
    requires UploadAll(p, datasetId, items, log).result.Err?
    ensures exists k :: && 0 <= k < |items|
                        && UploadAll(p, datasetId, items[..k], log).result.Ok?
                        && UploadAll(p, datasetId, items, log) == UploadAll(p, datasetId, items[..k + 1], log)
    decreases |items|
  {
    var init := items[..|items| - 1];
    if UploadAll(p, datasetId, init, log).result.Err? {
      UploadAllStops(p, datasetId, init, log);
      var k :| && 0 <= k < |init|
               && UploadAll(p, datasetId, init[..k], log).result.Ok?
               && UploadAll(p, datasetId, init, log) == UploadAll(p, datasetId, init[..k + 1], log);
      assert init[..k] == items[..k] && init[..k + 1] == items[..k + 1];
    } else {
      assert items[..|items|] == items;
    }
  }

  /** Where file results go (`process_result_file`): the dataset the
      request names, or the dataset holding the file the request names.
      The membership tests on the request's `parent` raise when it is not
      a container, and subscripting it raises when it is not a mapping. */
  function ResolveDatasetId(resources: Entries): (r: Result<Value>)
    ensures r.Ok? ==> r.value != Null
  {
    var kind := Lookup(resources, "type");
    var id: Result<Value> :=
      if kind == Some(Str("dataset")) && HasKey(resources, "id") then Ok(Lookup(resources, "id").value)
      else if kind == Some(Str("file")) && HasKey(resources, "parent") then
        var parent := Lookup(resources, "parent").value;
        match Contains(parent, "type")
        case None => Err(TypeMismatch)
        case Some(false) => Ok(Null)
        case Some(true) =>
          match Contains(parent, "id")
          case None => Err(TypeMismatch)
          case Some(false) => Ok(Null)
          case Some(true) =>
            match Index(parent, "type")
            case Err(e) => Err(e)
            case Ok(t) => if t == Str("dataset") then Index(parent, "id") else Ok(Null)
      else Ok(Null);
    match id
    case Err(e) => Err(e)
    case Ok(v) => if v == Null then Err(NoTargetDataset) else Ok(v)
  }

  /** The two ways a request names a dataset, and nothing else resolves. */
  lemma ResolveSpec(resources: Entries)
    ensures Lookup(resources, "type") == Some(Str("dataset")) && Lookup(resources, "id").Some?
            && Lookup(resources, "id").value != Null
            ==> ResolveDatasetId(resources) == Ok(Lookup(resources, "id").value)
    ensures ResolveDatasetId(resources).Ok? ==>
            || (Lookup(resources, "type") == Some(Str("dataset"))
                && Lookup(resources, "id") == Some(ResolveDatasetId(resources).value))
            || (Lookup(resources, "type") == Some(Str("file"))
                && Lookup(resources, "parent").Some? && Lookup(resources, "parent").value.Dict?
                && Lookup(Lookup(resources, "parent").value.entries, "type") == Some(Str("dataset"))
                && Lookup(Lookup(resources, "parent").value.entries, "id") == Some(ResolveDatasetId(resources).value))
    ensures Lookup(resources, "type") == Some(Str("file")) && Lookup(resources, "parent").Some?
            && Lookup(resources, "parent").value.Dict?
            && Lookup(Lookup(resources, "parent").value.entries, "type") == Some(Str("dataset"))
            && Lookup(Lookup(resources, "parent").value.entries, "id").Some?
            && Lookup(Lookup(resources, "parent").value.entries, "id").value != Null
            ==> ResolveDatasetId(resources) == Ok(Lookup(Lookup(resources, "parent").value.entries, "id").value)
    ensures !HasKey(resources, "type") ==> ResolveDatasetId(resources) == Err(NoTargetDataset)
  {
  }

  /** `process_result_file`: resolve the dataset, then upload into it. */
  function ResultFile(p: Publisher, fileResults: Value, resources: Entries, log: seq<Call>): Out<seq<Value>> {
    match ResolveDatasetId(resources)
    case Err(e) => Out(Err(e), log)
    case Ok(datasetId) => UploadFilesOut(p, datasetId, fileResults, log)
  }

  /** `process_result_file` as the source performs it. */
  method ProcessResultFile(p: Publisher, fileResults: Value, resources: Entries, log: seq<Call>)
    returns (out: Out<seq<Value>>)
    ensures out == ResultFile(p, fileResults, resources, log)
  {
    var datasetId := ResolveDatasetId(resources);
    if datasetId.Err? {
      return Out(Err(datasetId.error), log);
    }
    out := UploadFiles(p, datasetId.value, fileResults, log);
  }

  /** Without a target dataset nothing is requested. */
  lemma ResultFileUnresolved(p: Publisher, fileResults: Value, resources: Entries, log: seq<Call>)
    requires ResolveDatasetId(resources).Err?
    ensures ResultFile(p, fileResults, resources, log) == Out(Err(ResolveDatasetId(resources).error), log)
  {
  }

  /** Requests once made stay in the log: uploading only appends. */
  lemma {:induction false} UploadAllGrows(p: Publisher, datasetId: Value, items: seq<Value>, log: seq<Call>)
    ensures log <= UploadAll(p, datasetId, items, log).log
    decreases |items|
  {
    if items != [] {
      var init := items[..|items| - 1];
      var prev := UploadAll(p, datasetId, init, log);
      UploadAllGrows(p, datasetId, init, log);
      if prev.result.Ok? {
        var o := UploadOne(p, datasetId, items[|items| - 1], prev.log);
        assert prev.log <= o.log by {
          UploadOneLog(p, datasetId, items[|items| - 1], prev.log);
        }
        assert UploadAll(p, datasetId, items, log).log == o.log;
      }
    }
  }

  lemma UploadFilesGrows(p: Publisher, datasetId: Value, fileResults: Value, log: seq<Call>)
    ensures log <= UploadFilesOut(p, datasetId, fileResults, log).log
  {
    if Iterate(fileResults).Ok? {
      UploadAllGrows(p, datasetId, Iterate(fileResults).value, log);
    }
  }

  lemma ResultFileGrows(p: Publisher, fileResults: Value, resources: Entries, log: seq<Call>)
    ensures log <= ResultFile(p, fileResults, resources, log).log
  {
    if ResolveDatasetId(resources).Ok? {
      UploadFilesGrows(p, ResolveDatasetId(resources).value, fileResults, log);
    }
  }

  /** The template used when a step has none. */
  const DefaultDatasetTemplate := "{name}_{date}_{experiment}"

  /** The dataset to publish into: found by name, or created (with the
      created flag) when the lookup finds none. */
  function TargetDataset(p: Publisher, name: string, log: seq<Call>): Out<(Value, bool)> {
    var looked := log + [GetDatasetByName(name)];
    match p.replies.lookup(log, name)
    case Some(id) => Out(Ok((Str(id), false)), looked)
    case None =>
      var created := looked + [CreateDataset(name)];
      match p.replies.create(looked, name)
      case None => Out(Err(CreateDatasetFailed(name)), created)
      case Some(id) => Out(Ok((Str(id), true)), created)
  }

  /** The loops over `file` and `files` of a container result: each key
      present is uploaded, and the list kept is the last one uploaded. */
  function ContainerFiles(p: Publisher, datasetId: Value, container: Value, keys: seq<string>, log: seq<Call>): Out<seq<Value>>
    decreases |keys|
  {
    if keys == [] then Out(Ok([]), log)
    else
      var prev := ContainerFiles(p, datasetId, container, keys[..|keys| - 1], log);
      if prev.result.Err? then prev
      else
        var key := keys[|keys| - 1];
        match Contains(container, key)
        case None => Out(Err(TypeMismatch), prev.log)
        case Some(false) => prev
        case Some(true) =>
          match Index(container, key)
          case Err(e) => Out(Err(e), prev.log)
          case Ok(v) => UploadFilesOut(p, datasetId, v, prev.log)
  }

  lemma ContainerFilesNext(p: Publisher, datasetId: Value, container: Value, keys: seq<string>, k: nat,
                            log: seq<Call>)
    requires k < |keys|
    ensures var prev := ContainerFiles(p, datasetId, container, keys[..k], log);
            prev.result.Ok? ==>
              ContainerFiles(p, datasetId, container, keys[..k + 1], log)
              == match Contains(container, keys[k])
                 case None => Out(Err(TypeMismatch), prev.log)
                 case Some(false) => prev
                 case Some(true) =>
                   match Index(container, keys[k])
                   case Err(e) => Out(Err(e), prev.log)
                   case Ok(v) => UploadFilesOut(p, datasetId, v, prev.log)
  {
    assert keys[..k + 1][..k] == keys[..k];
  }

  /** The container's own metadata: the replace flag and the envelope, or
      (true, None) when the container has no `metadata`. */
  function ContainerMetadata(p: Publisher, datasetId: Value, container: Value): Result<(bool, Option<Value>)> {
    match Contains(container, "metadata")
    case None => Err(TypeMismatch)
    case Some(false) => Ok((true, None))
    case Some(true) =>
      match Index(container, "metadata")
      case Err(e) => Err(e)
      case Ok(md) =>
        match ReplaceFlag(md)
        case Err(e) => Err(e)
        case Ok(replace) =>
          match WorkingMetadata(md)
          case Err(e) => Err(e)
          case Ok(working) =>
            match PrepareMetadata(p.host, p.version, p.creator, working, datasetId, true)
            case Err(e) => Err(e)
            case Ok(prepared) => Ok((replace, Some(prepared)))
  }

  /** `update_dataset_metadata`: the container block (after removing the old
      metadata when replacing) and then the process block, each only when
      present and truthy. */
  function UpdateDatasetMetadata(datasetId: Value, replace: bool, container: Option<Value>,
                                 process: Option<Value>, log: seq<Call>): (log': seq<Call>)
    ensures log <= log'
  {
    var withContainer := container.Some? && Truthy(container.value);
    var removal := if withContainer && replace then [RemoveDatasetMetadata(datasetId)] else [];
    var first := if withContainer then [UploadDatasetMetadata(datasetId, container.value)] else [];
    var last := if process.Some? && Truthy(process.value) then [UploadDatasetMetadata(datasetId, process.value)] else [];
    log + (removal + first + last)
  }

  /** Every request of the update goes to `datasetId`: one removal of the
      old metadata exactly when a present container block is to replace
      it, and first; then the container block; the process block last. */
  lemma UpdateDatasetMetadataLog(datasetId: Value, replace: bool, container: Option<Value>,
                                 process: Option<Value>, log: seq<Call>)
    ensures var log' := UpdateDatasetMetadata(datasetId, replace, container, process, log);
            var c := container.Some? && Truthy(container.value);
            var q := process.Some? && Truthy(process.value);
            && log <= log'
            && |log'| == |log| + (if c && replace then 1 else 0) + (if c then 1 else 0) + (if q then 1 else 0)
            && (forall i :: |log| <= i < |log'| ==>
                  (log'[i].RemoveDatasetMetadata? || log'[i].UploadDatasetMetadata?) && log'[i].datasetId == datasetId)
            && (RemoveDatasetMetadata(datasetId) in log'[|log|..] <==> c && replace)
            && (c && replace ==> log'[|log|] == RemoveDatasetMetadata(datasetId))
            && (c ==> log'[|log| + (if replace then 1 else 0)] == UploadDatasetMetadata(datasetId, container.value))
            && (q ==> log'[|log'| - 1] == UploadDatasetMetadata(datasetId, process.value))
  {
    var c := container.Some? && Truthy(container.value);
    var removal := if c && replace then [RemoveDatasetMetadata(datasetId)] else [];
    var first := if c then [UploadDatasetMetadata(datasetId, container.value)] else [];
    var last := if process.Some? && Truthy(process.value) then [UploadDatasetMetadata(datasetId, process.value)] else [];
    assert (log + (removal + first + last))[|log|..] == removal + first + last;
    assert RemoveDatasetMetadata(datasetId) !in first + last;
  }

  /** What `process_result_dataset` answers: the dataset's id, whether it
      was created, and the file records of the last list uploaded. */
  datatype DatasetRecord = DatasetRecord(id: Value, created: bool, files: seq<Value>)

  function ResultDataset(p: Publisher, template: Option<string>, info: map<string, string>, container: Value,
                         processMetadata: Entries, log: seq<Call>): Out<DatasetRecord>
  {
    match FormatWith(if template.Some? then template.value else DefaultDatasetTemplate, info)
    case Err(e) => Out(Err(e), log)
    case Ok(name) =>
      var target := TargetDataset(p, name, log);
      if target.result.Err? then Out(Err(target.result.error), target.log)
      else
        var (datasetId, created) := target.result.value;
        var files := ContainerFiles(p, datasetId, container, ["file", "files"], target.log);
        if files.result.Err? then Out(Err(files.result.error), files.log)
        else DatasetRecordOut(p, datasetId, created, files.result.value, container, processMetadata, files.log)
  }

  /** The metadata phase of `process_result_dataset`. */
  function DatasetRecordOut(p: Publisher, datasetId: Value, created: bool, files: seq<Value>, container: Value,
                            processMetadata: Entries, log: seq<Call>): Out<DatasetRecord>
  {
    match ContainerMetadata(p, datasetId, container)
    case Err(e) => Out(Err(e), log)
    case Ok((replace, containerMd)) =>
      var processMd :=
        if processMetadata != [] then PrepareMetadata(p.host, p.version, p.creator, Dict(processMetadata), datasetId, true)
        else Ok(Null);
      match processMd
      case Err(e) => Out(Err(e), log)
      case Ok(prepared) =>
        var process := if processMetadata != [] then Some(prepared) else None;
        Out(Ok(DatasetRecord(datasetId, created, files)),
            UpdateDatasetMetadata(datasetId, replace, containerMd, process, log))
  }

  /** A successful metadata phase answers the record and makes exactly the
      requests of `update_dataset_metadata` for the container's envelope
      and the process envelope. */
  lemma DatasetRecordOutUpdate(p: Publisher, datasetId: Value, created: bool, files: seq<Value>, container: Value,
                               processMetadata: Entries, log: seq<Call>)
    requires DatasetRecordOut(p, datasetId, created, files, container, processMetadata, log).result.Ok?
    ensures ContainerMetadata(p, datasetId, container).Ok?
    ensures processMetadata != [] ==>
              PrepareMetadata(p.host, p.version, p.creator, Dict(processMetadata), datasetId, true).Ok?
    ensures var out := DatasetRecordOut(p, datasetId, created, files, container, processMetadata, log);
            var (replace, containerMd) := ContainerMetadata(p, datasetId, container).value;
            && out.result.value == DatasetRecord(datasetId, created, files)
            && out.log == UpdateDatasetMetadata(datasetId, replace, containerMd, ProcessEnvelope(p, datasetId, processMetadata), log)
  {
  }

  /** The process envelope `update_dataset_metadata` receives, if any. */
  function ProcessEnvelope(p: Publisher, datasetId: Value, processMetadata: Entries): Option<Value> {
    if processMetadata == [] then None
    else match PrepareMetadata(p.host, p.version, p.creator, Dict(processMetadata), datasetId, true)
      case Ok(e) => Some(e)
      case Err(_) => None
  }

  /** The metadata phase removes the dataset's old metadata iff the
      container has `metadata` whose replace flag holds, and it sends
      every request to the record's dataset. */
  lemma DatasetRecordOutRemoval(p: Publisher, datasetId: Value, created: bool, files: seq<Value>, container: Value,
                                processMetadata: Entries, log: seq<Call>)
    requires DatasetRecordOut(p, datasetId, created, files, container, processMetadata, log).result.Ok?
    ensures var out := DatasetRecordOut(p, datasetId, created, files, container, processMetadata, log);
            && log <= out.log
            && (forall i :: |log| <= i < |out.log| ==> out.log[i].datasetId == datasetId)
            && (RemoveDatasetMetadata(datasetId) in out.log[|log|..] <==>
                  && Contains(container, "metadata") == Some(true)
                  && Index(container, "metadata").Ok?
                  && ReplaceFlag(Index(container, "metadata").value) == Ok(true))
            && (processMetadata == [] && Contains(container, "metadata") == Some(false) ==> out.log == log)
  {
    DatasetRecordOutUpdate(p, datasetId, created, files, container, processMetadata, log);
    var (replace, containerMd) := ContainerMetadata(p, datasetId, container).value;
    UpdateDatasetMetadataLog(datasetId, replace, containerMd, ProcessEnvelope(p, datasetId, processMetadata), log);
    if containerMd.Some? {
      var md := Index(container, "metadata").value;
      PreparedIsTruthy(p.host, p.version, p.creator, WorkingMetadata(md).value, datasetId, true);
    }
  }

  /** Process metadata, when there is any, is the phase's last request:
      that metadata itself when it already carries `@context`, otherwise a
      fresh envelope around it aimed at the dataset. */
  lemma DatasetRecordOutProcessLast(p: Publisher, datasetId: Value, created: bool, files: seq<Value>,
                                    container: Value, processMetadata: Entries, log: seq<Call>)
    requires DatasetRecordOut(p, datasetId, created, files, container, processMetadata, log).result.Ok?
    requires processMetadata != []
    ensures var out := DatasetRecordOut(p, datasetId, created, files, container, processMetadata, log);
            && |out.log| > |log|
            && out.log[|out.log| - 1].UploadDatasetMetadata?
            && out.log[|out.log| - 1].datasetId == datasetId
            && var e := out.log[|out.log| - 1].metadata;
               && (HasKey(processMetadata, "@context") ==> e == Dict(processMetadata))
               && (!HasKey(processMetadata, "@context") ==>
                     && e.Dict?
                     && Lookup(e.entries, "content") == Some(Dict(processMetadata))
                     && Lookup(e.entries, "dataset_id") == Some(datasetId))
  {
    DatasetRecordOutUpdate(p, datasetId, created, files, container, processMetadata, log);
    var (replace, containerMd) := ContainerMetadata(p, datasetId, container).value;
    UpdateDatasetMetadataLog(datasetId, replace, containerMd, ProcessEnvelope(p, datasetId, processMetadata), log);
    PreparedIsTruthy(p.host, p.version, p.creator, Dict(processMetadata), datasetId, true);
  }

  /** `process_result_dataset`. */
  method ProcessResultDataset(p: Publisher, template: Option<string>, info: map<string, string>, container: Value,
                              processMetadata: Entries, log: seq<Call>) returns (out: Out<DatasetRecord>)
    ensures out == ResultDataset(p, template, info, container, processMetadata, log)
  {
    var name := FormatWith(if template.Some? then template.value else DefaultDatasetTemplate, info);
    if name.Err? {
      return Out(Err(name.error), log);
    }
    var target := TargetDataset(p, name.value, log);
    if target.result.Err? {
      return Out(Err(target.result.error), target.log);
    }
    var (datasetId, created) := target.result.value;
    var files := UploadContainerFiles(p, datasetId, container, target.log);
    if files.result.Err? {
      return Out(Err(files.result.error), files.log);
    }
    out := DatasetRecordOut(p, datasetId, created, files.result.value, container, processMetadata, files.log);
  }

  /** The loops over `file` and `files`, as the source performs them. */
  method UploadContainerFiles(p: Publisher, datasetId: Value, container: Value, log: seq<Call>)
    returns (out: Out<seq<Value>>)
    ensures out == ContainerFiles(p, datasetId, container, ["file", "files"], log)
  {
    var keys := ["file", "files"];
    var uploaded: seq<Value> := [];
    var calls := log;
    var i := 0;
    while i < |keys|
      invariant 0 <= i <= |keys|
      invariant ContainerFiles(p, datasetId, container, keys[..i], log) == Out(Ok(uploaded), calls)
    {
      ContainerFilesNext(p, datasetId, container, keys, i, log);
      var present := Contains(container, keys[i]);
      if present.None? {
        return Out(Err(TypeMismatch), calls);
      }
      if present.value {
        var v := Index(container, keys[i]);
        if v.Err? {
          return Out(Err(v.error), calls);
        }
        var files := UploadFiles(p, datasetId, v.value, calls);
        if files.result.Err? {
          return Out(Err(files.result.error), files.log);
        }
        uploaded := files.result.value;
        calls := files.log;
      }
      i := i + 1;
    }
    assert keys[..i] == keys;
    out := Out(Ok(uploaded), calls);
  }

  lemma {:induction false} ContainerFilesGrows(p: Publisher, datasetId: Value, container: Value, keys: seq<string>,
                                               log: seq<Call>)
    ensures log <= ContainerFiles(p, datasetId, container, keys, log).log
    decreases |keys|
  {
    if keys != [] {
      var prev := ContainerFiles(p, datasetId, container, keys[..|keys| - 1], log);
      ContainerFilesGrows(p, datasetId, container, keys[..|keys| - 1], log);
      var key := keys[|keys| - 1];
      if prev.result.Ok? && Contains(container, key) == Some(true) && Index(container, key).Ok? {
        UploadFilesGrows(p, datasetId, Index(container, key).value, prev.log);
      }
    }
  }

  /** Publishing a container only appends requests to the log. */
  lemma ResultDatasetGrows(p: Publisher, template: Option<string>, info: map<string, string>, container: Value,
                           processMetadata: Entries, log: seq<Call>)
    ensures log <= ResultDataset(p, template, info, container, processMetadata, log).log
  {
    var name := FormatWith(if template.Some? then template.value else DefaultDatasetTemplate, info);
    if name.Ok? {
      var target := TargetDataset(p, name.value, log);
      if target.result.Ok? {
        var datasetId := target.result.value.0;
        var files := ContainerFiles(p, datasetId, container, ["file", "files"], target.log);
        ContainerFilesGrows(p, datasetId, container, ["file", "files"], target.log);
        if files.result.Ok? {
          DatasetRecordOutGrows(p, datasetId, target.result.value.1, files.result.value, container, processMetadata, files.log);
        }
      }
    }
  }

  lemma DatasetRecordOutGrows(p: Publisher, datasetId: Value, created: bool, files: seq<Value>, container: Value,
                              processMetadata: Entries, log: seq<Call>)
    ensures log <= DatasetRecordOut(p, datasetId, created, files, container, processMetadata, log).log
  {
  }

  /** A dataset of the given name is created only when the lookup finds
      none, and the record's flag says which happened. */
  lemma TargetDatasetSpec(p: Publisher, name: string, log: seq<Call>)
    ensures var t := TargetDataset(p, name, log);
            && (p.replies.lookup(log, name).Some? ==>
                  t == Out(Ok((Str(p.replies.lookup(log, name).value), false)), log + [GetDatasetByName(name)]))
            && (p.replies.lookup(log, name).None? ==>
                  t.log == log + [GetDatasetByName(name), CreateDataset(name)]
                  && (t.result.Ok? <==> p.replies.create(log + [GetDatasetByName(name)], name).Some?)
                  && (t.result.Ok? ==> t.result.value.1))
  {
  }

  /** With both keys present, the `file` list is uploaded but only the
      `files` list is reported. */
  lemma {:induction false} ContainerFilesKeepsLast(p: Publisher, datasetId: Value, container: Value, log: seq<Call>)
    requires container.Dict? && HasKey(container.entries, "file") && HasKey(container.entries, "files")
    requires ContainerFiles(p, datasetId, container, ["file", "files"], log).result.Ok?
    ensures var first := ContainerFiles(p, datasetId, container, ["file"], log);
            && first == UploadFilesOut(p, datasetId, Lookup(container.entries, "file").value, log)
            && ContainerFiles(p, datasetId, container, ["file", "files"], log)
               == UploadFilesOut(p, datasetId, Lookup(container.entries, "files").value, first.log)
  {
    var both: seq<string> := ["file", "files"];
    assert both[..1] == ["file"];
    var one: seq<string> := ["file"];
    assert one[..0] == [];
    assert ContainerFiles(p, datasetId, container, [], log) == Out(Ok([]), log);
  }

  /** A prepared envelope is never empty, so the metadata update never
      skips a block that was prepared. */
  lemma PreparedIsTruthy(host: string, version: string, creator: string, md: Value, id: Value, isDataset: bool)
    requires PrepareMetadata(host, version, creator, md, id, isDataset).Ok?
    ensures Truthy(PrepareMetadata(host, version, creator, md, id, isDataset).value)
  {
    if Contains(md, "@context") == Some(true) {
      match md
      case Dict(es) => assert HasKey(es, "@context");
      case List(items) => assert Str("@context") in items;
      case Str(s) => StringContainsNonEmpty("@context", s);
    }
  }

  lemma {:induction false} StringContainsNonEmpty(k: string, s: string)
    requires k != [] && IsSubstring(k, s)
    ensures s != []
    decreases |s|
  {
  }
}
