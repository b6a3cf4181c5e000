/** Ingesting the results descriptor a step leaves behind
    (`process_results_json`): the step's success predicate gates everything
    on the result code, the keys that are not reserved become process
    metadata, and the container and file results go to the publishers. */
module Results {
  import opened Base
  import opened Values
  import opened Environment
  import opened Format
  import opened Publish

  /** The keys a results descriptor uses for itself. */
  const Reserved: set<string> := {"container", "file", "files", "code", "error", "message"}

  /** The publisher acting for a step: metadata envelopes name the step's
      docker version and makeflow file. */
  function StepPublisher(host: string, step: StepDefinition, replies: Replies): Publisher {
    Publisher(host, step.dockerVersion, step.makeflowFile, replies)
  }

  /** The process metadata: one entry per key that is not reserved, holding
      the descriptor's value under that key. */
  function ProcessMetadata(es: Entries): Entries
    decreases |es|
  {
    if es == [] then []
    else
      var init, last := es[..|es| - 1], es[|es| - 1];
      ProcessMetadata(init) + (if last.0 in Reserved || HasKey(init, last.0) then [] else [last])
  }

  /** Exactly the keys other than the reserved ones, each once, with its
      value copied unchanged. */
  lemma {:induction false} ProcessMetadataSpec(es: Entries)
    ensures forall k :: HasKey(ProcessMetadata(es), k) <==> HasKey(es, k) && k !in Reserved
    ensures forall k :: HasKey(ProcessMetadata(es), k) ==> Lookup(ProcessMetadata(es), k) == Lookup(es, k)
    ensures DistinctKeys(ProcessMetadata(es))
    decreases |es|
  {
    if es != [] {
      var init, last := es[..|es| - 1], es[|es| - 1];
      assert es == init + [last];
      ProcessMetadataSpec(init);
      var pm := ProcessMetadata(init);
      if last.0 in Reserved || HasKey(init, last.0) {
        assert ProcessMetadata(es) == pm + [] == pm;
        forall k ensures HasKey(es, k) <==> HasKey(init, k) || k == last.0 {
          LookupSnoc(init, last, k);
        }
      } else {
        assert ProcessMetadata(es) == pm + [last];
        assert !HasKey(pm, last.0);
        forall k ensures (HasKey(ProcessMetadata(es), k) <==> HasKey(es, k) && k !in Reserved)
                      && (HasKey(ProcessMetadata(es), k) ==> Lookup(ProcessMetadata(es), k) == Lookup(es, k))
        {
          LookupSnoc(init, last, k);
          LookupSnoc(pm, last, k);
        }
        var all := pm + [last];
        forall i, j | 0 <= i < j < |all| ensures all[i].0 != all[j].0 {
          if j == |pm| {
            assert all[i] == pm[i];
          } else {
            assert all[i] == pm[i] && all[j] == pm[j];
          }
        }
      }
    }
  }

  /** The loop filling `process_metadata`: a key already collected is not
      collected again, as a member of a set is visited once. */
  method SplitProcessMetadata(es: Entries) returns (pm: Entries)
    ensures pm == ProcessMetadata(es)
  {
    pm := [];
    var i := 0;
    while i < |es|
      invariant 0 <= i <= |es|
      invariant pm == ProcessMetadata(es[..i])
    {
      var prefix := es[..i + 1];
      assert prefix[..i] == es[..i] && prefix[i] == es[i];
      ProcessMetadataSpec(es[..i]);
      if es[i].0 !in Reserved && !HasKey(pm, es[i].0) {
        pm := pm + [es[i]];
      }
      i := i + 1;
    }
    assert es[..i] == es;
  }

  /** The file and file-list results, published one key after the other;
      the first failure ends the run. */
  function PublishFiles(p: Publisher, es: Entries, keys: seq<string>, resources: Entries, log: seq<Call>): Out<bool>
    decreases |keys|
  {
    if keys == [] then Out(Ok(true), log)
    else
      var prev := PublishFiles(p, es, keys[..|keys| - 1], resources, log);
      var key := keys[|keys| - 1];
      if prev.result.Err? || !HasKey(es, key) then prev
      else
        var f := ResultFile(p, Lookup(es, key).value, resources, prev.log);
        if f.result.Err? then Out(Err(f.result.error), f.log) else Out(Ok(true), f.log)
  }

  /** The container result, when there is one. */
  function PublishContainer(p: Publisher, step: StepDefinition, info: map<string, string>, es: Entries,
                            resources: Entries, log: seq<Call>): Out<bool>
  {
    if !HasKey(es, "container") then Out(Ok(true), log)
    else
      var d := ResultDataset(p, step.datasetNameTemplate, info, Lookup(es, "container").value, ProcessMetadata(es), log);
      if d.result.Err? then Out(Err(d.result.error), d.log) else Out(Ok(true), d.log)
  }

  /** `process_results_json`: false when the step rejects the code, true
      once everything has been published. The code must be present (a
      missing one raises), and a code the predicate cannot read raises. */
  function ResultsJson(host: string, step: StepDefinition, replies: Replies, info: map<string, string>,
                       proc: Value, resources: Entries, log: seq<Call>): Out<bool>
  {
    match Index(proc, "code")
    case Err(e) => Out(Err(e), log)
    case Ok(code) =>
      match step.success(code)
      case None => Out(Err(BadReturnCode), log)
      case Some(false) => Out(Ok(false), log)
      case Some(true) =>
        var p := StepPublisher(host, step, replies);
        var c := PublishContainer(p, step, info, proc.entries, resources, log);
        if c.result.Err? then c
        else PublishFiles(p, proc.entries, ["file", "files"], resources, c.log)
  }

  method ProcessResultsJson(host: string, step: StepDefinition, replies: Replies, info: map<string, string>,
                            proc: Value, resources: Entries, log: seq<Call>) returns (out: Out<bool>)
    ensures out == ResultsJson(host, step, replies, info, proc, resources, log)
  {
    var code := Index(proc, "code");
    if code.Err? {
      return Out(Err(code.error), log);
    }
    var success := step.success(code.value);
    if success.None? {
      return Out(Err(BadReturnCode), log);
    }
    if !success.value {
      return Out(Ok(false), log);
    }
    var p := StepPublisher(host, step, replies);
    var c := PublishContainerResult(p, step, info, proc.entries, resources, log);
    if c.result.Err? {
      return c;
    }
    out := PublishFileResults(p, proc.entries, resources, c.log);
  }

  method PublishContainerResult(p: Publisher, step: StepDefinition, info: map<string, string>, es: Entries,
                                resources: Entries, log: seq<Call>) returns (out: Out<bool>)
    ensures out == PublishContainer(p, step, info, es, resources, log)
  {
    var processMetadata := SplitProcessMetadata(es);
    if !HasKey(es, "container") {
      return Out(Ok(true), log);
    }
    var d := ProcessResultDataset(p, step.datasetNameTemplate, info, Lookup(es, "container").value,
                                  processMetadata, log);
    if d.result.Err? {
      return Out(Err(d.result.error), d.log);
    }
    out := Out(Ok(true), d.log);
  }

  /** The loop over `file` and `files`. */
  method PublishFileResults(p: Publisher, es: Entries, resources: Entries, log: seq<Call>) returns (out: Out<bool>)
    ensures out == PublishFiles(p, es, ["file", "files"], resources, log)
  {
    var calls := log;
    var keys := ["file", "files"];
    var i := 0;
    while i < |keys|
      invariant 0 <= i <= |keys|
      invariant PublishFiles(p, es, keys[..i], resources, log) == Out(Ok(true), calls)
    {
      assert keys[..i + 1][..i] == keys[..i];
      if HasKey(es, keys[i]) {
        var f := ProcessResultFile(p, Lookup(es, keys[i]).value, resources, calls);
        if f.result.Err? {
          PublishFilesErrPersists(p, es, keys, i + 1, resources, log);
          return Out(Err(f.result.error), f.log);
        }
        calls := f.log;
      }
      i := i + 1;
    }
    assert keys[..i] == keys;
    out := Out(Ok(true), calls);
  }

  lemma {:induction false} PublishFilesErrPersists(p: Publisher, es: Entries, keys: seq<string>, k: nat,
                                                   resources: Entries, log: seq<Call>)
    requires k <= |keys|
    requires PublishFiles(p, es, keys[..k], resources, log).result.Err?
    ensures PublishFiles(p, es, keys, resources, log) == PublishFiles(p, es, keys[..k], resources, log)
    decreases |keys| - k
  {
    if k < |keys| {
      assert keys[..k + 1][..k] == keys[..k];
      PublishFilesErrPersists(p, es, keys, k + 1, resources, log);
    } else {
      assert keys[..k] == keys;
    }
  }

  /** A rejected code is answered with false before anything is published,
      and false means exactly that. */
  lemma ReturnsFalseIffRejected(host: string, step: StepDefinition, replies: Replies, info: map<string, string>,
                                proc: Value, resources: Entries, log: seq<Call>)
    ensures var out := ResultsJson(host, step, replies, info, proc, resources, log);
            && (out.result == Ok(false) <==> Index(proc, "code").Ok? && step.success(Index(proc, "code").value) == Some(false))
            && (out.result == Ok(false) ==> out.log == log)
  {
    if Index(proc, "code").Ok? && step.success(Index(proc, "code").value) == Some(true) {
      var p := StepPublisher(host, step, replies);
      var c := PublishContainer(p, step, info, proc.entries, resources, log);
      if c.result.Ok? {
        PublishFilesNeverFalse(p, proc.entries, ["file", "files"], resources, c.log);
      }
    }
  }

  lemma {:induction false} PublishFilesNeverFalse(p: Publisher, es: Entries, keys: seq<string>, resources: Entries,
                                                  log: seq<Call>)
    ensures PublishFiles(p, es, keys, resources, log).result != Ok(false)
    decreases |keys|
  {
    if keys != [] {
      PublishFilesNeverFalse(p, es, keys[..|keys| - 1], resources, log);
    }
  }

  /** A descriptor accepted without `container`, `file` or `files` makes no
      request at all. */
  lemma NothingToPublish(host: string, step: StepDefinition, replies: Replies, info: map<string, string>,
                         proc: Value, resources: Entries, log: seq<Call>)
    requires proc.Dict? && HasKey(proc.entries, "code") && step.success(Lookup(proc.entries, "code").value) == Some(true)
    requires !HasKey(proc.entries, "container") && !HasKey(proc.entries, "file") && !HasKey(proc.entries, "files")
    ensures ResultsJson(host, step, replies, info, proc, resources, log) == Out(Ok(true), log)
  {
    var keys: seq<string> := ["file", "files"];
    var p := StepPublisher(host, step, replies);
    assert keys[..1] == ["file"] && keys[..1][..0] == [];
    assert PublishFiles(p, proc.entries, keys[..1], resources, log) == Out(Ok(true), log);
  }

  /** Requests once made stay in the log. */
  lemma ResultsJsonGrows(host: string, step: StepDefinition, replies: Replies, info: map<string, string>,
                         proc: Value, resources: Entries, log: seq<Call>)
    ensures log <= ResultsJson(host, step, replies, info, proc, resources, log).log
  {
    if Index(proc, "code").Ok? && step.success(Index(proc, "code").value) == Some(true) {
      var p := StepPublisher(host, step, replies);
      var c := PublishContainer(p, step, info, proc.entries, resources, log);
      if HasKey(proc.entries, "container") {
        ResultDatasetGrows(p, step.datasetNameTemplate, info, Lookup(proc.entries, "container").value,
                           ProcessMetadata(proc.entries), log);
      }
      PublishFilesGrows(p, proc.entries, ["file", "files"], resources, c.log);
    }
  }

  lemma {:induction false} PublishFilesGrows(p: Publisher, es: Entries, keys: seq<string>, resources: Entries,
                                             log: seq<Call>)
    ensures log <= PublishFiles(p, es, keys, resources, log).log
    decreases |keys|
  {
    if keys != [] {
      var prev := PublishFiles(p, es, keys[..|keys| - 1], resources, log);
      PublishFilesGrows(p, es, keys[..|keys| - 1], resources, log);
      var key := keys[|keys| - 1];
      if prev.result.Ok? && HasKey(es, key) {
        ResultFileGrows(p, Lookup(es, key).value, resources, prev.log);
      }
    }
  }

  /** The steps' dataset names: date, experiment and name from the
      experiment information, joined by `_`; the first of them that is
      missing raises KeyError. */
  lemma StepDatasetName(info: map<string, string>)
    ensures FormatWith(NameTemplate, info)
            == if "date" !in info then Err(KeyMissing("date"))
               else if "experiment" !in info then Err(KeyMissing("experiment"))
               else if "name" !in info then Err(KeyMissing("name"))
               else Ok(info["date"] + ("_" + (info["experiment"] + ("_" + info["name"]))))
  {
    var template := "{" + "date" + "}" + ("_" + ("{" + "experiment" + "}" + ("_" + ("{" + "name" + "}"))));
    assert NameTemplate == template;
    assert FormatWith(template, info)
           == if "date" !in info then Err(KeyMissing("date"))
              else if "experiment" !in info then Err(KeyMissing("experiment"))
              else if "name" !in info then Err(KeyMissing("name"))
              else Ok(info["date"] + ("_" + (info["experiment"] + ("_" + info["name"])))) by {
      LowerWordIsKeyword("date");
      LowerWordIsKeyword("experiment");
      LowerWordIsKeyword("name");
      ThreeFields("date", "experiment", "name", info);
    }
  }

  /** The name used for a step without a template. */
  lemma DefaultDatasetName(info: map<string, string>)
    ensures FormatWith(DefaultDatasetTemplate, info)
            == if "name" !in info then Err(KeyMissing("name"))
               else if "date" !in info then Err(KeyMissing("date"))
               else if "experiment" !in info then Err(KeyMissing("experiment"))
               else Ok(info["name"] + ("_" + (info["date"] + ("_" + info["experiment"]))))
  {
    var template := "{" + "name" + "}" + ("_" + ("{" + "date" + "}" + ("_" + ("{" + "experiment" + "}"))));
    assert DefaultDatasetTemplate == template;
    assert FormatWith(template, info)
           == if "name" !in info then Err(KeyMissing("name"))
              else if "date" !in info then Err(KeyMissing("date"))
              else if "experiment" !in info then Err(KeyMissing("experiment"))
              else Ok(info["name"] + ("_" + (info["date"] + ("_" + info["experiment"])))) by {
      LowerWordIsKeyword("name");
      LowerWordIsKeyword("date");
      LowerWordIsKeyword("experiment");
      ThreeFields("name", "date", "experiment", info);
    }
  }
}
