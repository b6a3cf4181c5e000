/** The JSON-LD envelope the publisher wraps around every metadata block
    before attaching it to a dataset or a file (`prepare_metadata`). */
module Metadata {
  import opened Base
  import opened Values
  import opened Paths

  const ContextUrl := "https://clowder.ncsa.illinois.edu/contexts/metadata.jsonld"

  /** The extractor identifier: the host, a `/` only when the host does not
      already end in one, `api/extractors/`, then the creator name. */
  function ExtractorId(host: string, creator: string): string {
    host + (if EndsWith(host, "/") then "" else "/") + "api/extractors/" + creator
  }

  function Agent(host: string, version: string, creator: string): Value {
    Dict([("@type", Str("cat:extractor")),
          ("extractor_id", Str(ExtractorId(host, creator))),
          ("version", Str(version)),
          ("name", Str(creator))])
  }

  /** A block that already carries `@context` is passed through untouched;
      any other block becomes the `content` of a fresh envelope aimed at the
      dataset or the file named by `targetId`, never both. The membership
      test itself raises (TypeError) on a block that is not a container. */
  function PrepareMetadata(host: string, version: string, creator: string, metadata: Value,
                           targetId: Value, targetIsDataset: bool): (r: Result<Value>)
    ensures r.Err? <==> Contains(metadata, "@context").None?
    ensures Contains(metadata, "@context") == Some(true) ==> r == Ok(metadata)
    ensures Contains(metadata, "@context") == Some(false) ==>
      && r.Ok? && r.value.Dict?
      && Lookup(r.value.entries, "@context") == Some(List([Str(ContextUrl)]))
      && Lookup(r.value.entries, "content") == Some(metadata)
      && Lookup(r.value.entries, "agent") == Some(Agent(host, version, creator))
      && HasKey(r.value.entries, "dataset_id") == targetIsDataset
      && HasKey(r.value.entries, "file_id") == !targetIsDataset
      && Lookup(r.value.entries, if targetIsDataset then "dataset_id" else "file_id") == Some(targetId)
  {
    match Contains(metadata, "@context")
    case None => Err(TypeMismatch)
    case Some(true) => Ok(metadata)
    case Some(false) =>
      var target := if targetIsDataset then "dataset_id" else "file_id";
      var es := [("@context", List([Str(ContextUrl)])),
                 ("content", metadata),
                 ("agent", Agent(host, version, creator)),
                 (target, targetId)];
      assert es[0].0 == "@context" && es[1].0 == "content" && es[2].0 == "agent" && es[3].0 == target;
      assert KeyIndex(es, "@context") == 0;
      assert KeyIndex(es, "content") == 1;
      assert KeyIndex(es, "agent") == 2;
      assert KeyIndex(es, target) == 3;
      assert forall i :: 0 <= i < |es| ==> es[i].0 in {"@context", "content", "agent", target};
      Ok(Dict(es))
  }

  /** Preparing is idempotent: an envelope is recognised by its `@context`
      and is never wrapped a second time. */
  lemma PrepareIdempotent(host: string, version: string, creator: string, metadata: Value,
                          targetId: Value, targetIsDataset: bool)
    requires PrepareMetadata(host, version, creator, metadata, targetId, targetIsDataset).Ok?
    ensures var once := PrepareMetadata(host, version, creator, metadata, targetId, targetIsDataset).value;
            PrepareMetadata(host, version, creator, once, targetId, targetIsDataset) == Ok(once)
  {
    var once := PrepareMetadata(host, version, creator, metadata, targetId, targetIsDataset).value;
    if Contains(metadata, "@context") == Some(false) {
      assert HasKey(once.entries, "@context");
    }
  }

  /** A host given with or without its trailing `/` names the same
      extractor, and the identifier always extends the host. */
  lemma ExtractorIdTrailingSlash(host: string, creator: string)
    requires !EndsWith(host, "/")
    ensures ExtractorId(host + "/", creator) == ExtractorId(host, creator)
    ensures StartsWith(ExtractorId(host, creator), host + "/")
    ensures EndsWith(ExtractorId(host, creator), "/api/extractors/" + creator)
  {
    var h := host + "/";
    assert h[|h| - 1..] == "/";
    var id := ExtractorId(host, creator);
    assert id == h + "api/extractors/" + creator;
    assert id[|id| - |"/api/extractors/" + creator|..] == "/api/extractors/" + creator;
  }
}
