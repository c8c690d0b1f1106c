// Namespaced task ids: "source/rest".
module TaskIds {
  import opened Strings

  function SourceOf(id: string): string {
    var i := IndexOf(id, '/');
    if i > 0 then id[..i] else ""
  }

  // The source of an id is what precedes its first separator.
  lemma SourceOfId(source: string, rest: string)
    requires source != "" && '/' !in source
    ensures SourceOf(source + "/" + rest) == source
  {
    CutAtFirst(source, '/', rest);
    assert (source + "/" + rest)[..|source|] == source;
  }
}
