/** The systems summary the Terraform modeler puts at the head of its threat
    analysis prompt: one line per consolidated asset. */
module Summary {
  import opened Strings
  import opened Assets
  import opened Classify
  import opened Consolidation

  /** `relationships?.find(r => r.startsWith(prefix))`: the first annotation
      with that prefix. */
  function FindPrefixed(rels: seq<string>, prefix: string): (r: Option<string>)
    ensures r.None? <==> forall i :: 0 <= i < |rels| ==> !StartsWith(rels[i], prefix)
    ensures r.Some? ==> exists i :: 0 <= i < |rels| && rels[i] == r.value
                                    && StartsWith(r.value, prefix)
                                    && forall j :: 0 <= j < i ==> !StartsWith(rels[j], prefix)
    decreases |rels|
  {
    if rels == [] then None
    else if StartsWith(rels[0], prefix) then Some(rels[0])
    else
      var r := FindPrefixed(rels[1..], prefix);
      assert r.Some? ==> exists i :: 1 <= i < |rels| && rels[i] == r.value
                                     && StartsWith(r.value, prefix)
                                     && forall j :: 0 <= j < i ==> !StartsWith(rels[j], prefix) by {
        if r.Some? {
          var i :| 0 <= i < |rels[1..]| && rels[1..][i] == r.value
                   && StartsWith(r.value, prefix)
                   && forall j :: 0 <= j < i ==> !StartsWith(rels[1..][j], prefix);
          assert rels[i + 1] == r.value;
          forall j | 0 <= j < i + 1 ensures !StartsWith(rels[j], prefix) {
            if j > 0 { assert rels[j] == rels[1..][j - 1]; }
          }
        }
      }
      r
  }

  /** `asset.relationships?.find(r => r.startsWith(key))?.replace(tag, '') || fallback`:
      the annotation's value, or the fallback when there is none or it is empty. */
  function Field(a: Asset, key: string, tag: string, fallback: string): (v: string)
    requires fallback != ""
    ensures v != ""
  {
    var found := if a.relationships.Some? then FindPrefixed(a.relationships.value, key) else None;
    match found
    case None => fallback
    case Some(rel) =>
      var value := ReplaceFirst(rel, tag, "");
      if value == "" then fallback else value
  }

  /** One line of the summary. */
  function SummaryLine(a: Asset): string {
    if a.kind == "architectural_system" then
      "- **" + a.name + "**: " + Field(a, "Resources:", "Resources: ", "Unknown")
      + " (" + Field(a, "Purpose:", "Purpose: ", "Infrastructure component") + ")"
    else
      "- **" + a.name + "**: Individual component (" + a.kind + ")"
  }

  function SummaryLines(assets: seq<Asset>): (r: seq<string>)
    ensures |r| == |assets|
    ensures forall i :: 0 <= i < |assets| ==> r[i] == SummaryLine(assets[i])
  {
    seq(|assets|, i requires 0 <= i < |assets| => SummaryLine(assets[i]))
  }

  /** `systemsSummary`: the summary lines joined by newlines. It is empty
      exactly when there are no assets. */
  function SystemsSummary(assets: seq<Asset>): (r: string)
    ensures r == [] <==> assets == []
  {
    Join(SummaryLines(assets), "\n")
  }

  /** When no line holds a newline, the summary splits back into its lines,
      one per asset. */
  lemma SystemsSummarySplits(assets: seq<Asset>)
    requires |assets| >= 1
    requires forall i :: 0 <= i < |assets| ==> '\n' !in SummaryLine(assets[i])
    ensures Split(SystemsSummary(assets), '\n') == SummaryLines(assets)
    ensures |Split(SystemsSummary(assets), '\n')| == |assets|
  {
    SplitJoin(SummaryLines(assets), '\n');
  }

  /** The first annotation with the prefix is the one found. */
  lemma {:induction false} FindPrefixedFirst(rels: seq<string>, prefix: string, i: nat)
    requires i < |rels| && StartsWith(rels[i], prefix)
    requires forall j :: 0 <= j < i ==> !StartsWith(rels[j], prefix)
    ensures FindPrefixed(rels, prefix) == Some(rels[i])
    decreases i
  {
    if i > 0 {
      FindPrefixedFirst(rels[1..], prefix, i - 1);
    }
  }

  /** An annotation `tag + value` under its key yields `value`. */
  lemma FieldReadsValue(a: Asset, key: string, tag: string, fallback: string, i: nat, value: string)
    requires fallback != "" && value != ""
    requires a.relationships.Some? && i < |a.relationships.value|
    requires a.relationships.value[i] == tag + value && key <= tag
    requires forall j :: 0 <= j < i ==> !StartsWith(a.relationships.value[j], key)
    ensures Field(a, key, tag, fallback) == value
  {
    FindPrefixedFirst(a.relationships.value, key, i);
    ReplaceFirstPrefix(tag, value, "");
  }

  /** A system whose first annotations are its resource count and its purpose
      is summarised by that count and that purpose. */
  lemma SystemLine(a: Asset, count: string, purpose: string)
    requires a.kind == "architectural_system"
    requires a.relationships.Some? && |a.relationships.value| >= 2
    requires count != "" && a.relationships.value[0] == "Resources: " + count
    requires purpose != "" && a.relationships.value[1] == "Purpose: " + purpose
    ensures SummaryLine(a) == "- **" + a.name + "**: " + count + " (" + purpose + ")"
  {
    var rels := a.relationships.value;
    assert rels[0][0] == 'R';
    FieldReadsValue(a, "Resources:", "Resources: ", "Unknown", 0, count);
    FieldReadsValue(a, "Purpose:", "Purpose: ", "Infrastructure component", 1, purpose);
  }

  /** The line of an architectural system built by the no-graph strategy shows
      its layer, its member count and its layer's purpose: the annotations
      `SystemAsset` writes are the ones the summary reads back. */
  lemma SystemSummaryLine(layer: string, members: seq<Asset>)
    requires |members| > 0
    ensures SummaryLine(SystemAsset(layer, members))
         == "- **" + layer + "**: " + (NatToString(|members|) + " components")
            + " (" + SystemPurpose(layer) + ")"
  {
    var count := NatToString(|members|) + " components";
    SystemAnnotations(layer, members);
    SystemLine(SystemAsset(layer, members), count, SystemPurpose(layer));
  }

  /** The annotations a layer's system asset carries: its resource count
      first, its purpose second. */
  lemma SystemAnnotations(layer: string, members: seq<Asset>)
    requires |members| > 0
    ensures SystemAsset(layer, members).kind == "architectural_system"
    ensures SystemAsset(layer, members).name == layer
    ensures SystemAsset(layer, members).relationships.Some?
    ensures |SystemAsset(layer, members).relationships.value| == 3
    ensures SystemAsset(layer, members).relationships.value[0]
         == "Resources: " + (NatToString(|members|) + " components")
    ensures SystemAsset(layer, members).relationships.value[1] == "Purpose: " + SystemPurpose(layer)
  {
    ConcatAssoc("Resources: ", NatToString(|members|), " components");
  }

  /** An asset that kept its own identity is listed as an individual component
      of its type. */
  lemma IndividualSummaryLine(a: Asset)
    requires a.kind != "architectural_system"
    ensures SummaryLine(a) == "- **" + a.name + "**: Individual component (" + a.kind + ")"
  {
  }
}
