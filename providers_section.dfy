/**
 * The display strings of the company page's fulfillment-provider table: the provider's name, the list of
 * regions it serves, and a short summary of its configuration.
 */
module ProvidersSection {
  import opened Wrappers
  import opened Text
  import PL = ProviderLinks

  const AllRegions := "All regions"
  const NotConfigured := "-"
  const Configured := "Configured"

  /** The providers the page knows by name; any other id is shown as it is. */
  function ProviderDisplayName(providerId: string): (r: string)
    ensures providerId == "despatch-lab" ==> r == "DespatchLab"
    ensures providerId == "manual" ==> r == "Manual Fulfillment"
    ensures providerId != "despatch-lab" && providerId != "manual" ==> r == providerId
  {
    match providerId
    case "despatch-lab" => "DespatchLab"
    case "manual" => "Manual Fulfillment"
    case _ => providerId
  }

  /** The short names of the region codes the page knows. */
  const RegionNames: map<string, string> := map["gb" := "UK", "eu" := "EU", "us" := "US", "ca" := "CA", "au" := "AU"]

  function RegionDisplayName(code: string): (r: string)
    ensures code in RegionNames ==> r == RegionNames[code]
    ensures code !in RegionNames ==> r == code
  {
    if code in RegionNames then RegionNames[code] else code
  }

  /** The regions' display names, in the order of the codes. */
  function RegionNameList(codes: seq<string>): (r: seq<string>)
    ensures |r| == |codes| && forall i :: 0 <= i < |codes| ==> r[i] == RegionDisplayName(codes[i])
  {
    seq(|codes|, i requires 0 <= i < |codes| => RegionDisplayName(codes[i]))
  }

  /** "All regions" when there are none; otherwise the display names joined with ", ". */
  function RegionDisplayNames(regions: Option<seq<string>>): (r: string)
    ensures regions.None? || regions.value == [] ==> r == AllRegions
    ensures regions.Some? && regions.value != [] ==> r == Join(RegionNameList(regions.value), ", ")
  {
    if regions.None? || |regions.value| == 0 then AllRegions
    else Join(RegionNameList(regions.value), ", ")
  }

  /**
   * When no code contains a comma, the text splits back on its commas into one piece per region: the
   * first region's name, then each further name behind its space.
   */
  lemma RegionDisplayNamesReadBack(regions: seq<string>)
    requires regions != []
    requires forall i :: 0 <= i < |regions| ==> ',' !in regions[i]
    ensures var names := RegionNameList(regions);
      Split(RegionDisplayNames(Some(regions)), ',') == [names[0]] + Padded(names[1..], " ")
  {
    var names := RegionNameList(regions);
    forall i | 0 <= i < |names| ensures ',' !in names[i] {
      if regions[i] in RegionNames {
        assert regions[i] == "gb" || regions[i] == "eu" || regions[i] == "us" || regions[i] == "ca" || regions[i] == "au";
      }
    }
    assert [','] + " " == ", ";
    SplitJoin(names, ',', " ");
  }

  /** "-" without a configuration; the first eight characters of a customer id and "..."; else "Configured". */
  function ConfigDisplay(config: Option<PL.ProviderConfig>): (r: string)
    ensures config.None? ==> r == NotConfigured
    ensures config.Some? && Truthy(config.value.customerId) ==>
      var id := config.value.customerId.value;
      |r| == (if |id| < 8 then |id| else 8) + 3 && r == id[..|r| - 3] + "..."
    ensures config.Some? && !Truthy(config.value.customerId) ==> r == Configured
  {
    if config.None? then NotConfigured
    else if Truthy(config.value.customerId) then
      var id := config.value.customerId.value;
      (if |id| < 8 then id else id[..8]) + "..."
    else Configured
  }

  /** The summary never shows more than eight characters of a customer id. */
  lemma ConfigDisplayIsShort(config: Option<PL.ProviderConfig>)
    ensures |ConfigDisplay(config)| <= 11
  {
  }
}
