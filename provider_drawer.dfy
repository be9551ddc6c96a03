/**
 * The drawer that adds or edits a company's fulfillment-provider configuration: the country list it
 * offers, the form's initial values, the region checkboxes and the request it submits.
 *
 * The component state the region checkboxes change (the `selectedRegions` state and the form's `regions`
 * field) is the `RegionPicker` class; the rest is computed from its inputs.
 */
module ProviderDrawer {
  import opened Wrappers
  import opened Sequences
  import PL = ProviderLinks

  // ---------------------------------------------------------------------------------------------
  // The country list

  datatype Country = Country(iso2: string, name: string)

  /** A region as the regions hook lists it; its `countries` may be missing. */
  datatype Region = Region(countries: Option<seq<Country>>)

  /** One checkbox: the country code as its value and the country name as its label. */
  datatype RegionOption = RegionOption(value: string, caption: string)

  function CountryOptions(cs: seq<Country>): (r: seq<RegionOption>)
    ensures |r| == |cs| && forall i :: 0 <= i < |cs| ==> r[i] == RegionOption(cs[i].iso2, cs[i].name)
  {
    seq(|cs|, i requires 0 <= i < |cs| => RegionOption(cs[i].iso2, cs[i].name))
  }

  /** The countries of every region, region after region; a region without countries adds nothing. */
  function FlattenRegions(rs: seq<Region>): (r: seq<RegionOption>)
    ensures forall o :: o in r <==> exists g, c :: g in rs && g.countries.Some? && c in g.countries.value && o == RegionOption(c.iso2, c.name)
  {
    if rs == [] then []
    else
      var head := if rs[0].countries.Some? then CountryOptions(rs[0].countries.value) else [];
      var tail := FlattenRegions(rs[1..]);
      assert forall g :: g in rs <==> g == rs[0] || g in rs[1..];
      head + tail
  }

  /**
   * Order: the options of a list of regions are those of its first part followed by those of the rest, so
   * each region's countries come in their own order, after the countries of the regions before it.
   */
  lemma {:induction false} FlattenRegionsOrder(rs: seq<Region>, ts: seq<Region>)
    ensures FlattenRegions(rs + ts) == FlattenRegions(rs) + FlattenRegions(ts)
    decreases |rs|
  {
    if rs == [] {
      assert rs + ts == ts;
    } else {
      var all := rs + ts;
      assert all[0] == rs[0];
      assert all[1..] == rs[1..] + ts;
      FlattenRegionsOrder(rs[1..], ts);
    }
  }

  /** A single region offers its own countries, in their order. */
  lemma FlattenOneRegion(g: Region)
    ensures FlattenRegions([g]) == if g.countries.Some? then CountryOptions(g.countries.value) else []
  {
    assert [g][1..] == [];
  }

  /** `availableRegions`: nothing while the regions are not loaded. */
  function AvailableRegions(regions: Option<seq<Region>>): (r: seq<RegionOption>)
    ensures regions.None? ==> r == []
    ensures regions.Some? ==> r == FlattenRegions(regions.value)
  {
    if regions.None? then [] else FlattenRegions(regions.value)
  }

  // ---------------------------------------------------------------------------------------------
  // The form

  /** A configuration as the admin API lists it. */
  datatype ProviderConfiguration = ProviderConfiguration(
    providerId: string, config: Option<PL.ProviderConfig>, regions: Option<seq<string>>, isDefault: Option<bool>)

  datatype FormValues = FormValues(
    providerId: string, customerId: string, depotId: string, apiKey: string, apiSecret: string,
    regions: seq<string>, isDefault: bool)

  /** A field of the configuration's `config`, when both are there. */
  function ConfigField(c: Option<ProviderConfiguration>, field: PL.ProviderConfig -> Option<string>): Option<string> {
    if c.Some? && c.value.config.Some? then field(c.value.config.value) else None
  }

  /** The form's initial values: missing text fields read "", missing regions none, a missing flag false. */
  function FormDefaults(c: Option<ProviderConfiguration>): (r: FormValues)
    ensures c.None? ==> r == FormValues("", "", "", "", "", [], false)
    ensures c.Some? ==> r.providerId == OrEmpty(Some(c.value.providerId)) && r.regions == c.value.regions.GetOr([])
    ensures r.isDefault <==> c.Some? && c.value.isDefault == Some(true)
    ensures r.customerId == OrEmpty(ConfigField(c, (x: PL.ProviderConfig) => x.customerId))
    ensures r.depotId == OrEmpty(ConfigField(c, (x: PL.ProviderConfig) => x.depotId))
    ensures r.apiKey == OrEmpty(ConfigField(c, (x: PL.ProviderConfig) => x.apiKey))
    ensures r.apiSecret == OrEmpty(ConfigField(c, (x: PL.ProviderConfig) => x.apiSecret))
  {
    FormValues(
      if c.Some? then OrEmpty(Some(c.value.providerId)) else "",
      OrEmpty(ConfigField(c, (x: PL.ProviderConfig) => x.customerId)),
      OrEmpty(ConfigField(c, (x: PL.ProviderConfig) => x.depotId)),
      OrEmpty(ConfigField(c, (x: PL.ProviderConfig) => x.apiKey)),
      OrEmpty(ConfigField(c, (x: PL.ProviderConfig) => x.apiSecret)),
      if c.Some? then c.value.regions.GetOr([]) else [],
      c.Some? && c.value.isDefault == Some(true))
  }

  /** The validated form data; the text fields other than the provider are optional. */
  datatype FormData = FormData(
    providerId: string, customerId: Option<string>, depotId: Option<string>, apiKey: Option<string>,
    apiSecret: Option<string>, isDefault: Option<bool>)

  datatype ConfigPayload = ConfigPayload(
    customerId: Option<string>, depotId: Option<string>, apiKey: Option<string>, apiSecret: Option<string>)

  /** The body sent on submit: an edit leaves out the provider id, a creation carries it. */
  datatype SubmitRequest =
    | Update(config: ConfigPayload, regions: seq<string>, isDefault: Option<bool>)
    | Create(providerId: string, config: ConfigPayload, regions: seq<string>, isDefault: Option<bool>)

  function SubmitPayload(isEdit: bool, data: FormData, selectedRegions: seq<string>): (r: SubmitRequest)
    ensures r.Update? <==> isEdit
    ensures r.Create? ==> r.providerId == data.providerId
    ensures r.config == ConfigPayload(data.customerId, data.depotId, data.apiKey, data.apiSecret)
    ensures r.regions == selectedRegions && r.isDefault == data.isDefault
  {
    var config := ConfigPayload(data.customerId, data.depotId, data.apiKey, data.apiSecret);
    if isEdit then Update(config, selectedRegions, data.isDefault)
    else Create(data.providerId, config, selectedRegions, data.isDefault)
  }

  // ---------------------------------------------------------------------------------------------
  // The region checkboxes

  /** `xs` without any occurrence of `v`, the rest in order. */
  function RemoveAll(xs: seq<string>, v: string): (r: seq<string>)
    ensures |r| <= |xs|
    ensures forall x :: x in r <==> x in xs && x != v
  {
    if xs == [] then []
    else if xs[0] == v then RemoveAll(xs[1..], v)
    else [xs[0]] + RemoveAll(xs[1..], v)
  }

  lemma {:induction false} RemoveAllIsSubsequence(xs: seq<string>, v: string)
    ensures IsSubsequence(RemoveAll(xs, v), xs)
  {
    if xs != [] {
      RemoveAllIsSubsequence(xs[1..], v);
      if xs[0] == v {
        SubsequenceOfTail(RemoveAll(xs, v), xs);
      } else {
        assert xs == [xs[0]] + xs[1..];
        SubsequenceCons(xs[0], RemoveAll(xs[1..], v), xs[1..]);
      }
    }
  }

  /** The state update of a checkbox click: a selected region is unselected everywhere, another is appended. */
  function Toggle(prev: seq<string>, v: string): (r: seq<string>)
    ensures v in prev ==> r == RemoveAll(prev, v)
    ensures v !in prev ==> r == prev + [v]
  {
    if v in prev then RemoveAll(prev, v) else prev + [v]
  }

  /** Clicking an unselected region twice gives back the list it started from. */
  lemma {:induction false} ToggleTwiceRestores(xs: seq<string>, v: string)
    requires v !in xs
    ensures Toggle(Toggle(xs, v), v) == xs
  {
    RemoveAppended(xs, v);
  }

  lemma {:induction false} RemoveAppended(xs: seq<string>, v: string)
    requires v !in xs
    ensures RemoveAll(xs + [v], v) == xs
  {
    if xs == [] {
      assert RemoveAll([v], v) == RemoveAll([], v);
    } else {
      assert (xs + [v])[1..] == xs[1..] + [v];
      RemoveAppended(xs[1..], v);
      assert xs == [xs[0]] + xs[1..];
    }
  }

  /** Clicking a selected region twice moves it to the end, once. */
  lemma ToggleTwiceMovesToEnd(xs: seq<string>, v: string)
    requires v in xs
    ensures Toggle(Toggle(xs, v), v) == RemoveAll(xs, v) + [v]
  {
  }

  /** The drawer's region state, the form's `regions` field and the value a form reset restores. */
  class RegionPicker {
    var selectedRegions: seq<string>
    var formRegions: seq<string>
    var defaultRegions: seq<string>

    /** The drawer opens with nothing selected and the form's default regions. */
    constructor (config: Option<ProviderConfiguration>)
      ensures selectedRegions == [] && formRegions == FormDefaults(config).regions && defaultRegions == formRegions
    {
      selectedRegions := [];
      formRegions := FormDefaults(config).regions;
      defaultRegions := formRegions;
    }

    /** The effect that runs once a configuration is given: the selection and the form (reset) take its regions. */
    method Load(config: ProviderConfiguration)
      modifies this
      ensures selectedRegions == config.regions.GetOr([]) && formRegions == selectedRegions && defaultRegions == selectedRegions
    {
      selectedRegions := config.regions.GetOr([]);
      formRegions := selectedRegions;
      defaultRegions := selectedRegions;
    }

    /** `handleRegionToggle`: the form receives the selection as it was before the click. */
    method HandleRegionToggle(v: string)
      modifies this
      ensures selectedRegions == Toggle(old(selectedRegions), v)
      ensures formRegions == old(selectedRegions)
    {
      var before := selectedRegions;
      selectedRegions := Toggle(selectedRegions, v);
      formRegions := before;
    }

    /**
     * `handleSubmit`: the request carries the selected regions, not the form's; only when the request
     * succeeds is the form reset and the selection cleared.
     */
    method Submit(isEdit: bool, data: FormData, requestFails: bool) returns (request: SubmitRequest)
      modifies this
      ensures request == SubmitPayload(isEdit, data, old(selectedRegions))
      ensures selectedRegions == if requestFails then old(selectedRegions) else []
      ensures formRegions == if requestFails then old(formRegions) else old(defaultRegions)
      ensures defaultRegions == old(defaultRegions)
    {
      request := SubmitPayload(isEdit, data, selectedRegions);
      if !requestFails {
        formRegions := defaultRegions;
        selectedRegions := [];
      }
    }
  }
}
