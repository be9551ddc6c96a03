/**
 * Virtual warehouses: `inherit-warehouse-links` gives each virtual stock location the fulfillment
 * providers, fulfillment sets (as clones) and sales channels of its parent, and rolls the provider and
 * set links back when a later step fails; `list-abstract-warehouses` finds the abstract locations.
 *
 * The stock locations and their relations are a snapshot read at the start (`locations`); the link
 * service, the fulfillment module and the sales-channel links are fields the step updates. Fulfillment
 * set ids are numbers handed out in increasing order.
 */
module WarehouseLinks {
  import opened Wrappers
  import opened Text
  import opened Metadata
  import opened Sequences

  const DefaultVirtualName := "Virtual Warehouse"

  type SetId = nat

  datatype Location = Location(
    id: string, name: Option<string>, metadata: Option<Record>,
    providers: seq<string>, setIds: seq<SetId>, salesChannels: seq<string>)

  datatype FulfillmentSet = FulfillmentSet(name: string, kind: string)

  datatype Link = ProviderLink(locationId: string, providerId: string) | SetLink(locationId: string, setId: SetId)

  datatype InheritInput = InheritInput(parentId: string, virtualId: string)

  /** What the step returns and hands to its compensation. */
  datatype Created = Created(links: seq<Link>, setIds: seq<SetId>)

  /** `metadata?.is_abstract === true`: the boolean `true`, not merely a truthy value. */
  predicate IsAbstract(l: Location) {
    Get(l.metadata, "is_abstract") == Some(VBool(true))
  }

  /** `clone` is stored under one of the `created` set ids, and that set is linked to `virtualId`. */
  ghost predicate ClonedFor(created: Created, sets: map<SetId, FulfillmentSet>, virtualId: string, clone: FulfillmentSet) {
    exists c :: c in created.setIds && c in sets && sets[c] == clone && SetLink(virtualId, c) in created.links
  }

  /** Every set of every listed pair's parent has its clone, named for the virtual warehouse, recorded and linked. */
  ghost predicate ClonesRecorded(locations: map<string, Location>, orig: map<SetId, FulfillmentSet>,
                                 input: seq<InheritInput>, created: Created, sets: map<SetId, FulfillmentSet>) {
    forall j, i ::
      (0 <= j < |input| && input[j].parentId in locations && 0 <= i < |locations[input[j].parentId].setIds|) ==>
      var source := locations[input[j].parentId].setIds[i];
      source in orig &&
      ClonedFor(created, sets, input[j].virtualId, CloneOf(orig[source], VirtualName(locations, input[j].virtualId)))
  }

  /** `list-abstract-warehouses`: the abstract locations, in their original order. */
  function ListAbstractWarehouses(ls: seq<Location>): (r: seq<Location>)
    ensures |r| <= |ls|
    ensures forall l :: l in r <==> l in ls && IsAbstract(l)
  {
    if |ls| == 0 then []
    else if IsAbstract(ls[0]) then [ls[0]] + ListAbstractWarehouses(ls[1..])
    else ListAbstractWarehouses(ls[1..])
  }

  /** Nothing is reordered: the abstract locations are a subsequence of the listed ones. */
  lemma {:induction false} AbstractWarehousesAreSubsequence(ls: seq<Location>)
    ensures IsSubsequence(ListAbstractWarehouses(ls), ls)
  {
    if |ls| != 0 {
      AbstractWarehousesAreSubsequence(ls[1..]);
      if IsAbstract(ls[0]) {
        assert ls == [ls[0]] + ls[1..];
        SubsequenceCons(ls[0], ListAbstractWarehouses(ls[1..]), ls[1..]);
      } else {
        SubsequenceOfTail(ListAbstractWarehouses(ls), ls);
      }
    }
  }

  /** A location flagged with the string "true" is not abstract. */
  lemma StringTrueIsNotAbstract(l: Location)
    requires l.metadata.Some? && "is_abstract" in l.metadata.value && l.metadata.value["is_abstract"] == VString("true")
    ensures ListAbstractWarehouses([l]) == []
  {
  }

  function ProviderLinksOf(locationId: string, providers: seq<string>): (r: seq<Link>)
    ensures |r| == |providers|
    ensures forall i :: 0 <= i < |providers| ==> r[i] == ProviderLink(locationId, providers[i])
    ensures forall p :: p in providers ==> ProviderLink(locationId, p) in r
  {
    var r := seq(|providers|, i requires 0 <= i < |providers| => ProviderLink(locationId, providers[i]));
    assert forall i :: 0 <= i < |providers| ==> r[i] == ProviderLink(locationId, providers[i]);
    r
  }

  function SetLinksOf(locationId: string, ids: seq<SetId>): (r: seq<Link>)
    ensures |r| == |ids|
    ensures forall i :: 0 <= i < |ids| ==> r[i] == SetLink(locationId, ids[i])
  {
    seq(|ids|, i requires 0 <= i < |ids| => SetLink(locationId, ids[i]))
  }

  /** `start, start + 1, …` — the ids the next `n` created sets receive. */
  function Range(start: nat, n: nat): (r: seq<SetId>)
    ensures |r| == n
    ensures forall i :: 0 <= i < n ==> r[i] == start + i
  {
    seq(n, i requires 0 <= i < n => start + i)
  }

  /** The clone of a parent's fulfillment set: same type, name suffixed with the virtual warehouse's name. */
  function CloneOf(source: FulfillmentSet, virtualName: string): (c: FulfillmentSet)
    ensures c.kind == source.kind
    ensures c.name == source.name + " - " + virtualName
  {
    FulfillmentSet(source.name + " - " + virtualName, source.kind)
  }

  function SetNotFound(id: SetId): string {
    "FulfillmentSet with id: " + NatToString(id) + " was not found"
  }

  /** The name used in the clones' names. */
  function VirtualName(locations: map<string, Location>, virtualId: string): (name: string)
    ensures name != ""
    ensures virtualId in locations && Truthy(locations[virtualId].name) ==> name == locations[virtualId].name.value
  {
    if virtualId in locations && Truthy(locations[virtualId].name) then locations[virtualId].name.value
    else DefaultVirtualName
  }

  /** The (location, sales channel) links the parents of `input` pass on to their virtual warehouses. */
  function InheritedChannels(locations: map<string, Location>, input: seq<InheritInput>): set<(string, string)>
    decreases |input|
  {
    if |input| == 0 then {}
    else
      var n := |input| - 1;
      InheritedChannels(locations, input[..n]) + OwnChannels(locations, input[n])
  }

  /** The sales-channel links one pair passes on: none when its parent does not exist. */
  function OwnChannels(locations: map<string, Location>, pair: InheritInput): (r: set<(string, string)>)
    ensures forall v, c :: (v, c) in r <==>
      v == pair.virtualId && pair.parentId in locations && c in locations[pair.parentId].salesChannels
  {
    if pair.parentId in locations
    then set c | c in locations[pair.parentId].salesChannels :: (pair.virtualId, c)
    else {}
  }

  /** A virtual warehouse gets a sales channel exactly when one of its existing parents in `input` has it. */
  lemma {:induction false} InheritedChannelsMeaning(locations: map<string, Location>, input: seq<InheritInput>, v: string, c: string)
    ensures (v, c) in InheritedChannels(locations, input) <==>
      exists j :: 0 <= j < |input| && input[j].virtualId == v && input[j].parentId in locations &&
                  c in locations[input[j].parentId].salesChannels
    decreases |input|
  {
    if |input| > 0 {
      var n := |input| - 1;
      InheritedChannelsMeaning(locations, input[..n], v, c);
      if (v, c) in InheritedChannels(locations, input[..n]) {
        var j :| 0 <= j < n && input[..n][j].virtualId == v && input[..n][j].parentId in locations &&
                 c in locations[input[..n][j].parentId].salesChannels;
        assert input[j] == input[..n][j];
      }
      if exists j :: 0 <= j < |input| && input[j].virtualId == v && input[j].parentId in locations &&
                     c in locations[input[j].parentId].salesChannels {
        var j :| 0 <= j < |input| && input[j].virtualId == v && input[j].parentId in locations &&
                 c in locations[input[j].parentId].salesChannels;
        if j < n {
          assert input[..n][j] == input[j];
        }
      }
    }
  }

  lemma InheritedChannelsSnoc(locations: map<string, Location>, input: seq<InheritInput>, k: nat)
    requires k < |input|
    ensures InheritedChannels(locations, input[..k + 1]) == InheritedChannels(locations, input[..k]) + OwnChannels(locations, input[k])
  {
    assert input[..k + 1][..k] == input[..k];
  }

  /** How many fulfillment sets one pair clones: its parent's, or none when the parent does not exist. */
  function PairSetCount(locations: map<string, Location>, pair: InheritInput): nat {
    if pair.parentId in locations then |locations[pair.parentId].setIds| else 0
  }

  /** How many provider links one pair creates. */
  function PairProviderCount(locations: map<string, Location>, pair: InheritInput): nat {
    if pair.parentId in locations then |locations[pair.parentId].providers| else 0
  }

  /** The links one pair reports: its parent's providers, then its clones, numbered from `next`. */
  function PairLinks(locations: map<string, Location>, pair: InheritInput, next: nat): seq<Link> {
    if pair.parentId !in locations then []
    else ProviderLinksOf(pair.virtualId, locations[pair.parentId].providers) +
         SetLinksOf(pair.virtualId, Range(next, |locations[pair.parentId].setIds|))
  }

  function SetCount(locations: map<string, Location>, input: seq<InheritInput>): nat
    decreases |input|
  {
    if |input| == 0 then 0
    else SetCount(locations, input[..|input| - 1]) + PairSetCount(locations, input[|input| - 1])
  }

  function ProviderCount(locations: map<string, Location>, input: seq<InheritInput>): nat
    decreases |input|
  {
    if |input| == 0 then 0
    else ProviderCount(locations, input[..|input| - 1]) + PairProviderCount(locations, input[|input| - 1])
  }

  /** The links `inherit-warehouse-links` reports for `input`, when set ids are handed out from `next` on. */
  function InheritedLinks(locations: map<string, Location>, input: seq<InheritInput>, next: nat): seq<Link>
    decreases |input|
  {
    if |input| == 0 then []
    else
      var n := |input| - 1;
      InheritedLinks(locations, input[..n], next) + PairLinks(locations, input[n], next + SetCount(locations, input[..n]))
  }

  /** One link per provider and one per set of every existing parent, and nothing else. */
  lemma {:induction false} InheritedLinksCount(locations: map<string, Location>, input: seq<InheritInput>, next: nat)
    ensures |InheritedLinks(locations, input, next)| == ProviderCount(locations, input) + SetCount(locations, input)
    decreases |input|
  {
    if |input| > 0 {
      InheritedLinksCount(locations, input[..|input| - 1], next);
    }
  }

  lemma SetCountSnoc(locations: map<string, Location>, done: seq<InheritInput>, pair: InheritInput)
    ensures SetCount(locations, done + [pair]) == SetCount(locations, done) + PairSetCount(locations, pair)
  {
    var all := done + [pair];
    assert all[..|all| - 1] == done;
    assert all[|all| - 1] == pair;
  }

  lemma InheritedLinksSnoc(locations: map<string, Location>, done: seq<InheritInput>, pair: InheritInput, next: nat, at: nat)
    requires at == next + SetCount(locations, done)
    ensures InheritedLinks(locations, done + [pair], next) == InheritedLinks(locations, done, next) + PairLinks(locations, pair, at)
  {
    var all := done + [pair];
    assert all[..|all| - 1] == done;
    assert all[|all| - 1] == pair;
  }

  /** After the pairs `done`, the ids and links reported are exactly those handed out from `origNext` on. */
  predicate Reported(locations: map<string, Location>, done: seq<InheritInput>, origNext: nat,
                     links: seq<Link>, ids: seq<SetId>, next: nat) {
    next == origNext + SetCount(locations, done) &&
    ids == Range(origNext, SetCount(locations, done)) &&
    links == InheritedLinks(locations, done, origNext)
  }

  lemma ReportedStep(locations: map<string, Location>, done: seq<InheritInput>, pair: InheritInput, origNext: nat,
                     links: seq<Link>, ids: seq<SetId>, next: nat)
    requires Reported(locations, done, origNext, links, ids, next)
    ensures var m := PairSetCount(locations, pair);
      Reported(locations, done + [pair], origNext, links + PairLinks(locations, pair, next), ids + Range(next, m), next + m)
  {
    var n, m := SetCount(locations, done), PairSetCount(locations, pair);
    var all := done + [pair];
    SetCountSnoc(locations, done, pair);
    assert SetCount(locations, all) == n + m;
    RangeConcat(origNext, n, m);
    assert ids + Range(next, m) == Range(origNext, n + m);
    InheritedLinksSnoc(locations, done, pair, origNext, next);
  }

  lemma PrefixSnoc<T>(xs: seq<T>, k: nat)
    requires k < |xs|
    ensures xs[..k + 1] == xs[..k] + [xs[k]]
  {
    assert xs[..k + 1] == xs[..k] + [xs[k]];
  }

  /**
   * After cloning the first `|created|` sources: the earlier sets are kept, the only new sets are the
   * clones, and the `j`-th clone is the `j`-th source renamed for the virtual warehouse.
   */
  ghost predicate ClonedSoFar(sourceIds: seq<SetId>, created: seq<SetId>, origSets: map<SetId, FulfillmentSet>,
                              sets: map<SetId, FulfillmentSet>, virtualName: string) {
    |created| <= |sourceIds| &&
    (forall id :: id in origSets ==> id in sets && sets[id] == origSets[id]) &&
    (forall id :: id in sets <==> id in origSets || id in created) &&
    (forall j :: 0 <= j < |created| ==>
      sourceIds[j] in origSets && sets[created[j]] == CloneOf(origSets[sourceIds[j]], virtualName))
  }

  /** Cloning the next source under a fresh id extends what was cloned by that clone. */
  lemma ClonedStep(sourceIds: seq<SetId>, created: seq<SetId>, origSets: map<SetId, FulfillmentSet>,
                   sets: map<SetId, FulfillmentSet>, virtualName: string, origNext: nat, next: nat)
    requires ClonedSoFar(sourceIds, created, origSets, sets, virtualName)
    requires |created| < |sourceIds| && sourceIds[|created|] in sets && sourceIds[|created|] !in created
    requires created == Range(origNext, |created|) && next == origNext + |created|
    requires next !in sets
    ensures ClonedSoFar(sourceIds, created + [next], origSets,
                        sets[next := CloneOf(sets[sourceIds[|created|]], virtualName)], virtualName)
  {
    var i := |created|;
    var sets' := sets[next := CloneOf(sets[sourceIds[i]], virtualName)];
    var created' := created + [next];
    assert sourceIds[i] in origSets;
    forall j | 0 <= j < i + 1
      ensures sourceIds[j] in origSets && sets'[created'[j]] == CloneOf(origSets[sourceIds[j]], virtualName)
    {
      if j < i {
        assert created'[j] == created[j] == origNext + j < next;
      }
    }
  }

  /** `created` are the ids handed out from `origNext` on, and `next` is the one after them. */
  predicate HandedOut(created: seq<SetId>, origNext: nat, next: nat) {
    created == Range(origNext, |created|) && next == origNext + |created|
  }

  lemma HandedOutStep(created: seq<SetId>, origNext: nat, next: nat)
    requires HandedOut(created, origNext, next)
    ensures HandedOut(created + [next], origNext, next + 1)
  {
    RangeSnoc(origNext, |created|);
  }

  /** One more id handed out extends the run by that id. */
  lemma RangeSnoc(start: nat, n: nat)
    ensures Range(start, n + 1) == Range(start, n) + [start + n]
  {
    assert Range(start, n + 1) == Range(start, n) + [start + n];
  }

  /** Ids handed out in two runs are the ids of one longer run. */
  lemma RangeConcat(start: nat, m: nat, n: nat)
    ensures Range(start, m) + Range(start + m, n) == Range(start, m + n)
  {
    var a, b := Range(start, m) + Range(start + m, n), Range(start, m + n);
    assert forall i :: 0 <= i < m + n ==> a[i] == b[i];
  }

  class Warehouses {
    const locations: map<string, Location>
    var links: multiset<Link>
    var sets: map<SetId, FulfillmentSet>
    var nextSetId: nat
    var salesChannelLinks: set<(string, string)>

    /** Every set id that exists or that a location refers to was handed out before `nextSetId`. */
    ghost predicate Valid()
      reads this
    {
      (forall id :: id in sets ==> id < nextSetId) &&
      (forall l, i :: l in locations && 0 <= i < |locations[l].setIds| ==> locations[l].setIds[i] < nextSetId)
    }

    constructor (locations: map<string, Location>, sets: map<SetId, FulfillmentSet>, nextSetId: nat)
      requires forall id :: id in sets ==> id < nextSetId
      requires forall l, i :: l in locations && 0 <= i < |locations[l].setIds| ==> locations[l].setIds[i] < nextSetId
      ensures Valid()
      ensures this.locations == locations && this.sets == sets && this.nextSetId == nextSetId
      ensures links == multiset{} && salesChannelLinks == {}
    {
      this.locations := locations;
      this.sets := sets;
      this.nextSetId := nextSetId;
      links := multiset{};
      salesChannelLinks := {};
    }

    /** Link the virtual warehouse to each of the parent's providers. */
    method CopyProviderLinks(virtualId: string, providers: seq<string>) returns (created: seq<Link>)
      modifies this
      ensures created == ProviderLinksOf(virtualId, providers)
      ensures links == old(links) + multiset(created)
      ensures sets == old(sets) && nextSetId == old(nextSetId) && salesChannelLinks == old(salesChannelLinks)
    {
      created := [];
      var i := 0;
      while i < |providers|
        invariant 0 <= i <= |providers|
        invariant created == ProviderLinksOf(virtualId, providers[..i])
        invariant links == old(links) + multiset(created)
        invariant sets == old(sets) && nextSetId == old(nextSetId) && salesChannelLinks == old(salesChannelLinks)
      {
        var newLink := ProviderLink(virtualId, providers[i]);
        links := links + multiset{newLink};
        created := created + [newLink];
        i := i + 1;
      }
      assert providers[..i] == providers;
    }

    /**
     * Clone each of the parent's fulfillment sets and link the clone to the virtual warehouse. A set
     * that does not exist stops the loop with an error; what was created before it stays.
     */
    method CloneSets(virtualId: string, virtualName: string, sourceIds: seq<SetId>) returns (created: seq<SetId>, err: Option<string>)
      requires Valid()
      requires forall i :: 0 <= i < |sourceIds| ==> sourceIds[i] < nextSetId
      modifies this
      ensures Valid()
      ensures |created| <= |sourceIds|
      ensures err.None? <==> |created| == |sourceIds|
      ensures err.Some? ==> sourceIds[|created|] !in old(sets) && err == Some(SetNotFound(sourceIds[|created|]))
      ensures created == Range(old(nextSetId), |created|) && nextSetId == old(nextSetId) + |created|
      ensures forall id :: id in old(sets) ==> id in sets && sets[id] == old(sets)[id]
      ensures forall id :: id in sets <==> id in old(sets) || id in created
      ensures forall i :: 0 <= i < |created| ==>
        sourceIds[i] in old(sets) && sets[created[i]] == CloneOf(old(sets)[sourceIds[i]], virtualName)
      ensures links == old(links) + multiset(SetLinksOf(virtualId, created))
      ensures salesChannelLinks == old(salesChannelLinks)
    {
      created := [];
      err := None;
      var i := 0;
      while i < |sourceIds|
        invariant 0 <= i <= |sourceIds| && |created| == i
        invariant HandedOut(created, old(nextSetId), nextSetId)
        invariant ClonedSoFar(sourceIds, created, old(sets), sets, virtualName)
        invariant links == old(links) + multiset(SetLinksOf(virtualId, created))
        invariant salesChannelLinks == old(salesChannelLinks)
        invariant Valid()
      {
        var sourceId := sourceIds[i];
        if sourceId !in sets {
          return created, Some(SetNotFound(sourceId));
        }
        assert sourceId !in created;
        SetLinksSnoc(virtualId, created, nextSetId);
        ClonedStep(sourceIds, created, old(sets), sets, virtualName, old(nextSetId), nextSetId);
        HandedOutStep(created, old(nextSetId), nextSetId);
        var newId := CloneOne(virtualId, virtualName, sourceId);
        created := created + [newId];
        i := i + 1;
      }
    }

    /** Clone one fulfillment set under the next id and link the clone to the virtual warehouse. */
    method CloneOne(virtualId: string, virtualName: string, sourceId: SetId) returns (newId: SetId)
      requires Valid() && sourceId in sets
      modifies this
      ensures Valid()
      ensures newId == old(nextSetId) && nextSetId == newId + 1
      ensures sets == old(sets)[newId := CloneOf(old(sets)[sourceId], virtualName)]
      ensures links == old(links) + multiset{SetLink(virtualId, newId)}
      ensures salesChannelLinks == old(salesChannelLinks)
    {
      newId := nextSetId;
      sets := sets[newId := CloneOf(sets[sourceId], virtualName)];
      nextSetId := nextSetId + 1;
      links := links + multiset{SetLink(virtualId, newId)};
    }

    /** The links of one (parent, virtual warehouse) pair; a missing parent is skipped. */
    method InheritOne(pair: InheritInput) returns (created: Created, err: Option<string>)
      requires Valid()
      modifies this
      ensures Valid()
      ensures pair.parentId !in locations ==>
        created == Created([], []) && err.None? &&
        links == old(links) && sets == old(sets) && nextSetId == old(nextSetId) && salesChannelLinks == old(salesChannelLinks)
      ensures forall id :: id in sets <==> id in old(sets) || id in created.setIds
      ensures pair.parentId in locations ==>
        var parent := locations[pair.parentId];
        |created.setIds| <= |parent.setIds| &&
        (err.None? <==> |created.setIds| == |parent.setIds|) &&
        created.links == ProviderLinksOf(pair.virtualId, parent.providers) + SetLinksOf(pair.virtualId, created.setIds) &&
        forall i :: 0 <= i < |created.setIds| ==>
          parent.setIds[i] in old(sets) &&
          sets[created.setIds[i]] == CloneOf(old(sets)[parent.setIds[i]], VirtualName(locations, pair.virtualId))
      ensures created.setIds == Range(old(nextSetId), |created.setIds|) && nextSetId == old(nextSetId) + |created.setIds|
      ensures links == old(links) + multiset(created.links)
      ensures forall id :: id in old(sets) ==> id in sets && sets[id] == old(sets)[id]
      ensures salesChannelLinks == old(salesChannelLinks) + (if err.None? then OwnChannels(locations, pair) else {})
      ensures pair.parentId in locations ==>
        forall p :: p in locations[pair.parentId].providers ==> ProviderLink(pair.virtualId, p) in created.links
      ensures err.None? ==>
        created == Created(PairLinks(locations, pair, old(nextSetId)), Range(old(nextSetId), PairSetCount(locations, pair)))
    {
      if pair.parentId !in locations {
        return Created([], []), None;
      }
      var parent := locations[pair.parentId];
      var virtualName := VirtualName(locations, pair.virtualId);
      var providerLinks := CopyProviderLinks(pair.virtualId, parent.providers);
      var setIds;
      setIds, err := CloneSets(pair.virtualId, virtualName, parent.setIds);
      created := Created(providerLinks + SetLinksOf(pair.virtualId, setIds), setIds);
      if err.None? {
        salesChannelLinks := salesChannelLinks + OwnChannels(locations, pair);
      }
    }

    /**
     * `inherit-warehouse-links`: every pair in turn; the first error aborts the step, leaving in place
     * the links and sets created so far.
     */
    method Inherit(input: seq<InheritInput>) returns (r: Result<Created>)
      requires Valid()
      modifies this
      ensures Valid()
      ensures old(links) <= links && nextSetId >= old(nextSetId)
      ensures forall id :: id in old(sets) ==> id in sets && sets[id] == old(sets)[id]
      ensures r.Success? ==>
        links == old(links) + multiset(r.value.links) &&
        (forall id :: id in sets <==> id in old(sets) || id in r.value.setIds) &&
        (forall id :: id in r.value.setIds ==> old(nextSetId) <= id < nextSetId) &&
        salesChannelLinks == old(salesChannelLinks) + InheritedChannels(locations, input)
      ensures r.Success? ==> forall j, p ::
        (0 <= j < |input| && input[j].parentId in locations && p in locations[input[j].parentId].providers) ==>
        ProviderLink(input[j].virtualId, p) in r.value.links
      ensures r.Success? ==> ClonesRecorded(locations, old(sets), input, r.value, sets)
      ensures r.Success? ==>
        r.value == Created(InheritedLinks(locations, input, old(nextSetId)), Range(old(nextSetId), SetCount(locations, input))) &&
        |r.value.links| == ProviderCount(locations, input) + SetCount(locations, input)
    {
      var createdLinks, createdSets, err := InheritPairs(input);
      if err.Some? {
        return Failure(err.value);
      }
      assert input[..|input|] == input;
      InheritedLinksCount(locations, input, old(nextSetId));
      r := Success(Created(createdLinks, createdSets));
    }

    /** The loop of `Inherit`: the pairs in input order, stopping at the first error. */
    method InheritPairs(input: seq<InheritInput>) returns (createdLinks: seq<Link>, createdSets: seq<SetId>, err: Option<string>)
      requires Valid()
      modifies this
      ensures Valid()
      ensures old(links) <= links && nextSetId >= old(nextSetId)
      ensures forall id :: id in old(sets) ==> id in sets && sets[id] == old(sets)[id]
      ensures err.None? ==>
        InheritedSoFar(input, |input|, createdLinks, createdSets, old(links), old(sets), old(nextSetId), old(salesChannelLinks)) &&
        Reported(locations, input, old(nextSetId), createdLinks, createdSets, nextSetId)
    {
      createdLinks, createdSets, err := [], [], None;
      var k := 0;
      while k < |input|
        invariant k <= |input|
        invariant InheritedSoFar(input, k, createdLinks, createdSets, old(links), old(sets), old(nextSetId), old(salesChannelLinks))
        invariant Reported(locations, input[..k], old(nextSetId), createdLinks, createdSets, nextSetId)
      {
        ghost var linksBefore, setsBefore, nextBefore := createdLinks, createdSets, nextSetId;
        createdLinks, createdSets, err :=
          InheritNext(input, k, createdLinks, createdSets, old(links), old(sets), old(nextSetId), old(salesChannelLinks));
        if err.Some? {
          return;
        }
        ReportedStep(locations, input[..k], input[k], old(nextSetId), linksBefore, setsBefore, nextBefore);
        PrefixSnoc(input, k);
        k := k + 1;
      }
      assert input[..k] == input;
    }

    /**
     * What `Inherit` has done after the first `k` pairs, against the state it started from: the links and
     * sets created so far are recorded, every earlier set is kept, and each pair's clones and links exist.
     */
    ghost predicate InheritedSoFar(input: seq<InheritInput>, k: nat, createdLinks: seq<Link>, createdSets: seq<SetId>,
                                   origLinks: multiset<Link>, origSets: map<SetId, FulfillmentSet>, origNext: nat,
                                   origChannels: set<(string, string)>)
      reads this
    {
      k <= |input| &&
      Valid() &&
      (forall l, i :: l in locations && 0 <= i < |locations[l].setIds| ==> locations[l].setIds[i] < origNext) &&
      links == origLinks + multiset(createdLinks) &&
      (forall id :: id in origSets ==> id in sets && sets[id] == origSets[id]) &&
      (forall id :: id in sets <==> id in origSets || id in createdSets) &&
      nextSetId >= origNext &&
      (forall id :: id in createdSets ==> origNext <= id < nextSetId) &&
      salesChannelLinks == origChannels + InheritedChannels(locations, input[..k]) &&
      (forall j, p ::
        (0 <= j < k && input[j].parentId in locations && p in locations[input[j].parentId].providers) ==>
        ProviderLink(input[j].virtualId, p) in createdLinks) &&
      ClonesRecorded(locations, origSets, input[..k], Created(createdLinks, createdSets), sets)
    }

    /** The body of `Inherit`'s loop: inherit pair `k`; on an error only the growth of the state is promised. */
    method InheritNext(input: seq<InheritInput>, k: nat, createdLinks: seq<Link>, createdSets: seq<SetId>,
                       ghost origLinks: multiset<Link>, ghost origSets: map<SetId, FulfillmentSet>, ghost origNext: nat,
                       ghost origChannels: set<(string, string)>)
      returns (createdLinks': seq<Link>, createdSets': seq<SetId>, err: Option<string>)
      requires k < |input|
      requires InheritedSoFar(input, k, createdLinks, createdSets, origLinks, origSets, origNext, origChannels)
      modifies this
      ensures Valid()
      ensures origLinks <= links && nextSetId >= origNext
      ensures forall id :: id in origSets ==> id in sets && sets[id] == origSets[id]
      ensures err.None? ==>
        InheritedSoFar(input, k + 1, createdLinks', createdSets', origLinks, origSets, origNext, origChannels)
      ensures err.None? ==>
        var one := Created(PairLinks(locations, input[k], old(nextSetId)), Range(old(nextSetId), PairSetCount(locations, input[k])));
        createdLinks' == createdLinks + one.links && createdSets' == createdSets + one.setIds &&
        nextSetId == old(nextSetId) + |one.setIds|
    {
      ghost var setsBefore := sets;
      var one;
      one, err := InheritOne(input[k]);
      createdLinks' := createdLinks + one.links;
      createdSets' := createdSets + one.setIds;
      if err.None? {
        ClonesStep(locations, origSets, origNext, sets, input, k, one, setsBefore, createdLinks, createdSets);
        InheritedChannelsSnoc(locations, input, k);
      }
    }

    /** The compensation: delete the cloned sets and the created links; sales-channel links are not undone. */
    method Rollback(data: Option<Created>)
      requires Valid()
      modifies this
      ensures Valid()
      ensures data.None? ==> links == old(links) && sets == old(sets)
      ensures data.Some? ==> links == old(links) - multiset(data.value.links) &&
                             sets == old(sets) - (set id | id in data.value.setIds)
      ensures nextSetId == old(nextSetId) && salesChannelLinks == old(salesChannelLinks)
    {
      if data.Some? {
        sets := sets - (set id | id in data.value.setIds);
        links := links - multiset(data.value.links);
      }
    }

    /**
     * A later step fails after `inherit-warehouse-links` succeeded: the compensation removes every link
     * and set the step created, but the sales-channel links it added remain.
     */
    method InheritThenRollback(input: seq<InheritInput>) returns (r: Result<Created>)
      requires Valid()
      modifies this
      ensures r.Success? ==>
        links == old(links) && sets == old(sets) &&
        salesChannelLinks == old(salesChannelLinks) + InheritedChannels(locations, input)
    {
      r := Inherit(input);
      if r.Success? {
        ghost var grown := sets;
        Rollback(Some(r.value));
        RemoveAdded(old(sets), grown, (set id | id in r.value.setIds));
      }
    }
  }

  /** The clones recorded for earlier pairs survive one more `InheritOne`, which keeps every existing set. */
  lemma ClonesKept(locations: map<string, Location>, orig: map<SetId, FulfillmentSet>, sets: map<SetId, FulfillmentSet>,
                   input: seq<InheritInput>, linksBefore: seq<Link>, idsBefore: seq<SetId>,
                   setsBefore: map<SetId, FulfillmentSet>, one: Created)
    requires forall id :: id in setsBefore ==> id in sets && sets[id] == setsBefore[id]
    requires ClonesRecorded(locations, orig, input, Created(linksBefore, idsBefore), setsBefore)
    ensures ClonesRecorded(locations, orig, input, Created(linksBefore + one.links, idsBefore + one.setIds), sets)
  {
    forall j, i | 0 <= j < |input| && input[j].parentId in locations && 0 <= i < |locations[input[j].parentId].setIds|
      ensures var source := locations[input[j].parentId].setIds[i];
        ClonedFor(Created(linksBefore + one.links, idsBefore + one.setIds), sets, input[j].virtualId,
                  CloneOf(orig[source], VirtualName(locations, input[j].virtualId)))
    {
      var source := locations[input[j].parentId].setIds[i];
      var clone := CloneOf(orig[source], VirtualName(locations, input[j].virtualId));
      var c :| c in idsBefore && c in setsBefore && setsBefore[c] == clone && SetLink(input[j].virtualId, c) in linksBefore;
      assert c in idsBefore + one.setIds && SetLink(input[j].virtualId, c) in linksBefore + one.links;
    }
  }

  /** The pair just inherited has every set of its parent cloned, linked and recorded. */
  lemma ClonesAdded(locations: map<string, Location>, orig: map<SetId, FulfillmentSet>, n0: nat,
                    sets: map<SetId, FulfillmentSet>, pair: InheritInput, one: Created,
                    setsBefore: map<SetId, FulfillmentSet>, linksBefore: seq<Link>, idsBefore: seq<SetId>)
    requires forall id :: id in sets <==> id in setsBefore || id in one.setIds
    requires pair.parentId in locations ==>
      var parent := locations[pair.parentId];
      |one.setIds| == |parent.setIds| &&
      one.links == ProviderLinksOf(pair.virtualId, parent.providers) + SetLinksOf(pair.virtualId, one.setIds) &&
      forall i :: 0 <= i < |one.setIds| ==>
        parent.setIds[i] in setsBefore &&
        sets[one.setIds[i]] == CloneOf(setsBefore[parent.setIds[i]], VirtualName(locations, pair.virtualId))
    requires forall id :: id in orig ==> id in setsBefore && setsBefore[id] == orig[id]
    requires forall id :: id in setsBefore ==> id in orig || id in idsBefore
    requires forall id :: id in idsBefore ==> n0 <= id
    requires forall l, i :: l in locations && 0 <= i < |locations[l].setIds| ==> locations[l].setIds[i] < n0
    ensures pair.parentId in locations ==> forall i :: 0 <= i < |locations[pair.parentId].setIds| ==>
      var source := locations[pair.parentId].setIds[i];
      source in orig &&
      ClonedFor(Created(linksBefore + one.links, idsBefore + one.setIds), sets, pair.virtualId,
                CloneOf(orig[source], VirtualName(locations, pair.virtualId)))
  {
    if pair.parentId in locations {
      var parent := locations[pair.parentId];
      forall i | 0 <= i < |parent.setIds|
        ensures parent.setIds[i] in orig &&
          ClonedFor(Created(linksBefore + one.links, idsBefore + one.setIds), sets, pair.virtualId,
                    CloneOf(orig[parent.setIds[i]], VirtualName(locations, pair.virtualId)))
      {
        var source := parent.setIds[i];
        assert source < n0;
        assert source !in idsBefore;
        var c := one.setIds[i];
        var pl := ProviderLinksOf(pair.virtualId, parent.providers);
        assert one.links[|pl| + i] == SetLinksOf(pair.virtualId, one.setIds)[i] == SetLink(pair.virtualId, c);
        assert c in idsBefore + one.setIds && SetLink(pair.virtualId, c) in linksBefore + one.links;
      }
    }
  }

  /** One more pair inherited: the clones of the earlier pairs are kept and those of the new pair added. */
  lemma ClonesStep(locations: map<string, Location>, orig: map<SetId, FulfillmentSet>, n0: nat,
                   sets: map<SetId, FulfillmentSet>, input: seq<InheritInput>, k: nat, one: Created,
                   setsBefore: map<SetId, FulfillmentSet>, linksBefore: seq<Link>, idsBefore: seq<SetId>)
    requires k < |input|
    requires forall id :: id in sets <==> id in setsBefore || id in one.setIds
    requires forall id :: id in setsBefore ==> id in sets && sets[id] == setsBefore[id]
    requires input[k].parentId in locations ==>
      var parent := locations[input[k].parentId];
      |one.setIds| == |parent.setIds| &&
      one.links == ProviderLinksOf(input[k].virtualId, parent.providers) + SetLinksOf(input[k].virtualId, one.setIds) &&
      forall i :: 0 <= i < |one.setIds| ==>
        parent.setIds[i] in setsBefore &&
        sets[one.setIds[i]] == CloneOf(setsBefore[parent.setIds[i]], VirtualName(locations, input[k].virtualId))
    requires forall id :: id in orig ==> id in setsBefore && setsBefore[id] == orig[id]
    requires forall id :: id in setsBefore ==> id in orig || id in idsBefore
    requires forall id :: id in idsBefore ==> n0 <= id
    requires forall l, i :: l in locations && 0 <= i < |locations[l].setIds| ==> locations[l].setIds[i] < n0
    requires ClonesRecorded(locations, orig, input[..k], Created(linksBefore, idsBefore), setsBefore)
    ensures ClonesRecorded(locations, orig, input[..k + 1], Created(linksBefore + one.links, idsBefore + one.setIds), sets)
  {
    ClonesKept(locations, orig, sets, input[..k], linksBefore, idsBefore, setsBefore, one);
    ClonesAdded(locations, orig, n0, sets, input[k], one, setsBefore, linksBefore, idsBefore);
    assert input[..k + 1] == input[..k] + [input[k]];
  }

  lemma SetLinksSnoc(locationId: string, ids: seq<SetId>, id: SetId)
    ensures multiset(SetLinksOf(locationId, ids + [id])) == multiset(SetLinksOf(locationId, ids)) + multiset{SetLink(locationId, id)}
  {
    assert SetLinksOf(locationId, ids + [id]) == SetLinksOf(locationId, ids) + [SetLink(locationId, id)];
  }

  /** Taking away the keys a map gained gives back the map it grew from. */
  lemma RemoveAdded(orig: map<SetId, FulfillmentSet>, grown: map<SetId, FulfillmentSet>, added: set<SetId>)
    requires forall id :: id in grown <==> id in orig || id in added
    requires added !! orig.Keys
    requires forall id :: id in orig ==> grown[id] == orig[id]
    ensures grown - added == orig
  {
  }
}
