/**
 * The company ↔ fulfillment provider link table and the two workflow steps that edit it: setting a
 * provider's configuration (and making it the company's default) and removing it again, with the
 * compensation that restores a removed link.
 */
module ProviderLinks {
  import opened Wrappers

  /** The configuration a link carries; keys beyond these are not inspected. */
  datatype ProviderConfig = ProviderConfig(
    customerId: Option<string>, depotId: Option<string>, apiKey: Option<string>, apiSecret: Option<string>,
    customerName: Option<string>)

  /** A link is identified by its company and its fulfillment provider. */
  datatype LinkKey = LinkKey(companyId: string, providerId: string)

  /** The extra columns of a link. */
  datatype LinkData = LinkData(config: Option<ProviderConfig>, regions: Option<seq<string>>, isDefault: bool)

  type LinkTable = map<LinkKey, LinkData>

  /** No company has two default providers. */
  ghost predicate AtMostOneDefault(m: LinkTable) {
    forall k1, k2 :: k1 in m && k2 in m && m[k1].isDefault && m[k2].isDefault && k1.companyId == k2.companyId ==> k1 == k2
  }

  /** The links of `companyId`, other than its link to `providerId`, that are marked default. */
  function OtherDefaults(m: LinkTable, companyId: string, providerId: string): (ks: set<LinkKey>)
    ensures forall k :: k in ks <==> k in m && k.companyId == companyId && k.providerId != providerId && m[k].isDefault
  {
    set k | k in m && k.companyId == companyId && k.providerId != providerId && m[k].isDefault
  }

  /** Each link of `ks` loses its default flag and keeps its config and regions. */
  function Demote(m: LinkTable, ks: set<LinkKey>): (r: LinkTable)
    ensures r.Keys == m.Keys
    ensures forall k :: k in m && k in ks ==> r[k] == m[k].(isDefault := false)
    ensures forall k :: k in m && k !in ks ==> r[k] == m[k]
  {
    map k | k in m :: if k in ks then m[k].(isDefault := false) else m[k]
  }

  lemma DemoteNothing(m: LinkTable)
    ensures Demote(m, {}) == m
  {
  }

  /** Demoting one more link of the table is one more update of it. */
  lemma DemoteOneMore(m: LinkTable, done: set<LinkKey>, k: LinkKey)
    requires k in m
    ensures var d := Demote(m, done);
      (d - {k})[k := LinkData(d[k].config, d[k].regions, false)] == Demote(m, done + {k})
  {
  }

  datatype SetInput = SetInput(
    companyId: string, providerId: string, config: Option<ProviderConfig>, regions: Option<seq<string>>,
    isDefault: Option<bool>)

  /** The step's result echoes its input; `is_default` is echoed as given, not as stored. */
  datatype SetOutput = SetOutput(
    companyId: string, providerId: string, config: Option<ProviderConfig>, regions: Option<seq<string>>,
    isDefault: Option<bool>)

  /** The table after `set-fulfillment-provider-config`. */
  function SetConfigOutcome(m: LinkTable, input: SetInput): (r: LinkTable)
    ensures r.Keys == m.Keys + {LinkKey(input.companyId, input.providerId)}
    ensures r[LinkKey(input.companyId, input.providerId)] == LinkData(input.config, input.regions, input.isDefault == Some(true))
    ensures forall k :: k in m && k != LinkKey(input.companyId, input.providerId) ==>
      r[k] == if input.isDefault == Some(true) && k.companyId == input.companyId then m[k].(isDefault := false) else m[k]
  {
    var key := LinkKey(input.companyId, input.providerId);
    var created := m[key := LinkData(input.config, input.regions, input.isDefault == Some(true))];
    if input.isDefault == Some(true) then Demote(created, OtherDefaults(created, input.companyId, input.providerId))
    else created
  }

  /** Setting a provider as default leaves it the company's only default. */
  lemma SetDefaultIsTheOnlyDefault(m: LinkTable, input: SetInput, k: LinkKey)
    requires input.isDefault == Some(true)
    requires k in SetConfigOutcome(m, input) && k.companyId == input.companyId && SetConfigOutcome(m, input)[k].isDefault
    ensures k == LinkKey(input.companyId, input.providerId)
  {
  }

  /** Setting a configuration never gives a company a second default. */
  lemma {:induction false} SetPreservesAtMostOneDefault(m: LinkTable, input: SetInput)
    requires AtMostOneDefault(m)
    ensures AtMostOneDefault(SetConfigOutcome(m, input))
  {
    var r := SetConfigOutcome(m, input);
    var key := LinkKey(input.companyId, input.providerId);
    forall k1, k2 | k1 in r && k2 in r && r[k1].isDefault && r[k2].isDefault && k1.companyId == k2.companyId
      ensures k1 == k2
    {
      if input.isDefault == Some(true) && k1.companyId == input.companyId {
        SetDefaultIsTheOnlyDefault(m, input, k1);
        SetDefaultIsTheOnlyDefault(m, input, k2);
      } else {
        assert k1 != key && k2 != key;
        assert m[k1].isDefault && m[k2].isDefault;
      }
    }
  }

  /** Setting a configuration touches no other company's links. */
  lemma OtherCompaniesUntouched(m: LinkTable, input: SetInput, k: LinkKey)
    requires k in m && k.companyId != input.companyId
    ensures k in SetConfigOutcome(m, input) && SetConfigOutcome(m, input)[k] == m[k]
  {
  }

  /** What `remove-fulfillment-provider-config` hands to its compensation: the deleted link. */
  datatype DeletedLink = DeletedLink(key: LinkKey, data: LinkData)

  datatype RemoveOutput = RemoveOutput(companyId: string, providerId: string, deleted: bool)

  function NoConfigurationFound(companyId: string, providerId: string): string {
    "No configuration found for company " + companyId + " and provider " + providerId
  }

  /** The table after restoring `deleted`; nothing happens when there is no payload. */
  function Restore(m: LinkTable, deleted: Option<DeletedLink>): (r: LinkTable)
    ensures deleted.None? ==> r == m
    ensures deleted.Some? ==> r.Keys == m.Keys + {deleted.value.key} && r[deleted.value.key] == deleted.value.data
    ensures deleted.Some? ==> forall k :: k in m && k != deleted.value.key ==> r[k] == m[k]
  {
    if deleted.None? then m else m[deleted.value.key := deleted.value.data]
  }

  /** The link table, as the link service holds it. */
  class Links {
    var table: LinkTable

    constructor (table: LinkTable)
      ensures this.table == table
    {
      this.table := table;
    }

    /**
     * `set-fulfillment-provider-config`: replace the link (dismiss and recreate), then, when it is the
     * default, recreate every other default link of the company with `is_default: false`.
     */
    method SetConfig(input: SetInput) returns (r: SetOutput)
      modifies this
      ensures table == SetConfigOutcome(old(table), input)
      ensures r == SetOutput(input.companyId, input.providerId, input.config, input.regions, input.isDefault)
    {
      var key := LinkKey(input.companyId, input.providerId);
      var data := LinkData(input.config, input.regions, input.isDefault == Some(true));
      ghost var created := old(table)[key := data];
      if key in table {
        table := table - {key};
      }
      table := table[key := data];
      assert table == created;
      if input.isDefault == Some(true) {
        var others := OtherDefaults(table, input.companyId, input.providerId);
        DemoteAll(others);
      }
      r := SetOutput(input.companyId, input.providerId, input.config, input.regions, input.isDefault);
    }

    /** Recreate each link of `others` with `is_default: false`, one link at a time. */
    method DemoteAll(others: set<LinkKey>)
      requires others <= table.Keys
      modifies this
      ensures table == Demote(old(table), others)
    {
      ghost var start := table;
      var remaining := others;
      DemoteNothing(start);
      while remaining != {}
        invariant remaining <= others
        invariant table == Demote(start, others - remaining)
        decreases |remaining|
      {
        var other :| other in remaining;
        DemoteOneMore(start, others - remaining, other);
        table := (table - {other})[other := LinkData(table[other].config, table[other].regions, false)];
        remaining := remaining - {other};
        assert others - remaining == (others - (remaining + {other})) + {other};
      }
      assert others - remaining == others;
    }

    /** `remove-fulfillment-provider-config`: delete the link, handing the deleted link to the compensation. */
    method Remove(companyId: string, providerId: string) returns (r: Result<RemoveOutput>, compensation: Option<DeletedLink>)
      modifies this
      ensures var key := LinkKey(companyId, providerId);
        if key !in old(table) then
          r == Failure(NoConfigurationFound(companyId, providerId)) && compensation.None? && table == old(table)
        else
          r == Success(RemoveOutput(companyId, providerId, true)) &&
          compensation == Some(DeletedLink(key, old(table)[key])) && table == old(table) - {key}
    {
      var key := LinkKey(companyId, providerId);
      if key !in table {
        return Failure(NoConfigurationFound(companyId, providerId)), None;
      }
      var linkToDelete := DeletedLink(key, table[key]);
      table := table - {key};
      r, compensation := Success(RemoveOutput(companyId, providerId, true)), Some(linkToDelete);
    }

    /** The compensation of `remove-fulfillment-provider-config`. */
    method RestoreRemoved(deleted: Option<DeletedLink>)
      modifies this
      ensures table == Restore(old(table), deleted)
    {
      if deleted.Some? {
        table := table[deleted.value.key := deleted.value.data];
      }
    }
  }

  /** Compensating a removal gives back exactly the table it started from. */
  lemma RemoveThenRestore(m: LinkTable, key: LinkKey)
    requires key in m
    ensures Restore(m - {key}, Some(DeletedLink(key, m[key]))) == m
  {
  }
}
