/** Deny and allow labels: the index built from label rows, and its TTL cache over Postgres. */
module Labels {
  import opened Prelude

  datatype LabelEntry = LabelEntry(wallet: string, source: string, name: string, weight: int)

  datatype TxLabelHit = TxLabelHit(program: string, source: string, name: string)

  type LabelIndex = map<string, seq<LabelEntry>>

  function Lookup(index: LabelIndex, wallet: string): seq<LabelEntry> {
    if wallet in index then index[wallet] else []
  }

  function ForWallet(wallet: string): LabelEntry -> bool {
    (e: LabelEntry) => e.wallet == wallet
  }

  function IsDeny(): LabelEntry -> bool {
    (e: LabelEntry) => e.weight > 0
  }

  function IsAllow(): LabelEntry -> bool {
    (e: LabelEntry) => !(e.weight > 0)
  }

  /** Grouping by wallet loses nothing and keeps each wallet's rows in order. */
  method Build(entries: seq<LabelEntry>) returns (index: LabelIndex)
    ensures forall w :: Lookup(index, w) == Filter(ForWallet(w), entries)
  {
    index := map[];
    for i := 0 to |entries|
      invariant forall w :: Lookup(index, w) == Filter(ForWallet(w), entries[..i])
    {
      var entry := entries[i];
      forall w {
        FilterStep(ForWallet(w), entries, i);
      }
      index := index[entry.wallet := Lookup(index, entry.wallet) + [entry]];
    }
    assert entries[..|entries|] == entries;
  }

  function HitOf(address: string): LabelEntry -> seq<TxLabelHit> {
    (e: LabelEntry) => [TxLabelHit(address, e.source, e.name)]
  }

  /** The deny labels of an address, as reported in signals. */
  function DenyHits(deny: LabelIndex, address: string): seq<TxLabelHit> {
    FlatMap(HitOf(address), Lookup(deny, address))
  }

  lemma {:induction false} HitsMatchEntries(address: string, entries: seq<LabelEntry>)
    ensures |FlatMap(HitOf(address), entries)| == |entries|
    ensures forall i | 0 <= i < |entries| ::
      FlatMap(HitOf(address), entries)[i] == TxLabelHit(address, entries[i].source, entries[i].name)
  {
    if entries != [] {
      HitsMatchEntries(address, entries[..|entries| - 1]);
    }
  }

  /** An address is labelled exactly when the index holds an entry for it. */
  lemma LabelledIffListed(deny: LabelIndex, address: string)
    ensures DenyHits(deny, address) == [] <==> Lookup(deny, address) == []
  {
    HitsMatchEntries(address, Lookup(deny, address));
  }

  class LabelCache {
    var deny: LabelIndex
    var allow: LabelIndex
    var lastFetch: Option<int>

    constructor (staticDeny: LabelIndex, staticAllow: LabelIndex)
      ensures deny == staticDeny && allow == staticAllow && lastFetch == None
    {
      deny, allow, lastFetch := staticDeny, staticAllow, None;
    }

    /** `rows` is the table read: None without a database, Some(Err) when the query failed. */
    method Refresh(rows: Option<Result<seq<LabelEntry>, string>>, ttl: nat, now: int, fetchedAt: int)
      modifies this
      ensures
        if rows.Some? && (old(lastFetch).Some? ==> now - old(lastFetch).value >= ttl)
           && rows.value.Ok? && rows.value.value != []
        then
          && lastFetch == Some(fetchedAt)
          && (forall w :: Lookup(deny, w) == Filter(ForWallet(w), Filter(IsDeny(), rows.value.value)))
          && (forall w :: Lookup(allow, w) == Filter(ForWallet(w), Filter(IsAllow(), rows.value.value)))
        else
          deny == old(deny) && allow == old(allow) && lastFetch == old(lastFetch)
    {
      if rows == None {
        return;
      }
      if lastFetch.Some? && now - lastFetch.value < ttl {
        return;
      }
      if rows.value.Err? || rows.value.value == [] {
        return;
      }
      var all := rows.value.value;
      var denyRows, allowRows := [], [];
      for i := 0 to |all|
        invariant denyRows == Filter(IsDeny(), all[..i])
        invariant allowRows == Filter(IsAllow(), all[..i])
      {
        FilterStep(IsDeny(), all, i);
        FilterStep(IsAllow(), all, i);
        if all[i].weight > 0 {
          denyRows := denyRows + [all[i]];
        } else {
          allowRows := allowRows + [all[i]];
        }
      }
      assert all[..|all|] == all;
      deny := Build(denyRows);
      allow := Build(allowRows);
      lastFetch := Some(fetchedAt);
    }
  }

  /** The partition is exact: every row lands in one index, deny entries weigh more than 0 and allow entries do not. */
  lemma PartitionIsExact(rows: seq<LabelEntry>)
    ensures multiset(Filter(IsDeny(), rows)) + multiset(Filter(IsAllow(), rows)) == multiset(rows)
    ensures forall e | e in Filter(IsDeny(), rows) :: e.weight > 0
    ensures forall e | e in Filter(IsAllow(), rows) :: e.weight <= 0
  {
    NothingIsLost(rows);
    FilterMembers(IsDeny(), rows);
    FilterMembers(IsAllow(), rows);
  }

  lemma OneMore(deny: seq<LabelEntry>, allow: seq<LabelEntry>, rows: seq<LabelEntry>, e: LabelEntry)
    requires multiset(deny) + multiset(allow) == multiset(rows)
    ensures multiset(deny + [e]) + multiset(allow + []) == multiset(rows + [e])
    ensures multiset(deny + []) + multiset(allow + [e]) == multiset(rows + [e])
  {
    assert deny + [] == deny && allow + [] == allow;
  }

  lemma {:induction false} NothingIsLost(rows: seq<LabelEntry>)
    ensures multiset(Filter(IsDeny(), rows)) + multiset(Filter(IsAllow(), rows)) == multiset(rows)
  {
    if rows != [] {
      var init, last := rows[..|rows| - 1], rows[|rows| - 1];
      NothingIsLost(init);
      FilterSnoc(IsDeny(), init, last);
      FilterSnoc(IsAllow(), init, last);
      OneMore(Filter(IsDeny(), init), Filter(IsAllow(), init), init, last);
      assert rows == init + [last];
    }
  }
}
