/** The dedup ledger of `poll` (public/js/script.js): every valid record of
    the batch is checked against the seen set and inserted into it, and the
    records whose identity was not yet seen become this cycle's new alerts. */
module Dedup {
  import opened Alerts

  /** Identities of the valid records of a batch. */
  function ValidKeys(data: seq<Alert>): set<string>
  {
    if data == [] then {}
    else ValidKeys(data[..|data| - 1]) + (if IsValid(data[|data| - 1]) then {Key(data[|data| - 1])} else {})
  }

  /** An identity is in the set exactly when some valid record has it. */
  lemma ValidKeysMembership(data: seq<Alert>, k: string)
    ensures k in ValidKeys(data) <==> exists i :: 0 <= i < |data| && IsValid(data[i]) && Key(data[i]) == k
  {
    if k in ValidKeys(data) {
      var i := ValidKeyWitness(data, k);
    }
    if exists i :: 0 <= i < |data| && IsValid(data[i]) && Key(data[i]) == k {
      var i :| 0 <= i < |data| && IsValid(data[i]) && Key(data[i]) == k;
      ValidKeyIncluded(data, i);
    }
  }

  /** Every identity of the set comes from a valid record of the batch. */
  lemma {:induction false} ValidKeyWitness(data: seq<Alert>, k: string) returns (i: nat)
    requires k in ValidKeys(data)
    ensures i < |data| && IsValid(data[i]) && Key(data[i]) == k
  {
    var n := |data| - 1;
    if IsValid(data[n]) && Key(data[n]) == k {
      i := n;
    } else {
      var init := data[..n];
      i := ValidKeyWitness(init, k);
      assert init[i] == data[i];
    }
  }

  /** Every valid record's identity is in the set. */
  lemma {:induction false} ValidKeyIncluded(data: seq<Alert>, i: nat)
    requires i < |data| && IsValid(data[i])
    ensures Key(data[i]) in ValidKeys(data)
  {
    var n := |data| - 1;
    if i < n {
      var init := data[..n];
      ValidKeyIncluded(init, i);
      assert init[i] == data[i];
    }
  }

  /** Record `i` is a new alert: it is valid and its identity is neither in
      the seen set nor among the identities of the valid records before it. */
  ghost predicate IsFirstNew(seen: set<string>, data: seq<Alert>, i: int)
  {
    && 0 <= i < |data|
    && IsValid(data[i])
    && Key(data[i]) !in seen + ValidKeys(data[..i])
  }

  /** Being new means: valid, unseen, and no earlier valid record of the
      batch has the same identity. */
  lemma FirstNewMeaning(seen: set<string>, data: seq<Alert>, i: nat)
    requires i < |data|
    ensures IsFirstNew(seen, data, i) <==>
      && IsValid(data[i])
      && Key(data[i]) !in seen
      && forall j :: 0 <= j < i && IsValid(data[j]) ==> Key(data[j]) != Key(data[i])
  {
    var pre := data[..i];
    if Key(data[i]) in ValidKeys(pre) {
      var j := ValidKeyWitness(pre, Key(data[i]));
      assert pre[j] == data[j];
    }
    forall j | 0 <= j < i && IsValid(data[j]) && Key(data[j]) == Key(data[i])
      ensures Key(data[i]) in ValidKeys(pre)
    {
      assert pre[j] == data[j];
      ValidKeyIncluded(pre, j);
    }
  }

  /** The new alerts among the first `n` records, in batch order. */
  ghost function NewAlertsUpTo(seen: set<string>, data: seq<Alert>, n: nat): seq<Alert>
    requires n <= |data|
  {
    if n == 0 then []
    else NewAlertsUpTo(seen, data, n - 1) + (if IsFirstNew(seen, data, n - 1) then [data[n - 1]] else [])
  }

  ghost function NewAlerts(seen: set<string>, data: seq<Alert>): seq<Alert> {
    NewAlertsUpTo(seen, data, |data|)
  }

  /** One step of the dedup loop over record `i`: the valid identities grow
      by that record's, and it is appended to the new alerts exactly when it
      is valid and its identity is in neither set. */
  lemma DedupStep(seen: set<string>, data: seq<Alert>, i: nat)
    requires i < |data|
    ensures ValidKeys(data[..i + 1]) == ValidKeys(data[..i]) + (if IsValid(data[i]) then {Key(data[i])} else {})
    ensures NewAlertsUpTo(seen, data, i + 1) == NewAlertsUpTo(seen, data, i)
      + (if IsValid(data[i]) && Key(data[i]) !in seen + ValidKeys(data[..i]) then [data[i]] else [])
  {
    var pre := data[..i + 1];
    assert pre[..i] == data[..i] && pre[i] == data[i];
  }

  /** Positions of the new alerts among the first `n` records. */
  ghost function NewIndicesUpTo(seen: set<string>, data: seq<Alert>, n: nat): seq<nat>
    requires n <= |data|
  {
    if n == 0 then []
    else NewIndicesUpTo(seen, data, n - 1) + (if IsFirstNew(seen, data, n - 1) then [n - 1] else [])
  }

  /** The new alerts are the batch's records at exactly the first-new
      positions, in increasing order: input order is kept, and of several
      records with one identity only the first is taken. */
  lemma NewAlertsAreFirstOccurrences(seen: set<string>, data: seq<Alert>, n: nat)
    requires n <= |data|
    ensures |NewIndicesUpTo(seen, data, n)| == |NewAlertsUpTo(seen, data, n)|
    ensures forall m :: 0 <= m < |NewIndicesUpTo(seen, data, n)| ==>
      && NewIndicesUpTo(seen, data, n)[m] < n
      && IsFirstNew(seen, data, NewIndicesUpTo(seen, data, n)[m])
      && NewAlertsUpTo(seen, data, n)[m] == data[NewIndicesUpTo(seen, data, n)[m]]
    ensures forall p, q :: 0 <= p < q < |NewIndicesUpTo(seen, data, n)| ==>
      NewIndicesUpTo(seen, data, n)[p] < NewIndicesUpTo(seen, data, n)[q]
    ensures forall i :: 0 <= i < n && IsFirstNew(seen, data, i) ==>
      exists m :: 0 <= m < |NewIndicesUpTo(seen, data, n)| && NewIndicesUpTo(seen, data, n)[m] == i
  {
    NewIndicesPick(seen, data, n);
    NewIndicesAreFirstNew(seen, data, n);
    NewIndicesIncrease(seen, data, n);
    forall i | 0 <= i < n && IsFirstNew(seen, data, i)
      ensures exists m :: 0 <= m < |NewIndicesUpTo(seen, data, n)| && NewIndicesUpTo(seen, data, n)[m] == i
    {
      var m := NewIndexOf(seen, data, n, i);
    }
  }

  lemma {:induction false} NewIndicesPick(seen: set<string>, data: seq<Alert>, n: nat)
    requires n <= |data|
    ensures |NewIndicesUpTo(seen, data, n)| == |NewAlertsUpTo(seen, data, n)|
    ensures forall m :: 0 <= m < |NewIndicesUpTo(seen, data, n)| ==>
      NewIndicesUpTo(seen, data, n)[m] < n && NewAlertsUpTo(seen, data, n)[m] == data[NewIndicesUpTo(seen, data, n)[m]]
  {
    if n > 0 {
      NewIndicesPick(seen, data, n - 1);
    }
  }

  lemma {:induction false} NewIndicesAreFirstNew(seen: set<string>, data: seq<Alert>, n: nat)
    requires n <= |data|
    ensures forall m :: 0 <= m < |NewIndicesUpTo(seen, data, n)| ==>
      NewIndicesUpTo(seen, data, n)[m] < n && IsFirstNew(seen, data, NewIndicesUpTo(seen, data, n)[m])
  {
    if n > 0 {
      NewIndicesAreFirstNew(seen, data, n - 1);
    }
  }

  lemma {:induction false} NewIndicesIncrease(seen: set<string>, data: seq<Alert>, n: nat)
    requires n <= |data|
    ensures forall m :: 0 <= m < |NewIndicesUpTo(seen, data, n)| ==> NewIndicesUpTo(seen, data, n)[m] < n
    ensures forall p, q :: 0 <= p < q < |NewIndicesUpTo(seen, data, n)| ==>
      NewIndicesUpTo(seen, data, n)[p] < NewIndicesUpTo(seen, data, n)[q]
  {
    if n > 0 {
      NewIndicesIncrease(seen, data, n - 1);
    }
  }

  /** Every first-new position is listed among the new-alert positions. */
  lemma {:induction false} NewIndexOf(seen: set<string>, data: seq<Alert>, n: nat, i: nat) returns (m: nat)
    requires i < n <= |data| && IsFirstNew(seen, data, i)
    ensures m < |NewIndicesUpTo(seen, data, n)| && NewIndicesUpTo(seen, data, n)[m] == i
  {
    if i == n - 1 {
      m := |NewIndicesUpTo(seen, data, n - 1)|;
    } else {
      m := NewIndexOf(seen, data, n - 1, i);
    }
  }

  /** Duplicates in one batch yield one new alert: the identities of the new
      alerts are pairwise distinct. */
  lemma NewAlertKeysDistinct(seen: set<string>, data: seq<Alert>)
    ensures forall p, q :: 0 <= p < q < |NewAlerts(seen, data)| ==> Key(NewAlerts(seen, data)[p]) != Key(NewAlerts(seen, data)[q])
  {
    var na, ix := NewAlerts(seen, data), NewIndicesUpTo(seen, data, |data|);
    NewAlertsAreFirstOccurrences(seen, data, |data|);
    forall p, q | 0 <= p < q < |na|
      ensures Key(na[p]) != Key(na[q])
    {
      var i, j := ix[p], ix[q];
      assert IsFirstNew(seen, data, i) && IsFirstNew(seen, data, j) && i < j;
      var pre := data[..j];
      assert pre[i] == data[i];
      ValidKeyIncluded(pre, i);
    }
  }

  /** Of the valid unseen records that share one identity, some earliest one
      is a new alert. */
  lemma EarliestWithKey(seen: set<string>, data: seq<Alert>, i: nat) returns (f: nat)
    requires i < |data| && IsValid(data[i]) && Key(data[i]) !in seen
    ensures f <= i && IsFirstNew(seen, data, f) && Key(data[f]) == Key(data[i])
    decreases i
  {
    if IsFirstNew(seen, data, i) {
      f := i;
    } else {
      var pre := data[..i];
      var j := ValidKeyWitness(pre, Key(data[i]));
      assert pre[j] == data[j];
      f := EarliestWithKey(seen, data, j);
    }
  }

  /** A valid record's identity is among the new alerts' identities exactly
      when it was absent from the seen set: the identities of the new alerts
      are the batch's valid identities that were not seen before. */
  lemma NewAlertKeysCover(seen: set<string>, data: seq<Alert>, k: string)
    ensures (exists m :: 0 <= m < |NewAlerts(seen, data)| && Key(NewAlerts(seen, data)[m]) == k)
      <==> k in ValidKeys(data) && k !in seen
  {
    var na, ix := NewAlerts(seen, data), NewIndicesUpTo(seen, data, |data|);
    NewAlertsAreFirstOccurrences(seen, data, |data|);
    if exists m :: 0 <= m < |na| && Key(na[m]) == k {
      var m :| 0 <= m < |na| && Key(na[m]) == k;
      assert IsFirstNew(seen, data, ix[m]);
      ValidKeyIncluded(data, ix[m]);
    }
    if k in ValidKeys(data) && k !in seen {
      var i := ValidKeyWitness(data, k);
      var f := EarliestWithKey(seen, data, i);
      var m := NewIndexOf(seen, data, |data|, f);
      assert Key(na[m]) == k;
    }
  }

  /** Fetching a batch that was fully recorded already yields no new alert. */
  lemma RepeatedBatchHasNoNewAlerts(seen: set<string>, data: seq<Alert>)
    requires ValidKeys(data) <= seen
    ensures NewAlerts(seen, data) == []
  {
    forall i | 0 <= i < |data| && IsValid(data[i])
      ensures Key(data[i]) in seen
    {
      ValidKeyIncluded(data, i);
    }
    AllSeenNoNew(seen, data, |data|);
  }

  lemma {:induction false} AllSeenNoNew(seen: set<string>, data: seq<Alert>, n: nat)
    requires n <= |data|
    requires forall i :: 0 <= i < |data| && IsValid(data[i]) ==> Key(data[i]) in seen
    ensures NewAlertsUpTo(seen, data, n) == []
  {
    if n > 0 {
      AllSeenNoNew(seen, data, n - 1);
      assert !IsFirstNew(seen, data, n - 1);
    }
  }

  /** Records with a missing or falsy date or category change neither the
      new alerts nor the identities inserted into the seen set. */
  lemma InvalidRecordIsIgnored(seen: set<string>, data: seq<Alert>, x: Alert)
    requires !IsValid(x)
    ensures NewAlerts(seen, data + [x]) == NewAlerts(seen, data)
    ensures ValidKeys(data + [x]) == ValidKeys(data)
  {
    NewAlertsPrefix(seen, data + [x], data, |data|);
  }

  /** New alerts among the first `n` records depend only on those records. */
  lemma {:induction false} NewAlertsPrefix(seen: set<string>, data: seq<Alert>, other: seq<Alert>, n: nat)
    requires n <= |data| && n <= |other|
    requires forall j :: 0 <= j < n ==> data[j] == other[j]
    ensures NewAlertsUpTo(seen, data, n) == NewAlertsUpTo(seen, other, n)
  {
    if n > 0 {
      NewAlertsPrefix(seen, data, other, n - 1);
      assert data[..n - 1] == other[..n - 1];
    }
  }
}
