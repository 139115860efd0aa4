/**
 * The duplicate-payment cleanup command (`nettoyer_doublons`): it lists the
 * payments ordered by (tenant, target month, payment date, id), keeps the
 * first payment of every key (tenant, target month, year of the payment
 * date) and deletes every later payment with the same key.
 */
module Cleanup {
  import opened Records

  /** The duplicate key: tenant id, target month, and the year of the payment date. */
  datatype Key = Key(locataire: int, moisConcerne: Date, annee: int)

  function KeyOf(p: Paiement): Key {
    Key(p.locataire, p.moisConcerne, p.datePaiement.year)
  }

  /** The distinct keys among the payments of `s`. */
  function KeysOf(s: seq<Paiement>): set<Key> {
    set i | 0 <= i < |s| :: KeyOf(s[i])
  }

  /** Position `i` holds the first payment of `s` with its key. */
  predicate IsFirst(s: seq<Paiement>, i: int)
    requires 0 <= i < |s|
  {
    forall j :: 0 <= j < i ==> KeyOf(s[j]) != KeyOf(s[i])
  }

  /** No two payments of `s` share a key. */
  predicate UniqueKeys(s: seq<Paiement>) {
    forall i, j :: 0 <= i < j < |s| ==> KeyOf(s[i]) != KeyOf(s[j])
  }

  /** The listing order `order_by('locataire', 'mois_concerne', 'date_paiement', 'id')`. */
  predicate OrderLe(p: Paiement, q: Paiement) {
    || p.locataire < q.locataire
    || (p.locataire == q.locataire && DateBefore(p.moisConcerne, q.moisConcerne))
    || (p.locataire == q.locataire && p.moisConcerne == q.moisConcerne && DateBefore(p.datePaiement, q.datePaiement))
    || (p.locataire == q.locataire && p.moisConcerne == q.moisConcerne && p.datePaiement == q.datePaiement && p.id <= q.id)
  }

  predicate Sorted(s: seq<Paiement>) {
    forall i, j :: 0 <= i < j < |s| ==> OrderLe(s[i], s[j])
  }

  /** `ordered` is the whole table `store`, listed in the command's order. */
  predicate IsListing(ordered: seq<Paiement>, store: seq<Paiement>) {
    multiset(ordered) == multiset(store) && Sorted(ordered)
  }

  /**
   * The ids the command puts on its delete list, in processing order: the id
   * of every payment whose key already occurred earlier in `s`.
   */
  function DuplicateIds(s: seq<Paiement>): seq<int> {
    if s == [] then []
    else
      var init := s[..|s| - 1];
      DuplicateIds(init) + (if KeyOf(s[|s| - 1]) in KeysOf(init) then [s[|s| - 1].id] else [])
  }

  /** `Paiement.objects.filter(id__in=ids).delete()`: the rows of `store` whose id is not in `ids`. */
  function Without(store: seq<Paiement>, ids: seq<int>): (r: seq<Paiement>)
    ensures |r| <= |store|
    ensures forall p :: p in r <==> p in store && p.id !in ids
  {
    if store == [] then []
    else
      assert store == [store[0]] + store[1..];
      (if store[0].id in ids then [] else [store[0]]) + Without(store[1..], ids)
  }

  /** The first `k` payments agree with `s` on which positions are first of their key. */
  lemma IsFirstPrefix(s: seq<Paiement>, k: int, i: int)
    requires 0 <= i < k <= |s|
    ensures IsFirst(s[..k], i) == IsFirst(s, i)
  {
    assert forall j :: 0 <= j <= i ==> s[..k][j] == s[j];
  }

  /** Extending a prefix by one payment adds its key, which was new exactly when that payment is first. */
  lemma KeysOfSnoc(s: seq<Paiement>, i: int)
    requires 0 <= i < |s|
    ensures KeysOf(s[..i + 1]) == KeysOf(s[..i]) + {KeyOf(s[i])}
    ensures KeyOf(s[i]) in KeysOf(s[..i]) <==> !IsFirst(s, i)
  {
    forall k | k in KeysOf(s[..i + 1]) ensures k in KeysOf(s[..i]) + {KeyOf(s[i])} {
      var j :| 0 <= j < i + 1 && KeyOf(s[..i + 1][j]) == k;
      if j < i { assert s[..i][j] == s[j]; }
    }
    forall k | k in KeysOf(s[..i]) ensures k in KeysOf(s[..i + 1]) {
      var j :| 0 <= j < i && KeyOf(s[..i][j]) == k;
      assert s[..i + 1][j] == s[j];
    }
    assert s[..i + 1][i] == s[i];
    if KeyOf(s[i]) in KeysOf(s[..i]) {
      var j :| 0 <= j < i && KeyOf(s[..i][j]) == KeyOf(s[i]);
      assert s[..i][j] == s[j];
    }
    if !IsFirst(s, i) {
      var j :| 0 <= j < i && KeyOf(s[j]) == KeyOf(s[i]);
      assert s[..i][j] == s[j];
    }
  }

  /** The delete list of a prefix grows by the next payment's id exactly when that payment is not first. */
  lemma DuplicateIdsSnoc(s: seq<Paiement>, i: int)
    requires 0 <= i < |s|
    ensures DuplicateIds(s[..i + 1]) == DuplicateIds(s[..i]) + (if IsFirst(s, i) then [] else [s[i].id])
  {
    assert s[..i + 1][..i] == s[..i];
    assert s[..i + 1][i] == s[i];
    KeysOfSnoc(s, i);
  }

  /** One step of the loop keeps every invariant of the loop. */
  lemma CollectStep(tous: seq<Paiement>, i: int, vus: map<Key, int>, aSupprimer: seq<int>, vus': map<Key, int>, aSupprimer': seq<int>)
    requires 0 <= i < |tous|
    requires vus.Keys == KeysOf(tous[..i])
    requires forall j :: 0 <= j < i && IsFirst(tous, j) ==> KeyOf(tous[j]) in vus && vus[KeyOf(tous[j])] == tous[j].id
    requires aSupprimer == DuplicateIds(tous[..i])
    requires |vus| + |aSupprimer| == i
    requires KeyOf(tous[i]) in vus ==> vus' == vus && aSupprimer' == aSupprimer + [tous[i].id]
    requires KeyOf(tous[i]) !in vus ==> vus' == vus[KeyOf(tous[i]) := tous[i].id] && aSupprimer' == aSupprimer
    ensures vus'.Keys == KeysOf(tous[..i + 1])
    ensures forall j :: 0 <= j < i + 1 && IsFirst(tous, j) ==> KeyOf(tous[j]) in vus' && vus'[KeyOf(tous[j])] == tous[j].id
    ensures aSupprimer' == DuplicateIds(tous[..i + 1])
    ensures |vus'| + |aSupprimer'| == i + 1
  {
    KeysOfSnoc(tous, i);
    DuplicateIdsSnoc(tous, i);
    forall j | 0 <= j < i + 1 && IsFirst(tous, j)
      ensures KeyOf(tous[j]) in vus' && vus'[KeyOf(tous[j])] == tous[j].id
    {
      if j < i {
        assert tous[..i][j] == tous[j];
        assert KeyOf(tous[j]) in KeysOf(tous[..i]);
      }
    }
  }

  /**
   * The loop of the command: `vus` maps every key seen to the id of its
   * first payment, `aSupprimer` collects the ids of the later ones.
   */
  method CollectDuplicates(tous: seq<Paiement>) returns (vus: map<Key, int>, aSupprimer: seq<int>)
    ensures vus.Keys == KeysOf(tous)
    ensures forall i :: 0 <= i < |tous| && IsFirst(tous, i) ==> vus[KeyOf(tous[i])] == tous[i].id
    ensures aSupprimer == DuplicateIds(tous)
    ensures |vus| + |aSupprimer| == |tous|
  {
    vus := map[];
    aSupprimer := [];
    var i := 0;
    while i < |tous|
      invariant 0 <= i <= |tous|
      invariant vus.Keys == KeysOf(tous[..i])
      invariant forall j :: 0 <= j < i && IsFirst(tous, j) ==> KeyOf(tous[j]) in vus && vus[KeyOf(tous[j])] == tous[j].id
      invariant aSupprimer == DuplicateIds(tous[..i])
      invariant |vus| + |aSupprimer| == i
    {
      var p := tous[i];
      var cle := KeyOf(p);
      ghost var vus0, aSupprimer0 := vus, aSupprimer;
      if cle in vus {
        aSupprimer := aSupprimer + [p.id];
      } else {
        vus := vus[cle := p.id];
      }
      CollectStep(tous, i, vus0, aSupprimer0, vus, aSupprimer);
      i := i + 1;
    }
    assert tous[..|tous|] == tous;
  }

  /** A payment whose id is not on the delete list is the first of its key. */
  lemma {:induction false} KeptIsFirst(s: seq<Paiement>)
    ensures forall i :: 0 <= i < |s| && s[i].id !in DuplicateIds(s) ==> IsFirst(s, i)
  {
    if s != [] {
      var n := |s| - 1;
      assert s[..n + 1] == s;
      KeptIsFirst(s[..n]);
      DuplicateIdsSnoc(s, n);
      forall i | 0 <= i < |s| && s[i].id !in DuplicateIds(s) ensures IsFirst(s, i) {
        if i < n {
          IsFirstPrefix(s, n, i);
          assert s[..n][i] == s[i];
        }
      }
    }
  }

  /** Every id on the delete list belongs to a payment that is not the first of its key. */
  lemma {:induction false} DeletedIsNotFirst(s: seq<Paiement>)
    ensures forall x :: x in DuplicateIds(s) ==> exists i :: 0 <= i < |s| && !IsFirst(s, i) && s[i].id == x
  {
    if s != [] {
      var n := |s| - 1;
      assert s[..n + 1] == s;
      DeletedIsNotFirst(s[..n]);
      DuplicateIdsSnoc(s, n);
      forall x | x in DuplicateIds(s) ensures exists i :: 0 <= i < |s| && !IsFirst(s, i) && s[i].id == x {
        if x in DuplicateIds(s[..n]) {
          var i :| 0 <= i < n && !IsFirst(s[..n], i) && s[..n][i].id == x;
          IsFirstPrefix(s, n, i);
          assert s[..n][i] == s[i];
        } else {
          assert !IsFirst(s, n) && s[n].id == x;
        }
      }
    }
  }

  /** Every payment is either the first of its key or on the delete list: |delete list| + |distinct keys| == |payments|. */
  lemma {:induction false} CountIdentity(s: seq<Paiement>)
    ensures |DuplicateIds(s)| + |KeysOf(s)| == |s|
  {
    if s != [] {
      var n := |s| - 1;
      assert s[..n + 1] == s;
      CountIdentity(s[..n]);
      KeysOfSnoc(s, n);
      DuplicateIdsSnoc(s, n);
    }
  }

  lemma {:induction false} UniqueKeysNoDuplicates(s: seq<Paiement>)
    requires UniqueKeys(s)
    ensures DuplicateIds(s) == []
  {
    if s != [] {
      var n := |s| - 1;
      assert s[..n + 1] == s;
      assert UniqueKeys(s[..n]) by {
        assert forall j :: 0 <= j < n ==> s[..n][j] == s[j];
      }
      UniqueKeysNoDuplicates(s[..n]);
      DuplicateIdsSnoc(s, n);
    }
  }

  /** The delete list is empty exactly when no key repeats. */
  lemma NoDuplicatesIffUniqueKeys(s: seq<Paiement>)
    ensures DuplicateIds(s) == [] <==> UniqueKeys(s)
  {
    if UniqueKeys(s) {
      UniqueKeysNoDuplicates(s);
    }
    if DuplicateIds(s) == [] {
      KeptIsFirst(s);
    }
  }

  /** No key repeats exactly when there are as many distinct keys as payments. */
  lemma UniqueKeysIffAllDistinct(s: seq<Paiement>)
    ensures UniqueKeys(s) <==> |KeysOf(s)| == |s|
  {
    CountIdentity(s);
    NoDuplicatesIffUniqueKeys(s);
  }

  /** Two listings of the same rows have the same keys. */
  lemma SameRowsSameKeys(a: seq<Paiement>, b: seq<Paiement>)
    requires multiset(a) == multiset(b)
    ensures KeysOf(a) == KeysOf(b) && |a| == |b|
  {
    assert |a| == |multiset(a)| == |multiset(b)| == |b|;
    forall k | k in KeysOf(a) ensures k in KeysOf(b) {
      var i :| 0 <= i < |a| && KeyOf(a[i]) == k;
      assert a[i] in multiset(b);
      var j :| 0 <= j < |b| && b[j] == a[i];
    }
    forall k | k in KeysOf(b) ensures k in KeysOf(a) {
      var j :| 0 <= j < |b| && KeyOf(b[j]) == k;
      assert b[j] in multiset(a);
      var i :| 0 <= i < |a| && a[i] == b[j];
    }
  }

  /** The ids among the payments of `s`. */
  function IdsOf(s: seq<Paiement>): set<int> {
    set i | 0 <= i < |s| :: s[i].id
  }

  lemma {:induction false} IdsOfCons(s: seq<Paiement>)
    requires s != []
    ensures IdsOf(s) == {s[0].id} + IdsOf(s[1..])
  {
    forall x | x in IdsOf(s) ensures x in {s[0].id} + IdsOf(s[1..]) {
      var i :| 0 <= i < |s| && s[i].id == x;
      if i > 0 { assert s[1..][i - 1] == s[i]; }
    }
    forall x | x in IdsOf(s[1..]) ensures x in IdsOf(s) {
      var i :| 0 <= i < |s[1..]| && s[1..][i].id == x;
      assert s[i + 1] == s[1..][i];
    }
  }

  /** Ids are unique exactly when there are as many distinct ids as payments. */
  lemma {:induction false} UniqueIdsIffAllDistinct(s: seq<Paiement>)
    ensures |IdsOf(s)| <= |s|
    ensures UniquePaiementIds(s) <==> |IdsOf(s)| == |s|
  {
    if s == [] {
      assert IdsOf(s) == {};
    } else {
      var rest := s[1..];
      IdsOfCons(s);
      UniqueIdsIffAllDistinct(rest);
      assert forall k :: 0 <= k < |rest| ==> rest[k] == s[k + 1];
      if UniquePaiementIds(s) {
        assert UniquePaiementIds(rest);
        forall x | x in IdsOf(rest) ensures x != s[0].id {
          var k :| 0 <= k < |rest| && rest[k].id == x;
          assert s[k + 1].id != s[0].id;
        }
      }
      if |IdsOf(s)| == |s| {
        assert s[0].id !in IdsOf(rest);
        assert |IdsOf(rest)| == |rest|;
        forall i, j | 0 <= i < j < |s| ensures s[i].id != s[j].id {
          if i == 0 {
            assert s[j].id in IdsOf(rest) by { assert rest[j - 1] == s[j]; }
          } else {
            assert rest[i - 1] == s[i] && rest[j - 1] == s[j];
          }
        }
      }
    }
  }

  /** Any listing of a table with unique ids has unique ids. */
  lemma PermutationKeepsUniqueIds(a: seq<Paiement>, b: seq<Paiement>)
    requires multiset(a) == multiset(b) && UniquePaiementIds(a)
    ensures UniquePaiementIds(b)
  {
    assert |a| == |multiset(a)| == |multiset(b)| == |b|;
    forall x | x in IdsOf(a) ensures x in IdsOf(b) {
      var i :| 0 <= i < |a| && a[i].id == x;
      assert a[i] in multiset(b);
      var j :| 0 <= j < |b| && b[j] == a[i];
    }
    forall x | x in IdsOf(b) ensures x in IdsOf(a) {
      var j :| 0 <= j < |b| && b[j].id == x;
      assert b[j] in multiset(a);
      var i :| 0 <= i < |a| && a[i] == b[j];
    }
    assert IdsOf(a) == IdsOf(b);
    UniqueIdsIffAllDistinct(a);
    UniqueIdsIffAllDistinct(b);
  }

  lemma {:induction false} WithoutKeepsUniqueIds(store: seq<Paiement>, ids: seq<int>)
    requires UniquePaiementIds(store)
    ensures UniquePaiementIds(Without(store, ids))
  {
    if store != [] {
      WithoutKeepsUniqueIds(store[1..], ids);
      var rest := Without(store[1..], ids);
      var head := if store[0].id in ids then [] else [store[0]];
      var r := Without(store, ids);
      assert r == head + rest;
      forall i, j | 0 <= i < j < |r| ensures r[i].id != r[j].id {
        if i < |head| {
          assert r[j] in rest;
          var k :| 0 <= k < |store[1..]| && store[1..][k] == r[j];
          assert store[k + 1] == r[j];
        } else {
          assert r[i] == rest[i - |head|] && r[j] == rest[j - |head|];
        }
      }
    }
  }

  /** With unique ids, the first payment of a key is never on the delete list. */
  lemma FirstIsNotDeleted(s: seq<Paiement>, a: int)
    requires UniquePaiementIds(s) && 0 <= a < |s| && IsFirst(s, a)
    ensures s[a].id !in DuplicateIds(s)
  {
    DeletedIsNotFirst(s);
    forall i | 0 <= i < |s| && !IsFirst(s, i) ensures s[i].id != s[a].id {
      assert i != a;
    }
  }

  /** Every key of `s` has a first occurrence, at or before any occurrence. */
  lemma {:induction false} FirstOccurrence(s: seq<Paiement>, j: int) returns (a: int)
    requires 0 <= j < |s|
    ensures 0 <= a <= j && KeyOf(s[a]) == KeyOf(s[j]) && IsFirst(s, a)
    decreases j
  {
    if IsFirst(s, j) {
      a := j;
    } else {
      var k :| 0 <= k < j && KeyOf(s[k]) == KeyOf(s[j]);
      a := FirstOccurrence(s, k);
    }
  }

  /**
   * What the cleanup keeps: a row of the table survives exactly when it is
   * the first payment of its key in processing order.
   */
  lemma KeptAreFirsts(store: seq<Paiement>, ordered: seq<Paiement>, a: int)
    requires UniquePaiementIds(store) && multiset(ordered) == multiset(store)
    requires 0 <= a < |ordered|
    ensures ordered[a] in Without(store, DuplicateIds(ordered)) <==> IsFirst(ordered, a)
  {
    PermutationKeepsUniqueIds(store, ordered);
    KeptIsFirst(ordered);
    assert ordered[a] in multiset(store);
    if IsFirst(ordered, a) {
      FirstIsNotDeleted(ordered, a);
    }
  }

  /** After the deletion no two remaining payments share a key. */
  lemma SurvivorsHaveUniqueKeys(store: seq<Paiement>, ordered: seq<Paiement>)
    requires UniquePaiementIds(store) && multiset(ordered) == multiset(store)
    ensures UniqueKeys(Without(store, DuplicateIds(ordered)))
  {
    var r := Without(store, DuplicateIds(ordered));
    PermutationKeepsUniqueIds(store, ordered);
    WithoutKeepsUniqueIds(store, DuplicateIds(ordered));
    KeptIsFirst(ordered);
    forall i, j | 0 <= i < j < |r| ensures KeyOf(r[i]) != KeyOf(r[j]) {
      assert r[i] in multiset(ordered) && r[j] in multiset(ordered);
      var a :| 0 <= a < |ordered| && ordered[a] == r[i];
      var b :| 0 <= b < |ordered| && ordered[b] == r[j];
      assert IsFirst(ordered, a) && IsFirst(ordered, b);
      assert r[i].id != r[j].id;
    }
  }

  /**
   * The counts: the rows kept are as many as the distinct keys, and they and
   * the delete list together account for every payment.
   */
  lemma KeptCount(store: seq<Paiement>, ordered: seq<Paiement>)
    requires UniquePaiementIds(store) && multiset(ordered) == multiset(store)
    ensures |Without(store, DuplicateIds(ordered))| == |KeysOf(ordered)|
    ensures |Without(store, DuplicateIds(ordered))| + |DuplicateIds(ordered)| == |store|
  {
    var r := Without(store, DuplicateIds(ordered));
    SurvivorsHaveUniqueKeys(store, ordered);
    UniqueKeysIffAllDistinct(r);
    SameRowsSameKeys(ordered, store);
    CountIdentity(ordered);
    SurvivorsKeepEveryKey(store, ordered);
  }

  /** Deleting the duplicates loses no key: the survivors have exactly the keys of the listing. */
  lemma SurvivorsKeepEveryKey(store: seq<Paiement>, ordered: seq<Paiement>)
    requires UniquePaiementIds(store) && multiset(ordered) == multiset(store)
    ensures KeysOf(Without(store, DuplicateIds(ordered))) == KeysOf(ordered)
  {
    var r := Without(store, DuplicateIds(ordered));
    PermutationKeepsUniqueIds(store, ordered);
    forall k | k in KeysOf(ordered) ensures k in KeysOf(r) {
      var j :| 0 <= j < |ordered| && KeyOf(ordered[j]) == k;
      var a := FirstOccurrence(ordered, j);
      FirstIsNotDeleted(ordered, a);
      assert ordered[a] in multiset(store);
      assert ordered[a] in r;
      var x :| 0 <= x < |r| && r[x] == ordered[a];
    }
    forall k | k in KeysOf(r) ensures k in KeysOf(ordered) {
      var x :| 0 <= x < |r| && KeyOf(r[x]) == k;
      assert r[x] in multiset(ordered);
      var j :| 0 <= j < |ordered| && ordered[j] == r[x];
    }
  }

  /** A payment whose key no other payment shares is never deleted. */
  lemma LonePaymentIsKept(store: seq<Paiement>, ordered: seq<Paiement>, p: Paiement)
    requires UniquePaiementIds(store) && multiset(ordered) == multiset(store)
    requires p in store
    requires forall q :: q in store && KeyOf(q) == KeyOf(p) ==> q == p
    ensures p in Without(store, DuplicateIds(ordered))
  {
    PermutationKeepsUniqueIds(store, ordered);
    assert p in multiset(ordered);
    var a :| 0 <= a < |ordered| && ordered[a] == p;
    forall j | 0 <= j < a ensures KeyOf(ordered[j]) != KeyOf(p) {
      assert ordered[j] in multiset(store);
      assert ordered[j].id != ordered[a].id;
    }
    FirstIsNotDeleted(ordered, a);
  }

  /**
   * Because the listing is sorted, the payment kept for a key has the
   * earliest payment date of its group, and the smallest id among those
   * paid that day.
   */
  lemma SurvivorIsEarliest(s: seq<Paiement>, a: int, j: int)
    requires Sorted(s) && 0 <= a < |s| && 0 <= j < |s|
    requires IsFirst(s, a) && KeyOf(s[j]) == KeyOf(s[a])
    ensures s[a].datePaiement == s[j].datePaiement || DateBefore(s[a].datePaiement, s[j].datePaiement)
    ensures s[a].datePaiement == s[j].datePaiement ==> s[a].id <= s[j].id
  {
    if a < j {
      assert OrderLe(s[a], s[j]);
      assert !DateBefore(s[a].moisConcerne, s[j].moisConcerne);
    }
  }

  /** Running the cleanup on a table whose keys are all distinct deletes nothing; so does a second run. */
  lemma SecondRunDeletesNothing(store: seq<Paiement>, ordered: seq<Paiement>, again: seq<Paiement>)
    requires UniquePaiementIds(store) && multiset(ordered) == multiset(store)
    requires multiset(again) == multiset(Without(store, DuplicateIds(ordered)))
    ensures DuplicateIds(again) == []
  {
    var r := Without(store, DuplicateIds(ordered));
    SurvivorsHaveUniqueKeys(store, ordered);
    UniqueKeysIffAllDistinct(r);
    SameRowsSameKeys(again, r);
    UniqueKeysIffAllDistinct(again);
    NoDuplicatesIffUniqueKeys(again);
  }

  /** The payment table the command deletes from; its ids are primary keys. */
  class PaiementTable {
    var rows: seq<Paiement>

    ghost predicate Valid()
      reads this
    {
      UniquePaiementIds(rows)
    }

    constructor (initial: seq<Paiement>)
      requires UniquePaiementIds(initial)
      ensures Valid() && rows == initial
    {
      rows := initial;
    }

    /** `Paiement.objects.filter(id__in=ids).delete()`. */
    method DeleteIds(ids: seq<int>)
      requires Valid()
      modifies this
      ensures Valid() && rows == Without(old(rows), ids)
    {
      WithoutKeepsUniqueIds(rows, ids);
      rows := Without(rows, ids);
    }
  }

  /**
   * `Command.handle`: `ordered` is the table as `order_by('locataire',
   * 'mois_concerne', 'date_paiement', 'id')` lists it. Collects the
   * duplicates, deletes them when there are any, and returns how many were
   * deleted (the count the command prints).
   */
  method Handle(table: PaiementTable, ordered: seq<Paiement>) returns (supprimes: nat)
    requires table.Valid() && IsListing(ordered, table.rows)
    modifies table
    ensures table.Valid()
    ensures table.rows == Without(old(table.rows), DuplicateIds(ordered))
    ensures supprimes == |DuplicateIds(ordered)| == |old(table.rows)| - |table.rows|
    ensures UniqueKeys(table.rows)
    ensures supprimes == 0 ==> table.rows == old(table.rows)
  {
    var vus, aSupprimer := CollectDuplicates(ordered);
    KeptCount(table.rows, ordered);
    SurvivorsHaveUniqueKeys(table.rows, ordered);
    supprimes := |aSupprimer|;
    if |aSupprimer| > 0 {
      table.DeleteIds(aSupprimer);
    } else {
      NoDuplicatesIffUniqueKeys(ordered);
      assert DuplicateIds(ordered) == [];
      forall p | p in table.rows ensures p.id !in aSupprimer { }
      assert Without(table.rows, aSupprimer) == table.rows by {
        WithoutNothing(table.rows, aSupprimer);
      }
    }
  }

  lemma {:induction false} WithoutNothing(store: seq<Paiement>, ids: seq<int>)
    requires forall p :: p in store ==> p.id !in ids
    ensures Without(store, ids) == store
  {
    if store != [] {
      WithoutNothing(store[1..], ids);
      assert store == [store[0]] + store[1..];
    }
  }
}
