/**
 * The bookkeeping the report views share: the French month names, the
 * rent and payment totals, the 10% commission, the paid/unpaid tenant
 * counts and the per-tenant status rows.
 */
module Bookkeeping {
  import opened Wrappers
  import opened Records

  /** The exceptions a view can raise before it renders anything. */
  datatype Error =
    | DoesNotExist    // `Proprietaire.objects.get` found no owner with that id
    | ValueError      // `int(...)` of a query parameter that is not a number
    | IndexError      // `MOIS_FR[...]` outside the list
    | AttributeError  // an attribute the object does not have

  /** `MOIS_FR`: index 0 is empty, indices 1..12 name the months. */
  const MOIS_FR: seq<string> := [
    "", "Janvier", "Février", "Mars", "Avril", "Mai", "Juin",
    "Juillet", "Août", "Septembre", "Octobre", "Novembre", "Décembre"
  ]

  /**
   * `MOIS_FR[i]` with Python's list indexing: a negative index counts from
   * the end, anything outside -13..12 raises IndexError.
   */
  function MoisFr(i: int): (r: Result<string, Error>)
    ensures r.Success? <==> -13 <= i <= 12
    ensures r.Failure? ==> r.error == IndexError
    ensures 1 <= i <= 12 ==> r.Success? && r.value != ""
    ensures i == 0 ==> r == Success("")
    ensures -13 <= i < 0 ==> r.Success? && r.value == MOIS_FR[i + 13]
  {
    if 0 <= i < |MOIS_FR| then Success(MOIS_FR[i])
    else if -|MOIS_FR| <= i < 0 then Success(MOIS_FR[|MOIS_FR| + i])
    else Failure(IndexError)
  }

  /** Two different months never get the same name. */
  lemma MonthNamesDistinct(i: int, j: int)
    requires 1 <= i <= 12 && 1 <= j <= 12 && i != j
    ensures MoisFr(i) != MoisFr(j)
  {
  }

  /** `sum([l.loyer_mensuel for l in locataires])`, in cents. */
  function TotalLoyers(ts: seq<Locataire>): int {
    if ts == [] then 0 else ts[0].loyerMensuel + TotalLoyers(ts[1..])
  }

  /** `sum([p.montant for p in paiements])`, in cents. */
  function TotalRecu(ps: seq<Paiement>): int {
    if ps == [] then 0 else ps[0].montant + TotalRecu(ps[1..])
  }

  /**
   * `total_recu * Decimal('0.1')`, in cents. Decimal arithmetic is exact and
   * keeps the third decimal place, so the commission is a rational number
   * of cents.
   */
  function Commission(totalRecu: int): (c: real)
    ensures c * 10.0 == totalRecu as real
    ensures totalRecu >= 0 ==> 0.0 <= c <= totalRecu as real
  {
    totalRecu as real * 0.1
  }

  /** `total_loyers_locataires - total_recu`: not clamped at zero. */
  function LoyerRestant(totalLoyers: int, totalRecu: int): (r: int)
    ensures r + totalRecu == totalLoyers
    ensures r < 0 <==> totalRecu > totalLoyers
  {
    totalLoyers - totalRecu
  }

  lemma {:induction false} TotalRecuAppend(a: seq<Paiement>, b: seq<Paiement>)
    ensures TotalRecu(a + b) == TotalRecu(a) + TotalRecu(b)
  {
    if a == [] {
      assert a + b == b;
    } else {
      assert (a + b)[1..] == a[1..] + b;
      TotalRecuAppend(a[1..], b);
    }
  }

  /** With no negative amount, the total received is not negative. */
  lemma {:induction false} TotalRecuNonNegative(ps: seq<Paiement>)
    requires forall p :: p in ps ==> p.montant >= 0
    ensures TotalRecu(ps) >= 0
  {
    if ps != [] {
      assert ps[0] in ps;
      assert forall p :: p in ps[1..] ==> p in ps;
      TotalRecuNonNegative(ps[1..]);
    }
  }

  /** `paiements.filter(mois_concerne__month=m)`. */
  function OfMonth(ps: seq<Paiement>, m: int): (r: seq<Paiement>)
    ensures forall p :: p in r <==> p in ps && p.moisConcerne.month == m
  {
    Filter(ps, (p: Paiement) => p.moisConcerne.month == m)
  }

  /** No valid payment concerns a month outside 1..12. */
  lemma {:induction false} OfMonthOutsideYear(ps: seq<Paiement>, m: int)
    requires forall p :: p in ps ==> ValidDate(p.moisConcerne)
    requires m < 1 || 12 < m
    ensures OfMonth(ps, m) == []
  {
    if ps != [] {
      assert ps[0] in ps;
      assert forall p :: p in ps[1..] ==> p in ps;
      OfMonthOutsideYear(ps[1..], m);
    }
  }

  /** The totals of months 1..k added up. */
  function SumOfMonths(ps: seq<Paiement>, k: nat): int {
    if k == 0 then 0 else SumOfMonths(ps, k - 1) + TotalRecu(OfMonth(ps, k))
  }

  lemma {:induction false} SumOfMonthsCons(ps: seq<Paiement>, k: nat)
    requires ps != []
    ensures SumOfMonths(ps, k) == SumOfMonths(ps[1..], k) + (if 1 <= ps[0].moisConcerne.month <= k then ps[0].montant else 0)
  {
    if k > 0 {
      SumOfMonthsCons(ps, k - 1);
      assert ps == [ps[0]] + ps[1..];
      var head: seq<Paiement> := if ps[0].moisConcerne.month == k then [ps[0]] else [];
      assert OfMonth(ps, k) == head + OfMonth(ps[1..], k);
      TotalRecuAppend(head, OfMonth(ps[1..], k));
    }
  }

  lemma {:induction false} SumOfMonthsNil(k: nat)
    ensures SumOfMonths([], k) == 0
  {
    if k > 0 {
      SumOfMonthsNil(k - 1);
    }
  }

  /**
   * The twelve monthly totals add up to the unfiltered total: a payment's
   * target month lies in 1..12, so it is counted in exactly one month.
   */
  lemma {:induction false} MonthlyTotalsAddUp(ps: seq<Paiement>)
    requires forall p :: p in ps ==> ValidDate(p.moisConcerne)
    ensures SumOfMonths(ps, 12) == TotalRecu(ps)
  {
    if ps == [] {
      SumOfMonthsNil(12);
    } else {
      assert ps[0] in ps;
      assert forall p :: p in ps[1..] ==> p in ps;
      MonthlyTotalsAddUp(ps[1..]);
      SumOfMonthsCons(ps, 12);
    }
  }

  /** `values_list("locataire", flat=True).distinct()`: the tenants that paid. */
  function PayerIds(ps: seq<Paiement>): set<int> {
    set p | p in ps :: p.locataire
  }

  /** `paiements.filter(locataire=l).first()` on a listing in primary-key order. */
  function FirstPaymentOf(ps: seq<Paiement>, tenant: int): (r: Option<Paiement>)
    ensures r.None? <==> tenant !in PayerIds(ps)
    ensures r.Some? ==> exists i :: 0 <= i < |ps| && ps[i] == r.value && r.value.locataire == tenant
                                    && forall j :: 0 <= j < i ==> ps[j].locataire != tenant
  {
    if ps == [] then None
    else if ps[0].locataire == tenant then Some(ps[0])
    else
      var r := FirstPaymentOf(ps[1..], tenant);
      assert ps == [ps[0]] + ps[1..];
      assert r.Some? ==> exists i :: 1 <= i < |ps| && ps[i] == r.value && r.value.locataire == tenant
                                     && forall j :: 0 <= j < i ==> ps[j].locataire != tenant by {
        if r.Some? {
          var i :| 0 <= i < |ps[1..]| && ps[1..][i] == r.value && r.value.locataire == tenant
                   && forall j :: 0 <= j < i ==> ps[1..][j].locataire != tenant;
          assert ps[i + 1] == r.value;
          assert forall j :: 1 <= j < i + 1 ==> ps[j] == ps[1..][j - 1];
        }
      }
      r
  }

  /** On a listing by ascending id, `.first()` is the tenant's payment with the smallest id. */
  lemma FirstPaymentHasSmallestId(ps: seq<Paiement>, tenant: int)
    requires IdsAscending(ps)
    ensures FirstPaymentOf(ps, tenant).Some? ==>
              forall p :: p in ps && p.locataire == tenant ==> FirstPaymentOf(ps, tenant).value.id <= p.id
  {
    var r := FirstPaymentOf(ps, tenant);
    if r.Some? {
      var i :| 0 <= i < |ps| && ps[i] == r.value && r.value.locataire == tenant
               && forall j :: 0 <= j < i ==> ps[j].locataire != tenant;
      forall p | p in ps && p.locataire == tenant ensures r.value.id <= p.id {
        var k :| 0 <= k < |ps| && ps[k] == p;
        assert i <= k;
      }
    }
  }

  const PAYE: string := "Payé"
  const IMPAYE: string := "Impayé"

  /** One entry of `locataires_data`: the tenant's name, amount paid and status. */
  datatype LigneLocataire = LigneLocataire(nom: string, montant: int, statut: string)

  /**
   * The row of one tenant: "Payé" with the amount of its first payment when
   * it has one among `ps`, "Impayé" with 0.00 otherwise.
   */
  function Ligne(t: Locataire, ps: seq<Paiement>): (l: LigneLocataire)
    ensures l.nom == t.nom
    ensures l.statut == PAYE <==> t.id in PayerIds(ps)
    ensures l.statut == IMPAYE <==> t.id !in PayerIds(ps)
    ensures t.id in PayerIds(ps) ==> exists i :: 0 <= i < |ps| && ps[i].locataire == t.id && l.montant == ps[i].montant
                                                 && forall j :: 0 <= j < i ==> ps[j].locataire != t.id
    ensures t.id !in PayerIds(ps) ==> l.montant == 0
  {
    match FirstPaymentOf(ps, t.id)
    case Some(p) => LigneLocataire(t.nom, p.montant, PAYE)
    case None => LigneLocataire(t.nom, 0, IMPAYE)
  }

  /** The rows of all tenants, one per tenant, in tenant order. */
  function Lignes(ts: seq<Locataire>, ps: seq<Paiement>): (r: seq<LigneLocataire>)
    ensures |r| == |ts|
    ensures forall i :: 0 <= i < |ts| ==> r[i] == Ligne(ts[i], ps)
  {
    if ts == [] then [] else [Ligne(ts[0], ps)] + Lignes(ts[1..], ps)
  }

  /** The loop that fills `locataires_data`. */
  method BuildLocatairesData(ts: seq<Locataire>, ps: seq<Paiement>) returns (rows: seq<LigneLocataire>)
    ensures rows == Lignes(ts, ps)
  {
    rows := [];
    var i := 0;
    while i < |ts|
      invariant 0 <= i <= |ts|
      invariant |rows| == i
      invariant forall k :: 0 <= k < i ==> rows[k] == Ligne(ts[k], ps)
    {
      var paiement := FirstPaymentOf(ps, ts[i].id);
      var montant := if paiement.Some? then paiement.value.montant else 0;
      var statut := if paiement.Some? then PAYE else IMPAYE;
      rows := rows + [LigneLocataire(ts[i].nom, montant, statut)];
      i := i + 1;
    }
  }

  /** How many rows carry the status `statut`. */
  function CountStatut(rows: seq<LigneLocataire>, statut: string): nat {
    if rows == [] then 0 else (if rows[0].statut == statut then 1 else 0) + CountStatut(rows[1..], statut)
  }

  lemma {:induction false} LocataireIdsCons(ts: seq<Locataire>)
    requires ts != []
    ensures LocataireIds(ts) == {ts[0].id} + LocataireIds(ts[1..])
  {
    assert ts == [ts[0]] + ts[1..];
  }

  /** With unique ids, there are as many tenant ids as tenants. */
  lemma {:induction false} LocataireIdsCount(ts: seq<Locataire>)
    requires UniqueLocataireIds(ts)
    ensures |LocataireIds(ts)| == |ts|
  {
    if ts == [] {
      assert LocataireIds(ts) == {};
    } else {
      var rest := ts[1..];
      assert UniqueLocataireIds(rest) by {
        assert forall k :: 0 <= k < |rest| ==> rest[k] == ts[k + 1];
      }
      LocataireIdsCount(rest);
      LocataireIdsCons(ts);
      HeadIdNotInRest(ts);
    }
  }

  lemma HeadIdNotInRest(ts: seq<Locataire>)
    requires UniqueLocataireIds(ts) && ts != []
    ensures ts[0].id !in LocataireIds(ts[1..])
  {
    forall t | t in ts[1..] ensures t.id != ts[0].id {
      var k :| 0 <= k < |ts[1..]| && ts[1..][k] == t;
      assert ts[k + 1] == t;
    }
  }

  lemma CountStatutLignesCons(ts: seq<Locataire>, ps: seq<Paiement>, statut: string)
    requires ts != []
    ensures CountStatut(Lignes(ts, ps), statut)
            == (if Ligne(ts[0], ps).statut == statut then 1 else 0) + CountStatut(Lignes(ts[1..], ps), statut)
  {
    assert Lignes(ts, ps)[1..] == Lignes(ts[1..], ps);
  }

  /** The status rows split the tenant ids into those that paid and those that did not. */
  lemma {:induction false} StatusCounts(ts: seq<Locataire>, ps: seq<Paiement>)
    requires UniqueLocataireIds(ts)
    ensures CountStatut(Lignes(ts, ps), PAYE) == |LocataireIds(ts) * PayerIds(ps)|
    ensures CountStatut(Lignes(ts, ps), IMPAYE) == |LocataireIds(ts) - PayerIds(ps)|
  {
    if ts == [] {
      assert LocataireIds(ts) == {};
    } else {
      var rest := ts[1..];
      assert UniqueLocataireIds(rest) by {
        assert forall k :: 0 <= k < |rest| ==> rest[k] == ts[k + 1];
      }
      StatusCounts(rest, ps);
      LocataireIdsCons(ts);
      HeadIdNotInRest(ts);
      CountStatutLignesCons(ts, ps, PAYE);
      CountStatutLignesCons(ts, ps, IMPAYE);
      SplitCounts(ts[0].id, LocataireIds(rest), PayerIds(ps));
    }
  }

  lemma SplitCounts(x: int, b: set<int>, p: set<int>)
    requires x !in b
    ensures |({x} + b) * p| == (if x in p then 1 else 0) + |b * p|
    ensures |({x} + b) - p| == (if x in p then 0 else 1) + |b - p|
  {
    if x in p {
      assert ({x} + b) * p == {x} + b * p;
      assert ({x} + b) - p == b - p;
    } else {
      assert ({x} + b) * p == b * p;
      assert ({x} + b) - p == {x} + (b - p);
    }
  }

  /**
   * `locataires_payes` and `locataires_impayes` agree with the rows: when
   * every payer is one of the tenants, the paid count is the number of
   * "Payé" rows, the unpaid count (tenants minus payers) the number of
   * "Impayé" rows, and neither is negative.
   */
  lemma CountsMatchRows(ts: seq<Locataire>, ps: seq<Paiement>)
    requires UniqueLocataireIds(ts)
    requires PayerIds(ps) <= LocataireIds(ts)
    ensures |PayerIds(ps)| == CountStatut(Lignes(ts, ps), PAYE)
    ensures |ts| - |PayerIds(ps)| == CountStatut(Lignes(ts, ps), IMPAYE)
  {
    StatusCounts(ts, ps);
    LocataireIdsCount(ts);
    assert LocataireIds(ts) * PayerIds(ps) == PayerIds(ps);
  }

  /** The figures every report computes from a set of tenants and a set of payments. */
  datatype Bilan = Bilan(
    totalLoyersLocataires: int,
    totalRecu: int,
    loyerRestant: int,
    commission: real,
    locatairesPayes: nat,
    locatairesImpayes: int)

  function ComputeBilan(ts: seq<Locataire>, ps: seq<Paiement>): (b: Bilan)
    ensures b.totalLoyersLocataires == TotalLoyers(ts) && b.totalRecu == TotalRecu(ps)
    ensures b.loyerRestant + b.totalRecu == b.totalLoyersLocataires
    ensures b.commission * 10.0 == b.totalRecu as real
    ensures b.locatairesPayes == |PayerIds(ps)|
    ensures b.locatairesPayes + b.locatairesImpayes == |ts|
  {
    var totalLoyers := TotalLoyers(ts);
    var totalRecu := TotalRecu(ps);
    var payes := |PayerIds(ps)|;
    Bilan(totalLoyers, totalRecu, LoyerRestant(totalLoyers, totalRecu), Commission(totalRecu), payes, |ts| - payes)
  }
}
