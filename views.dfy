/**
 * The report views: `facture_proprietaire` (an owner's invoice),
 * `dashboard` (the HTML dashboard), `dashboard_pdf` (the global report) and
 * `accueil` (the home page). `dashboard` and `dashboard_pdf` can narrow the
 * tenants and payments to one owner, then to one target month; `accueil`
 * only to one month; `facture_proprietaire` always covers one owner. Each
 * computes the figures it renders; the rendering itself is not modelled.
 */
module Views {
  import opened Wrappers
  import opened Records
  import opened Bookkeeping

  /**
   * A query-string parameter (`request.GET.get(...)`) as the view reads it:
   * missing or empty (falsy), a string `int()` accepts, or one it rejects.
   */
  datatype Param = Absent | Number(n: int) | NotANumber

  /**
   * Django names the reverse accessor of a foreign key after its
   * `related_name` when one is given, and `<model>_set` only when none is.
   */
  function ReverseAccessor(relatedName: Option<string>, model: string): string {
    match relatedName
    case Some(name) => name
    case None => model + "_set"
  }

  /** `Locataire.proprietaire` is declared with `related_name="locataires"`. */
  const LOCATAIRE_RELATED_NAME: Option<string> := Some("locataires")

  /** `proprietaire.locataires.all()`: the owner's tenants, in tenant order. */
  function OwnerTenants(ts: seq<Locataire>, owner: int): (r: seq<Locataire>)
    ensures forall t :: t in r <==> t in ts && t.proprietaire == owner
    ensures UniqueLocataireIds(ts) ==> UniqueLocataireIds(r)
  {
    var r := Filter(ts, (t: Locataire) => t.proprietaire == owner);
    assert UniqueLocataireIds(ts) ==> UniqueLocataireIds(r) by {
      if UniqueLocataireIds(ts) {
        FilterKeepsUniqueLocataireIds(ts, (t: Locataire) => t.proprietaire == owner);
      }
    }
    r
  }

  /**
   * `proprietaire.<attr>.all()`: the owner's tenants when `attr` is the
   * accessor Django created, AttributeError otherwise.
   */
  function OwnerTenantsVia(attr: string, ts: seq<Locataire>, owner: int): (r: Result<seq<Locataire>, Error>)
    ensures r.Success? <==> attr == "locataires"
    ensures r.Success? ==> r.value == OwnerTenants(ts, owner)
    ensures r.Failure? ==> r.error == AttributeError
  {
    if attr == ReverseAccessor(LOCATAIRE_RELATED_NAME, "locataire") then Success(OwnerTenants(ts, owner))
    else Failure(AttributeError)
  }

  /** As written, the views ask for `locataire_set`, which does not exist. */
  lemma LocataireSetRaises(ts: seq<Locataire>, owner: int)
    ensures OwnerTenantsVia("locataire_set", ts, owner) == Failure(AttributeError)
    ensures OwnerTenantsVia("locataires", ts, owner) == Success(OwnerTenants(ts, owner))
  {
    assert "locataire_set" != "locataires" by {
      assert |"locataire_set"| != |"locataires"|;
    }
  }

  /** `Paiement.objects.filter(locataire__proprietaire=owner)`: payments whose tenant belongs to `owner`. */
  function OwnerPayments(ts: seq<Locataire>, ps: seq<Paiement>, owner: int): (r: seq<Paiement>)
    ensures forall p :: p in r <==> p in ps && exists t :: t in ts && t.id == p.locataire && t.proprietaire == owner
    ensures IdsAscending(ps) ==> IdsAscending(r)
  {
    var ids := LocataireIds(OwnerTenants(ts, owner));
    var r := Filter(ps, (p: Paiement) => p.locataire in ids);
    assert IdsAscending(ps) ==> IdsAscending(r) by {
      if IdsAscending(ps) {
        FilterKeepsAscendingIds(ps, (p: Paiement) => p.locataire in ids);
      }
    }
    r
  }

  /** `Proprietaire.objects.get(id=id)`, or None where it raises DoesNotExist. */
  function FindProprietaire(os: seq<Proprietaire>, id: int): (r: Option<Proprietaire>)
    ensures r.Some? ==> r.value in os && r.value.id == id
    ensures r.None? <==> forall o :: o in os ==> o.id != id
  {
    if os == [] then None
    else if os[0].id == id then Some(os[0])
    else
      assert forall o :: o in os ==> o == os[0] || o in os[1..];
      FindProprietaire(os[1..], id)
  }

  /** The owner (if one was asked for), tenants and payments a report covers. */
  datatype Scope = Scope(proprietaire: Option<Proprietaire>, locataires: seq<Locataire>, paiements: seq<Paiement>)

  /**
   * The owner selection shared by `dashboard` and `dashboard_pdf`: with an
   * owner, that owner's tenants and the payments of those tenants;
   * without, every tenant and every payment.
   */
  function SelectScope(db: Db, owner: Param): (r: Result<Scope, Error>)
    ensures owner.Absent? ==> r == Success(Scope(None, db.locataires, db.paiements))
    ensures owner.NotANumber? ==> r == Failure(ValueError)
    ensures owner.Number? ==> (r.Failure? <==> forall o :: o in db.proprietaires ==> o.id != owner.n)
    ensures owner.Number? && r.Failure? ==> r.error == DoesNotExist
    ensures owner.Number? && r.Success? ==>
              && r.value.proprietaire.Some? && r.value.proprietaire.value in db.proprietaires
              && r.value.proprietaire.value.id == owner.n
              && (forall t :: t in r.value.locataires <==> t in db.locataires && t.proprietaire == owner.n)
              && (forall p :: p in r.value.paiements <==>
                    p in db.paiements && exists t :: t in db.locataires && t.id == p.locataire && t.proprietaire == owner.n)
  {
    match owner
    case Absent => Success(Scope(None, db.locataires, db.paiements))
    case NotANumber => Failure(ValueError)
    case Number(id) =>
      match FindProprietaire(db.proprietaires, id)
      case None => Failure(DoesNotExist)
      case Some(o) => Success(Scope(Some(o), OwnerTenants(db.locataires, id), OwnerPayments(db.locataires, db.paiements, id)))
  }

  /** `if mois: paiements = paiements.filter(mois_concerne__month=int(mois))`. */
  function MonthFilter(ps: seq<Paiement>, mois: Param): (r: Result<seq<Paiement>, Error>)
    ensures r.Failure? <==> mois.NotANumber?
    ensures r.Failure? ==> r.error == ValueError
    ensures mois.Absent? ==> r == Success(ps)
    ensures mois.Number? ==> r.Success? && forall p :: p in r.value <==> p in ps && p.moisConcerne.month == mois.n
  {
    match mois
    case Absent => Success(ps)
    case Number(m) => Success(OfMonth(ps, m))
    case NotANumber => Failure(ValueError)
  }

  /** The two filters of `dashboard` and `dashboard_pdf`, in the order they raise. */
  function SelectReport(db: Db, mois: Param, owner: Param): (r: Result<(Scope, seq<Paiement>), Error>)
    ensures r.Success? <==> SelectScope(db, owner).Success? && !mois.NotANumber?
    ensures r.Success? ==> r.value.0 == SelectScope(db, owner).value
                           && Success(r.value.1) == MonthFilter(SelectScope(db, owner).value.paiements, mois)
    ensures SelectScope(db, owner).Failure? ==> r == Failure(SelectScope(db, owner).error)
    ensures SelectScope(db, owner).Success? && mois.NotANumber? ==> r == Failure(ValueError)
  {
    match SelectScope(db, owner)
    case Failure(e) => Failure(e)
    case Success(scope) =>
      match MonthFilter(scope.paiements, mois)
      case Failure(e) => Failure(e)
      case Success(ps) => Success((scope, ps))
  }

  // ---------------------------------------------------------------------
  // facture_proprietaire

  datatype FactureContext = FactureContext(
    proprietaire: Proprietaire,
    totalLoyersLocataires: int,
    totalRecu: int,
    loyerRestant: int,
    commission: real,
    moisFacture: string,
    locataires: seq<LigneLocataire>)

  /** The invoice month: that of the first payment, or "" when there is none. */
  function MoisFacture(ps: seq<Paiement>): Result<string, Error> {
    if ps == [] then Success("") else MoisFr(ps[0].moisConcerne.month)
  }

  function FactureContextOf(o: Proprietaire, ts: seq<Locataire>, ps: seq<Paiement>, mois: string, rows: seq<LigneLocataire>): FactureContext {
    var b := ComputeBilan(ts, ps);
    FactureContext(o, b.totalLoyersLocataires, b.totalRecu, b.loyerRestant, b.commission, mois, rows)
  }

  /** What `facture_proprietaire` computes for the owner `id`. */
  function FactureView(db: Db, id: int): Result<FactureContext, Error> {
    match FindProprietaire(db.proprietaires, id)
    case None => Failure(DoesNotExist)
    case Some(o) =>
      var ts := OwnerTenants(db.locataires, id);
      var ps := OwnerPayments(db.locataires, db.paiements, id);
      match MoisFacture(ps)
      case Failure(e) => Failure(e)
      case Success(mois) => Success(FactureContextOf(o, ts, ps, mois, Lignes(ts, ps)))
  }

  /** `facture_proprietaire`, with the tenant rows built by their loop. */
  method FactureProprietaire(db: Db, id: int) returns (r: Result<FactureContext, Error>)
    ensures r == FactureView(db, id)
  {
    var found := FindProprietaire(db.proprietaires, id);
    if found.None? {
      return Failure(DoesNotExist);
    }
    var ts := OwnerTenants(db.locataires, id);
    var ps := OwnerPayments(db.locataires, db.paiements, id);
    var mois := MoisFacture(ps);
    if mois.Failure? {
      return Failure(mois.error);
    }
    var rows := BuildLocatairesData(ts, ps);
    r := Success(FactureContextOf(found.value, ts, ps, mois.value, rows));
  }

  /**
   * On a well-formed database the invoice fails only for an unknown owner,
   * has one row per tenant of that owner, and its commission is a tenth of
   * what it received.
   */
  lemma FactureFacts(db: Db, id: int)
    requires WellFormed(db)
    ensures FactureView(db, id).Failure? <==> forall o :: o in db.proprietaires ==> o.id != id
    ensures FactureView(db, id).Success? ==>
              var c := FactureView(db, id).value;
              && c.proprietaire.id == id
              && |c.locataires| == |OwnerTenants(db.locataires, id)|
              && c.commission * 10.0 == c.totalRecu as real
  {
    var ps := OwnerPayments(db.locataires, db.paiements, id);
    if ps != [] {
      assert ps[0] in db.paiements;
    }
  }

  /**
   * On payments listed by ascending id with real dates, the invoice month is
   * "" exactly when there is no payment, and otherwise names the month of the
   * payment with the smallest id.
   */
  lemma MoisFactureOfFirstPayment(ps: seq<Paiement>)
    requires IdsAscending(ps) && forall p :: p in ps ==> ValidDate(p.moisConcerne)
    ensures MoisFacture(ps).Success?
    ensures MoisFacture(ps).value == "" <==> ps == []
    ensures ps != [] ==> exists q :: q in ps && (forall p :: p in ps ==> q.id <= p.id)
                                   && ValidDate(q.moisConcerne)
                                   && MoisFacture(ps).value == MOIS_FR[q.moisConcerne.month]
  {
    if ps != [] {
      assert ps[0] in ps;
      FirstIdIsSmallest(ps);
    }
  }

  /** The invoice of a known owner takes its month from that owner's payments. */
  lemma FactureMonth(db: Db, id: int)
    requires WellFormed(db) && FactureView(db, id).Success?
    ensures var c := FactureView(db, id).value;
            var ps := OwnerPayments(db.locataires, db.paiements, id);
            && (c.moisFacture == "" <==> ps == [])
            && (ps != [] ==> exists q :: q in ps && (forall p :: p in ps ==> q.id <= p.id)
                                      && c.moisFacture == MOIS_FR[q.moisConcerne.month])
  {
    var ps := OwnerPayments(db.locataires, db.paiements, id);
    assert FactureView(db, id).value.moisFacture == MoisFacture(ps).value;
    assert forall p :: p in ps ==> p in db.paiements;
    MoisFactureOfFirstPayment(ps);
  }

  // ---------------------------------------------------------------------
  // dashboard

  datatype DashboardContext = DashboardContext(
    proprietairesCount: nat,
    locatairesCount: nat,
    totalLoyersLocataires: int,
    totalRecu: int,
    loyerRestant: int,
    commissionTotale: real,
    locatairesPayes: nat,
    locatairesImpayes: int,
    proprietaire: Option<Proprietaire>,
    locatairesData: seq<LigneLocataire>)

  function DashboardContextOf(db: Db, scope: Scope, ps: seq<Paiement>, rows: seq<LigneLocataire>): DashboardContext {
    var b := ComputeBilan(scope.locataires, ps);
    DashboardContext(|db.proprietaires|, |scope.locataires|, b.totalLoyersLocataires, b.totalRecu, b.loyerRestant,
                     b.commission, b.locatairesPayes, b.locatairesImpayes, scope.proprietaire, rows)
  }

  /** What `dashboard` computes. */
  function DashboardView(db: Db, mois: Param, owner: Param): Result<DashboardContext, Error> {
    match SelectReport(db, mois, owner)
    case Failure(e) => Failure(e)
    case Success((scope, ps)) => Success(DashboardContextOf(db, scope, ps, Lignes(scope.locataires, ps)))
  }

  /** `dashboard`, with `locataires_data` built by its loop. */
  method Dashboard(db: Db, mois: Param, owner: Param) returns (r: Result<DashboardContext, Error>)
    ensures r == DashboardView(db, mois, owner)
  {
    var selected := SelectReport(db, mois, owner);
    if selected.Failure? {
      return Failure(selected.error);
    }
    var (scope, ps) := selected.value;
    var rows := BuildLocatairesData(scope.locataires, ps);
    r := Success(DashboardContextOf(db, scope, ps, rows));
  }

  /** Every payment a report keeps is by one of the report's tenants. */
  lemma ReportPayersAreTenants(db: Db, mois: Param, owner: Param)
    requires WellFormed(db) && SelectReport(db, mois, owner).Success?
    ensures PayerIds(SelectReport(db, mois, owner).value.1) <= LocataireIds(SelectReport(db, mois, owner).value.0.locataires)
    ensures UniqueLocataireIds(SelectReport(db, mois, owner).value.0.locataires)
  {
    var (scope, ps) := SelectReport(db, mois, owner).value;
    forall x | x in PayerIds(ps) ensures x in LocataireIds(scope.locataires) {
      var p :| p in ps && p.locataire == x;
      assert p in scope.paiements;
      if owner.Number? {
        var t :| t in db.locataires && t.id == p.locataire && t.proprietaire == owner.n;
        assert t in scope.locataires;
      }
    }
  }

  /**
   * On a well-formed database the dashboard's paid and unpaid counts match
   * its rows: `locataires_payes` is the number of "Payé" rows,
   * `locataires_impayes` the number of "Impayé" rows, so it is never
   * negative; there is one row per tenant.
   */
  lemma DashboardCountsMatchRows(db: Db, mois: Param, owner: Param)
    requires WellFormed(db)
    ensures DashboardView(db, mois, owner).Success? ==>
              var c := DashboardView(db, mois, owner).value;
              && |c.locatairesData| == c.locatairesCount
              && c.locatairesPayes == CountStatut(c.locatairesData, PAYE)
              && c.locatairesImpayes == CountStatut(c.locatairesData, IMPAYE)
              && c.locatairesImpayes >= 0
  {
    if SelectReport(db, mois, owner).Success? {
      var (scope, ps) := SelectReport(db, mois, owner).value;
      ReportPayersAreTenants(db, mois, owner);
      CountsMatchRows(scope.locataires, ps);
    }
  }

  /**
   * The twelve monthly dashboards of a scope add up: the totals received
   * for months 1..12 sum to the total received with no month selected.
   */
  lemma MonthlyDashboardsAddUp(db: Db, owner: Param)
    requires WellFormed(db) && SelectScope(db, owner).Success?
    ensures forall m :: DashboardView(db, Number(m), owner).Success?
                        && DashboardView(db, Number(m), owner).value.totalRecu
                           == TotalRecu(OfMonth(SelectScope(db, owner).value.paiements, m))
    ensures DashboardView(db, Absent, owner).Success?
    ensures SumOfMonths(SelectScope(db, owner).value.paiements, 12) == DashboardView(db, Absent, owner).value.totalRecu
  {
    var ps := SelectScope(db, owner).value.paiements;
    assert forall p :: p in ps ==> p in db.paiements;
    MonthlyTotalsAddUp(ps);
  }

  // ---------------------------------------------------------------------
  // dashboard_pdf

  datatype DashboardPdfContext = DashboardPdfContext(
    proprietairesCount: nat,
    locatairesCount: nat,
    totalLoyersLocataires: int,
    totalRecu: int,
    loyerRestant: int,
    commissionTotale: real,
    locatairesPayes: nat,
    locatairesImpayes: int,
    moisFacture: string)

  /** The report heading: `MOIS_FR[int(mois)]` when a month was given, "" otherwise. */
  function MoisRapport(mois: Param): Result<string, Error> {
    if mois.Number? then MoisFr(mois.n) else Success("")
  }

  /** What `dashboard_pdf` computes before drawing the page. */
  function DashboardPdf(db: Db, mois: Param, owner: Param): Result<DashboardPdfContext, Error> {
    match SelectReport(db, mois, owner)
    case Failure(e) => Failure(e)
    case Success((scope, ps)) =>
      var b := ComputeBilan(scope.locataires, ps);
      match MoisRapport(mois)
      case Failure(e) => Failure(e)
      case Success(heading) =>
        Success(DashboardPdfContext(|db.proprietaires|, |scope.locataires|, b.totalLoyersLocataires, b.totalRecu,
                                    b.loyerRestant, b.commission, b.locatairesPayes, b.locatairesImpayes, heading))
  }

  /**
   * The report heading: empty without a month, the month's name for 1..12,
   * counted from the end of `MOIS_FR` for -13..-1, IndexError beyond.
   */
  lemma MoisRapportCases(mois: Param)
    ensures mois.Number? ==> (MoisRapport(mois).Success? <==> -13 <= mois.n <= 12)
    ensures MoisRapport(mois).Failure? ==> MoisRapport(mois).error == IndexError
    ensures !mois.Number? ==> MoisRapport(mois) == Success("")
    ensures mois.Number? && 1 <= mois.n <= 12 ==> MoisRapport(mois).value == MOIS_FR[mois.n] != ""
    ensures mois.Number? && -13 <= mois.n < 0 ==> MoisRapport(mois).value == MOIS_FR[mois.n + 13]
    ensures mois.Number? && -12 <= mois.n < 0 ==> MoisRapport(mois).value != ""
    ensures mois == Number(-13) ==> MoisRapport(mois).value == ""
  {
  }

  /** The PDF report fails or gets its heading exactly as the `MOIS_FR` lookup does. */
  lemma DashboardPdfHeading(db: Db, mois: Param, owner: Param)
    requires SelectReport(db, mois, owner).Success?
    ensures DashboardPdf(db, mois, owner).Success? <==> MoisRapport(mois).Success?
    ensures DashboardPdf(db, mois, owner).Success? ==> DashboardPdf(db, mois, owner).value.moisFacture == MoisRapport(mois).value
    ensures DashboardPdf(db, mois, owner).Failure? ==> DashboardPdf(db, mois, owner) == Failure(IndexError)
  {
  }

  /** Whenever the PDF report succeeds, its figures are the dashboard's for the same request. */
  lemma DashboardPdfFigures(db: Db, mois: Param, owner: Param)
    requires SelectReport(db, mois, owner).Success?
    ensures DashboardPdf(db, mois, owner).Success? ==>
              var pdf := DashboardPdf(db, mois, owner).value;
              var html := DashboardView(db, mois, owner).value;
              && pdf.totalRecu == html.totalRecu == TotalRecu(SelectReport(db, mois, owner).value.1)
              && pdf.commissionTotale == html.commissionTotale
              && pdf.loyerRestant == html.loyerRestant && pdf.locatairesPayes == html.locatairesPayes
              && pdf.locatairesImpayes == html.locatairesImpayes
              && pdf.totalLoyersLocataires == html.totalLoyersLocataires
              && pdf.proprietairesCount == html.proprietairesCount
              && pdf.locatairesCount == html.locatairesCount
  {
  }

  /** No payment of a well-formed store has a negative month, so such a report selects none. */
  lemma NegativeMonthSelectsNothing(db: Db, mois: Param, owner: Param)
    requires WellFormed(db) && SelectReport(db, mois, owner).Success?
    requires mois.Number? && mois.n < 0
    ensures SelectReport(db, mois, owner).value.1 == []
  {
    var scope := SelectReport(db, mois, owner).value.0;
    assert forall p :: p in scope.paiements ==> p in db.paiements;
    OfMonthOutsideYear(scope.paiements, mois.n);
  }

  /**
   * The PDF report agrees with the dashboard on every figure, and adds the
   * month heading: the month's name for 1..12, IndexError beyond the
   * list. A negative month is looked up from the end of the list although
   * no payment has such a month, so the report totals nothing: -1..-12 get
   * a month name (-1 gives "Décembre"), -13 gives an empty heading.
   */
  lemma DashboardPdfFacts(db: Db, mois: Param, owner: Param)
    requires WellFormed(db) && SelectReport(db, mois, owner).Success?
    ensures mois.Number? ==> (DashboardPdf(db, mois, owner).Success? <==> -13 <= mois.n <= 12)
    ensures mois.Number? && !(-13 <= mois.n <= 12) ==> DashboardPdf(db, mois, owner) == Failure(IndexError)
    ensures !mois.Number? ==> DashboardPdf(db, mois, owner).Success? && DashboardPdf(db, mois, owner).value.moisFacture == ""
    ensures mois.Number? && 1 <= mois.n <= 12 ==> DashboardPdf(db, mois, owner).value.moisFacture == MOIS_FR[mois.n] != ""
    ensures DashboardPdf(db, mois, owner).Success? ==>
              var pdf := DashboardPdf(db, mois, owner).value;
              var html := DashboardView(db, mois, owner).value;
              && pdf.totalRecu == html.totalRecu && pdf.commissionTotale == html.commissionTotale
              && pdf.loyerRestant == html.loyerRestant && pdf.locatairesPayes == html.locatairesPayes
              && pdf.locatairesImpayes == html.locatairesImpayes
              && pdf.totalLoyersLocataires == html.totalLoyersLocataires
              && pdf.proprietairesCount == html.proprietairesCount
              && pdf.locatairesCount == html.locatairesCount
    ensures mois.Number? && -13 <= mois.n < 0 ==>
              DashboardPdf(db, mois, owner).value.totalRecu == 0
              && DashboardPdf(db, mois, owner).value.moisFacture == MOIS_FR[mois.n + 13]
    ensures mois.Number? && -12 <= mois.n < 0 ==> DashboardPdf(db, mois, owner).value.moisFacture != ""
    ensures mois == Number(-13) ==> DashboardPdf(db, mois, owner).value.moisFacture == ""
  {
    MoisRapportCases(mois);
    DashboardPdfHeading(db, mois, owner);
    DashboardPdfFigures(db, mois, owner);
    if mois.Number? && mois.n < 0 {
      NegativeMonthSelectsNothing(db, mois, owner);
    }
  }

  // ---------------------------------------------------------------------
  // accueil

  /** One entry of `locataires_non_payes`. */
  datatype NonPaye = NonPaye(proprietaire: Proprietaire, locataire: Locataire)

  /** The unpaid entries for the owner `o`, over its tenants `ots` in order. */
  function NonPayesOf(o: Proprietaire, ots: seq<Locataire>, ps: seq<Paiement>): seq<NonPaye> {
    if ots == [] then []
    else
      var t := ots[|ots| - 1];
      NonPayesOf(o, ots[..|ots| - 1], ps) + (if t.id in PayerIds(ps) then [] else [NonPaye(o, t)])
  }

  /** The unpaid entries for the owners `os`, owner by owner. */
  function NonPayes(os: seq<Proprietaire>, ts: seq<Locataire>, ps: seq<Paiement>): seq<NonPaye> {
    if os == [] then []
    else
      var o := os[|os| - 1];
      NonPayes(os[..|os| - 1], ts, ps) + NonPayesOf(o, OwnerTenants(ts, o.id), ps)
  }

  lemma NonPayesOfStep(o: Proprietaire, ots: seq<Locataire>, j: int, ps: seq<Paiement>)
    requires 0 <= j < |ots|
    ensures NonPayesOf(o, ots[..j + 1], ps)
            == NonPayesOf(o, ots[..j], ps) + (if ots[j].id in PayerIds(ps) then [] else [NonPaye(o, ots[j])])
  {
    assert ots[..j + 1][..j] == ots[..j];
  }

  lemma NonPayesStep(os: seq<Proprietaire>, i: int, ts: seq<Locataire>, ps: seq<Paiement>)
    requires 0 <= i < |os|
    ensures NonPayes(os[..i + 1], ts, ps) == NonPayes(os[..i], ts, ps) + NonPayesOf(os[i], OwnerTenants(ts, os[i].id), ps)
  {
    assert os[..i + 1][..i] == os[..i];
  }

  /** The inner loop of `accueil`: the unpaid entries of one owner, tenant by tenant. */
  method UnpaidTenantsOf(o: Proprietaire, ots: seq<Locataire>, ps: seq<Paiement>) returns (entries: seq<NonPaye>)
    ensures entries == NonPayesOf(o, ots, ps)
  {
    entries := [];
    var j := 0;
    while j < |ots|
      invariant 0 <= j <= |ots|
      invariant entries == NonPayesOf(o, ots[..j], ps)
    {
      var t := ots[j];
      var paiementExiste := t.id in PayerIds(ps);
      if !paiementExiste {
        entries := entries + [NonPaye(o, t)];
      }
      NonPayesOfStep(o, ots, j, ps);
      j := j + 1;
    }
    assert ots[..|ots|] == ots;
  }

  /** The outer loop of `accueil`, owner by owner, that fills `locataires_non_payes`. */
  method BuildNonPayes(os: seq<Proprietaire>, ts: seq<Locataire>, ps: seq<Paiement>) returns (nonPayes: seq<NonPaye>)
    ensures nonPayes == NonPayes(os, ts, ps)
  {
    nonPayes := [];
    var i := 0;
    while i < |os|
      invariant 0 <= i <= |os|
      invariant nonPayes == NonPayes(os[..i], ts, ps)
    {
      var o := os[i];
      var entries := UnpaidTenantsOf(o, OwnerTenants(ts, o.id), ps);
      nonPayes := nonPayes + entries;
      NonPayesStep(os, i, ts, ps);
      i := i + 1;
    }
    assert os[..|os|] == os;
  }

  lemma {:induction false} NonPayesOfMembership(o: Proprietaire, ots: seq<Locataire>, ps: seq<Paiement>, e: NonPaye)
    ensures e in NonPayesOf(o, ots, ps) <==> e.proprietaire == o && e.locataire in ots && e.locataire.id !in PayerIds(ps)
  {
    if ots != [] {
      var n := |ots| - 1;
      NonPayesOfMembership(o, ots[..n], ps, e);
      assert ots == ots[..n] + [ots[n]];
    }
  }

  /** `e` pairs a tenant with its own owner, and that tenant has no kept payment. */
  predicate UnpaidOwnTenant(ts: seq<Locataire>, ps: seq<Paiement>, e: NonPaye) {
    && e.locataire in ts
    && e.locataire.proprietaire == e.proprietaire.id
    && e.locataire.id !in PayerIds(ps)
  }

  /**
   * `locataires_non_payes` lists exactly the pairs of an owner and one of
   * that owner's tenants for which no kept payment exists.
   */
  lemma {:induction false} NonPayesMembership(os: seq<Proprietaire>, ts: seq<Locataire>, ps: seq<Paiement>, e: NonPaye)
    ensures e in NonPayes(os, ts, ps) <==> e.proprietaire in os && UnpaidOwnTenant(ts, ps, e)
  {
    if os != [] {
      var n := |os| - 1;
      var ots := OwnerTenants(ts, os[n].id);
      assert os == os[..n] + [os[n]];
      calc {
        e in NonPayes(os, ts, ps);
        e in NonPayes(os[..n], ts, ps) + NonPayesOf(os[n], ots, ps);
        e in NonPayes(os[..n], ts, ps) || e in NonPayesOf(os[n], ots, ps);
        { NonPayesMembership(os[..n], ts, ps, e);
          NonPayesOfMembership(os[n], ots, ps, e); }
        (e.proprietaire in os[..n] && UnpaidOwnTenant(ts, ps, e))
          || (e.proprietaire == os[n] && e.locataire in ots && e.locataire.id !in PayerIds(ps));
        (e.proprietaire in os[..n] && UnpaidOwnTenant(ts, ps, e)) || (e.proprietaire == os[n] && UnpaidOwnTenant(ts, ps, e));
        (e.proprietaire in os[..n] || e.proprietaire == os[n]) && UnpaidOwnTenant(ts, ps, e);
        e.proprietaire in os && UnpaidOwnTenant(ts, ps, e);
      }
    }
  }

  /** The list runs owner by owner: the entries of earlier owners all come first. */
  lemma {:induction false} NonPayesAppend(os1: seq<Proprietaire>, os2: seq<Proprietaire>, ts: seq<Locataire>, ps: seq<Paiement>)
    ensures NonPayes(os1 + os2, ts, ps) == NonPayes(os1, ts, ps) + NonPayes(os2, ts, ps)
  {
    if os2 == [] {
      assert os1 + os2 == os1;
    } else {
      var init, o := os2[..|os2| - 1], os2[|os2| - 1];
      assert os2 == init + [o];
      NonPayesAppend(os1, init, ts, ps);
      NonPayesAppendStep(os1, init, o, ts, ps);
    }
  }

  /** One step of `NonPayesAppend`: appending one more owner keeps the split. */
  lemma NonPayesAppendStep(os1: seq<Proprietaire>, init: seq<Proprietaire>, o: Proprietaire, ts: seq<Locataire>, ps: seq<Paiement>)
    requires NonPayes(os1 + init, ts, ps) == NonPayes(os1, ts, ps) + NonPayes(init, ts, ps)
    ensures NonPayes(os1 + (init + [o]), ts, ps) == NonPayes(os1, ts, ps) + NonPayes(init + [o], ts, ps)
  {
    var tail := NonPayesOf(o, OwnerTenants(ts, o.id), ps);
    calc {
      NonPayes(os1 + (init + [o]), ts, ps);
      { ConcatAssoc(os1, init, [o]); }
      NonPayes((os1 + init) + [o], ts, ps);
      { NonPayesSnoc(os1 + init, o, ts, ps); }
      NonPayes(os1 + init, ts, ps) + tail;
      NonPayes(os1, ts, ps) + NonPayes(init, ts, ps) + tail;
      { ConcatAssoc(NonPayes(os1, ts, ps), NonPayes(init, ts, ps), tail); }
      NonPayes(os1, ts, ps) + (NonPayes(init, ts, ps) + tail);
      { NonPayesSnoc(init, o, ts, ps); }
      NonPayes(os1, ts, ps) + NonPayes(init + [o], ts, ps);
    }
  }

  /** Concatenation regroups freely; stated once so proofs need no element-wise reasoning. */
  lemma ConcatAssoc<T>(a: seq<T>, b: seq<T>, c: seq<T>)
    ensures (a + b) + c == a + (b + c)
  {
  }

  /** One more owner at the end contributes its own entries at the end. */
  lemma NonPayesSnoc(os: seq<Proprietaire>, o: Proprietaire, ts: seq<Locataire>, ps: seq<Paiement>)
    ensures NonPayes(os + [o], ts, ps) == NonPayes(os, ts, ps) + NonPayesOf(o, OwnerTenants(ts, o.id), ps)
  {
    assert (os + [o])[..|os|] == os;
  }

  datatype AccueilContext = AccueilContext(
    locatairesCount: nat,
    proprietairesCount: nat,
    totalLoyers: int,
    totalRecu: int,
    commission: real,
    locatairesNonPayes: seq<NonPaye>)

  /** What `accueil` computes. */
  function AccueilView(db: Db, mois: Param): Result<AccueilContext, Error> {
    match MonthFilter(db.paiements, mois)
    case Failure(e) => Failure(e)
    case Success(ps) =>
      var totalRecu := TotalRecu(ps);
      Success(AccueilContext(|db.locataires|, |db.proprietaires|, TotalLoyers(db.locataires), totalRecu,
                             Commission(totalRecu), NonPayes(db.proprietaires, db.locataires, ps)))
  }

  /** `accueil`, with `locataires_non_payes` built by its loops. */
  method Accueil(db: Db, mois: Param) returns (r: Result<AccueilContext, Error>)
    ensures r == AccueilView(db, mois)
  {
    var filtered := MonthFilter(db.paiements, mois);
    if filtered.Failure? {
      return Failure(filtered.error);
    }
    var ps := filtered.value;
    var totalRecu := TotalRecu(ps);
    var nonPayes := BuildNonPayes(db.proprietaires, db.locataires, ps);
    r := Success(AccueilContext(|db.locataires|, |db.proprietaires|, TotalLoyers(db.locataires), totalRecu,
                                Commission(totalRecu), nonPayes));
  }

  /**
   * The home page and the unfiltered dashboard agree: same total received
   * and commission, and a tenant is listed as unpaid on the home page
   * exactly when its dashboard row says "Impayé".
   */
  lemma AccueilAgreesWithDashboard(db: Db, mois: Param, i: int)
    requires WellFormed(db) && !mois.NotANumber? && 0 <= i < |db.locataires|
    ensures AccueilView(db, mois).Success? && DashboardView(db, mois, Absent).Success?
    ensures AccueilView(db, mois).value.totalRecu == DashboardView(db, mois, Absent).value.totalRecu
    ensures AccueilView(db, mois).value.commission == DashboardView(db, mois, Absent).value.commissionTotale
    ensures var t := db.locataires[i];
            (exists o :: NonPaye(o, t) in AccueilView(db, mois).value.locatairesNonPayes)
            <==> DashboardView(db, mois, Absent).value.locatairesData[i].statut == IMPAYE
  {
    var ps := MonthFilter(db.paiements, mois).value;
    var t := db.locataires[i];
    assert t in db.locataires;
    var o :| o in db.proprietaires && o.id == t.proprietaire;
    NonPayesMembership(db.proprietaires, db.locataires, ps, NonPaye(o, t));
    forall o' | NonPaye(o', t) in NonPayes(db.proprietaires, db.locataires, ps)
      ensures t.id !in PayerIds(ps)
    {
      NonPayesMembership(db.proprietaires, db.locataires, ps, NonPaye(o', t));
    }
  }
}
