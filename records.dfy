/**
 * The persisted entities of the rental application (owners, tenants and
 * rent payments) and the in-memory form a table takes in this model: a
 * sequence of records in the order the database lists them.
 *
 * Amounts (`loyer_mensuel`, `montant`) are `DecimalField`s with two decimal
 * places, so they are held exactly as integer numbers of cents.
 */
module Records {
  import opened Wrappers

  /** A calendar date, as a `DateField` holds it. */
  datatype Date = Date(year: int, month: int, day: int)

  /** A date a `DateField` can actually store: its month is 1..12 and its day 1..31. */
  predicate ValidDate(d: Date) {
    1 <= d.month <= 12 && 1 <= d.day <= 31
  }

  /** Strict chronological order: by year, then month, then day. */
  predicate DateBefore(a: Date, b: Date) {
    || a.year < b.year
    || (a.year == b.year && a.month < b.month)
    || (a.year == b.year && a.month == b.month && a.day < b.day)
  }

  /** `Proprietaire`: a landlord. */
  datatype Proprietaire = Proprietaire(id: int, nom: string, numero: string)

  /** `Locataire`: a tenant, owing `loyerMensuel` cents a month to the owner `proprietaire`. */
  datatype Locataire = Locataire(id: int, nom: string, numero: string, loyerMensuel: int, proprietaire: int)

  /**
   * `Paiement`: one rent payment of `montant` cents by the tenant `locataire`,
   * paid on `datePaiement` for the month `moisConcerne`. The owner link is
   * optional (nullable) and redundant with the tenant's owner.
   */
  datatype Paiement = Paiement(
    id: int,
    proprietaire: Option<int>,
    locataire: int,
    datePaiement: Date,
    moisConcerne: Date,
    montant: int,
    payeEnAvance: bool)

  /**
   * The three tables as the database lists them: payments by ascending
   * primary key (the order `.first()` relies on), owners and tenants in
   * their stored order.
   */
  datatype Db = Db(proprietaires: seq<Proprietaire>, locataires: seq<Locataire>, paiements: seq<Paiement>)

  predicate UniqueProprietaireIds(os: seq<Proprietaire>) {
    forall i, j :: 0 <= i < j < |os| ==> os[i].id != os[j].id
  }

  predicate UniqueLocataireIds(ts: seq<Locataire>) {
    forall i, j :: 0 <= i < j < |ts| ==> ts[i].id != ts[j].id
  }

  predicate UniquePaiementIds(ps: seq<Paiement>) {
    forall i, j :: 0 <= i < j < |ps| ==> ps[i].id != ps[j].id
  }

  /** A table listed in primary-key order, as an unordered queryset's `.first()` sees it. */
  predicate IdsAscending(ps: seq<Paiement>) {
    forall i, j :: 0 <= i < j < |ps| ==> ps[i].id < ps[j].id
  }

  /** The ids of the tenants in `ts`. */
  function LocataireIds(ts: seq<Locataire>): set<int> {
    set t | t in ts :: t.id
  }

  /**
   * What the database guarantees of its contents: primary keys are unique,
   * payments are listed by ascending id, every foreign key points at an
   * existing row, and every stored date is a real date.
   */
  ghost predicate WellFormed(db: Db) {
    && UniqueProprietaireIds(db.proprietaires)
    && UniqueLocataireIds(db.locataires)
    && IdsAscending(db.paiements)
    && (forall t :: t in db.locataires ==> exists o :: o in db.proprietaires && o.id == t.proprietaire)
    && (forall p :: p in db.paiements ==> p.locataire in LocataireIds(db.locataires))
    && (forall p :: p in db.paiements ==> ValidDate(p.moisConcerne) && ValidDate(p.datePaiement))
  }

  /** In a listing by ascending id, the first row has the smallest id. */
  lemma FirstIdIsSmallest(ps: seq<Paiement>)
    requires IdsAscending(ps) && ps != []
    ensures forall p :: p in ps ==> ps[0].id <= p.id
  {
    forall p | p in ps ensures ps[0].id <= p.id {
      var k :| 0 <= k < |ps| && ps[k] == p;
    }
  }

  /** The elements of `s` that satisfy `keep`, in their original order: a queryset `.filter(...)`. */
  function Filter<T(!new)>(s: seq<T>, keep: T -> bool): (r: seq<T>)
    ensures |r| <= |s|
    ensures forall x :: x in r <==> x in s && keep(x)
  {
    if s == [] then []
    else
      assert s == [s[0]] + s[1..];
      (if keep(s[0]) then [s[0]] else []) + Filter(s[1..], keep)
  }

  lemma {:induction false} FilterKeepsAscendingIds(ps: seq<Paiement>, keep: Paiement -> bool)
    requires IdsAscending(ps)
    ensures IdsAscending(Filter(ps, keep))
  {
    if ps != [] {
      FilterKeepsAscendingIds(ps[1..], keep);
      var rest := Filter(ps[1..], keep);
      forall q | q in rest ensures ps[0].id < q.id {
        var k :| 0 <= k < |ps[1..]| && ps[1..][k] == q;
        assert ps[k + 1] == q;
      }
    }
  }

  lemma {:induction false} FilterKeepsUniqueLocataireIds(ts: seq<Locataire>, keep: Locataire -> bool)
    requires UniqueLocataireIds(ts)
    ensures UniqueLocataireIds(Filter(ts, keep))
  {
    if ts != [] {
      FilterKeepsUniqueLocataireIds(ts[1..], keep);
      var rest := Filter(ts[1..], keep);
      var head := if keep(ts[0]) then [ts[0]] else [];
      var r := Filter(ts, keep);
      assert r == head + rest;
      forall i, j | 0 <= i < j < |r| ensures r[i].id != r[j].id {
        if i < |head| {
          assert r[j] in rest;
          var k :| 0 <= k < |ts[1..]| && ts[1..][k] == r[j];
          assert ts[k + 1] == r[j];
        } else {
          assert r[i] == rest[i - |head|] && r[j] == rest[j - |head|];
        }
      }
    }
  }
}
