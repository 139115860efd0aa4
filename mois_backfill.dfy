/**
 * The data step of migration 0016: `copy_month` walks every payment and
 * copies the month number of its old `mois_concerne` value into the new
 * integer column `mois_concerne_int`, saving each record in place.
 */
module MoisBackfill {
  import opened Wrappers
  import opened Records

  /**
   * The old `mois_concerne` column as `copy_month` can find it: null, a
   * date (its declared type), or an integer (what migrations 0012 and 0013
   * turned it into, with default 0).
   */
  datatype AncienMois = Null | DateValue(date: Date) | IntValue(n: int)

  /** A payment row of the historical model while both columns exist. */
  datatype PaiementHistorique = PaiementHistorique(
    id: int,
    proprietaire: Option<int>,
    locataire: int,
    datePaiement: Date,
    montant: int,
    payeEnAvance: bool,
    moisConcerne: AncienMois,
    moisConcerneInt: Option<int>)

  /** Python truthiness of the old value: null and 0 are false, a date is true. */
  predicate Truthy(v: AncienMois) {
    match v
    case Null => false
    case DateValue(_) => true
    case IntValue(n) => n != 0
  }

  /** `v.month`: a date has one; anything else raises AttributeError (None). */
  function MonthAttribute(v: AncienMois): (r: Option<int>)
    ensures r.Some? <==> v.DateValue?
  {
    match v
    case DateValue(d) => Some(d.month)
    case _ => None
  }

  /**
   * One iteration of `copy_month`: a falsy old value is skipped; otherwise
   * the new column gets the date's month, or 1 when `.month` raises.
   */
  function CopyMonthRecord(p: PaiementHistorique): (r: PaiementHistorique)
    ensures r.(moisConcerneInt := p.moisConcerneInt) == p
    ensures !Truthy(p.moisConcerne) ==> r == p
    ensures Truthy(p.moisConcerne) ==> r.moisConcerneInt.Some?
  {
    if !Truthy(p.moisConcerne) then p
    else
      match MonthAttribute(p.moisConcerne)
      case Some(m) => p.(moisConcerneInt := Some(m))
      case None => p.(moisConcerneInt := Some(1))
  }

  /**
   * What the pass writes: the month of a set date, January for a set value
   * that is not a date, nothing for an empty one; with a valid date every
   * written value is a month number in 1..12.
   */
  lemma CopyMonthValues(p: PaiementHistorique)
    ensures p.moisConcerne.DateValue? ==> CopyMonthRecord(p).moisConcerneInt == Some(p.moisConcerne.date.month)
    ensures p.moisConcerne.IntValue? && p.moisConcerne.n != 0 ==> CopyMonthRecord(p).moisConcerneInt == Some(1)
    ensures (p.moisConcerne.Null? || p.moisConcerne == IntValue(0)) ==> CopyMonthRecord(p).moisConcerneInt == p.moisConcerneInt
    ensures Truthy(p.moisConcerne) && (p.moisConcerne.DateValue? ==> ValidDate(p.moisConcerne.date)) ==>
              1 <= CopyMonthRecord(p).moisConcerneInt.value <= 12
  {
  }

  /** Running the pass twice writes nothing more the second time. */
  lemma CopyMonthIdempotent(p: PaiementHistorique)
    ensures CopyMonthRecord(CopyMonthRecord(p)) == CopyMonthRecord(p)
  {
  }

  /** `copy_month`: every row of the table is rewritten in place, in order. */
  method CopyMonth(a: array<PaiementHistorique>)
    modifies a
    ensures forall i :: 0 <= i < a.Length ==> a[i] == CopyMonthRecord(old(a[i]))
  {
    var i := 0;
    while i < a.Length
      invariant 0 <= i <= a.Length
      invariant forall k :: 0 <= k < i ==> a[k] == CopyMonthRecord(old(a[k]))
      invariant forall k :: i <= k < a.Length ==> a[k] == old(a[k])
    {
      var p := a[i];
      if Truthy(p.moisConcerne) {
        var moisNum := MonthAttribute(p.moisConcerne);
        if moisNum.Some? {
          a[i] := p.(moisConcerneInt := Some(moisNum.value));
        } else {
          a[i] := p.(moisConcerneInt := Some(1));
        }
      }
      i := i + 1;
    }
  }
}
