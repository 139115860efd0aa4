# Rental bookkeeping: a Dafny model

This project models the logic of a small Django rental-management application.
The application tracks landlords (`Proprietaire`), tenants (`Locataire`) and monthly rent payments (`Paiement`).
The model covers three parts:

- **Duplicate-payment cleanup**: the `nettoyer_doublons` management command. It lists payments sorted by (tenant, target month, payment date, id) and keys each one by (tenant, target month, year of payment date). It keeps the first payment of each key, collects the ids of the later ones and deletes them.
- **Report bookkeeping**: the views `facture_proprietaire`, `dashboard`, `dashboard_pdf` and `accueil`. `dashboard` and `dashboard_pdf` can narrow to one owner, then to one month. `accueil` can narrow only to one month. `facture_proprietaire` always covers one owner and never filters by month. All four compute rent due, rent received and the 10% commission. All but `accueil` compute the remaining rent. The views also count paying and unpaid tenants, build one status row per tenant ("Payé"/"Impayé" with the amount of the first payment), list unpaid (owner, tenant) pairs and look up French month names.
- **Month back-fill**: the `copy_month` step of migration 0016. For each payment with a set old `mois_concerne`, it copies that value's month into the new integer column, or writes 1 (January) when the old value has no month.

How things are represented:

- Tables are sequences of records (`Records.Db`). Payments are listed by ascending primary key, because on an unordered queryset `.first()` returns the row with the smallest id. Owners and tenants are taken in their stored order, since the views iterate them with no ordering.
- A query parameter is `Views.Param`. `Absent` is a missing or empty parameter. `Number(n)` is a string that `int()` accepts. `NotANumber` is one that `int()` rejects (ValueError).
- Amounts are `DecimalField`s with two decimal places, so they are whole numbers of cents. The commission `total * Decimal('0.1')` is exact: it is a `real` equal to one tenth of the total.
- `MOIS_FR[i]` uses Python list indexing. A negative index counts from the end of the list. An index outside -13..12 raises IndexError.
- Exceptions a view raises before rendering are `Bookkeeping.Error` values in a `Result`.
- The cleanup works on a `PaiementTable` object whose rows `DeleteIds` removes in place. The migration works on an `array` of historical payment rows, rewritten one by one.

The views' reports follow the code, with the tenant accessor corrected as described under "## Findings". The code computes `loyer_restant` as rent due minus rent received, with no clamp. It computes no "net to owner" amount and no miscellaneous fees.

## Model

| member | source | states |
|---|---|---|
| Records.Filter | core/views.py:128-129 | a queryset `.filter(...)` keeps exactly the rows that satisfy the condition and never adds rows |
| Records.FilterKeepsAscendingIds | core/views.py:28 | filtering a listing in primary-key order keeps it in primary-key order |
| Records.FilterKeepsUniqueLocataireIds | core/views.py:121 | filtering a tenant table keeps tenant ids unique |
| Records.FirstIdIsSmallest | core/views.py:37 | in primary-key order the first row (`.first()`) has the smallest id |
| Cleanup.Without | core/management/commands/nettoyer_doublons.py:28 | after `filter(id__in=ids).delete()` a row remains exactly when it was stored and its id is not in `ids` |
| Cleanup.CollectStep | core/management/commands/nettoyer_doublons.py:15-23 | one loop iteration keeps the invariants: `vus` holds exactly the keys seen so far, each mapped to the id of its first payment; `a_supprimer` lists the later payments; the two sizes add up to the payments processed |
| Cleanup.CollectDuplicates | core/management/commands/nettoyer_doublons.py:12-23 | after the loop, `vus` maps every key to the id of its first payment, `a_supprimer` lists the ids of all non-first payments in order, and `len(vus) + len(a_supprimer)` is the number of payments |
| Cleanup.KeptIsFirst | core/management/commands/nettoyer_doublons.py:19-23 | a payment whose id is not collected is the first one with its key |
| Cleanup.DeletedIsNotFirst | core/management/commands/nettoyer_doublons.py:19-20 | every collected id belongs to a payment that comes after another payment with the same key |
| Cleanup.CountIdentity | core/management/commands/nettoyer_doublons.py:10-25 | the number of collected ids plus the number of distinct keys is the number of payments |
| Cleanup.UniqueKeysNoDuplicates | core/management/commands/nettoyer_doublons.py:19-23 | when no key repeats, nothing is collected |
| Cleanup.NoDuplicatesIffUniqueKeys | core/management/commands/nettoyer_doublons.py:25-31 | the delete list is empty exactly when no two payments share a key |
| Cleanup.UniqueKeysIffAllDistinct | core/management/commands/nettoyer_doublons.py:17 | keys are pairwise distinct exactly when there are as many distinct keys as payments |
| Cleanup.SameRowsSameKeys | core/management/commands/nettoyer_doublons.py:10 | sorting the payments changes neither their keys nor their number |
| Cleanup.PermutationKeepsUniqueIds | core/management/commands/nettoyer_doublons.py:10 | the sorted listing has unique ids when the table does |
| Cleanup.WithoutKeepsUniqueIds | core/management/commands/nettoyer_doublons.py:28 | deleting rows keeps primary keys unique |
| Cleanup.FirstIsNotDeleted | core/management/commands/nettoyer_doublons.py:19-23 | with unique ids, the first payment of a key is never collected |
| Cleanup.FirstOccurrence | core/management/commands/nettoyer_doublons.py:17-23 | every payment has a first payment with its key at or before its own position |
| Cleanup.KeptAreFirsts | core/management/commands/nettoyer_doublons.py:15-28 | a payment survives the deletion exactly when it is the first with its key in processing order |
| Cleanup.SurvivorsHaveUniqueKeys | core/management/commands/nettoyer_doublons.py:15-28 | after the deletion no two remaining payments share a key |
| Cleanup.SurvivorsKeepEveryKey | core/management/commands/nettoyer_doublons.py:15-28 | deleting the duplicates loses no key: the survivors have exactly the keys of the listing |
| Cleanup.KeptCount | core/management/commands/nettoyer_doublons.py:10-28 | the number of survivors equals the number of distinct keys, and survivors plus deleted equals the payments before |
| Cleanup.LonePaymentIsKept | core/management/commands/nettoyer_doublons.py:19-28 | a payment whose key occurs only once is never deleted |
| Cleanup.SurvivorIsEarliest | core/management/commands/nettoyer_doublons.py:10 | in the sorted listing, the survivor of a key has the earliest payment date of its group and, among equal dates, the smallest id |
| Cleanup.SecondRunDeletesNothing | core/management/commands/nettoyer_doublons.py:25-31 | running the cleanup again on the survivors collects nothing |
| Cleanup.PaiementTable.DeleteIds | core/management/commands/nettoyer_doublons.py:28 | the table's rows become those whose id is not in the list, and ids stay unique |
| Cleanup.Handle | core/management/commands/nettoyer_doublons.py:7-31 | the command deletes exactly the collected duplicates; the count it reports equals the rows removed; afterwards keys are unique; with no duplicates the table is unchanged |
| Cleanup.WithoutNothing | core/management/commands/nettoyer_doublons.py:27-31 | deleting ids that no row has leaves the table as it was |
| Bookkeeping.MoisFr | core/views.py:18-21 | `MOIS_FR[i]` succeeds exactly for -13..12; it gives a non-empty name for 1..12, "" for 0, and counts from the end for negative indices |
| Bookkeeping.MonthNamesDistinct | core/views.py:18-21 | two different months never get the same name |
| Bookkeeping.Commission | core/views.py:33 | the commission is exactly one tenth of the total received, and it lies between 0 and the total when the total is not negative |
| Bookkeeping.LoyerRestant | core/views.py:32 | remaining rent plus received equals rent due; it is negative exactly when more was received than due |
| Bookkeeping.TotalRecuAppend | core/views.py:31 | the sum of amounts over two lists of payments is the sum of the two sums |
| Bookkeeping.TotalRecuNonNegative | core/views.py:31 | with no negative amount, the total received is not negative |
| Bookkeeping.OfMonth | core/views.py:128-129 | `filter(mois_concerne__month=m)` keeps exactly the payments whose target month is `m` |
| Bookkeeping.OfMonthOutsideYear | core/views.py:189-190 | filtering valid payments by a month outside 1..12 keeps nothing |
| Bookkeeping.MonthlyTotalsAddUp | core/views.py:128-135 | the totals received for months 1..12 add up to the unfiltered total |
| Bookkeeping.FirstPaymentOf | core/views.py:145 | `.filter(locataire=l).first()` is None exactly when the tenant has no payment; otherwise it is the tenant's earliest payment in the listing |
| Bookkeeping.FirstPaymentHasSmallestId | core/views.py:145 | in primary-key order, that first payment has the smallest id among the tenant's payments |
| Bookkeeping.Ligne | core/views.py:145-151 | a tenant's row carries its name; its status is "Payé" exactly when it has a payment and "Impayé" otherwise; its amount is that of its first payment, or 0 |
| Bookkeeping.Lignes | core/views.py:143-152 | one row per tenant, in tenant order |
| Bookkeeping.BuildLocatairesData | core/views.py:143-152 | the loop builds exactly those rows |
| Bookkeeping.StatusCounts | core/views.py:139-140 | with unique tenant ids, the "Payé" rows count the tenants among the payers and the "Impayé" rows count the tenants not among them |
| Bookkeeping.CountsMatchRows | core/views.py:139-140 | when every payer is one of the tenants, `locataires_payes` (distinct payers) equals the "Payé" rows and `locataires_count - locataires_payes` equals the "Impayé" rows |
| Bookkeeping.ComputeBilan | core/views.py:134-140 | the shared figures: rent due and received are the sums; remaining rent plus received equals due; commission is a tenth; paid counts distinct payers; paid plus unpaid is the tenant count |
| Views.OwnerTenants | core/views.py:121 | `proprietaire.locataires.all()` is exactly the tenants of that owner, and tenant ids stay unique |
| Views.OwnerTenantsVia | core/views.py:121 | the reverse accessor succeeds exactly under the name `locataires` that `related_name` gives it, yielding the owner's tenants, and raises AttributeError under any other name |
| Views.LocataireSetRaises | core/views.py:30 | `proprietaire.locataire_set` raises AttributeError, while `proprietaire.locataires` gives the owner's tenants |
| Views.OwnerPayments | core/views.py:122 | `filter(locataire__proprietaire=...)` keeps exactly the payments whose tenant belongs to the owner, in primary-key order |
| Views.FindProprietaire | core/views.py:120 | `Proprietaire.objects.get(id=...)` finds an owner with that id exactly when one exists |
| Views.SelectScope | core/views.py:119-126 | with an owner id, that owner's tenants and their payments, DoesNotExist for an unknown owner, ValueError for a non-numeric id; without, all tenants and all payments |
| Views.MonthFilter | core/views.py:128-129 | with a month, exactly the payments of that target month; with none, all of them; ValueError for a non-numeric month |
| Views.SelectReport | core/views.py:119-129 | the owner selection runs before the month filter: an owner error (DoesNotExist, ValueError) wins over a bad month, a bad month alone raises ValueError, and the report fails exactly when one of them fails |
| Views.FactureProprietaire | core/views.py:26-38 | the invoice computation equals `FactureView`, with the tenant rows built by their loop |
| Views.FactureFacts | core/views.py:26-33 | on a well-formed database the invoice fails only for an unknown owner; it has one row per tenant of the owner; its commission is a tenth of what it received |
| Views.MoisFactureOfFirstPayment | core/views.py:35-38 | the invoice month is "" exactly when there is no payment, and otherwise the name of the month of the payment with the smallest id |
| Views.FactureMonth | core/views.py:35-38 | the invoice of a known owner takes that month from the owner's own payments |
| Views.Dashboard | core/views.py:115-167 | the dashboard computation equals `DashboardView`, with `locataires_data` built by its loop |
| Views.ReportPayersAreTenants | core/views.py:119-129 | on a well-formed database every payment a report keeps belongs to one of the report's tenants |
| Views.DashboardCountsMatchRows | core/views.py:139-152 | on a well-formed database `locataires_payes` equals the "Payé" rows, `locataires_impayes` equals the "Impayé" rows and is never negative, and there is one row per tenant |
| Views.MonthlyDashboardsAddUp | core/views.py:128-135 | the twelve monthly dashboards of a scope all succeed, and their totals received add up to the total with no month selected |
| Views.DashboardPdfFacts | core/views.py:174-204 | the PDF report agrees with the dashboard on every figure (counts, rent due, received, remaining, commission, paid and unpaid); its heading is the month's name for 1..12 and "" with no month; it fails exactly beyond -13..12, and then with IndexError; a negative month totals nothing, yet -1..-12 get a month name (-1 gives "Décembre") while -13 gives an empty heading |
| Views.MoisRapportCases | core/views.py:201-204 | the report heading: "" without a month, the month's name for 1..12, counted from the end of `MOIS_FR` for -13..-1 (-13 gives ""), IndexError outside -13..12 |
| Views.DashboardPdfHeading | core/views.py:201-204 | once the selection succeeds, the PDF report fails exactly when the heading lookup does, with IndexError, and otherwise carries that heading |
| Views.DashboardPdfFigures | core/views.py:174-199 | a PDF report that succeeds carries the dashboard's figures for the same request, its total received being the sum over the selected payments |
| Views.NegativeMonthSelectsNothing | core/views.py:174-190 | on a well-formed database a report for a negative month selects no payment, whatever the owner |
| Views.UnpaidTenantsOf | core/views.py:268-274 | the inner loop collects, in order, the owner's tenants that have no payment |
| Views.BuildNonPayes | core/views.py:266-274 | the nested loops build exactly `NonPayes`, owner by owner |
| Views.NonPayesOfMembership | core/views.py:268-274 | one owner's entries are exactly the pairs of that owner with one of its listed tenants that has no payment |
| Views.NonPayesMembership | core/views.py:266-274 | `locataires_non_payes` lists exactly the pairs of an owner with one of that owner's own tenants that has no kept payment |
| Views.NonPayesAppend | core/views.py:267 | the list runs owner by owner: all entries of earlier owners come first |
| Views.Accueil | core/views.py:252-289 | the home page computation equals `AccueilView`, with the unpaid list built by its loops |
| Views.AccueilAgreesWithDashboard | core/views.py:258-274 | the home page and the unfiltered dashboard give the same total and commission; a tenant is listed as unpaid exactly when its dashboard row says "Impayé" |
| MoisBackfill.MonthAttribute | core/migrations/0016_fix_mois_concerne.py:9 | `.month` exists exactly on a date value |
| MoisBackfill.CopyMonthRecord | core/migrations/0016_fix_mois_concerne.py:7-15 | only `mois_concerne_int` changes; a falsy old value leaves the record as it was; a truthy one always gets a value written |
| MoisBackfill.CopyMonthValues | core/migrations/0016_fix_mois_concerne.py:7-15 | a date gives its month, a non-zero integer gives 1, null or 0 leaves the column as it was, and every written value of a valid record is in 1..12 |
| MoisBackfill.CopyMonthIdempotent | core/migrations/0016_fix_mois_concerne.py:5-15 | running the pass a second time changes nothing more |
| MoisBackfill.CopyMonth | core/migrations/0016_fix_mois_concerne.py:3-15 | every row of the table is replaced in place by its rewritten form |

## Left out

- PDF drawing (canvas, fonts, coordinates, rectangles, signatures) in `facture_proprietaire` and `dashboard_pdf`, and the `HttpResponse`/`render` calls: this is output formatting. `Views.DashboardPdf` stops at the figures and heading the page shows.
- Context entries that only echo the request or the tables (`mois`, `proprietaires`, `mois_list`, the three empty forms): they are passed through unchanged.
- `loyers_dict` in `accueil`: it converts rents to floating point only for a template.
- The create, edit and delete views, forms, admin registration, settings, URL routing, `show_urls.py` and `create_admin.py`: these are framework configuration and I/O. `create_admin.py` also imports a model that `core/models.py` does not define.
- The handlers `get_locataires_by_proprietaire` and `get_loyer_locataire` routed in `locative_app/urls.py`: they are not defined in `core/views.py`.
- The first `dashboard` function in `core/views.py`: the later definition of the same name replaces it.
- The schema operations of migrations 0012, 0013 and 0016 (AddField, AlterField, RemoveField, RenameField) and `reset_mois_concerne` (it sets the column to null): these are framework operations.
- The database and the ORM: querysets are sequences. `.distinct().count()` is the size of a set of ids. `order_by(...)` in the cleanup is a parameter that must be a sorted permutation of the table. `.first()` on an unordered queryset is the row with the smallest id. Cascading deletes do not occur in these operations.
- Cleanup.Handle: the messages written to stdout are not modelled.
- MoisBackfill.CopyMonth: the `hasattr` test always holds on the historical model and is not modelled. A failing `save()` inside the `try` is not modelled either; the model treats every save as succeeding.
- Views.FactureProprietaire, Views.Dashboard, Views.Accueil: the owner id from the URL and the query parameters are taken as already parsed into `int` or `Param`. Parsing a string into a number is not modelled.
- The `mois_concerne` type conflict: `core/models.py` declares a date and migrations 0012/0013 turn it into an integer. The views and the cleanup see a date. The back-fill sees a date, an integer or null.
- Amounts are not checked against `max_digits=10`: the database enforces that limit, not the code modelled here.

## Findings

| source | as written | input that shows it | evidently intended | confidence | as-written member | corrected member |
|---|---|---|---|---|---|---|
| core/views.py:30 (also 88, 121, 181, 268) | the views read the owner's tenants through `proprietaire.locataire_set`, but `core/models.py:26` declares `related_name="locataires"`, so Django creates no `locataire_set` accessor | any existing owner: `facture_proprietaire` for it, `dashboard` or `dashboard_pdf` with `?proprietaire=<its id>`, or `accueil` with at least one owner, raises AttributeError | `proprietaire.locataires.all()`, the owner's tenants | high; not executed | Views.LocataireSetRaises | Views.OwnerTenants |

`Views.OwnerTenantsVia` models the reverse accessor under any attribute name. `Views.LocataireSetRaises` shows that the name the views use fails and that `locataires` succeeds. All views in this model use `Views.OwnerTenants`, the intended behaviour.

A second behaviour is modelled as written, because it may be deliberate. `dashboard_pdf` looks up `MOIS_FR[int(mois)]` with Python indexing. So `?mois=-1` gives the heading "Décembre", while the month filter keeps no payment. `?mois=13` raises IndexError. The HTML `dashboard` does no such lookup. `Views.DashboardPdfFacts` states both behaviours.
