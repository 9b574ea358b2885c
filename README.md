# ShoesCompanion order core in Dafny

A model of the order-handling core of ShoesCompanion, a Django management
application for a shoe workshop. It covers:

- the five order states (`Ordine.STATO_ORDINE_CHOICES`);
- the order lines (`DettaglioOrdine`) with their constraints: at least one pair
  per line and one line per order and size;
- the order total (`Ordine.quantita_totale`) and the material requirements of
  an order (`Ordine.get_materiali_necessari`);
- the order views:
  - the loop of `OrdineCreateView.form_valid` and `OrdineUpdateView.form_valid`
    that folds the detail formset into one quantity per size;
  - creating an order's lines from that dictionary;
  - synchronising an existing order's lines with it (`update_or_create`, then
    deleting the sizes no longer listed);
  - the duplicate merge of `DettaglioOrdineCreateView.form_valid`;
  - the guarded transitions `ordine_conferma` and `ordine_annulla`;
- the two dashboards: the per-state histogram of `home` and the material totals
  of `report_dashboard`.

Modules:

- `Basics`: `Option`, sums over sequences and maps, and their permutation lemmas.
- `Models`: states, lines, the line constraints, the total, and the `Order`
  class whose state and lines the views update in place.
- `Materials`: `get_materiali_necessari` as loops over lines and components,
  proved equal to a reference definition `Requirements`.
- `MaterialsFacts`: properties of `Requirements`.
- `OrderViews`: the merge loop and the create, update, add-detail, confirm and
  cancel views.
- `Dashboard`: the histogram and the material totals.

Each loop of the source is a method with a `for` or `while` loop. Its contract
ties the result to a specification function, either a fold in the source's
visiting order (`OrderViews.Merged`, `OrderViews.InsertionOf`, `Dashboard.Merged`) or a comprehension
(`Materials.Requirements`). A "meaning" lemma then says what each dictionary
entry is: the keys are exactly the sizes (materials) that contribute, and each
value is the sum of their contributions. The remaining lemmas relate these
definitions to each other and to the stored constraints.

Database reads and writes become operations on the order's `lines` sequence:

- `objects.create` appends;
- `update_or_create` overwrites the line of the size or appends one;
- `filter(...).first()` is a linear search;
- `exclude(...).delete()` keeps the lines whose size is listed.

A size is an opaque identifier. The source refers to the size of a line as
`taglia` in the views and as `coppia_misura_scarpa` in `models.py`. The model
takes both as the same identifier.

## Model

| member | source | states |
|---|---|---|
| Models.StatusCodes | ShoesCompanion/gestionale/models.py:191-197 | the state codes are exactly the codes of the five declared choices |
| Models.LinesValidByMap | ShoesCompanion/gestionale/models.py:272-278 | with one line per size, "every quantity ≥ 1" holds exactly when every value of the size → quantity dictionary is ≥ 1 |
| Models.LinesMapSize | ShoesCompanion/gestionale/models.py:278 | with one line per size (`unique_together`), an order has as many lines as distinct sizes |
| Models.TotalQuantityAtLeastLines | ShoesCompanion/gestionale/models.py:217-219 | for valid lines (each ≥ 1 pair), `quantita_totale` is at least the number of lines |
| Models.TotalQuantityPermutation | ShoesCompanion/gestionale/models.py:217-219 | `quantita_totale` does not depend on the order the lines are returned in |
| Models.TotalQuantityIsMapTotal | ShoesCompanion/gestionale/models.py:217-219 | with one line per size, `quantita_totale` equals the sum of the size → quantity dictionary |
| Materials.LookupMeasure | ShoesCompanion/gestionale/models.py:241-258 | `MisuraComponente.objects.get` finds a measurement exactly when one matches the component and size; none gives DoesNotExist, several give MultipleObjectsReturned |
| Materials.AddLineNeeds | ShoesCompanion/gestionale/models.py:234-258 | the inner loop adds the line's pairs under (type name, colour) once per component with exactly one measurement, and leaves every other key unchanged |
| Materials.MaterialsNeeded | ShoesCompanion/gestionale/models.py:221-261 | the returned dictionary equals `Requirements`: its keys are the keys of component/line pairs with exactly one measurement, and each value is the sum of the pairs of those lines |
| MaterialsFacts.RequirementsPositive | ShoesCompanion/gestionale/models.py:248 | when every line quantity is ≥ 1, every requirement is ≥ 1 |
| MaterialsFacts.RequirementsPermutation | ShoesCompanion/gestionale/models.py:228-248 | the requirements do not depend on the order in which lines and components are visited |
| MaterialsFacts.RequirementsScaled | ShoesCompanion/gestionale/models.py:248 | multiplying every line quantity by f keeps the keys and multiplies every requirement by f |
| MaterialsFacts.RequirementsExtraComponent | ShoesCompanion/gestionale/models.py:247-258 | an extra component changes no other key (an absent colour is a key of its own); a component without exactly one measurement for any ordered size changes nothing |
| OrderViews.MergeRows | ShoesCompanion/gestionale/views.py:235-241 | the merge loop yields `Merged(rows)`: one key per size of a kept row (valid, not DELETE, size and non-zero quantity), holding the sum of those rows' quantities; it also yields the keys in the dictionary's insertion order: each kept size once, ordered by its first kept row |
| OrderViews.FirstKept | ShoesCompanion/gestionale/views.py:236-241 | the position of the first kept row naming a size (the row at which the loop inserts it), or the number of rows when none does |
| OrderViews.InsertionOrder | ShoesCompanion/gestionale/views.py:236-241 | the keys in insertion order are exactly the kept sizes, without repeats, ordered by first kept row |
| OrderViews.MergedMeaning | ShoesCompanion/gestionale/views.py:235-241 | keys of the merged dictionary are exactly the kept sizes; each value is the sum over the kept rows of that size |
| OrderViews.MergedTotal | ShoesCompanion/gestionale/views.py:280-286 | the dictionary's values add up to the quantities of all kept rows; skipped rows contribute nothing |
| OrderViews.MergedPositive | ShoesCompanion/gestionale/views.py:237-241 | when every valid row's quantity passed `MinValueValidator(1)`, every merged quantity is ≥ 1 |
| OrderViews.MergedEmpty | ShoesCompanion/gestionale/views.py:240-243 | the dictionary is empty exactly when no row is kept |
| OrderViews.MergedPermutation | ShoesCompanion/gestionale/views.py:236-241 | the dictionary does not depend on the order of the formset rows |
| OrderViews.InsertionLines | ShoesCompanion/gestionale/views.py:251-252 | one line created per dictionary key, in insertion order, gives unique sizes and exactly the dictionary, stored in that order |
| OrderViews.CreateOrder | ShoesCompanion/gestionale/views.py:227-254 | invalid formset → rejected; empty dictionary → rejected with the "at least one line" error; otherwise a new order with the given state whose lines are exactly the dictionary (one per size, stored in the order of each size's first kept row, total = kept quantities, valid when the rows passed validation) |
| OrderViews.FindLine | ShoesCompanion/gestionale/views.py:362 | `filter(ordine, taglia).first()`: the first line with the size, or past the end exactly when no line has it |
| OrderViews.UpdateOrCreate | ShoesCompanion/gestionale/views.py:293-297 | the dictionary of lines gets `size := q`; an existing line is overwritten in place, otherwise one line is appended; sizes stay unique |
| OrderViews.KeepOnly | ShoesCompanion/gestionale/views.py:301 | a line survives the delete exactly when its size is in the keep list |
| OrderViews.KeepOnlyUnique | ShoesCompanion/gestionale/views.py:301 | deleting lines keeps sizes unique |
| OrderViews.KeepOnlyMap | ShoesCompanion/gestionale/views.py:301 | after the delete, the dictionary of lines is the old one restricted to the kept sizes |
| OrderViews.SyncedKeep | ShoesCompanion/gestionale/views.py:298-301 | once every key has been written, deleting the sizes not listed leaves exactly the dictionary |
| OrderViews.SyncLines | ShoesCompanion/gestionale/views.py:291-301 | after the update_or_create loop and the delete, the order's lines are exactly the dictionary, one per size; the state is untouched |
| OrderViews.StoredFromRows | ShoesCompanion/gestionale/views.py:280-301 | lines holding exactly the merged dictionary carry the kept rows' total and meet the stored constraints when the rows passed validation |
| OrderViews.UpdateOrder | ShoesCompanion/gestionale/views.py:272-303 | invalid formset → nothing changes; otherwise the state is saved and the lines become exactly the dictionary (one per size, sizes no longer listed deleted, none left when it is empty), with total = kept quantities and valid lines when the rows passed validation |
| OrderViews.AddDetail | ShoesCompanion/gestionale/views.py:353-373 | a line already stored for the size grows by q, and no line is added; otherwise one line (size, q) is appended; sizes stay unique, the total grows by q, and validity is kept when q ≥ 1 |
| OrderViews.DetailAdded | ShoesCompanion/gestionale/views.py:364-373 | either branch of the duplicate check adds q under the size in the dictionary of lines and keeps sizes unique |
| OrderViews.AddedTotal | ShoesCompanion/gestionale/views.py:366 | adding q under one size adds q to `quantita_totale` |
| OrderViews.AddedValid | ShoesCompanion/gestionale/views.py:366 | adding q ≥ 1 under one size keeps every quantity ≥ 1 |
| OrderViews.AfterConfirm | ShoesCompanion/gestionale/views.py:317-318 | the state changes exactly when it is BOZZA, and then becomes CONFERMATO |
| OrderViews.AfterCancel | ShoesCompanion/gestionale/views.py:326-327 | the state changes exactly when it is BOZZA or CONFERMATO, and then becomes ANNULLATO |
| OrderViews.Confirm | ShoesCompanion/gestionale/views.py:314-320 | a POST applies the confirm transition; any other request changes nothing; the lines are untouched |
| OrderViews.Cancel | ShoesCompanion/gestionale/views.py:323-329 | a POST applies the cancel transition; any other request changes nothing; the lines are untouched |
| OrderViews.TransitionsSettle | ShoesCompanion/gestionale/views.py:314-329 | confirm and cancel are idempotent, and cancel wins in either order |
| OrderViews.ApplyStaysOnDraftSide | ShoesCompanion/gestionale/views.py:314-329 | no series of confirm/cancel requests moves an order in production or completed, nor moves a draft, confirmed or cancelled order out of those three; a cancelled order stays cancelled |
| Dashboard.StatusHistogram | ShoesCompanion/gestionale/views.py:39-43 | the histogram has exactly the five state codes as keys; each holds the count of the (last) group with that code, or 0; groups with other codes are ignored |
| Dashboard.HistogramCountsOrders | ShoesCompanion/gestionale/views.py:39-43 | when the groups are the GROUP BY of the stored state codes, the count shown for a code is the number of orders in that state |
| Dashboard.MergedMeaning | ShoesCompanion/gestionale/views.py:527-538 | keys of the material totals are the materials of the active orders; each field is the sum over active orders listing it, a missing field counting 0 |
| Dashboard.AddOrder | ShoesCompanion/gestionale/views.py:534-538 | one order's entries are added field by field to the running totals of their key (`setdefault` at zero); other keys are unchanged |
| Dashboard.MaterialsToOrder | ShoesCompanion/gestionale/views.py:527-538 | the totals equal the fold over orders that are neither COMPLETATO nor ANNULLATO, keyed by exactly their materials, with per-field sums |
| Dashboard.MergedPermutation | ShoesCompanion/gestionale/views.py:531-538 | the totals do not depend on the order in which the orders are visited |
| Dashboard.InactiveIgnored | ShoesCompanion/gestionale/views.py:527 | a completed or cancelled order changes nothing, wherever it stands in the list |

## Left out

- `views.py` and `models.py` contain no batch-splitting or area-conversion code, so neither is modelled.
- CRUD views, PDF generation, filters and tables, authentication and messages are not modelled. So are redirects and template rendering: a view's outcome is its effect on the order and its lines.
- `Modello.duplicate` and the other models are not part of this model. The shoe model's components and measurements are the inputs `comps` and `ms`.
- The formset's verdict (`is_valid()`) and each form's validity are inputs. Django computes them. `DettaglioOrdineFormSet` is not defined in `forms.py`, so its exact fields are not part of this model. `Cleaned` records what `MinValueValidator(1)` guarantees of a valid row.
- The database is modelled as the order's `lines` sequence. Transactions, concurrency and the `MultipleObjectsReturned` case of `update_or_create` are left out: uniqueness per order and size is required by `UpdateOrCreate`, `SyncLines`, `UpdateOrder` and `AddDetail`, and preserved by every operation.
- The requirements of `UpdateOrder`, `SyncLines`, `UpdateOrCreate` and `AddDetail` state the `unique_together` constraint, which the database enforces for the source.
- `OrdineUpdateView` visits the dictionary in insertion order too, but which lines exist and what they hold does not depend on that order; `UpdateOrder` states the resulting lines as a dictionary, and where `update_or_create` appends a line relative to the others is not part of its contract.
- `DettaglioOrdine.objects.create(..., taglia=...)` names a field that `models.py` calls `coppia_misura_scarpa`; the model reads both as one size identifier.
- Materials.MaterialsNeeded: the measurement lookup compares a measurement's reference shoe number with the line's size identifier. The source filters on `taglia_scarpa_ordinata.numero_scarpa`, but `CoppiaMisura` declares only `numero_scarpa_riferimento`, so as written that attribute access raises `AttributeError`. Neither `except` clause catches it, so for any order with at least one line and one component the source method fails, while the model computes the intended dictionary. The model also identifies a line's `CoppiaMisura` with its shoe number, so two `CoppiaMisura` rows with the same number count as one size.
- Dashboard.MaterialsToOrder: `report_dashboard` reads `tot_altezza`, `tot_larghezza` and `unita_prodotte` from each value that `get_materiali_necessari` returns. That function returns plain integers, so the dashboard is modelled over per-order entries with three optional fields (`Entry`), given as input rather than computed by `Materials.MaterialsNeeded`.
- The other statistics of `home` (counts of clients, models and component types; active orders; pairs to produce; recent orders) and of `report_dashboard` (orders per state with pairs, popular models, active clients) are not modelled.
- Quantities and measurements are unbounded integers. Database integer width and decimal fields are not modelled.
- Model timestamps, `created_by`, notes and URLs are not modelled.
