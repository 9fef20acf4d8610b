# Hotel products server: reservation summaries and their cache

This project models the two cores of a small reservation service in Dafny, with proofs.

1. **The reservation aggregation** in `src/rooms/products.service.js`.
   - Product assignments (`{id, name, reservation_uuid}`) are joined with product charges (`{special_product_assignment_id, active, amount}`).
   - The join produces one summary per reservation. Each summary holds:
     - the reservation's products, each with a status of `"initial"`, `"active"` or `"cancelled"`;
     - the total `amount` of its active charges;
     - the number of its active charges, `numOfCharges`.
   - It also covers the per-reservation product view built by `getProductsByReservationUuid`.
2. **The single-slot TTL cache** in `src/rooms/cache.js`.
   - It holds one value and the time it was stored.
   - After five minutes the value expires.

Layout:

- `types.dfy` (module `Types`): the two input records from `src/types.ts`, and `Option`, which makes JavaScript's `null`/`undefined` explicit.
- `summary_spec.dfy` (module `SummarySpec`): a reference definition of the summaries, stated without the single pass that computes them.
  - `Summaries` produces, for every UUID in order of first appearance, the entries of that reservation's assignments in their original order, plus the rollup of the active ones.
  - The lemmas prove the lookup rule, the status classification, the partition, the ordering and the totals.
- `products_service.dfy` (module `ProductsService`): the code as it runs.
  - `BuildChargesMap` is the `reduce` that keys charges by assignment id.
  - `AddAssignment` is the `forEach` callback.
  - `GetReservationSummaries` walks the assignments while keeping an insertion-ordered map. The map is a `map` of rollups plus the sequence of its keys in insertion order. The method is proved equal to `Summaries`.
  - The per-reservation view uses the first matching charge (`find`).
- `cache.dfy` (module `Cache`): the class `ReservationCache`.
  - It has the mutable fields `cache` and `lastUpdated`.
  - The time is an explicit `now` argument.
  - A set of client methods states the cache's observable behaviour.

Amounts are integers (for example cents). A missing `name` is `None`, and `name || ""` becomes an explicit default.

## Model

| member | source | states |
|---|---|---|
| `SummarySpec.LastCharge` | src/rooms/products.service.js:78-81 | the charge found for an id is one of the charges, and it names that id |
| `SummarySpec.LastChargeWins` | src/rooms/products.service.js:78-81 | the lookup finds nothing iff no charge names the id; otherwise it returns the charge naming it that comes latest (last write wins) |
| `ProductsService.BuildChargesMap` | src/rooms/products.service.js:78-81 | the loop that keys charges by assignment id yields, for every id, exactly the last charge naming it, or nothing |
| `SummarySpec.Entry` | src/rooms/products.service.js:88-101 | status is "initial" iff there is no charge, "active" iff there is a charge and it is active, "cancelled" iff there is a charge and it is inactive, so "active" is exactly `isActive`; amount is the charge's or 0; the charge's id and `active` fields appear only when a charge matched; name defaults to "" |
| `SummarySpec.EntryWithoutCharge` | src/rooms/products.service.js:86-100 | an assignment that no charge names gets the entry "initial", amount 0, no charge fields, and its name or "" |
| `SummarySpec.EntryOfLastCharge` | src/rooms/products.service.js:86-100 | an assignment whose last charge is `charges[k]` gets that charge's id, `active` flag and amount, with status "active" or "cancelled" by the flag (a cancelled product keeps its amount) |
| `SummarySpec.NoActiveNoCharges` | src/rooms/products.service.js:106-116 | entries that are initial or cancelled add nothing to `amount` or `numOfCharges` |
| `SummarySpec.ForReservationPositions` | src/rooms/products.service.js:84-118 | the products grouped under a UUID are exactly the assignments carrying it, at strictly increasing positions, so relative order is kept |
| `SummarySpec.UuidsMembership` | src/rooms/products.service.js:104-109 | a UUID gets a map entry iff some assignment carries it |
| `SummarySpec.UuidsDistinct` | src/rooms/products.service.js:104-109 | map keys are created once: the key sequence has no repeats |
| `SummarySpec.UuidsFirstAppearance` | src/rooms/products.service.js:104-109 | keys are in order of first appearance: before any occurrence of a later key, each earlier key has already occurred |
| `SummarySpec.RollupStep` | src/rooms/products.service.js:103-118 | one more assignment changes only its own reservation: one more product, plus its amount and one more charge iff it is active |
| `SummarySpec.RollupMapStep` | src/rooms/products.service.js:104-118 | creating the entry on first sight, or updating the existing one, keeps every entry of the map equal to the rollup of the assignments done so far |
| `ProductsService.AddAssignment` | src/rooms/products.service.js:84-119 | the `forEach` callback keeps the map and its key order in step with the reference rollups, one assignment further |
| `ProductsService.TracksAll` | src/rooms/products.service.js:122-125 | after all assignments, reading the map in insertion order and spreading in the UUID gives exactly the reference summaries |
| `ProductsService.GetReservationSummaries` | src/rooms/products.service.js:74-125 | the single pass returns exactly `Summaries(assignments, charges)` |
| `SummarySpec.SummariesUuids` | src/rooms/products.service.js:122-125 | one summary per distinct UUID, and the i-th summary carries the i-th UUID |
| `SummarySpec.SummariesDistinct` | src/rooms/products.service.js:104-109 | summaries have pairwise distinct UUIDs; no assignments give no summaries, whatever the charges |
| `SummarySpec.SummariesCover` | src/rooms/products.service.js:84-118 | every assignment's UUID has a summary, and every summary's UUID is carried by an assignment |
| `SummarySpec.SummariesOrder` | src/rooms/products.service.js:122-125 | summaries are ordered by first appearance of their UUID among the assignments |
| `SummarySpec.SummaryProducts` | src/rooms/products.service.js:84-118 | a summary's products are the entries of exactly the assignments carrying its UUID, in original order; its amount and count are the sum and number of its "active" products |
| `SummarySpec.InactiveReservation` | src/rooms/products.service.js:106-116 | a reservation with no active product has amount 0 and no charges |
| `SummarySpec.SummariesTotals` | src/rooms/products.service.js:104-118 | across all summaries, amounts add up to the amounts of the active charges; charge counts add up to the number of assignments with an active charge; product counts add up to the number of assignments (none lost, none duplicated) |
| `SummarySpec.SpaAndBreakfast` | src/rooms/products.service.js:74-125 | a worked example: Spa (charged 50, active) and Breakfast (no charge) in R1 give one summary with amount 50, one charge, and the two products active and initial |
| `ProductsService.FirstCharge` | src/rooms/products.service.js:51 | the charge found by `find` is one of the charges and names the id |
| `ProductsService.FirstChargeWins` | src/rooms/products.service.js:51 | `find` finds nothing iff no charge names the id; otherwise it returns the first charge naming it |
| `ProductsService.ProductView` | src/rooms/products.service.js:51-57 | a view keeps id and name; its amount is the first matching charge's amount, or 0; `active` is that charge's flag, absent when there is no charge |
| `ProductsService.ReservationProductsSpec` | src/rooms/products.service.js:47-57 | the views are those of exactly the assignments carrying the UUID, in their original order |
| `ProductsService.GetProductsByReservationUuid` | src/rooms/products.service.js:44-60 | as written, the function returns `undefined` (`None`) for every reservation and every dataset, because the views are built inside `forEach` |
| `ProductsService.ProductsLookupDiscardsViews` | src/rooms/products.service.js:50-59 | whenever the reservation has products, the lookup still returns `undefined` and not the non-empty list of their views |
| `ProductsService.LookupsAgreeOnUniqueIds` | src/rooms/products.service.js:51-86 | when no two charges name the same assignment, the summary lookup (last match) and the view lookup (first match) agree |
| `Cache.ReservationCache.constructor` | src/rooms/cache.js:2-6 | a new cache holds no value and no timestamp; the duration is 300000 ms |
| `Cache.ReservationCache.Set` | src/rooms/cache.js:8-11 | stores the value and sets the timestamp to now, overwriting both |
| `Cache.ReservationCache.Get` | src/rooms/cache.js:13-25 | with no value, a falsy value or a missing or zero timestamp: a miss, state unchanged. More than 300000 ms old: a miss, and both fields cleared. Otherwise: the stored value, state unchanged |
| `Cache.ReservationCache.Invalidate` | src/rooms/cache.js:27-30 | clears the value and the timestamp |
| `Cache.NewCacheMisses` | src/rooms/cache.js:2-16 | a new cache misses at any time |
| `Cache.FreshUntilFiveMinutes` | src/rooms/cache.js:18-24 | after `set(d)` at t, `get` at t + e returns d iff e <= 300000 (exactly five minutes is still fresh) |
| `Cache.FreshGetKeepsValue` | src/rooms/cache.js:13-24 | a fresh `get` changes nothing, so a second fresh `get` returns the value again |
| `Cache.ExpiryClears` | src/rooms/cache.js:19-21 | an expired `get` clears the cache, so a later `get` misses even at a time that would have been fresh |
| `Cache.InvalidateMisses` | src/rooms/cache.js:27-30 | after `invalidate`, the next `get` misses at any time |
| `Cache.SetRestartsExpiry` | src/rooms/cache.js:8-11 | a second `set` replaces the value, and expiry is measured from it |
| `Cache.FalsyValueMisses` | src/rooms/cache.js:14-16 | a stored falsy value (such as `null`) reads as absent |
| `Cache.ZeroTimestampMisses` | src/rooms/cache.js:14-16 | a value stored at time 0 reads as absent, because the timestamp 0 is falsy |

## Left out

- Reading the datasets (`readProductAssignments`, `readProductCharges`, src/rooms/products.service.js:15-37) is file I/O and JSON parsing. The two sequences are inputs here. A failed read gives `[]`, and `SummariesDistinct` shows that no assignments give no summaries.
- `Promise.all` and async/await (src/rooms/products.service.js:69-72) only schedule the two reads. They do not affect the result.
- The `try`/`catch` that logs and re-throws (src/rooms/products.service.js:126-129) is logging only. The aggregation cannot fail on well-typed input.
- `Date.now()` is replaced by a `now` argument to `Set` and `Get`. No clock is modelled, and no ordering between successive times is assumed.
- Amounts are integers, so JavaScript floating-point rounding in `reservation.amount += amount` is not modelled. For the same reason a `NaN` amount is not modelled; `amount || 0` would turn it into 0.
- `chargesMap` is a plain object, whose keys JavaScript turns into strings. Assignment ids are integers, so the model keys the map by `int`. Distinct integer ids give distinct keys there too.
- The cache's stored value has the opaque type `T`. Its JavaScript truthiness is supplied to the constructor as `truthy`, because the source's constructor takes no argument and relies on the language's truthiness.
- The module-level singleton `reservationCache` (src/rooms/cache.js:33) is not modelled. Each construction is one cache.
- Express routing, CORS, the server bootstrap and the mapping of errors to HTTP 500 are HTTP plumbing (src/rooms/room-route.js, src/rooms/room-route.ts, src/router.js, src/server.js). So is their wiring. In src/rooms/room-route.js the route for one reservation calls a function it never imports, and only the cache's `invalidate` is called.
- `src/types.ts` and `src/rooms/products.service.d.ts` are only type declarations. `types.ts` is the source for the datatypes.
- Idempotence of the aggregation is not stated as a lemma. `Summaries` is a function, and the method is proved equal to it, so equal inputs give equal outputs.

## Findings

| source | as written | input that shows it | evidently intended | confidence | as-written member | corrected member |
|---|---|---|---|---|---|---|
| src/rooms/products.service.js:50-59 | the views are built inside `forEach`, which returns `undefined`; that `undefined` is what the function returns | any reservation with at least one assignment, e.g. assignment `{id: 1, name: "Spa", reservation_uuid: "R1"}` looked up with `"R1"` | return the list of views (`map` instead of `forEach`), one per assignment of the reservation | high; not executed | `ProductsService.GetProductsByReservationUuid`, exhibited by `ProductsService.ProductsLookupDiscardsViews` | `ProductsService.ReservationProducts`, proved by `ProductsService.ReservationProductsSpec` |

The function's own documentation says it resolves to "the array of product assignments matching the reservation UUID" (src/rooms/products.service.js:42). Its declaration gives the result type `Promise<ReservationProduct[]>` (src/rooms/products.service.d.ts:3). The code returns `undefined`, so the model follows the code and records the difference above.

The two lookups also differ in one case: `find` takes the first charge for an id, while the summaries keep the last. This is not claimed as a defect. `LookupsAgreeOnUniqueIds` shows that the two agree whenever no two charges name the same assignment.
