# gw2tp ingestion pipeline, modelled in Dafny

gw2tp scrapes the Guild Wars 2 trading post. Two scripts pull paginated data from the
GW2 API and write it to a relational store:

- `python/update_items.py` refreshes the item catalog. It turns every `/items` record
  into an `Item` row. It also turns each record into a row of the category table named
  by its `type`: Armor, Bag, Consumable, GatheringTool, Gizmo, SalvageKit, Trinket,
  Upgrade or Weapon.
- `lookup_prices.py` snapshots the market. It turns every `/commerce/prices` record into
  a `Listing` row with a derived surplus and profit margin.

Both scripts first ask the API how many pages exist. They do this by requesting page
9999 and reading the valid range out of the error text. Each script then walks the pages
from 0 (`update`). When a page raises, it resumes from exactly that page (`keep_trying`).
Finally it writes everything in one transaction (`insert`).

The project has eight modules: `Json`, `Text` and `Pager` are shared, and each of the four
source files has its own module, except update_items.py, which has two:

- `Json` (json.dfy): decoded JSON values, the Python exceptions involved, `d[k]`,
  iteration, and list comprehensions.
- `Text` (text.dfy): ASCII digits and whitespace, `str(int)`/`int(str)`, `join` and
  `split`.
- `Database` (database.dfy): `get_field`, `Item.create`, the nine category `create`s and
  `Listing.create`, as functions over JSON values.
- `Connector` (connector.dfy): the connector as a class. The query-parameter dict is a
  class `Params` whose entries `_complete_url` mutates in place. The URL builder and the
  page-bound parser are functions. The HTTP transport is an oracle `Api`: for each
  request number it either fails, or returns the decoded body the URL serves.
- `Pager` (pager.dfy): the `update`/`keep_trying` walk that both scripts share, over an
  arbitrary page turn `step(state, page)`. It proves the walk's order, resume point,
  invariants and contributions once, for any turn.
- `UpdateItems` and `UpdateItemsScript` (update_items.dfy):
  - `UpdateItems` holds `typeof`, `add` and one page turn, with the lemmas about them.
  - `UpdateItemsScript` holds the script's globals as class `ItemsRun`. Its methods
    `Update`, `Retry`, `KeepTrying` and `Insert` are loops proved against the `Pager`
    functions.
  - The store is class `CatalogStore`, with maps keyed by primary key.
- `LookupPrices` (lookup_prices.dfy): the same structure for listings. Class
  `LookupRun` holds the globals, and the store is class `ListingStore`, a sequence of
  rows plus the stored item ids.

### Behaviour of the code worth knowing

- **Every exception is retried.**
  - `update` catches every `Exception`, including a `KeyError` raised by a malformed
    record, and `keep_trying` then retries from that page.
  - Such a page fails on every attempt, so the script never finishes:
    `UpdateItems.UnreadablePageStalls` and `LookupPrices.UnreadablePageStalls` prove this.
- **The catalog insert has no savepoints.**
  - `update_items.insert` merges every row in the one session and commits once, so a
    row whose item is missing would abort the whole commit.
  - `UpdateItemsScript.ParentedNoOrphans` proves this cannot happen with gathered data.
    Every gathered category row carries the id of a gathered item, and the items are
    merged first.
- **A catalog page can be added twice.**
  - In `update_items.update`, the page's items are appended to `g_items` before its
    category rows are built. When building the rows raises, the page is retried and its
    items are appended again.
  - `UpdateItems.KeepTryingPass` shows that a run that finishes never keeps such
    duplicates. A page that fails this way fails on every retry, because a URL always serves
    the same body (see the HTTP line under "## Left out"), so a finished run has
    gathered exactly one failure-free pass.
- **Skipped listings are printed.** `lookup_prices.insert` prints the `item_id` of each
  listing it skips. The model returns them, in order, as the result of `Insert`.
- **There is no retry ceiling.** `keep_trying` loops until a pass succeeds. The model
  bounds the retries by `fuel` and reports `GaveUp(page)` when the budget runs out.

## Model

| member | source | states |
|---|---|---|
| Json.Index | python/database.py:29 | `d[k]`: a value exactly when `d` is a dict holding `k`; otherwise KeyError for a dict, TypeError for anything else |
| Json.Iterate | python/update_items.py:53 | `for k in data` visits a list's elements in order; an empty dict or string gives nothing; anything else raises TypeError |
| Json.MapAll | python/update_items.py:53 | a comprehension yields one result per element, and fails exactly when some element raises |
| Json.MapAllAt | python/update_items.py:53 | element `i` of a successful comprehension is the image of input `i` |
| Json.MapAllFirstError | python/update_items.py:53 | the error of a failed comprehension is the one raised by its first failing element |
| Json.MapAllAppend | lookup_prices.py:41 | a comprehension over a concatenation is the concatenation of the comprehensions |
| Json.Kept | python/update_items.py:37 | every kept element occurs in the input and is accepted, and there are no more of them than inputs |
| Json.KeptMembers | python/update_items.py:37 | an element is kept exactly when it occurs in the input and the filter accepts it |
| Json.KeptAppend | python/update_items.py:37 | filtering a concatenation keeps the first part's accepted elements, then the second's, so input order is kept |
| Json.KeptOne | python/update_items.py:37 | a single element is kept exactly when the filter accepts it |
| Json.FilterMapIsMapAll | python/update_items.py:37 | a filtered comprehension succeeds exactly when the filter never raises and the map succeeds on the accepted elements; it is the map over them |
| Json.FilteredAppend | lookup_prices.py:50-61 | a filter over a concatenation filters each part, in order |
| Json.FilteredMembers | lookup_prices.py:50-61 | the filtered results are exactly the images of the accepted elements |
| Json.FilteredSplit | lookup_prices.py:50-61 | filtering by a test and by its negation loses and duplicates no element |
| Text.DecimalValue | connector.py:48 | `int()` of a digit run: its last digit is the value's last decimal digit |
| Text.NatToDecimal | connector.py:31 | `str(n)`: a non-empty digit string without a leading zero |
| Text.IntToDecimal | connector.py:31 | `str(i)`: non-empty; starts with '-' exactly for negative numbers |
| Text.DecimalRoundTrip | connector.py:48 | `int(str(n)) == n` |
| Text.SplitJoin | connector.py:32 | joining parts free of the separator and splitting again gives the parts back |
| Database.GetField | python/database.py:25-32 | the loop reassigning `data` key by key computes the `get_field` lookup; with no keys it returns `data` unchanged |
| Database.FieldOfAfterPrefix | python/database.py:27-29 | once the first `i` keys are found, the lookup continues from the value they reach |
| Database.GetFieldFound | python/database.py:25-32 | when every key is present in turn, the result is the value at the end of the path |
| Database.GetFieldMissing | python/database.py:28-31 | the first absent key gives None, whatever keys follow it |
| Database.GetFieldNotADict | python/database.py:28-31 | looking a key up in a non-dict raises TypeError, which `except KeyError` does not catch |
| Database.Nested | python/database.py:25-32 | a two-key lookup succeeds exactly when the record is a dict and its outer entry is absent or a dict; its value is the inner value or None |
| Database.IdOf | python/database.py:101 | `get_field(data, 'id')` succeeds exactly on a dict; it gives the id or None |
| Database.CreateItem | python/database.py:81-89 | succeeds exactly when the record is a dict with all six keys, copying them verbatim; otherwise KeyError names an absent key whose predecessors are all present (TypeError for a non-dict) |
| Database.TablesDistinct | python/update_items.py:26-27 | `tables` lists every category table, and no two share a class name |
| Database.CreateArmor | python/database.py:100-105 | succeeds exactly when `details` can be searched; `item_id` is the record's id (or None) and each field is `details.<field>` or None, never raising on an absent one |
| Database.CreateBag | python/database.py:115-119 | as for Armor; `is_safe` comes from `details.no_sell_or_sort` |
| Database.CreateConsumable | python/database.py:129-133 | as for Armor; `duration` comes from `details.duration_ms` |
| Database.CreateGatheringTool | python/database.py:142-145 | as for Armor, with the `type` detail |
| Database.CreateGizmo | python/database.py:154-157 | as for Armor, with the `type` detail |
| Database.CreateSalvageKit | python/database.py:167-171 | as for Armor, with `type` and `charges` |
| Database.CreateTrinket | python/database.py:180-183 | as for Armor, with the `type` detail |
| Database.CreateUpgrade | python/database.py:192-195 | as for Armor, with the `type` detail |
| Database.CreateWeapon | python/database.py:208-215 | as for Armor, with `type`, `min_power`, `max_power`, `defense` and `damage_type` |
| Database.CreateDetail | python/update_items.py:37 | `table.create(k)` builds a row of that very table, keyed by the record's id, and succeeds exactly when `details` can be searched |
| Database.PyInt | python/database.py:236-239 | `int(v)`: an int is kept, a bool is 0 or 1, None, a list or a dict raise TypeError, and a string succeeds exactly when it is a decimal literal |
| Database.PyIntOfDecimal | python/database.py:236-239 | `int(str(i)) == i` for every integer |
| Database.Margin | python/database.py:241-244 | None exactly when the sell price is 0; otherwise `margin * s_price == s_price - b_price`, with no division by zero |
| Database.CreateListing | python/database.py:235-250 | succeeds exactly when the four numbers are readable; demand, supply, buy and sell prices come from `buys`/`sells` quantity and unit_price, surplus is supply minus demand (negative included), and the margin, item id and timestamp are set |
| Database.ListingNeedsAllPrices | python/database.py:236-239 | an absent quantity or unit price makes `Listing.create` fail through `int(None)` |
| Database.ListingExample | python/database.py:235-250 | buys 10 at 50 and sells 20 at 100 give surplus 10 and margin 0.5 |
| Connector.Lookup | connector.py:31 | `params[k]` finds a value exactly when some entry has key `k` |
| Connector.SetKeyLookup | connector.py:27 | after `params[k] = v`, `k` maps to `v` and is held exactly once, every other key keeps its value, and keys stay distinct |
| Connector.KeyIndex | connector.py:27 | the position of the first entry with the key |
| Connector.LookupFirst | connector.py:31 | a lookup returns the first entry with the key |
| Connector.LookupSetKey | connector.py:27 | a lookup after `params[k] = v` gives `v` for `k`, and the old value for any other key |
| Connector.Params.constructor | connector.py:45-46 | a dict display holds its distinct entries |
| Connector.Params.Set | connector.py:27 | `params[k] = v` updates the caller's dict in place: an existing entry keeps its position, a new one goes last |
| Connector.Pairs | connector.py:31 | one `key=value` string per entry, in dict order |
| Connector.QueryListsPairs | connector.py:30-32 | the query starts with '?', and cutting it at each '&' gives back exactly the pairs, in order |
| Connector.RenderedIntSafe | connector.py:31 | an integer value contains no '&' or '=' |
| Connector.Connector.constructor | connector.py:19-23 | `api_url` is `https://api.guildwars2.com/` followed by the version |
| Connector.Connector.CompleteUrl | connector.py:25-36 | writes the key into the caller's dict: afterwards `apikey` maps to the key and every other entry is unchanged; the URL is root, then '/'-joined path, then the query of the updated dict |
| Connector.Connector.GetMaxPage | connector.py:44-48 | a failed probe raises TransportError; otherwise the result is what the page-bound parser makes of the probe's response |
| Connector.ProbeQuery | connector.py:45-46 | the probe's query is `?page=9999&page_size=200&apikey=<key>` |
| Connector.ProbeEntries | connector.py:45-46 | the key is appended after `page` and `page_size` |
| Connector.DigitRun | connector.py:47 | `\d+` takes the maximal run of digits |
| Connector.MatchAtIsPattern | connector.py:47 | greedy matching loses nothing: the pattern matches at a position exactly when some digit count fits, and only the full run fits |
| Connector.Search | connector.py:48 | `re.search` finds the leftmost match, with none before it, and finds nothing exactly when no position matches |
| Connector.ParseMaxPageLeftmost | connector.py:47-48 | the parse reads the decimal value of the digit group of the leftmost match |
| Connector.ErrorTextRoundTrip | connector.py:47-48 | a text with no '0' before `0 - <n>.` yields `n`, whatever follows |
| Connector.ApiErrorTextExample | connector.py:47-48 | an out-of-range text of the shape the pattern expects, such as "... between 0 - 269.", yields 269 |
| Connector.MaxPageOfBody | connector.py:48 | succeeds exactly when the body is a dict whose `text` is a string the pattern matches, giving the parsed number; a body without `text` raises KeyError |
| Pager.Range | python/update_items.py:46 | `range(lo, hi)`: `hi - lo` ascending pages from `lo` |
| Pager.PagesLog | python/update_items.py:46-60 | `update` requests pages in ascending order: all of them when it returns None; otherwise it returns a page of the range after requesting exactly the pages up to it |
| Pager.PagesFailFirst | python/update_items.py:49-58 | the page returned is the first that failed: every page before it completed, and it failed on the state they left |
| Pager.PagesSplit | python/update_items.py:46-60 | a completed walk splits at any page into the walk up to it and the walk from it |
| Pager.PagesPreserve | python/update_items.py:46-60 | `update` keeps every invariant that each page turn keeps |
| Pager.KeepTryingWalk | python/update_items.py:83-91 | the pages requested start at 0; each request repeats the failed page or moves to the next one, never back; a finished run ends with the last page |
| Pager.ResumeWalk | python/update_items.py:85-90 | each retry keeps the pages requested a walk |
| Pager.KeepTryingPreserves | python/update_items.py:83-91 | `keep_trying` keeps every invariant that each page turn keeps |
| Pager.ConcatPrefix | lookup_prices.py:41 | what earlier pages contributed stays in place as later pages are added |
| Pager.PagesAdvance | python/update_items.py:46-60 | `update` moves a state holding the pages before `min_page` to one holding the pages before where it stopped |
| Pager.KeepTryingAdvance | python/update_items.py:83-91 | because retries resume at exactly the failed page, `keep_trying` ends holding the pages before the page it gave up on, or all pages once it finishes |
| Pager.KeepTryingStuck | python/update_items.py:85-90 | a page that fails in every state is never passed: the run gives up on it or on an earlier page |
| UpdateItems.TypeOf | python/update_items.py:32-33 | true exactly when `data['type']` is the name; a missing `type` raises KeyError, a non-dict raises TypeError |
| UpdateItems.Typed | python/update_items.py:37 | every selected record occurs on the page and has the table's type |
| UpdateItems.TypedMembers | python/update_items.py:37 | a record is selected exactly when it is on the page and its `type` names the table |
| UpdateItems.TypedAppend | python/update_items.py:37 | selection keeps page order: selecting from a concatenation selects from each part in turn, and one record is selected exactly when it has the type |
| UpdateItems.SelectFilters | python/update_items.py:37 | the filtered comprehension succeeds exactly when every record has a `type` and every record of the type builds a row; it is then the rows of those records |
| UpdateItems.Add | python/update_items.py:36-38 | `add` keeps `lst` as an unchanged prefix and appends the rows of the records of the table's type, in order; it fails exactly when the page cannot be iterated, a record has no type, or a matching record cannot be built |
| UpdateItems.NewRows | python/update_items.py:53-56 | the rows built for a page belong to their table and carry the id of an item built from the same page |
| UpdateItems.InitialPreInsert | python/update_items.py:28-29 | `g_pre_insert` starts with one empty list per table, in the order of `tables` |
| UpdateItems.AddAllAt | python/update_items.py:55-56 | entry `i` of the new `g_pre_insert` is `add` applied to entry `i`, paired with the same table |
| UpdateItems.AddAllFails | python/update_items.py:55-56 | rebuilding `g_pre_insert` fails exactly when `add` fails on some table |
| UpdateItems.AbsorbKeeps | python/update_items.py:50-58 | a page turn only extends `g_items` and each category list at their ends and keeps the list-table pairing; every row stays in its table and refers to a gathered item |
| UpdateItems.AbsorbPass | python/update_items.py:52-58 | a turn on page `p` moves a state holding the pass over the pages before `p` to one holding the pass up to where it stops |
| UpdateItems.KeepTryingKeeps | python/update_items.py:83-91 | from a good state, `keep_trying` keeps the invariant, only grows the accumulators, requests a walk from page 0, and a finished run ends with the last page |
| UpdateItems.KeepTryingPass | python/update_items.py:83-91 | a finished `keep_trying` has gathered the items of every page exactly once, in page order, and each page's category rows in page order |
| UpdateItems.UnreadablePageStalls | python/update_items.py:53-58 | a page holding a record that cannot become an Item fails on every attempt, so `keep_trying` never gets past it |
| UpdateItemsScript.MergeItemsLastWins | python/update_items.py:65-68 | after merging, an id is stored exactly when it was stored before or is merged; its item is the last merged item with that id, or the old one |
| UpdateItemsScript.MergeRowsStores | python/update_items.py:71-75 | every merged row is stored under its key, and no key is dropped |
| UpdateItemsScript.MergeGroupsStores | python/update_items.py:70-75 | every gathered row of every table is stored under its key |
| UpdateItemsScript.ParentedNoOrphans | python/update_items.py:65-75 | items are merged before rows, and every row refers to a gathered item, so no row meets a missing item |
| UpdateItemsScript.ItemsRun.constructor | python/update_items.py:25-29 | `g_items` is empty and `g_pre_insert` holds an empty list per table; the invariant holds |
| UpdateItemsScript.ItemsRun.Update | python/update_items.py:41-60 | the page loop leaves the state and returns the page that the pager's `update` over this script's page turns gives |
| UpdateItemsScript.ItemsRun.FetchPage | python/update_items.py:49-58 | one page: the request built by the connector, then its absorption, as one page turn |
| UpdateItemsScript.ItemsRun.Take | python/update_items.py:52-58 | appends the page's items, then rebuilds every category list, as the page turn says |
| UpdateItemsScript.ItemsRun.RetryOnce | python/update_items.py:90 | one `update(page)` from the failed page advances the retry loop by one step |
| UpdateItemsScript.ItemsRun.Retry | python/update_items.py:85-90 | the loop ends in the state that resuming from the failed page, within the budget, gives |
| UpdateItemsScript.ItemsRun.KeepTrying | python/update_items.py:83-91 | ends as the pager's `keep_trying` does and keeps the invariant; when it finishes, `g_items` gained every page's items once in page order and `g_pre_insert` holds one pass |
| UpdateItemsScript.ItemsRun.Insert | python/update_items.py:63-78 | when every row's item is stored after the items are merged, the store holds the items upserted by id and then the rows table by table; a row whose item is missing gives IntegrityError and a database fault gives DatabaseError, and then nothing is committed |
| UpdateItemsScript.GatherIsPass | python/update_items.py:83-91 | a finished gathering from the empty globals equals one failure-free pass over all pages |
| UpdateItemsScript.Run | python/update_items.py:94-95 | a failed probe crashes the script with its error; after a good probe the script gives up exactly when gathering does, finishes exactly when gathering finishes and the database does not fault, and crashes with DatabaseError exactly when it does; when it finishes, the store holds the merge of everything gathered; otherwise the store has not changed |
| UpdateItemsScript.GatherAndInsert | python/update_items.py:94-95 | gives up at the page gathering gave up on; when gathering finishes, `insert` runs and succeeds exactly when the database does not fault (a missing item cannot occur), and otherwise crashes with DatabaseError and leaves the store unchanged |
| LookupPrices.ListingsOfRecords | lookup_prices.py:40-41 | a page gives one listing per record, in order, and fails exactly when some record lacks one of its four numbers |
| LookupPrices.Absorb | lookup_prices.py:38-43 | a page completes exactly when its response arrived and every record became a listing; only then are its listings appended, otherwise nothing is |
| LookupPrices.AbsorbAppends | lookup_prices.py:40-43 | a completed page appends exactly that page's listings, and a failed one appends nothing |
| LookupPrices.KeepTryingGathers | lookup_prices.py:70-78 | pages requested form a walk from page 0; `g_listings` gains the listings of the pages before where it stopped, each once in page order, so a finished run holds every page exactly once |
| LookupPrices.UnreadablePageStalls | lookup_prices.py:70-78 | a page with a record lacking a price fails on every attempt, so `keep_trying` never gets past it |
| LookupPrices.AdmittedPartition | lookup_prices.py:50-61 | every listing is either added (its item is stored) or skipped and reported by `item_id`, never both |
| LookupPrices.AdmittedAppend | lookup_prices.py:50-61 | added listings keep their relative order across a concatenation, as do the skipped ids |
| LookupPrices.AdmittedByPage | lookup_prices.py:50-61 | the listings added from a finished run are those of each page, page after page |
| LookupPrices.LookupRun.constructor | lookup_prices.py:27 | `g_listings` starts empty |
| LookupPrices.LookupRun.Update | lookup_prices.py:30-45 | the page loop leaves the state and returns the page that the pager's `update` over this script's page turns gives |
| LookupPrices.LookupRun.FetchPage | lookup_prices.py:37-43 | one page: the request built by the connector, then its absorption, as one page turn |
| LookupPrices.LookupRun.Take | lookup_prices.py:40-43 | appends the page's listings only when all of them are built |
| LookupPrices.LookupRun.RetryOnce | lookup_prices.py:77 | one `update(page)` from the failed page advances the retry loop by one step |
| LookupPrices.LookupRun.Retry | lookup_prices.py:75-77 | the loop ends in the state that resuming from the failed page, within the budget, gives |
| LookupPrices.LookupRun.KeepTrying | lookup_prices.py:70-78 | ends as the pager's `keep_trying` does; when it finishes, `g_listings` gained every page's listings exactly once, in page order |
| LookupPrices.LookupRun.Insert | lookup_prices.py:48-65 | when adding some listing raises an error other than an integrity error, or the final commit fails, DatabaseError is raised and nothing is committed; otherwise the store gains the listings whose item is stored, in order, and the other ids are reported |
| LookupPrices.Run | lookup_prices.py:81-84 | a failed probe crashes the script; after a good probe it gives up exactly when gathering does, finishes exactly when gathering finishes, no gathered listing raises an error other than an integrity error and the commit succeeds, and crashes with DatabaseError exactly when one of those fails; when it finishes, the store gained the stored-item listings of pages `0 .. g_max_page`, in order, and the rest are reported; otherwise it has not changed |
| LookupPrices.GatherAndInsert | lookup_prices.py:83-84 | gives up at the page gathering gave up on; when gathering finishes, `insert` runs on everything gathered, and the result is DatabaseError exactly when some gathered listing raises an error other than an integrity error or the commit fails, and Done with the skipped ids otherwise |

## Left out

- HTTP (`requests.get`, connector.py:38-40) and JSON decoding are the oracle `Api`. A
  request fails according to its request number. A URL always serves the same decoded
  body. Status codes and the undecoded text are not modelled.
- The API key and configuration loading (connector.py:10-11, python/database.py:12-20),
  the engine setup and `create_all` (python/database.py:254-261), and `session.close`
  are I/O and are not modelled.
- The ORM mechanics (`relationship`, `declared_attr`, `ItemMixin`) are not modelled.
  SQL column typing is not modelled either, so columns hold the JSON values as given.
- python/app.py is not part of this model.
- Floating point: `p_margin` is an exact `real`, so float rounding is not modelled.
- JSON numbers are integers only: the `Json` value has no float case. So `int()` of a
  float in `Listing.create` (python/database.py:236-239), which truncates toward zero
  or raises OverflowError on infinity, is not modelled.
- `datetime.now()` for `last_updated` is one clock reading `now` per run, passed in as a
  parameter. The source reads the clock once per listing.
- Database.CreateListing: `last_updated` is the run's single `now`, not a fresh reading
  per record.
- Console output (`print`, progress lines, `PrettyPrinter`) is not modelled.
- `keep_trying` retries without bound. The model gives it a retry budget (`fuel`) and
  reports `GaveUp(page)` when the budget runs out, so a run that never ends is seen
  only through this outcome.
- `\s` and `\d` are restricted to ASCII. Python's regex engine is modelled only for the
  one pattern used.
- Database.PyInt: `int()` on a string accepts an optional sign and ASCII digits only.
  Surrounding whitespace, underscores and non-ASCII digits are not accepted.
- Iterating a non-empty dict or string yields strings, and every `create` raises
  TypeError on a string. The model reports that TypeError directly.
- `ListingStore.rejects` stands for the listings whose add raises an error that is not an
  IntegrityError, such as a database fault. It is checked before the foreign key. The
  `listings` table (python/database.py:218-229) declares no constraint except the foreign
  key, and its primary key is assigned by the store. So a missing item is the only
  IntegrityError modelled, and `except IntegrityError` skips exactly those listings.
- `ListingStore.fails` is one flag for a fault of the final `session.commit()`. It is
  consulted only after every listing has been added without another error.
- `CatalogStore.fails` is one flag per insert for a fault of the database during
  `merge` or `commit`. Which row triggers it, and faults the catalog's columns could
  raise, are not modelled. Nothing is committed either way.
- A listing whose `item_id` is None is not checked against the items table (SQL NULL)
  and is added.
- The listing's surrogate primary key `id` is assigned by the store and is not part of
  the `Listing` value.
- In the catalog store, merging a category row replaces the whole row. Column-level
  merge details are not modelled.
- The mutable default argument `params={}` of `_complete_url` and `get` is not modelled.
  The scripts always pass a fresh dict.
- Percent-encoding of query keys and values (section 2.1 of RFC 3986) is not applied, as
  in the source.
- UpdateItems.Absorb: its own contract states only that the page is logged. What a turn
  does to the accumulators is stated by UpdateItems.AbsorbKeeps and
  UpdateItems.AbsorbPass.
