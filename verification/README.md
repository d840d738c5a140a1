# Bingo-hall backend: accounting and record-keeping rules

This project is a Dafny model of the request handlers of a bingo-hall
backend. Shops log in, start and save game rounds, and pay a commission per
round out of a prepaid balance, or run on postpaid terms. The backend keeps a
per-day report for each shop and a log of winnings. Every handler reads and
writes a hosted document store. Here the store is one in-memory `Store` class
with one field per collection:

- `shops`: the shop documents, in the store's document order. A lookup by
  `shop_id` is an equality query with `limit(1)`, and nothing keeps `shop_id`
  unique, so every lookup takes the first match (`ShopTable.FindShop`).
- `gameRounds`: the round history, keyed by round id.
- `dailyReports`: the per-day report, keyed by (shop id, date).
- `roundsPerShop`: the one current-round slot of each shop.
- `weeklyCommissions`: the weekly settlement record, keyed by (shop id, week id).
- `winings`: the winnings log, keyed by entry id.

Stored fields are `Field<T>` values, because the store is schemaless. A field
can be missing, present and null, or present with a value. `Docs.Get` is the
handlers' `doc.get(key, default)`: a missing field gives the default, and a
stored null gives Python's `None`. An explicit null can really get into a
shop document, because `update_shop` writes every field the request set,
nulls included. When such a `None` reaches arithmetic or a `<` comparison,
Python raises, and the handler answers 500. The model writes that as
`Err(Internal)`.

Each handler is one atomic `Store` method. It either fails with the store
untouched, or it makes all of its writes. The method's `modifies` clause names
exactly the collections it writes. The model passes these in as parameters:
generated ids, dates, timestamps, the password hash and verify functions, and
the outcome of the token check. The document store places a new document by
its generated id, so `CreateShop` takes that position as a parameter; appending
is the case `at == |shops|`.

The pure rules sit in their own modules. `Ledger` holds the commission charge
and the daily-report upsert. `ShopTable` holds first-match lookups and the
table edits. `Rounds` holds the current-round slot. `Backend` holds the store
and its handlers. `Walkthrough` is a client that runs two rounds at one shop
using the handlers' contracts and the billing rule they refer to.

Behaviours of the code that the model keeps, some of them against the
code's own comments:

- The code's fallback rate in `start_game` is 0.2. The comment next to it
  says 10%.
- No handler ever marks a round of `game_rounds` finished. `finish_round`
  only touches the current-round slot. `Store.Valid` therefore keeps every
  game round `Ongoing`, and every handler preserves it.
- A billing type other than `prepaid` or `postpaid` (a stored null included)
  is never refused and never charged.
- `save_game` on an unknown shop, and `finish_round` without a slot, raise a
  404 inside a `try` block that turns it into a 500.
- `get_shop_data` falls back to a 10% rate, while `start_game` charges 20% for
  the same shop (`Backend.ShownRateDiffersFromCharged`).
- `update_shop` stores a new password as sent, without hashing it.
- `update_shop` with a body that sets no field passes an empty update to the
  store's client, which refuses it with an exception that nothing catches,
  so the request answers 500.

## Model

| member | source | states |
|---|---|---|
| `ShopTable.FindShop` | routers/game_routes.py:52-56 | the shop query returns the first document whose `shop_id` matches, and returns none only when no document has that id |
| `ShopTable.FindAccount` | routers/shop_routes.py:36-42 | the login query returns the first document matching both the shop id and the username, and returns none only when no document matches both |
| `ShopTable.ApplyUpdate` | routers/shop_routes.py:171-188 | a partial update sets exactly the fields the request set, a sent null included, keeps every unset field, and never changes `shop_id` or `commission_rate` |
| `ShopTable.NewShopDoc` | routers/shop_routes.py:78-83 | a created shop stores the hash of the supplied password and always has a rate: the one sent, or 0.1 when none was sent |
| `ShopTable.UpdateKeepsLookups` | routers/shop_routes.py:185-188 | rewriting one shop document in place moves no lookup, and only the lookups that found that document now see the new one |
| `ShopTable.UpdateCompose` | routers/shop_routes.py:186-188 | two partial updates equal one update in which the later request's set fields win; repeating an update changes nothing |
| `ShopTable.InsertKeepsOthers` | routers/shop_routes.py:86 | adding a shop leaves every other shop id's lookup as it was |
| `ShopTable.InsertCount` | routers/shop_routes.py:86 | adding a shop adds one document to its own shop id and none to any other (duplicates are not refused) |
| `ShopTable.InsertFresh` | routers/shop_routes.py:86 | a shop added under an unused shop id is found by it, wherever the store files it |
| `ShopTable.InsertShadowed` | routers/shop_routes.py:86 | a duplicate filed anywhere after the document its shop id finds stays hidden: lookups by that id still find the older document |
| `ShopTable.InsertTakesOver` | routers/shop_routes.py:86 | a duplicate filed at or before the document its shop id finds takes the id over: every lookup by that id now finds the new document |
| `ShopTable.DeleteKeepsOthers` | routers/shop_routes.py:195-200 | deleting the first match of an id leaves every other id's lookup as it was |
| `ShopTable.DeleteExposesNext` | routers/shop_routes.py:195-200 | after the delete, the id finds its next duplicate, if any, and has exactly one document fewer |
| `ShopTable.CreateThenDelete` | routers/shop_routes.py:195-200 | creating a shop under a fresh id and then deleting that id restores the table exactly |
| `Ledger.ChargeCommission` | routers/game_routes.py:59-78 | commission = total_cards × bet_per_card × rate, with the stored rate or 0.2 when none; refusals are 400; a 500 arises only from a null rate, or a null balance on a prepaid shop |
| `Ledger.PrepaidRule` | routers/game_routes.py:67-78 | a prepaid shop (also the default) is accepted iff its balance covers the commission, and otherwise refused with 400; on acceptance the written balance is old balance − commission, which is ≥ 0 |
| `Ledger.PrepaidExactBalance` | routers/game_routes.py:72-77 | a balance exactly equal to the commission is accepted and leaves 0 |
| `Ledger.PostpaidRule` | routers/game_routes.py:67-71 | a postpaid shop is refused iff its balance reads as exactly 0 (a missing balance reads as 0); otherwise it is accepted, even when in debt, and no balance is written |
| `Ledger.OtherBillingRule` | routers/game_routes.py:67-78 | any other billing type is always accepted and never charged |
| `Ledger.Accumulate` | routers/game_routes.py:96-116 | the upsert creates a report with one play holding the round's bet and prize, or adds one play and the round's bet, prize, net cash and company share to the existing report's totals; it keeps the date and preserves net_cash = placed_bets − awarded and company_commission = 0.2 × net_cash |
| `Ledger.ReplayTotals` | routers/game_routes.py:99-114 | after n rounds on one date, the report counts n plays, holds the sums of bets and prizes, their difference as net cash, and 0.2 of that as company commission |
| `Ledger.TwoRounds` | routers/game_routes.py:99-114 | two rounds on one date give play_count 2 and each total summed over both rounds |
| `Ledger.RatesDiverge` | routers/game_routes.py:60-105 | on a round with nonzero bets and no prize, when the shop's rate is not 0.2, the commission charged to the balance differs from the company commission credited in the report |
| `Rounds.SaveSlot` | routers/game_routes.py:195-203 | saving makes the shop's slot hold exactly the saved record, creating or overwriting it, and leaves every other shop's slot as it was |
| `Rounds.FinishSlot` | routers/shop_routes.py:250-256 | finishing changes only the shop's own slot |
| `Rounds.FinishKeepsRound` | routers/shop_routes.py:256 | finishing sets the status to finished and leaves every other field of the slot unchanged |
| `Rounds.FinishIdempotent` | routers/shop_routes.py:250-257 | finishing twice is the same as finishing once |
| `Rounds.SaveOverwrites` | routers/game_routes.py:195-203 | two saves for one shop leave a single slot holding the second save |
| `Rounds.SaveAfterFinish` | routers/game_routes.py:190-203 | a finished slot becomes ongoing again at the next save |
| `Backend.Admit` | routers/game_routes.py:52-73 | a round is refused with 404 iff no shop has the id; otherwise it is admitted iff the billing rule accepts the first match, with that charge, and a refusal by the rule (400 or 500) is the outcome |
| `Backend.ShownRateDiffersFromCharged` | routers/shop_routes.py:209-213 | for a shop with no stored rate, the shop data shows 0.1 while a round is charged at 0.2 |
| `Backend.Store.StartGame` | routers/game_routes.py:45-124 | a refused start (404, 400 or 500) writes nothing. An accepted one writes the prepaid balance, an `ongoing` round under the round id with the applied rate and commission, and the upserted report for (shop, date). It writes no other collection and keeps `Valid` |
| `Backend.Store.AddToDailyReport` | routers/game_routes.py:95-116 | the report for (shop, date) becomes the accumulated one; all other reports are unchanged and stay consistent |
| `Backend.Store.RecordWining` | routers/game_routes.py:127-141 | files the entry under the new id without validation, and changes nothing else; a fresh id grows the log by one |
| `Backend.Store.SaveGame` | routers/game_routes.py:155-207 | on a known shop with a readable rate, sets the shop's slot to a fresh `ongoing` record carrying the request's rate, replacing any earlier slot. It never touches balances, rounds or reports. Otherwise it answers 500 and changes nothing |
| `Backend.Store.GetRound` | routers/shop_routes.py:232-241 | returns the shop's slot exactly when one exists, and that slot belongs to the shop |
| `Backend.Store.FinishRound` | routers/shop_routes.py:247-260 | with a slot, marks it finished and changes nothing else; without one, answers 500 and changes nothing |
| `Backend.Store.Login` | routers/shop_routes.py:33-65 | succeeds iff the first (shop id, username) match has a non-empty stored password that verifies; every refusal is 401; the token claims name the user, the shop and the operator role; the balance defaults to 0 |
| `Backend.Store.CreateShop` | routers/shop_routes.py:72-87 | with a valid token, adds exactly the new document even if the shop id exists, and answers with its rate; otherwise 401 and no change |
| `Backend.Store.UpdateShop` | routers/shop_routes.py:177-190 | applies exactly the set fields to the first match and nothing else; an unknown shop gives 404, and a request that sets no field gives 500, each with no change |
| `Backend.Store.UpdateCommission` | routers/shop_routes.py:266-287 | changes only `commission_rate` of the first match; 404 for an unknown shop, 401 for a bad token, each with no change |
| `Backend.Store.DeleteShop` | routers/shop_routes.py:193-201 | removes exactly the first match; 404 and no change when there is none |
| `Backend.Store.GetShopBalance` | routers/shop_routes.py:89-99 | the scan over all shops answers with the balance (default 0) of the same document the shop query finds, or 404 |
| `Backend.Store.GetShopData` | routers/shop_routes.py:203-213 | balance (default 0.0) and rate (default 0.1) of the first match, or 404 |
| `Backend.Store.MarkCommissionPaid` | routers/shop_routes.py:120-136 | an existing week record becomes paid, stamped with the time, and no other record changes; a missing one gives 404 and no change |

## Left out

- Floating point: balances, bets, prizes and rates are `real`. Float rounding, and the difference between `0` and `0.0` in a default, are not modelled.
- Concurrency and partial failure are not modelled. Each handler is one atomic step, so the lost update between the balance read and write in `start_game` does not appear. Neither does a crash between its balance, round and report writes.
- Failures of the document store itself are not modelled. They are the other route to the 500s of the `try` blocks.
- Request validation (malformed bodies rejected before a handler runs) is not modelled. Requests are well-typed values.
- `GET/POST /games` are left out. They sit on a router object that is replaced before the module ends, so they are never served.
- The listing endpoints `get_shops`, `get_shop_weekly_commissions`, `get_shop_games` and `get_shop_report` are left out. They are read-only projections of the collections.
- main.py (router wiring and CORS) and firebase_client.py (credential loading) are not part of this model.
- Password hashing and verification are function parameters. So is the token check, as a boolean. utils/token.py is not part of this model, so a failed token check is assumed to answer 401. A stored password that the hashing library cannot parse (one stored in clear text by `update_shop`) would make verification raise; the model's `verify` cannot raise.
- `Backend.Store.UpdateShop`: the store client's refusal of an empty update is written in as a 500. The client library itself is not part of this model.
- `Backend.WeeklyCommission`: only `payment_status` and `paid_at` are modelled, because no handler shown creates the other fields of a week record.
- models/winings.py and models/game.py are not part of this model. The types of the winnings entry's fields are assumed: string ids and a real prize.
- `selected_cards` of the start-game request is never written by `start_game`, so the model omits it. The commission that `save_game` computes is unused. It is modelled only through the way it can fail (a stored null rate).
- Response bodies are reduced to their status and the values the properties need. `save_game` returns no body.
