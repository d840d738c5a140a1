/** Game rounds: the `game_rounds` history written by `start_game`, the
    one-slot-per-shop `roundsPerShop` record written by `save_game` and
    `finish_round`, and the `winings` log. */
module Rounds {
  import opened Docs

  datatype Status = Ongoing | Finished

  /** `game_rounds/{round_id}`, written once by `start_game`. */
  datatype GameRound = GameRound(
    roundId: string,
    shopId: string,
    date: string,
    betPerCard: real,
    totalCards: int,
    prize: real,
    commissionRate: real,
    commissionAmount: real,
    winningPattern: Option<string>,
    status: Status,
    startedAt: Instant)

  /** `roundsPerShop/{shop_id}`: the shop's current round. Its commission
      rate is the one the request carried, not the shop's stored rate. */
  datatype CurrentRound = CurrentRound(
    shopId: string,
    roundId: string,
    betPerCard: real,
    prize: real,
    totalCards: int,
    selectedCards: seq<int>,
    interval: int,
    language: string,
    commissionRate: real,
    winningPattern: Option<string>,
    startedAt: string,
    status: Status)

  /** `winings/{wining_id}`. */
  datatype WiningEntry = WiningEntry(
    cardId: string,
    roundId: string,
    shopId: string,
    prize: real,
    timestamp: Instant)

  /** `save_game`'s write: the shop's slot is created or overwritten whole. */
  function SaveSlot(slots: map<string, CurrentRound>, slot: CurrentRound): (r: map<string, CurrentRound>)
    ensures r.Keys == slots.Keys + {slot.shopId}
    ensures r[slot.shopId] == slot
    ensures forall id :: id in slots && id != slot.shopId ==> r[id] == slots[id]
  {
    slots[slot.shopId := slot]
  }

  /** `finish_round`'s write on a shop that has a slot: only its status moves. */
  function FinishSlot(slots: map<string, CurrentRound>, id: string): (r: map<string, CurrentRound>)
    requires id in slots
    ensures r.Keys == slots.Keys
    ensures forall other :: other in slots && other != id ==> r[other] == slots[other]
  {
    slots[id := slots[id].(status := Finished)]
  }

  /** Finishing marks the slot finished and keeps every other field of it. */
  lemma FinishKeepsRound(slots: map<string, CurrentRound>, id: string)
    requires id in slots
    ensures FinishSlot(slots, id)[id].status == Finished
    ensures FinishSlot(slots, id)[id].(status := Ongoing) == slots[id].(status := Ongoing)
  {
  }

  /** Finishing twice is finishing once. */
  lemma FinishIdempotent(slots: map<string, CurrentRound>, id: string)
    requires id in slots
    ensures FinishSlot(FinishSlot(slots, id), id) == FinishSlot(slots, id)
  {
  }

  /** Saving twice for one shop leaves a single slot holding the second save. */
  lemma SaveOverwrites(slots: map<string, CurrentRound>, first: CurrentRound, second: CurrentRound)
    requires first.shopId == second.shopId
    ensures SaveSlot(SaveSlot(slots, first), second) == SaveSlot(slots, second)
  {
  }

  /** A finished slot is not terminal: the next save makes it ongoing again. */
  lemma SaveAfterFinish(slots: map<string, CurrentRound>, slot: CurrentRound)
    requires slot.shopId in slots && slot.status == Ongoing
    ensures SaveSlot(FinishSlot(slots, slot.shopId), slot)[slot.shopId].status == Ongoing
  {
  }
}
