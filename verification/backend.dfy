/** The request handlers of routers/game_routes.py and routers/shop_routes.py
    as methods of one in-memory document store. Each handler is one atomic
    step: it either fails and leaves the store as it was, or makes all of its
    writes. Generated ids, dates and timestamps, password hashing and token
    checks come in as parameters. */
module Backend {
  import opened Docs
  import opened ShopTable
  import opened Ledger
  import opened Rounds

  /** The body of `POST /startgame`. */
  datatype StartGameRequest = StartGameRequest(
    shopId: string,
    betPerCard: real,
    prize: real,
    totalCards: int,
    winningPattern: Option<string>)

  /** What `start_game` reports back on success. */
  datatype Started = Started(roundId: string, commissionRate: real, commissionAmount: real)

  /** The body of `POST /savegame`. */
  datatype SaveGameRequest = SaveGameRequest(
    shopId: string,
    betPerCard: real,
    prize: real,
    totalCards: int,
    selectedCards: seq<int>,
    interval: int,
    language: string,
    commissionRate: real,
    winningPattern: Option<string>)

  /** `shop_commissions/{shop_id}/weekly_commissions/{week_id}`: the two
      fields a handler writes. */
  datatype WeeklyCommission = WeeklyCommission(paymentStatus: Field<string>, paidAt: Field<Instant>)

  /** The claims of the access token `login` issues. */
  datatype Claims = Claims(sub: string, shopId: string, role: string)

  datatype LoginInfo = LoginInfo(claims: Claims, balance: Option<real>)

  /** What `get_shop_data` shows of a shop. */
  datatype ShopData = ShopData(balance: Option<real>, commissionRate: Option<real>)

  const OperatorRole: string := "Shop Operator"

  /** The shop lookup and the billing rule that decide whether a round may start. */
  function Admit(shops: seq<ShopDoc>, req: StartGameRequest): (r: Result<(nat, Charge)>)
    ensures r.Ok? ==> FindShop(shops, req.shopId) == Some(r.value.0)
    ensures r.Ok? ==> ChargeCommission(shops[r.value.0], req.totalCards, req.betPerCard) == Ok(r.value.1)
    ensures (r.Err? && r.error == NotFound) <==> FindShop(shops, req.shopId).None?
    ensures FindShop(shops, req.shopId).Some? ==>
              var c := ChargeCommission(shops[FindShop(shops, req.shopId).value], req.totalCards, req.betPerCard);
              (r.Ok? <==> c.Ok?) && (c.Err? ==> r == Err(c.error))
  {
    match FindShop(shops, req.shopId)
    case None => Err(NotFound)
    case Some(i) =>
      match ChargeCommission(shops[i], req.totalCards, req.betPerCard)
      case Err(e) => Err(e)
      case Ok(c) => Ok((i, c))
  }

  /** The round document `start_game` writes. */
  function NewRound(req: StartGameRequest, roundId: string, today: string, c: Charge, now: Instant): GameRound
  {
    GameRound(roundId, req.shopId, today, req.betPerCard, req.totalCards, req.prize,
              c.rate, c.amount, req.winningPattern, Ongoing, now)
  }

  /** The slot document `save_game` writes. */
  function NewSlot(req: SaveGameRequest, roundId: string, nowIso: string): CurrentRound
  {
    CurrentRound(req.shopId, roundId, req.betPerCard, req.prize, req.totalCards, req.selectedCards,
                 req.interval, req.language, req.commissionRate, req.winningPattern, nowIso, Ongoing)
  }

  /** `login` accepts a stored password only when it is present, non-empty
      and verifies against the one supplied. */
  predicate PasswordAccepted(stored: Field<string>, plain: string, verify: (string, string) -> bool)
  {
    stored.Val? && stored.value != "" && verify(plain, stored.value)
  }

  function ShopDataOf(d: ShopDoc): ShopData
  {
    ShopData(Get(d.balance, 0.0), Get(d.commissionRate, 0.1))
  }

  /** For a shop document without a stored rate, `get_shop_data` shows a 10%
      rate while `start_game` charges 20%. */
  lemma ShownRateDiffersFromCharged(d: ShopDoc, totalCards: int, betPerCard: real)
    requires d.commissionRate.Absent?
    ensures ChargeCommission(d, totalCards, betPerCard).Ok? ==>
              ChargeCommission(d, totalCards, betPerCard).value.rate == 0.2
    ensures ShopDataOf(d).commissionRate == Some(0.1)
  {
  }

  class Store {
    var shops: seq<ShopDoc>
    var gameRounds: map<string, GameRound>
    var dailyReports: map<(string, string), DailyReport>
    var roundsPerShop: map<string, CurrentRound>
    var weeklyCommissions: map<(string, string), WeeklyCommission>
    var winings: map<string, WiningEntry>

    /** What the handlers keep true of the store: every round is filed under
        its own id and is still ongoing (no handler finishes a round of the
        history), every daily report is filed under its own date and is
        consistent, and every current-round slot is filed under its shop. */
    ghost predicate Valid()
      reads this
    {
      RoundsValid() && ReportsValid() && SlotsValid()
    }

    ghost predicate RoundsValid()
      reads this
    {
      forall id :: id in gameRounds ==> gameRounds[id].roundId == id && gameRounds[id].status == Ongoing
    }

    ghost predicate ReportsValid()
      reads this
    {
      forall key :: key in dailyReports ==> dailyReports[key].date == key.1 && Consistent(dailyReports[key])
    }

    ghost predicate SlotsValid()
      reads this
    {
      forall id :: id in roundsPerShop ==> roundsPerShop[id].shopId == id
    }

    constructor ()
      ensures Valid()
      ensures shops == [] && gameRounds == map[] && dailyReports == map[]
      ensures roundsPerShop == map[] && weeklyCommissions == map[] && winings == map[]
    {
      shops := [];
      gameRounds := map[];
      dailyReports := map[];
      roundsPerShop := map[];
      weeklyCommissions := map[];
      winings := map[];
    }

    // -------------------------------------------------------------------------
    // routers/game_routes.py

    /** `POST /startgame`: charge the shop, record the round as ongoing and
        add it to the shop's report for the day. An unknown shop or a refused
        charge writes nothing. */
    method StartGame(req: StartGameRequest, roundId: string, today: string, now: Instant) returns (r: Result<Started>)
      modifies this`shops, this`gameRounds, this`dailyReports
      ensures old(Valid()) ==> Valid()
      ensures var admitted := Admit(old(shops), req);
        admitted.Err? ==> r == Err(admitted.error) && unchanged(this)
      ensures var admitted := Admit(old(shops), req);
        admitted.Ok? ==>
          var i, c := admitted.value.0, admitted.value.1;
          var key := (req.shopId, today);
          && r == Ok(Started(roundId, c.rate, c.amount))
          && shops == (if c.newBalance.Some? then old(shops)[i := old(shops)[i].(balance := Val(c.newBalance.value))]
                       else old(shops))
          && gameRounds == old(gameRounds)[roundId := NewRound(req, roundId, today, c, now)]
          && dailyReports == old(dailyReports)[key :=
               Accumulate(At(old(dailyReports), key), today, req.totalCards as real * req.betPerCard, req.prize)]
    {
      var found := FindShop(shops, req.shopId);
      if found.None? {
        return Err(NotFound);
      }
      var i := found.value;
      var charge := ChargeCommission(shops[i], req.totalCards, req.betPerCard);
      if charge.Err? {
        return Err(charge.error);
      }
      var c := charge.value;
      if c.newBalance.Some? {
        shops := shops[i := shops[i].(balance := Val(c.newBalance.value))];
      }
      gameRounds := gameRounds[roundId := NewRound(req, roundId, today, c, now)];

      AddToDailyReport(req.shopId, today, req.totalCards as real * req.betPerCard, req.prize);
      r := Ok(Started(roundId, c.rate, c.amount));
    }

    /** The daily-report upsert of `start_game`: bump each running total of
        the shop's report for the day, or create the report from this round. */
    method AddToDailyReport(shopId: string, today: string, totalBet: real, prize: real)
      modifies this`dailyReports
      ensures old(ReportsValid()) ==> ReportsValid()
      ensures dailyReports == old(dailyReports)[(shopId, today) :=
                Accumulate(At(old(dailyReports), (shopId, today)), today, totalBet, prize)]
    {
      var key := (shopId, today);
      var report: DailyReport;
      if key in dailyReports {
        report := dailyReports[key];
        report := report.(playCount := report.playCount + 1);
        report := report.(placedBets := report.placedBets + totalBet);
        report := report.(awarded := report.awarded + prize);
        report := report.(netCash := report.netCash + (totalBet - prize));
        report := report.(companyCommission := report.companyCommission + (totalBet - prize) * CompanyShare);
      } else {
        report := DailyReport(today, 1, totalBet, prize, totalBet - prize, (totalBet - prize) * CompanyShare);
      }
      dailyReports := dailyReports[key := report];
    }

    /** `POST /winings`: file the entry under the generated id, unchecked. */
    method RecordWining(cardId: string, roundId: string, shopId: string, prize: real, winingId: string, now: Instant)
      returns (id: string)
      modifies this`winings
      ensures id == winingId
      ensures winings == old(winings)[winingId := WiningEntry(cardId, roundId, shopId, prize, now)]
      ensures winingId !in old(winings) ==> |winings| == |old(winings)| + 1
    {
      winings := winings[winingId := WiningEntry(cardId, roundId, shopId, prize, now)];
      id := winingId;
    }

    /** `POST /savegame`: overwrite the shop's current-round slot with an
        ongoing round carrying the request's own rate. It charges nothing,
        records no round history and no report. The handler turns every
        failure into a 500, the unknown shop included; a stored null rate
        fails too, when the unused commission is computed. */
    method SaveGame(req: SaveGameRequest, roundId: string, nowIso: string) returns (r: Result<()>)
      modifies this`roundsPerShop
      ensures old(Valid()) ==> Valid()
      ensures var found := FindShop(shops, req.shopId);
        r.Ok? <==> found.Some? && !shops[found.value].commissionRate.Null?
      ensures r.Err? ==> r.error == Internal && roundsPerShop == old(roundsPerShop)
      ensures r.Ok? ==> roundsPerShop == SaveSlot(old(roundsPerShop), NewSlot(req, roundId, nowIso))
    {
      var found := FindShop(shops, req.shopId);
      if found.None? {
        return Err(Internal);
      }
      var rate := Get(shops[found.value].commissionRate, DefaultChargeRate);
      if rate.None? {
        return Err(Internal);
      }
      roundsPerShop := roundsPerShop[req.shopId := NewSlot(req, roundId, nowIso)];
      r := Ok(());
    }

    // -------------------------------------------------------------------------
    // routers/shop_routes.py: current round

    /** `GET /round/{shop_id}`. */
    method GetRound(shopId: string) returns (r: Option<CurrentRound>)
      ensures r.Some? <==> shopId in roundsPerShop
      ensures r.Some? ==> r.value == roundsPerShop[shopId]
      ensures Valid() && r.Some? ==> r.value.shopId == shopId
    {
      if shopId in roundsPerShop {
        r := Some(roundsPerShop[shopId]);
      } else {
        r := None;
      }
    }

    /** `POST /finishround/{shop_id}`: mark the shop's slot finished. A
        missing slot raises 404 inside the handler's try block, which turns it
        into a 500. */
    method FinishRound(shopId: string) returns (r: Result<()>)
      modifies this`roundsPerShop
      ensures old(Valid()) ==> Valid()
      ensures shopId !in old(roundsPerShop) ==> r == Err(Internal) && roundsPerShop == old(roundsPerShop)
      ensures shopId in old(roundsPerShop) ==> r == Ok(()) && roundsPerShop == FinishSlot(old(roundsPerShop), shopId)
    {
      if shopId !in roundsPerShop {
        return Err(Internal);
      }
      roundsPerShop := roundsPerShop[shopId := roundsPerShop[shopId].(status := Finished)];
      r := Ok(());
    }

    // -------------------------------------------------------------------------
    // routers/shop_routes.py: accounts

    /** `POST /loginshop`: the first account with that shop id and username,
        if its stored password verifies. Every refusal is a 401. */
    method Login(shopId: string, username: string, password: string, verify: (string, string) -> bool)
      returns (r: Result<LoginInfo>)
      ensures var found := FindAccount(shops, shopId, username);
        r.Ok? <==> found.Some? && PasswordAccepted(shops[found.value].password, password, verify)
      ensures r.Err? ==> r.error == Unauthorized
      ensures r.Ok? ==> r.value.claims == Claims(username, shopId, OperatorRole)
      ensures r.Ok? ==> r.value.balance == Get(shops[FindAccount(shops, shopId, username).value].balance, 0.0)
    {
      var found := FindAccount(shops, shopId, username);
      if found.None? {
        return Err(Unauthorized);
      }
      var account := shops[found.value];
      if !PasswordAccepted(account.password, password, verify) {
        return Err(Unauthorized);
      }
      var claims := Claims(account.username.value, account.shopId, OperatorRole);
      r := Ok(LoginInfo(claims, Get(account.balance, 0.0)));
    }

    /** `POST /shops`: add a shop document with the password hashed and a
        default rate, without checking whether the shop id is taken. The
        store files it at position `at` of its document order. */
    method CreateShop(shop: Shop, tokenValid: bool, hash: string -> string, at: nat) returns (r: Result<real>)
      requires at <= |shops|
      modifies this`shops
      ensures !tokenValid ==> r == Err(Unauthorized) && shops == old(shops)
      ensures tokenValid ==> r == Ok(NewShopDoc(shop, hash).commissionRate.value)
      ensures tokenValid ==> shops == InsertAt(old(shops), at, NewShopDoc(shop, hash))
    {
      if !tokenValid {
        return Err(Unauthorized);
      }
      var doc := NewShopDoc(shop, hash);
      shops := shops[..at] + [doc] + shops[at..];
      r := Ok(doc.commissionRate.value);
    }

    /** `PUT /shops/{shop_id}`: apply the fields the request set to the
        first matching shop. The password is stored as sent. The store's
        client refuses an update with no field, and nothing catches that,
        so a request that sets no field answers Internal. */
    method UpdateShop(shopId: string, upd: ShopUpdate) returns (r: Result<()>)
      modifies this`shops
      ensures FindShop(old(shops), shopId).None? ==> r == Err(NotFound) && shops == old(shops)
      ensures FindShop(old(shops), shopId).Some? && SetsNothing(upd) ==> r == Err(Internal) && shops == old(shops)
      ensures FindShop(old(shops), shopId).Some? && !SetsNothing(upd) ==>
        var i := FindShop(old(shops), shopId).value;
        r == Ok(()) && shops == old(shops)[i := ApplyUpdate(old(shops)[i], upd)]
    {
      var found := FindShop(shops, shopId);
      if found.None? {
        return Err(NotFound);
      }
      if SetsNothing(upd) {
        return Err(Internal);
      }
      var i := found.value;
      shops := shops[i := ApplyUpdate(shops[i], upd)];
      r := Ok(());
    }

    /** `PUT /shops/{shop_id}/commission`: set the first matching shop's rate. */
    method UpdateCommission(shopId: string, rate: real, tokenValid: bool) returns (r: Result<()>)
      modifies this`shops
      ensures !tokenValid ==> r == Err(Unauthorized) && shops == old(shops)
      ensures tokenValid && FindShop(old(shops), shopId).None? ==> r == Err(NotFound) && shops == old(shops)
      ensures tokenValid && FindShop(old(shops), shopId).Some? ==>
        var i := FindShop(old(shops), shopId).value;
        r == Ok(()) && shops == old(shops)[i := old(shops)[i].(commissionRate := Val(rate))]
    {
      if !tokenValid {
        return Err(Unauthorized);
      }
      var found := FindShop(shops, shopId);
      if found.None? {
        return Err(NotFound);
      }
      var i := found.value;
      shops := shops[i := shops[i].(commissionRate := Val(rate))];
      r := Ok(());
    }

    /** `DELETE /shops/{shop_id}`: remove the first matching shop only. */
    method DeleteShop(shopId: string) returns (r: Result<()>)
      modifies this`shops
      ensures FindShop(old(shops), shopId).None? ==> r == Err(NotFound) && shops == old(shops)
      ensures FindShop(old(shops), shopId).Some? ==>
        r == Ok(()) && shops == RemoveAt(old(shops), FindShop(old(shops), shopId).value)
    {
      var found := FindShop(shops, shopId);
      if found.None? {
        return Err(NotFound);
      }
      var i := found.value;
      shops := shops[..i] + shops[i + 1..];
      r := Ok(());
    }

    /** `GET /balance/{shop_id}`: scan every shop document in order and
        answer with the balance of the first one with that shop id. */
    method GetShopBalance(shopId: string) returns (r: Result<Option<real>>)
      ensures FindShop(shops, shopId).None? ==> r == Err(NotFound)
      ensures FindShop(shops, shopId).Some? ==> r == Ok(Get(shops[FindShop(shops, shopId).value].balance, 0.0))
    {
      var k := 0;
      while k < |shops|
        invariant 0 <= k <= |shops|
        invariant forall j :: 0 <= j < k ==> shops[j].shopId != shopId
      {
        if shops[k].shopId == shopId {
          return Ok(Get(shops[k].balance, 0.0));
        }
        k := k + 1;
      }
      r := Err(NotFound);
    }

    /** `GET /shop/{shop_id}`: balance and rate of the first matching shop,
        each read with its own default. */
    method GetShopData(shopId: string) returns (r: Result<ShopData>)
      ensures FindShop(shops, shopId).None? ==> r == Err(NotFound)
      ensures FindShop(shops, shopId).Some? ==> r == Ok(ShopDataOf(shops[FindShop(shops, shopId).value]))
    {
      var found := FindShop(shops, shopId);
      if found.None? {
        return Err(NotFound);
      }
      var d := shops[found.value];
      r := Ok(ShopData(Get(d.balance, 0.0), Get(d.commissionRate, 0.1)));
    }

    // -------------------------------------------------------------------------
    // routers/shop_routes.py: weekly commissions

    /** `POST /shop_commissions/{shop_id}/pay/{week_id}`: mark an existing
        week record paid and stamp it. */
    method MarkCommissionPaid(shopId: string, weekId: string, now: Instant) returns (r: Result<()>)
      modifies this`weeklyCommissions
      ensures (shopId, weekId) !in old(weeklyCommissions) ==>
                r == Err(NotFound) && weeklyCommissions == old(weeklyCommissions)
      ensures (shopId, weekId) in old(weeklyCommissions) ==>
                && r == Ok(())
                && weeklyCommissions == old(weeklyCommissions)[(shopId, weekId) := WeeklyCommission(Val("paid"), Val(now))]
    {
      var key := (shopId, weekId);
      if key !in weeklyCommissions {
        return Err(NotFound);
      }
      weeklyCommissions := weeklyCommissions[key := weeklyCommissions[key].(paymentStatus := Val("paid"), paidAt := Val(now))];
      r := Ok(());
    }
  }
}

/** A day at one shop, written against the handlers' contracts and the
    billing rule they refer to: a
    prepaid shop with 100 in credit and a 20% rate starts two rounds of ten
    cards at 5 each. Each round costs 10 and the day's report counts both. */
module Walkthrough {
  import opened Docs
  import opened ShopTable
  import opened Ledger
  import opened Rounds
  import opened Backend

  method TwoRoundsAtOneShop(hash: string -> string)
  {
    var store := new Store();
    var shop := Shop("S1", "op", "pw", 100.0, "prepaid", Some(0.2));
    var created := store.CreateShop(shop, true, hash, 0);
    var doc := NewShopDoc(shop, hash);
    assert store.shops == [doc];
    var req := StartGameRequest("S1", 5.0, 0.0, 10, None);

    assert Admit([doc], req) == Ok((0, Charge(0.2, 10.0, Some(90.0))));
    var first := store.StartGame(req, "r1", "d", 0);
    assert first == Ok(Started("r1", 0.2, 10.0));
    var charged := doc.(balance := Val(90.0));
    assert store.shops == [charged];

    assert Admit([charged], req) == Ok((0, Charge(0.2, 10.0, Some(80.0))));
    var second := store.StartGame(req, "r2", "d", 1);
    assert store.shops[0].balance == Val(80.0);
    assert store.dailyReports[("S1", "d")].playCount == 2;
    assert store.dailyReports[("S1", "d")].placedBets == 100.0;

    var finished := store.FinishRound("S1");
    assert finished == Err(Internal);
  }
}
