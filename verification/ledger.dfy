/** The accounting rules of `POST /startgame`: the commission charged to a
    shop for one round, and the per-shop, per-day running totals. Money and
    rates are real numbers here, an abstraction of the handlers' floats. */
module Ledger {
  import opened Docs
  import opened ShopTable

  /** The rate `start_game` charges when the shop document stores none. */
  const DefaultChargeRate: real := 0.2

  /** The fixed company share of net cash in the daily report, whatever the
      shop's own rate. */
  const CompanyShare: real := 0.2

  /** An accepted charge: the rate applied, the commission, and the balance
      to write back (None when the handler writes no balance). */
  datatype Charge = Charge(rate: real, amount: real, newBalance: Option<real>)

  /** The billing rule of `start_game` on the shop document it found. A stored
      null rate or, for a prepaid shop, a stored null balance makes the
      arithmetic or the comparison raise, which surfaces as Internal. */
  function ChargeCommission(shop: ShopDoc, totalCards: int, betPerCard: real): (r: Result<Charge>)
    ensures r.Ok? ==> Get(shop.commissionRate, DefaultChargeRate) == Some(r.value.rate)
    ensures r.Ok? ==> r.value.amount == (totalCards as real * betPerCard) * r.value.rate
    ensures r.Err? ==> r.error == BadRequest || r.error == Internal
    ensures r.Err? && r.error == Internal ==>
              shop.commissionRate.Null? || (Get(shop.billingType, "prepaid") == Some("prepaid") && shop.balance.Null?)
  {
    match Get(shop.commissionRate, DefaultChargeRate)
    case None => Err(Internal)
    case Some(rate) =>
      var amount := (totalCards as real * betPerCard) * rate;
      var billing := Get(shop.billingType, "prepaid");
      var balance := Get(shop.balance, 0.0);
      if billing == Some("postpaid") && balance == Some(0.0) then Err(BadRequest)
      else if billing == Some("prepaid") then
        match balance
        case None => Err(Internal)
        case Some(b) => if b < amount then Err(BadRequest) else Ok(Charge(rate, amount, Some(b - amount)))
      else Ok(Charge(rate, amount, None))
  }

  /** A prepaid shop (the billing type when none is stored) with a readable
      rate and balance is charged exactly when its balance covers the
      commission; the charge is deducted and never leaves the balance negative. */
  lemma PrepaidRule(shop: ShopDoc, totalCards: int, betPerCard: real)
    requires Get(shop.billingType, "prepaid") == Some("prepaid")
    requires !shop.commissionRate.Null? && !shop.balance.Null?
    ensures var b := Get(shop.balance, 0.0).value;
            var rate := Get(shop.commissionRate, DefaultChargeRate).value;
            var r := ChargeCommission(shop, totalCards, betPerCard);
            && (r.Ok? <==> (totalCards as real * betPerCard) * rate <= b)
            && (r.Err? ==> r.error == BadRequest)
            && (r.Ok? ==> r.value.newBalance == Some(b - r.value.amount) && b - r.value.amount >= 0.0)
  {
    assert "prepaid"[1] != "postpaid"[1];
  }

  /** A balance exactly equal to the commission is accepted and left at zero. */
  lemma PrepaidExactBalance(shop: ShopDoc, totalCards: int, betPerCard: real)
    requires Get(shop.billingType, "prepaid") == Some("prepaid")
    requires shop.commissionRate.Val? && shop.balance.Val?
    requires shop.balance.value == (totalCards as real * betPerCard) * shop.commissionRate.value
    ensures ChargeCommission(shop, totalCards, betPerCard).Ok?
    ensures ChargeCommission(shop, totalCards, betPerCard).value.newBalance == Some(0.0)
  {
    PrepaidRule(shop, totalCards, betPerCard);
    var r := ChargeCommission(shop, totalCards, betPerCard);
    assert r.value.rate == shop.commissionRate.value;
    assert r.value.amount == shop.balance.value;
  }

  /** A postpaid shop is refused exactly when its balance reads as zero (a
      missing balance reads as zero); otherwise it is accepted, even when in
      debt, and its balance is not written. */
  lemma PostpaidRule(shop: ShopDoc, totalCards: int, betPerCard: real)
    requires shop.billingType == Val("postpaid") && !shop.commissionRate.Null?
    ensures var r := ChargeCommission(shop, totalCards, betPerCard);
            && (r.Err? <==> Get(shop.balance, 0.0) == Some(0.0))
            && (r.Err? ==> r.error == BadRequest)
            && (r.Ok? ==> r.value.newBalance == None)
  {
  }

  /** Any other billing type, a stored null included, is never refused and
      never charged against the balance. */
  lemma OtherBillingRule(shop: ShopDoc, totalCards: int, betPerCard: real)
    requires shop.billingType.Null? || (shop.billingType.Val? && shop.billingType.value != "prepaid" && shop.billingType.value != "postpaid")
    requires !shop.commissionRate.Null?
    ensures ChargeCommission(shop, totalCards, betPerCard).Ok?
    ensures ChargeCommission(shop, totalCards, betPerCard).value.newBalance == None
  {
  }

  // ---------------------------------------------------------------------------
  // Daily report

  /** `shop_reports/{shop_id}/daily_reports/{date}`. */
  datatype DailyReport = DailyReport(
    date: string,
    playCount: int,
    placedBets: real,
    awarded: real,
    netCash: real,
    companyCommission: real)

  /** The relations every report written by `start_game` keeps: net cash is
      bets minus awards, the company takes its fixed share of net cash, and a
      report exists only once a round has been played. */
  predicate Consistent(rep: DailyReport)
  {
    && rep.playCount >= 1
    && rep.netCash == rep.placedBets - rep.awarded
    && rep.companyCommission == rep.netCash * CompanyShare
  }

  /** The report after one more round on that date: an existing report has
      each running total increased; a missing one is created holding the
      round's own figures. */
  function Accumulate(prior: Option<DailyReport>, date: string, totalBet: real, prize: real): (r: DailyReport)
    ensures prior.None? ==> r.date == date && r.playCount == 1
    ensures prior.None? ==> r.placedBets == totalBet && r.awarded == prize
    ensures prior.Some? ==> r.date == prior.value.date && r.playCount == prior.value.playCount + 1
    ensures prior.Some? ==>
              && r.placedBets == prior.value.placedBets + totalBet
              && r.awarded == prior.value.awarded + prize
              && r.netCash == prior.value.netCash + (totalBet - prize)
              && r.companyCommission == prior.value.companyCommission + (totalBet - prize) * CompanyShare
    ensures (prior.None? || Consistent(prior.value)) ==> Consistent(r)
  {
    match prior
    case None =>
      DailyReport(date, 1, totalBet, prize, totalBet - prize, (totalBet - prize) * CompanyShare)
    case Some(p) =>
      DailyReport(p.date, p.playCount + 1, p.placedBets + totalBet, p.awarded + prize,
                  p.netCash + (totalBet - prize), p.companyCommission + (totalBet - prize) * CompanyShare)
  }

  /** One round's contribution to a daily report. */
  datatype Play = Play(totalBet: real, prize: real)

  /** The report after a run of rounds on one date, oldest first. */
  function Replay(prior: Option<DailyReport>, date: string, plays: seq<Play>): Option<DailyReport>
  {
    if |plays| == 0 then prior
    else
      var last := plays[|plays| - 1];
      Some(Accumulate(Replay(prior, date, plays[..|plays| - 1]), date, last.totalBet, last.prize))
  }

  function TotalBets(plays: seq<Play>): real
  {
    if |plays| == 0 then 0.0 else TotalBets(plays[..|plays| - 1]) + plays[|plays| - 1].totalBet
  }

  function TotalPrizes(plays: seq<Play>): real
  {
    if |plays| == 0 then 0.0 else TotalPrizes(plays[..|plays| - 1]) + plays[|plays| - 1].prize
  }

  /** A first round creates the report; every later round on the same date
      adds to it. After `n` rounds the report counts `n` plays and holds the
      sums of their bets and prizes, net cash their difference and the
      company's share of it. */
  lemma {:induction false} ReplayTotals(date: string, plays: seq<Play>)
    requires |plays| > 0
    ensures var bets, prizes := TotalBets(plays), TotalPrizes(plays);
      Replay(None, date, plays) ==
        Some(DailyReport(date, |plays|, bets, prizes, bets - prizes, (bets - prizes) * CompanyShare))
  {
    var init := plays[..|plays| - 1];
    if |init| > 0 {
      ReplayTotals(date, init);
    }
  }

  /** Two rounds on one date: two plays, and each total the sum of both rounds'. */
  lemma TwoRounds(date: string, bet1: real, prize1: real, bet2: real, prize2: real)
    ensures var rep := Accumulate(Some(Accumulate(None, date, bet1, prize1)), date, bet2, prize2);
      && rep.playCount == 2
      && rep.placedBets == bet1 + bet2
      && rep.awarded == prize1 + prize2
      && rep.netCash == (bet1 + bet2) - (prize1 + prize2)
      && rep.companyCommission == ((bet1 + bet2) - (prize1 + prize2)) * CompanyShare
  {
  }

  /** The shop's balance is charged at its own rate while the daily report
      always credits the company with the fixed share: for a shop whose rate
      is not the fixed share, the two disagree on any round with nonzero bets
      and no prize. */
  lemma RatesDiverge(shop: ShopDoc, totalCards: int, betPerCard: real)
    requires shop.commissionRate.Val? && shop.commissionRate.value != CompanyShare
    requires ChargeCommission(shop, totalCards, betPerCard).Ok?
    requires totalCards as real * betPerCard != 0.0
    ensures ChargeCommission(shop, totalCards, betPerCard).value.amount !=
            Accumulate(None, "", totalCards as real * betPerCard, 0.0).companyCommission
  {
    var bet := totalCards as real * betPerCard;
    var rate := shop.commissionRate.value;
    var diff := rate - CompanyShare;
    assert bet * rate - bet * CompanyShare == bet * diff;
    assert bet * diff != 0.0;
  }
}
