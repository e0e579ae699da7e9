/** Fees, splits and commissions in whole FCFA (api/src/common/utils/finance.utils.ts). */
module Finance {

  /** `Math.round` over exact rationals: the nearest integer, ties towards +infinity. */
  function Round(x: real): int {
    (x + 0.5).Floor
  }

  lemma Fraction(e: real, d: real, r: real)
    requires d > 0.0 && e * d == r && 0.0 <= r < d
    ensures 0.0 <= e < 1.0
  {
    assert e < 0.0 ==> e * d < 0.0;
    assert (e - 1.0) * d < 0.0;
  }

  lemma FloorRatio(n: int, d: int)
    requires d > 0
    ensures (n as real / d as real).Floor == n / d
  {
    var x, q, r := n as real / d as real, n / d, n % d;
    assert n as real == (q * d + r) as real == q as real * d as real + r as real;
    assert x * d as real == n as real;
    assert (x - q as real) * d as real == x * d as real - q as real * d as real;
    Fraction(x - q as real, d as real, r as real);
  }

  lemma HalfMore(n: real, d: real)
    requires d > 0.0
    ensures n / d + 0.5 == (2.0 * n + d) / (2.0 * d)
  {
    var x, y := n / d, (2.0 * n + d) / (2.0 * d);
    assert (x + 0.5) * (2.0 * d) == 2.0 * (x * d) + d;
    Cancel(x + 0.5, y, 2.0 * d);
  }

  lemma Cancel(x: real, y: real, d: real)
    requires d > 0.0 && x * d == y * d
    ensures x == y
  {
    assert (x - y) * d == 0.0;
  }

  /** Rounding n/d is integer division. */
  lemma RoundRatio(n: int, d: int)
    requires d > 0
    ensures Round(n as real / d as real) == (2 * n + d) / (2 * d)
  {
    HalfMore(n as real, d as real);
    FloorRatio(2 * n + d, 2 * d);
  }

  datatype Fee = Fee(baseCost: int, commission: int, totalWithFee: int)

  function ComputePlatformFee(baseCost: int): Fee {
    var commission := Round(baseCost as real * 0.05);
    Fee(baseCost, commission, baseCost + commission)
  }

  datatype Split = Split(ownerCredit: int, commission: int)

  function SplitPayment(totalPaid: int): Split {
    var commission := Round(totalPaid as real * 0.05 / 1.05);
    Split(totalPaid - commission, commission)
  }

  function WithdrawalFee(amount: int): int {
    Round(amount as real * 0.01)
  }

  /** 1% of the booking price is kept on a refund. */
  function RefundAmount(total: int): int {
    Round(total as real * 0.99)
  }

  lemma FeeIsRatio(n: int)
    ensures ComputePlatformFee(n).commission == (2 * n + 20) / 40
  {
    RoundRatio(n, 20);
    assert n as real * 0.05 == n as real / 20 as real;
  }

  lemma SplitIsRatio(t: int)
    ensures SplitPayment(t).commission == (2 * t + 21) / 42
  {
    RoundRatio(t, 21);
    assert t as real * 0.05 / 1.05 == t as real / 21 as real;
  }

  /** 1% of a withdrawal, and 99% of a refunded price, rounded with halves up. */
  lemma WithdrawalIsRatio(n: int)
    ensures WithdrawalFee(n) == (2 * n + 100) / 200
    ensures RefundAmount(n) == (198 * n + 100) / 200
  {
    RoundRatio(n, 100);
    RoundRatio(99 * n, 100);
    assert n as real * 0.01 == n as real / 100 as real;
    assert n as real * 0.99 == (99 * n) as real / 100 as real;
  }

  /** Splitting a total priced by ComputePlatformFee gives back the base cost and the same commission. */
  lemma SplitUndoesFee(n: int)
    ensures SplitPayment(ComputePlatformFee(n).totalWithFee) == Split(n, ComputePlatformFee(n).commission)
  {
    FeeIsRatio(n);
    SplitIsRatio(ComputePlatformFee(n).totalWithFee);
  }

  /** Pricing the owner credit of a total again gives the total, except one more exactly when t mod 21 is 10. */
  lemma FeeUndoesSplit(t: int)
    ensures ComputePlatformFee(SplitPayment(t).ownerCredit).totalWithFee == if t % 21 == 10 then t + 1 else t
  {
    SplitIsRatio(t);
    var credit := SplitPayment(t).ownerCredit;
    FeeIsRatio(credit);
    var q, r := t / 21, t % 21;
    assert t == 21 * q + r;
    assert credit == if r <= 10 then 20 * q + r else 20 * q + r - 1;
  }

  datatype NetRevenue = NetRevenue(gross: int, ingress: int, egress: int, net: int)

  function ComputeNetRevenue(principal: int): NetRevenue {
    var gross := Round(principal as real * 0.05);
    var ingress := Round(principal as real * 0.015);
    var egress := Round(principal as real * 0.01);
    NetRevenue(gross, ingress, egress, gross - ingress - egress)
  }

  lemma NetIsRatios(n: int)
    ensures ComputeNetRevenue(n).net == (2 * n + 20) / 40 - (6 * n + 200) / 400 - (2 * n + 100) / 200
  {
    RoundRatio(n, 20);
    RoundRatio(3 * n, 200);
    RoundRatio(n, 100);
    assert n as real * 0.05 == n as real / 20 as real;
    assert n as real * 0.015 == (3 * n) as real / 200 as real;
    assert n as real * 0.01 == n as real / 100 as real;
  }

  /** Net revenue of a principal is never negative, and is zero exactly below 10 FCFA. */
  lemma NetRevenueSign(n: nat)
    ensures ComputeNetRevenue(n).net >= 0
    ensures ComputeNetRevenue(n).net == 0 <==> n < 10
  {
    NetIsRatios(n);
  }

  datatype Grid = Grid(n1Percent: real, n2Percent: real, durationMonths: nat)

  const CLIENT_TO_CLIENT := Grid(0.05, 0.02, 12)
  const AMBASSADOR_TO_CLIENT := Grid(0.07, 0.02, 24)
  const AMBASSADOR_TO_PRO := Grid(0.10, 0.03, 36)

  function GetSponsorshipGrid(sponsorIsAmbassador: bool, refereeRole: string): Grid {
    if sponsorIsAmbassador then
      if refereeRole == "client" then AMBASSADOR_TO_CLIENT else AMBASSADOR_TO_PRO
    else
      CLIENT_TO_CLIENT
  }

  function Share(netRevenue: int, rate: real): real {
    netRevenue as real * rate
  }

  function Commission(netRevenue: int, rate: real): int {
    Round(Share(netRevenue, rate))
  }

  /** Whatever pair of standard grids applies, both levels together never pay out more than the net revenue. */
  lemma StandardCommissionsCovered(net: nat, ambassador1: bool, role1: string, ambassador2: bool, role2: string)
    ensures
      var n1 := Commission(net, GetSponsorshipGrid(ambassador1, role1).n1Percent);
      var n2 := Commission(net, GetSponsorshipGrid(ambassador2, role2).n2Percent);
      0 <= n1 && 0 <= n2 && n1 + n2 <= net
  {
    var r1 := GetSponsorshipGrid(ambassador1, role1).n1Percent;
    var r2 := GetSponsorshipGrid(ambassador2, role2).n2Percent;
    var x := net as real;
    assert 0.0 <= x * r1 <= x * 0.10;
    assert 0.0 <= x * r2 <= x * 0.03;
  }

  /** Two shares of a whole number, each rounded on its own. */
  lemma RoundedShares(x1: real, x2: real, whole: int)
    requires x1 + x2 <= whole as real
    ensures Round(x1) + Round(x2) <= whole + 1
    ensures Round(x1) + Round(x2) > whole <==> x1 + x2 == whole as real && x1 - x1.Floor as real == 0.5
  {
    var a, b := Round(x1), Round(x2);
    assert x1 - 0.5 < a as real <= x1 + 0.5;
    assert x2 - 0.5 < b as real <= x2 + 0.5;
    if a + b > whole {
      assert a as real + b as real >= whole as real + 1.0;
      assert a as real == x1 + 0.5;
    }
    if x1 + x2 == whole as real && x1 - x1.Floor as real == 0.5 {
      assert a == x1.Floor + 1;
      assert x2 + 0.5 == (whole - x1.Floor) as real;
    }
  }

  lemma SharesWithinWhole(net: nat, r1: real, r2: real)
    requires 0.0 <= r1 && 0.0 <= r2 && r1 + r2 <= 1.0
    ensures Share(net, r1) + Share(net, r2) <= net as real
  {
    var x := net as real;
    assert x * r1 + x * r2 == x * (r1 + r2);
  }

  lemma CommissionNotNegative(net: nat, rate: real)
    requires 0.0 <= rate
    ensures Commission(net, rate) >= 0
  {
    assert net as real * rate >= 0.0;
  }

  /** Custom rates that sum to at most 100% pay out at most one franc too much, and do so exactly when the two
      shares are halves of a franc that together make up the whole net revenue. */
  lemma CustomCommissionsBound(net: nat, r1: real, r2: real)
    requires 0.0 <= r1 && 0.0 <= r2 && r1 + r2 <= 1.0
    ensures Commission(net, r1) + Commission(net, r2) <= net + 1
    ensures
      var x1, x2 := Share(net, r1), Share(net, r2);
      Commission(net, r1) + Commission(net, r2) > net <==> x1 + x2 == net as real && x1 - x1.Floor as real == 0.5
  {
    SharesWithinWhole(net, r1, r2);
    RoundedShares(Share(net, r1), Share(net, r2), net);
  }

  /** At any rates the two commissions are what the shares come to, give or take a franc: shares that exceed the net
      revenue by a franc always overpay, and no rates up to 100% each pay more than twice the net revenue. */
  lemma CommissionsAtAnyRates(net: nat, r1: real, r2: real)
    requires 0.0 <= r1 && 0.0 <= r2
    ensures
      var shares, paid := Share(net, r1) + Share(net, r2), Commission(net, r1) + Commission(net, r2);
      && shares - 1.0 < paid as real <= shares + 1.0
      && (shares >= net as real + 1.0 ==> paid > net)
      && (r1 <= 1.0 && r2 <= 1.0 ==> paid <= 2 * net)
  {
    var a, b := Commission(net, r1), Commission(net, r2);
    assert Share(net, r1) - 0.5 < a as real <= Share(net, r1) + 0.5;
    assert Share(net, r2) - 0.5 < b as real <= Share(net, r2) + 0.5;
    if r1 <= 1.0 && r2 <= 1.0 {
      WithinNet(net, r1);
      WithinNet(net, r2);
    }
  }

  lemma WithinNet(net: nat, rate: real)
    requires 0.0 <= rate <= 1.0
    ensures Commission(net, rate) <= net
  {
    assert net as real * rate <= net as real * 1.0;
  }

  /** The settings admit 100% for both levels: of the 25 francs left of a sale of 1000 they pay 50. */
  lemma WholeTwicePaysDouble()
    ensures ComputeNetRevenue(1000).net == 25 && Commission(25, 1.0) + Commission(25, 1.0) == 50
  {
  }

  /** Half and half of the 5 francs left of a sale of 200 come to 6. */
  lemma HalvesPayTooMuch()
    ensures ComputeNetRevenue(200).net == 5 && Commission(5, 0.5) + Commission(5, 0.5) == 6
  {
  }
}
