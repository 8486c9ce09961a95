/**
  The payment page: it shows the plan's fee for the billing cycle, a yearly
  saving when there is one, three payment methods, and a Pay button that
  runs a simulated two-second payment and then always reports success.
 */
module PaymentPage {
  import opened Wrappers
  import PriceParsing

  /** The plan handed in by the caller; fees are display strings such as "₹2,999". */
  datatype Plan = Plan(name: string, classRange: string, monthlyFee: string, annualFee: string, color: string)

  datatype BillingCycle = Monthly | Yearly

  /** `getAmount`: the fee string shown for the cycle. */
  function GetAmount(plan: Plan, cycle: BillingCycle): (fee: string)
    ensures cycle == Yearly ==> fee == plan.annualFee
    ensures cycle == Monthly ==> fee == plan.monthlyFee
  {
    if cycle == Yearly then plan.annualFee else plan.monthlyFee
  }

  /**
    `calculateSavings`: zero for monthly billing; for yearly billing twelve
    monthly fees minus the annual fee, or `None` (NaN) when either fee does
    not parse.
   */
  function CalculateSavings(plan: Plan, cycle: BillingCycle): (r: Option<int>)
    ensures cycle == Monthly ==> r == Some(0)
    ensures cycle == Yearly ==>
              (r.Some? <==> PriceParsing.ParseFee(plan.monthlyFee).Some? && PriceParsing.ParseFee(plan.annualFee).Some?)
    ensures cycle == Yearly && r.Some? ==>
              r.value == 12 * PriceParsing.ParseFee(plan.monthlyFee).value - PriceParsing.ParseFee(plan.annualFee).value
  {
    if cycle == Yearly then
      match (PriceParsing.ParseFee(plan.monthlyFee), PriceParsing.ParseFee(plan.annualFee))
      case (Some(monthly), Some(yearly)) => Some(monthly * 12 - yearly)
      case _ => None
    else Some(0)
  }

  /** The "You save" notice is rendered when the saving is a number above zero (`NaN > 0` is false). */
  predicate ShowsSavings(plan: Plan, cycle: BillingCycle)
  {
    match CalculateSavings(plan, cycle)
    case Some(s) => s > 0
    case None => false
  }

  /** Monthly billing never shows a saving; yearly billing shows one exactly when twelve months cost more. */
  lemma SavingsNoticeRule(plan: Plan, cycle: BillingCycle)
    ensures cycle == Monthly ==> !ShowsSavings(plan, cycle)
    ensures cycle == Yearly ==>
              (ShowsSavings(plan, cycle) <==>
                 && PriceParsing.ParseFee(plan.monthlyFee).Some?
                 && PriceParsing.ParseFee(plan.annualFee).Some?
                 && 12 * PriceParsing.ParseFee(plan.monthlyFee).value > PriceParsing.ParseFee(plan.annualFee).value)
  {
  }

  /** A plan at ₹2,999 a month or ₹29,990 a year saves ₹5,998 on yearly billing. */
  lemma ExampleSavings(plan: Plan)
    requires plan.monthlyFee == "\U{20B9}2,999" && plan.annualFee == "\U{20B9}29,990"
    ensures CalculateSavings(plan, Yearly) == Some(5998)
    ensures ShowsSavings(plan, Yearly) && !ShowsSavings(plan, Monthly)
  {
    PriceParsing.ExampleMonthlyFee(plan.monthlyFee);
    PriceParsing.ExampleAnnualFee(plan.annualFee);
  }

  /** The three payment options. */
  datatype Method = Upi | Card | NetBanking

  /** The `id` of each option, which is what the page stores. */
  function MethodId(m: Method): (id: string)
    ensures id != ""
  {
    match m
    case Upi => "upi"
    case Card => "card"
    case NetBanking => "netbanking"
  }

  /** No two options share an id. */
  lemma MethodIdInjective(m: Method, n: Method)
    ensures MethodId(m) == MethodId(n) <==> m == n
  {
  }

  /**
    The page's state: the stored method id ("" for none), the processing flag,
    and how many simulated payment timers are still pending.
   */
  datatype Payment = Payment(selectedMethod: string, isProcessing: bool, pendingTimers: nat)

  /** The page as it mounts: no method, not processing, no timer. */
  function Initial(): (p: Payment)
    ensures p.selectedMethod == "" && !p.isProcessing && p.pendingTimers == 0
  {
    Payment("", false, 0)
  }

  /** A method's card is highlighted when its id is the stored one. */
  predicate Highlighted(p: Payment, m: Method)
  {
    p.selectedMethod == MethodId(m)
  }

  /** Clicking a card stores its id; afterwards that card, and only it, is highlighted. */
  function SelectMethod(p: Payment, m: Method): (r: Payment)
    ensures forall n :: Highlighted(r, n) <==> n == m
    ensures r.isProcessing == p.isProcessing && r.pendingTimers == p.pendingTimers
  {
    p.(selectedMethod := MethodId(m))
  }

  /** The Pay button is disabled with no method or while processing. */
  predicate PayEnabled(p: Payment)
  {
    p.selectedMethod != "" && !p.isProcessing
  }

  /** `handlePayment`: nothing without a method; otherwise start processing and schedule the timer. */
  function HandlePayment(p: Payment): (r: Payment)
    ensures r == p <==> p.selectedMethod == ""
    ensures p.selectedMethod != "" ==>
              r.isProcessing && r.pendingTimers == p.pendingTimers + 1 && r.selectedMethod == p.selectedMethod
  {
    if p.selectedMethod == "" then p
    else p.(isProcessing := true, pendingTimers := p.pendingTimers + 1)
  }

  /** What the page reports to its caller. */
  datatype Signal = Quiet | PaymentSucceeded

  datatype Outcome = Outcome(payment: Payment, signal: Signal)

  /** A pending timer fires: processing stops and success is reported, with no failure branch. */
  function TimerFires(p: Payment): (o: Outcome)
    requires p.pendingTimers > 0
    ensures o.signal == PaymentSucceeded
    ensures !o.payment.isProcessing && o.payment.pendingTimers == p.pendingTimers - 1
    ensures o.payment.selectedMethod == p.selectedMethod
  {
    Outcome(p.(isProcessing := false, pendingTimers := p.pendingTimers - 1), PaymentSucceeded)
  }

  datatype Event = Choose(option: Method) | PressPay | TimerElapsed

  /** One event: presses of a disabled button and ticks with no timer pending change nothing. */
  function Apply(p: Payment, e: Event): (o: Outcome)
    ensures o.signal == PaymentSucceeded <==> e.TimerElapsed? && p.pendingTimers > 0
    ensures e.PressPay? ==> (o.payment != p <==> PayEnabled(p))
    ensures e.PressPay? && p.isProcessing ==> o == Outcome(p, Quiet)
    ensures e.Choose? ==> Highlighted(o.payment, e.option) && o.payment.isProcessing == p.isProcessing
    ensures e.Choose? ==> o == Outcome(SelectMethod(p, e.option), Quiet)
    ensures e.PressPay? && PayEnabled(p) ==> o == Outcome(HandlePayment(p), Quiet)
    ensures e.TimerElapsed? ==> o == if p.pendingTimers > 0 then TimerFires(p) else Outcome(p, Quiet)
  {
    match e
    case Choose(m) => Outcome(SelectMethod(p, m), Quiet)
    case PressPay => Outcome(if PayEnabled(p) then HandlePayment(p) else p, Quiet)
    case TimerElapsed => if p.pendingTimers > 0 then TimerFires(p) else Outcome(p, Quiet)
  }

  datatype Trace = Trace(payment: Payment, signals: seq<Signal>)

  function Run(p: Payment, events: seq<Event>): (t: Trace)
    ensures |t.signals| == |events|
    decreases |events|
  {
    if |events| == 0 then Trace(p, [])
    else
      var o := Apply(p, events[0]);
      var rest := Run(o.payment, events[1..]);
      Trace(rest.payment, [o.signal] + rest.signals)
  }

  /**
    The three phases the flags can be in: Idle (no timer), Processing (one
    timer, a method chosen); success is the Processing-to-Idle step.
   */
  ghost predicate Good(p: Payment)
  {
    && (p.selectedMethod == "" || exists m :: p.selectedMethod == MethodId(m))
    && (if p.isProcessing then p.pendingTimers == 1 && p.selectedMethod != "" else p.pendingTimers == 0)
  }

  lemma ApplyKeepsGood(p: Payment, e: Event)
    requires Good(p)
    ensures Good(Apply(p, e).payment)
    ensures Apply(p, e).signal == PaymentSucceeded ==> p.isProcessing && !Apply(p, e).payment.isProcessing
  {
  }

  /**
    From any `Good` page, every event sequence keeps at most one payment in
    flight, and each success report ends a Processing phase.
   */
  lemma {:induction false} RunKeepsGood(p: Payment, events: seq<Event>)
    requires Good(p)
    ensures Good(Run(p, events).payment)
    decreases |events|
  {
    if |events| > 0 {
      ApplyKeepsGood(p, events[0]);
      RunKeepsGood(Apply(p, events[0]).payment, events[1..]);
    }
  }

  lemma InitialIsGood()
    ensures Good(Initial())
  {
  }

  /** Idle with a method chosen: Pay then the timer goes Processing and back to Idle with one success. */
  lemma PayThenTimer(p: Payment)
    requires Good(p) && !p.isProcessing && p.selectedMethod != ""
    ensures Run(p, [PressPay]).payment.isProcessing
    ensures Run(p, [PressPay, TimerElapsed]) == Trace(p, [Quiet, PaymentSucceeded])
  {
  }

  /** While a payment is processing, the disabled Pay button does nothing. */
  lemma PayWhileProcessing(p: Payment)
    requires p.isProcessing
    ensures Apply(p, PressPay) == Outcome(p, Quiet)
    ensures Run(p, [PressPay]) == Trace(p, [Quiet])
  {
  }

  /** With no method chosen, pressing Pay (or calling the handler) changes nothing. */
  lemma PayWithoutMethod(p: Payment)
    requires p.selectedMethod == ""
    ensures HandlePayment(p) == p
    ensures Apply(p, PressPay) == Outcome(p, Quiet)
  {
  }
}
