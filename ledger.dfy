/** The bank ledger (bank_ledger.py): integer balances per account and per
    currency, deposits, withdrawals, transfers with currency conversion, and a
    day-driven scheduler of one-off and recurring transfers.

    The functions ending in `On` say what each operation does to the balance
    table; the class `BankLedger` holds the ledger's fields and its methods
    update them in place, each proved to agree with its function. An operation
    that raises becomes a `Failure`; `Step` keeps the balances as they were when
    the exception left the call, since a transfer may already have debited. */
module Ledger {
  import opened Wrappers
  import opened Sums
  import opened Ordering

  type AccountId = string
  type Currency = string

  /** `account_balances`: account -> currency -> balance. */
  type Balances = map<AccountId, map<Currency, int>>

  /** The `Transfer` dataclass. */
  datatype Payment = Payment(fromAccount: AccountId, toAccount: AccountId,
                             fromCurrency: Currency, toCurrency: Currency, amount: int)

  /** The `RecurringTransfer` dataclass. */
  datatype RecurringPayment = RecurringPayment(payment: Payment, startDate: int, frequency: int)

  /** The exceptions the ledger raises. */
  datatype LedgerError =
    | AccountExists     // open_account on a known id
    | UnknownAccount    // get_balance, deposit, withdraw on an unknown id
    | UnusedCurrency    // get_balance of a currency the account does not hold
    | AccountNotFound   // transfer with an unknown source or destination
    | NoFxRate          // get_fx_rate: the pair is missing from its table (KeyError)
    | ZeroFrequency     // process_day: `% 0` on a recurring payment (ZeroDivisionError)

  /** `math.floor(amount * get_fx_rate(from, to))`, kept abstract: `None` when the
      pair has no rate. */
  type FxConvert = (int, Currency, Currency) -> Option<int>

  /** The balances after a call, and what the call returned or raised. */
  datatype Step<T> = Step(balances: Balances, outcome: Result<T, LedgerError>)

  /** A balance, reading an absent currency as 0. */
  function Held(m: map<Currency, int>, c: Currency): int {
    if c in m then m[c] else 0
  }

  /** The amount of currency `c` held across all accounts. */
  ghost function Total(b: Balances, c: Currency): int {
    SumOver(b.Keys, a => if a in b then Held(b[a], c) else 0)
  }

  ghost predicate NonNegative(b: Balances) {
    forall a, c :: a in b && c in b[a] ==> b[a][c] >= 0
  }

  /** `b2` is `b` with at most the entry (a, c) changed, that entry now present. */
  ghost predicate OnlyEntryChanged(b: Balances, b2: Balances, a: AccountId, c: Currency) {
    && a in b
    && b2.Keys == b.Keys
    && (forall x :: x in b && x != a ==> b2[x] == b[x])
    && b2[a].Keys == b[a].Keys + {c}
    && (forall d :: d in b[a] && d != c ==> b2[a][d] == b[a][d])
  }

  /** The net effect of a completed payment `p` that credited `credit`: the source
      entry loses the amount, the destination entry gains the credit, no other
      balance moves, and only the destination may gain a currency. */
  ghost predicate Moved(b: Balances, b2: Balances, p: Payment, credit: int) {
    && p.fromAccount in b && p.toAccount in b
    && b2.Keys == b.Keys
    && b2[p.toAccount].Keys == b[p.toAccount].Keys + {p.toCurrency}
    && (forall x :: x in b && x != p.toAccount ==> b2[x].Keys == b[x].Keys)
    && (forall x, d :: x in b ==>
          Held(b2[x], d) == Held(b[x], d)
                            - (if x == p.fromAccount && d == p.fromCurrency then p.amount else 0)
                            + (if x == p.toAccount && d == p.toCurrency then credit else 0))
  }

  /** `open_account`. */
  function OpenOn(b: Balances, id: AccountId, currencies: seq<Currency>): (r: Step<()>)
    ensures r.outcome.Failure? <==> id in b
    ensures r.outcome.Failure? ==> r.outcome.error == AccountExists && r.balances == b
    ensures r.outcome.Success? ==>
      && r.balances.Keys == b.Keys + {id}
      && (forall a :: a in b ==> r.balances[a] == b[a])
      && (forall c :: c in r.balances[id] <==> c in currencies)
      && (forall c :: c in r.balances[id] ==> r.balances[id][c] == 0)
  {
    if id in b then Step(b, Failure(AccountExists))
    else Step(b[id := map c | c in currencies :: 0], Success(()))
  }

  /** `get_balance`. */
  function BalanceOf(b: Balances, id: AccountId, c: Currency): (r: Result<int, LedgerError>)
    ensures r.Success? <==> id in b && c in b[id]
    ensures r.Success? ==> r.value == Held(b[id], c)
    ensures r.Failure? ==> r.error == (if id in b then UnusedCurrency else UnknownAccount)
  {
    if id !in b then Failure(UnknownAccount)
    else if c !in b[id] then Failure(UnusedCurrency)
    else Success(b[id][c])
  }

  /** `deposit`: adds to the entry, creating it when absent; returns True. */
  function DepositOn(b: Balances, id: AccountId, c: Currency, amount: int): (r: Step<bool>)
    ensures r.outcome.Failure? <==> id !in b
    ensures r.outcome.Failure? ==> r.outcome.error == UnknownAccount && r.balances == b
    ensures r.outcome.Success? ==>
      && r.outcome.value
      && OnlyEntryChanged(b, r.balances, id, c)
      && Held(r.balances[id], c) == Held(b[id], c) + amount
    ensures NonNegative(b) && amount >= 0 ==> NonNegative(r.balances)
  {
    if id !in b then Step(b, Failure(UnknownAccount))
    else Step(b[id := b[id][c := Held(b[id], c) + amount]], Success(true))
  }

  /** `withdraw`: False, and no change, for an absent currency or too small a balance. */
  function WithdrawOn(b: Balances, id: AccountId, c: Currency, amount: int): (r: Step<bool>)
    ensures r.outcome.Failure? <==> id !in b
    ensures r.outcome.Failure? ==> r.outcome.error == UnknownAccount
    ensures r.outcome == Success(true) <==> id in b && c in b[id] && amount <= b[id][c]
    ensures r.outcome != Success(true) ==> r.balances == b
    ensures r.outcome == Success(true) ==>
      && OnlyEntryChanged(b, r.balances, id, c)
      && r.balances[id][c] == b[id][c] - amount
      && r.balances[id][c] >= 0
    ensures NonNegative(b) ==> NonNegative(r.balances)
  {
    if id !in b then Step(b, Failure(UnknownAccount))
    else if c !in b[id] || amount > b[id][c] then Step(b, Success(false))
    else Step(b[id := b[id][c := b[id][c] - amount]], Success(true))
  }

  /** The amount credited: unchanged within one currency, converted otherwise. */
  function Convert(fx: FxConvert, amount: int, from: Currency, to: Currency): (r: Option<int>)
    ensures from == to ==> r == Some(amount)
  {
    if from == to then Some(amount) else fx(amount, from, to)
  }

  /** `transfer`. The source is debited before the rate is looked up, so a pair
      without a rate raises with the debit already made. */
  function TransferOn(b: Balances, fx: FxConvert, p: Payment): (r: Step<bool>)
    ensures r.outcome == Failure(AccountNotFound) <==> p.fromAccount !in b || p.toAccount !in b
    ensures r.outcome == Success(false) <==>
      && p.fromAccount in b && p.toAccount in b
      && (p.fromCurrency !in b[p.fromAccount] || b[p.fromAccount][p.fromCurrency] < p.amount)
    ensures r.outcome.Failure? ==> r.outcome.error in {AccountNotFound, NoFxRate}
    ensures r.outcome == Failure(AccountNotFound) || r.outcome == Success(false) ==> r.balances == b
    ensures r.outcome == Failure(NoFxRate) ==>
      && p.fromCurrency != p.toCurrency
      && Convert(fx, p.amount, p.fromCurrency, p.toCurrency).None?
      && OnlyEntryChanged(b, r.balances, p.fromAccount, p.fromCurrency)
      && r.balances[p.fromAccount][p.fromCurrency] == b[p.fromAccount][p.fromCurrency] - p.amount
    ensures r.outcome == Success(true) ==>
      && p.fromCurrency in b[p.fromAccount] && p.amount <= b[p.fromAccount][p.fromCurrency]
      && Convert(fx, p.amount, p.fromCurrency, p.toCurrency).Some?
      && Moved(b, r.balances, p, Convert(fx, p.amount, p.fromCurrency, p.toCurrency).value)
  {
    if p.fromAccount !in b || p.toAccount !in b then Step(b, Failure(AccountNotFound))
    else if p.fromCurrency !in b[p.fromAccount] || b[p.fromAccount][p.fromCurrency] < p.amount then
      Step(b, Success(false))
    else
      var src := b[p.fromAccount];
      var debited := b[p.fromAccount := src[p.fromCurrency := src[p.fromCurrency] - p.amount]];
      match Convert(fx, p.amount, p.fromCurrency, p.toCurrency)
      case None => Step(debited, Failure(NoFxRate))
      case Some(v) =>
        var dst := debited[p.toAccount];
        Step(debited[p.toAccount := dst[p.toCurrency := Held(dst, p.toCurrency) + v]], Success(true))
  }

  /** Within one currency a transfer moves money between accounts and creates none:
      the total of every currency is the same afterwards. */
  lemma TransferConserves(b: Balances, fx: FxConvert, p: Payment, c: Currency)
    requires p.fromCurrency == p.toCurrency
    ensures Total(TransferOn(b, fx, p).balances, c) == Total(b, c)
  {
    var r := TransferOn(b, fx, p);
    if r.outcome == Success(true) {
      var b2 := r.balances;
      var f := a => if a in b then Held(b[a], c) else 0;
      var g := a => if a in b2 then Held(b2[a], c) else 0;
      var dec := if c == p.fromCurrency then p.amount else 0;
      var h := a => if a == p.fromAccount then f(a) - dec else f(a);
      SumOverUpdate(b.Keys, f, h, p.fromAccount);
      SumOverUpdate(b.Keys, h, g, p.toAccount);
    }
  }

  /** Withdrawals and transfers never take a balance below zero: with a non-negative
      amount and conversion, a table with no negative balance keeps none. */
  lemma TransferKeepsNonNegative(b: Balances, fx: FxConvert, p: Payment)
    requires NonNegative(b) && p.amount >= 0
    requires forall v :: Convert(fx, p.amount, p.fromCurrency, p.toCurrency) == Some(v) ==> v >= 0
    ensures NonNegative(TransferOn(b, fx, p).balances)
  {
    var r := TransferOn(b, fx, p);
    if r.outcome == Success(true) {
      var v := Convert(fx, p.amount, p.fromCurrency, p.toCurrency).value;
      forall a, c | a in r.balances && c in r.balances[a] ensures r.balances[a][c] >= 0 {
        assert Held(r.balances[a], c) == r.balances[a][c];
        assert Held(b[a], c) >= 0;
      }
    }
  }

  /** A list of payments run in order, as `process_day`'s loops do: a False return
      is ignored, an exception stops the run. */
  function RunPayments(b: Balances, fx: FxConvert, ps: seq<Payment>): (r: Step<()>)
    ensures r.outcome.Failure? ==> r.outcome.error in {AccountNotFound, NoFxRate}
    ensures ps == [] ==> r == Step(b, Success(()))
  {
    if ps == [] then Step(b, Success(()))
    else
      var s := TransferOn(b, fx, ps[0]);
      if s.outcome.Failure? then Step(s.balances, Failure(s.outcome.error))
      else RunPayments(s.balances, fx, ps[1..])
  }

  /** Running `ps1 + ps2` runs `ps1`, then `ps2` unless `ps1` raised. */
  lemma {:induction false} RunPaymentsConcat(b: Balances, fx: FxConvert, ps1: seq<Payment>, ps2: seq<Payment>)
    ensures RunPayments(b, fx, ps1 + ps2) ==
      var s := RunPayments(b, fx, ps1);
      if s.outcome.Failure? then s else RunPayments(s.balances, fx, ps2)
    decreases |ps1|
  {
    if ps1 != [] {
      assert (ps1 + ps2)[0] == ps1[0] && (ps1 + ps2)[1..] == ps1[1..] + ps2;
      var s := TransferOn(b, fx, ps1[0]);
      if !s.outcome.Failure? {
        RunPaymentsConcat(s.balances, fx, ps1[1..], ps2);
      }
    } else {
      assert ps1 + ps2 == ps2;
    }
  }

  /** Same-currency payments keep every currency's total. */
  lemma {:induction false} RunPaymentsConserve(b: Balances, fx: FxConvert, ps: seq<Payment>, c: Currency)
    requires forall i :: 0 <= i < |ps| ==> ps[i].fromCurrency == ps[i].toCurrency
    ensures Total(RunPayments(b, fx, ps).balances, c) == Total(b, c)
    decreases |ps|
  {
    if ps != [] {
      TransferConserves(b, fx, ps[0], c);
      var s := TransferOn(b, fx, ps[0]);
      if !s.outcome.Failure? {
        RunPaymentsConserve(s.balances, fx, ps[1..], c);
      }
    }
  }

  /** The k-th day (k >= 0) on which a recurring payment is due. */
  function Occurrence(r: RecurringPayment, k: nat): int {
    r.startDate + k * r.frequency
  }

  /** The test `day >= start_date and (day - start_date) % frequency == 0`. The `and`
      short-circuits, so a zero frequency raises only from the start date on.
      Python's `%` floors and Dafny's is Euclidean, but both give 0 exactly when
      the frequency divides the difference. */
  function FiresOn(r: RecurringPayment, day: int): (f: Result<bool, LedgerError>)
    ensures f.Failure? <==> day >= r.startDate && r.frequency == 0
    ensures f.Failure? ==> f.error == ZeroFrequency
    ensures f == Success(true) ==> day >= r.startDate
  {
    if day < r.startDate then Success(false)
    else if r.frequency == 0 then Failure(ZeroFrequency)
    else Success((day - r.startDate) % r.frequency == 0)
  }

  /** With a positive frequency a recurring payment fires exactly on its start date
      and every `frequency` days after it. */
  lemma FiringDays(r: RecurringPayment, day: int)
    requires r.frequency > 0
    ensures FiresOn(r, day) == Success(true) <==> exists k: nat :: day == Occurrence(r, k)
  {
    if FiresOn(r, day) == Success(true) {
      var k := (day - r.startDate) / r.frequency;
      assert day - r.startDate == r.frequency * k + (day - r.startDate) % r.frequency;
      assert day == Occurrence(r, k);
    }
    if exists k: nat :: day == Occurrence(r, k) {
      var k: nat :| day == Occurrence(r, k);
      assert day - r.startDate == k * r.frequency;
      MultipleMod(k, r.frequency);
    }
  }

  lemma MultipleMod(k: nat, f: int)
    requires f > 0
    ensures (k * f) % f == 0
  {
    var q := (k * f) / f;
    var m := (k * f) % f;
    assert k * f == q * f + m && 0 <= m < f;
    assert (k - q) * f == m;
    assert k - q >= 1 ==> (k - q) * f >= f;
    assert k - q <= -1 ==> (k - q) * f <= -f;
  }

  /** `process_day`'s second loop over `recurring_payments`. */
  function RunRecurring(b: Balances, fx: FxConvert, rs: seq<RecurringPayment>, day: int): (r: Step<()>)
    ensures r.outcome.Failure? ==> r.outcome.error in {AccountNotFound, NoFxRate, ZeroFrequency}
    ensures r.outcome.Success? ==> forall i :: 0 <= i < |rs| ==> FiresOn(rs[i], day).Success?
    decreases |rs|
  {
    assert forall i :: 0 < i < |rs| ==> rs[i] == rs[1..][i - 1];
    if rs == [] then Step(b, Success(()))
    else match FiresOn(rs[0], day)
      case Failure(e) => Step(b, Failure(e))
      case Success(fire) =>
        if !fire then RunRecurring(b, fx, rs[1..], day)
        else
          var s := TransferOn(b, fx, rs[0].payment);
          if s.outcome.Failure? then Step(s.balances, Failure(s.outcome.error))
          else RunRecurring(s.balances, fx, rs[1..], day)
  }

  /** The recurring payments due on `day`, in their scheduling order. */
  function Due(rs: seq<RecurringPayment>, day: int): (ps: seq<Payment>)
    ensures |ps| <= |rs|
    ensures forall p :: p in ps ==> exists r :: r in rs && r.payment == p && FiresOn(r, day) == Success(true)
    ensures forall i :: 0 <= i < |rs| && FiresOn(rs[i], day) == Success(true) ==> rs[i].payment in ps
    decreases |rs|
  {
    if rs == [] then []
    else
      var rest := Due(rs[1..], day);
      assert forall r :: r in rs[1..] ==> r in rs;
      assert forall i :: 0 < i < |rs| ==> rs[i] == rs[1..][i - 1];
      if FiresOn(rs[0], day) == Success(true) then [rs[0].payment] + rest else rest
  }

  /** The payments of a list of recurring transfers, in order. */
  function PaymentsOf(rs: seq<RecurringPayment>): (ps: seq<Payment>)
    ensures |ps| == |rs| && forall i :: 0 <= i < |rs| ==> ps[i] == rs[i].payment
  {
    seq(|rs|, i requires 0 <= i < |rs| => rs[i].payment)
  }

  /** The due payments are those of the recurring transfers that fire on `day`,
      kept in scheduling order. */
  lemma {:induction false} DueIsTheFiringOnes(rs: seq<RecurringPayment>, day: int)
    ensures Due(rs, day) == PaymentsOf(Keep(rs, r => FiresOn(r, day) == Success(true)))
    decreases |rs|
  {
    if rs != [] {
      var fires := r => FiresOn(r, day) == Success(true);
      DueIsTheFiringOnes(rs[1..], day);
      var kept := Keep(rs[1..], fires);
      if fires(rs[0]) {
        assert Keep(rs, fires) == [rs[0]] + kept;
        assert PaymentsOf([rs[0]] + kept) == [rs[0].payment] + PaymentsOf(kept);
      } else {
        assert Keep(rs, fires) == kept;
      }
    }
  }

  /** `process_day`: every one-off payment for the day, then every recurring
      payment due that day. */
  function ProcessDayOn(b: Balances, fx: FxConvert, scheduled: map<int, seq<Payment>>,
                        rs: seq<RecurringPayment>, day: int): (r: Step<()>)
    ensures r.outcome.Failure? ==> r.outcome.error in {AccountNotFound, NoFxRate, ZeroFrequency}
  {
    var s := RunPayments(b, fx, if day in scheduled then scheduled[day] else []);
    if s.outcome.Failure? then s else RunRecurring(s.balances, fx, rs, day)
  }

  /** When no recurring payment can divide by zero, the recurring loop runs exactly
      the due payments in order. */
  lemma {:induction false} RunRecurringIsDue(b: Balances, fx: FxConvert, rs: seq<RecurringPayment>, day: int)
    requires forall i :: 0 <= i < |rs| ==> rs[i].frequency != 0
    ensures RunRecurring(b, fx, rs, day) == RunPayments(b, fx, Due(rs, day))
    decreases |rs|
  {
    if rs != [] {
      RunRecurringIsDue(b, fx, rs[1..], day);
      if FiresOn(rs[0], day) == Success(true) {
        var s := TransferOn(b, fx, rs[0].payment);
        if !s.outcome.Failure? {
          RunRecurringIsDue(s.balances, fx, rs[1..], day);
        }
      }
    }
  }

  /** The one-off payments of the day come first, then the due recurring ones, as
      one run. */
  lemma ProcessDayOrder(b: Balances, fx: FxConvert, scheduled: map<int, seq<Payment>>,
                        rs: seq<RecurringPayment>, day: int)
    requires forall i :: 0 <= i < |rs| ==> rs[i].frequency != 0
    ensures ProcessDayOn(b, fx, scheduled, rs, day) ==
      RunPayments(b, fx, (if day in scheduled then scheduled[day] else []) + Due(rs, day))
  {
    var oneOff := if day in scheduled then scheduled[day] else [];
    RunPaymentsConcat(b, fx, oneOff, Due(rs, day));
    var s := RunPayments(b, fx, oneOff);
    if !s.outcome.Failure? {
      RunRecurringIsDue(s.balances, fx, rs, day);
    }
  }

  /** The days `advance_day(to)` processes from day `from`: `from + 1` .. `to`,
      each once, in increasing order. */
  function DaysAfter(from: int, to: int): (days: seq<int>)
    ensures |days| == (if to > from then to - from else 0)
    ensures forall i :: 0 <= i < |days| ==> days[i] == from + 1 + i
    decreases if to > from then to - from else 0
  {
    if from >= to then [] else [from + 1] + DaysAfter(from + 1, to)
  }

  /** `process_day` for each day in turn, stopping at the first exception. */
  function RunDays(b: Balances, fx: FxConvert, scheduled: map<int, seq<Payment>>,
                   rs: seq<RecurringPayment>, days: seq<int>): (r: Step<()>)
    ensures r.outcome.Failure? ==> r.outcome.error in {AccountNotFound, NoFxRate, ZeroFrequency}
    ensures days == [] ==> r == Step(b, Success(()))
    decreases |days|
  {
    if days == [] then Step(b, Success(()))
    else
      var s := ProcessDayOn(b, fx, scheduled, rs, days[0]);
      if s.outcome.Failure? then s else RunDays(s.balances, fx, scheduled, rs, days[1..])
  }

  /** Scheduled payments only move money within one currency, so a run of days
      keeps every currency's total. */
  lemma {:induction false} RunDaysConserve(b: Balances, fx: FxConvert, scheduled: map<int, seq<Payment>>,
                                           rs: seq<RecurringPayment>, days: seq<int>, c: Currency)
    requires forall d, p :: d in scheduled && p in scheduled[d] ==> p.fromCurrency == p.toCurrency
    requires forall r :: r in rs ==> r.payment.fromCurrency == r.payment.toCurrency && r.frequency != 0
    ensures Total(RunDays(b, fx, scheduled, rs, days).balances, c) == Total(b, c)
    decreases |days|
  {
    if days != [] {
      var day := days[0];
      var oneOff := if day in scheduled then scheduled[day] else [];
      ProcessDayOrder(b, fx, scheduled, rs, day);
      var all: seq<Payment> := oneOff + Due(rs, day);
      forall i | 0 <= i < |all| ensures all[i].fromCurrency == all[i].toCurrency {
        if i >= |oneOff| {
          assert all[i] in Due(rs, day);
        }
      }
      RunPaymentsConserve(b, fx, all, c);
      var s := ProcessDayOn(b, fx, scheduled, rs, day);
      if !s.outcome.Failure? {
        RunDaysConserve(s.balances, fx, scheduled, rs, days[1..], c);
      }
    }
  }

  /** `BankLedger`: the balance table, the one-off payments by day, the recurring
      payments and the current day. The rate table is fixed at construction. */
  class BankLedger {
    const fx: FxConvert
    var accountBalances: Balances
    var scheduledPayments: map<int, seq<Payment>>
    var recurringPayments: seq<RecurringPayment>
    var day: int

    constructor (fx: FxConvert)
      ensures this.fx == fx && accountBalances == map[]
      ensures scheduledPayments == map[] && recurringPayments == [] && day == 0
    {
      this.fx := fx;
      accountBalances := map[];
      scheduledPayments := map[];
      recurringPayments := [];
      day := 0;
    }

    method OpenAccount(id: AccountId, currencies: seq<Currency> := ["USD"]) returns (r: Result<(), LedgerError>)
      modifies this`accountBalances
      ensures Step(accountBalances, r) == OpenOn(old(accountBalances), id, currencies)
    {
      if id in accountBalances {
        return Failure(AccountExists);
      }
      accountBalances := accountBalances[id := map c | c in currencies :: 0];
      return Success(());
    }

    function GetBalance(id: AccountId, c: Currency): (r: Result<int, LedgerError>)
      reads this
      ensures r == BalanceOf(accountBalances, id, c)
    {
      if id !in accountBalances then Failure(UnknownAccount)
      else if c !in accountBalances[id] then Failure(UnusedCurrency)
      else Success(accountBalances[id][c])
    }

    method Deposit(id: AccountId, c: Currency, amount: int) returns (r: Result<bool, LedgerError>)
      modifies this`accountBalances
      ensures Step(accountBalances, r) == DepositOn(old(accountBalances), id, c, amount)
    {
      if id !in accountBalances {
        return Failure(UnknownAccount);
      }
      if c !in accountBalances[id] {
        accountBalances := accountBalances[id := accountBalances[id][c := amount]];
      } else {
        accountBalances := accountBalances[id := accountBalances[id][c := accountBalances[id][c] + amount]];
      }
      return Success(true);
    }

    method Withdraw(id: AccountId, c: Currency, amount: int) returns (r: Result<bool, LedgerError>)
      modifies this`accountBalances
      ensures Step(accountBalances, r) == WithdrawOn(old(accountBalances), id, c, amount)
    {
      if id !in accountBalances {
        return Failure(UnknownAccount);
      }
      if c !in accountBalances[id] {
        return Success(false);
      }
      if amount > accountBalances[id][c] {
        return Success(false);
      }
      accountBalances := accountBalances[id := accountBalances[id][c := accountBalances[id][c] - amount]];
      return Success(true);
    }

    method Transfer(fromAccount: AccountId, toAccount: AccountId, fromCurrency: Currency,
                    toCurrency: Currency, amount: int) returns (r: Result<bool, LedgerError>)
      modifies this`accountBalances
      ensures Step(accountBalances, r) ==
        TransferOn(old(accountBalances), fx, Payment(fromAccount, toAccount, fromCurrency, toCurrency, amount))
    {
      if fromAccount !in accountBalances || toAccount !in accountBalances {
        return Failure(AccountNotFound);
      }
      if fromCurrency !in accountBalances[fromAccount] || accountBalances[fromAccount][fromCurrency] < amount {
        return Success(false);
      }
      var src := accountBalances[fromAccount];
      accountBalances := accountBalances[fromAccount := src[fromCurrency := src[fromCurrency] - amount]];
      var converted := amount;
      if fromCurrency != toCurrency {
        var rate := fx(amount, fromCurrency, toCurrency);
        if rate.None? {
          return Failure(NoFxRate);
        }
        converted := rate.value;
      }
      var dst := accountBalances[toAccount];
      if toCurrency !in dst {
        accountBalances := accountBalances[toAccount := dst[toCurrency := converted]];
      } else {
        accountBalances := accountBalances[toAccount := dst[toCurrency := dst[toCurrency] + converted]];
      }
      return Success(true);
    }

    method SchedulePayment(fromAccount: AccountId, toAccount: AccountId, fromCurrency: Currency,
                           toCurrency: Currency, amount: int, onDay: int)
      modifies this`scheduledPayments
      ensures scheduledPayments.Keys == old(scheduledPayments).Keys + {onDay}
      ensures scheduledPayments[onDay] ==
        (if onDay in old(scheduledPayments) then old(scheduledPayments)[onDay] else [])
        + [Payment(fromAccount, toAccount, fromCurrency, toCurrency, amount)]
      ensures forall d :: d in old(scheduledPayments) && d != onDay ==> scheduledPayments[d] == old(scheduledPayments)[d]
    {
      var pending := if onDay in scheduledPayments then scheduledPayments[onDay] else [];
      scheduledPayments := scheduledPayments[onDay := pending + [Payment(fromAccount, toAccount, fromCurrency, toCurrency, amount)]];
    }

    method ScheduleRecurringPayment(fromAccount: AccountId, toAccount: AccountId, fromCurrency: Currency,
                                    toCurrency: Currency, amount: int, startDay: int, frequency: int)
      modifies this`recurringPayments
      ensures recurringPayments == old(recurringPayments) +
        [RecurringPayment(Payment(fromAccount, toAccount, fromCurrency, toCurrency, amount), startDay, frequency)]
    {
      recurringPayments := recurringPayments +
        [RecurringPayment(Payment(fromAccount, toAccount, fromCurrency, toCurrency, amount), startDay, frequency)];
    }

    method ProcessDay(d: int) returns (r: Outcome<LedgerError>)
      modifies this`accountBalances
      ensures var s := ProcessDayOn(old(accountBalances), fx, scheduledPayments, recurringPayments, d);
        accountBalances == s.balances && r.Fail? == s.outcome.Failure? && (r.Fail? ==> r.error == s.outcome.error)
    {
      ghost var b0 := accountBalances;
      var oneOff := if d in scheduledPayments then scheduledPayments[d] else [];
      var i := 0;
      while i < |oneOff|
        invariant 0 <= i <= |oneOff|
        invariant RunPayments(b0, fx, oneOff) == RunPayments(accountBalances, fx, oneOff[i..])
      {
        var p := oneOff[i];
        var t := Transfer(p.fromAccount, p.toAccount, p.fromCurrency, p.toCurrency, p.amount);
        assert p == Payment(p.fromAccount, p.toAccount, p.fromCurrency, p.toCurrency, p.amount);
        if t.Failure? {
          return Fail(t.error);
        }
        i := i + 1;
      }
      ghost var b1 := accountBalances;
      var rs := recurringPayments;
      var j := 0;
      while j < |rs|
        invariant 0 <= j <= |rs|
        invariant RunRecurring(b1, fx, rs, d) == RunRecurring(accountBalances, fx, rs[j..], d)
      {
        var rp := rs[j];
        assert rs[j..][0] == rp && rs[j..][1..] == rs[j + 1..];
        if d >= rp.startDate {
          if rp.frequency == 0 {
            return Fail(ZeroFrequency);
          }
          if (d - rp.startDate) % rp.frequency == 0 {
            var p := rp.payment;
            var t := Transfer(p.fromAccount, p.toAccount, p.fromCurrency, p.toCurrency, p.amount);
            assert p == Payment(p.fromAccount, p.toAccount, p.fromCurrency, p.toCurrency, p.amount);
            if t.Failure? {
              return Fail(t.error);
            }
          }
        }
        j := j + 1;
      }
      return Pass;
    }

    method AdvanceDay(toDay: int) returns (r: Outcome<LedgerError>)
      modifies this`accountBalances, this`day
      ensures var s := RunDays(old(accountBalances), fx, scheduledPayments, recurringPayments, DaysAfter(old(day), toDay));
        accountBalances == s.balances && r.Fail? == s.outcome.Failure? && (r.Fail? ==> r.error == s.outcome.error)
      ensures day == if r.Pass? then toDay else old(day)
    {
      ghost var b0 := accountBalances;
      ghost var days := DaysAfter(day, toDay);
      var d := day;
      while d < toDay
        invariant day == old(day)
        invariant d == day || day < d <= toDay
        invariant RunDays(b0, fx, scheduledPayments, recurringPayments, days) ==
                  RunDays(accountBalances, fx, scheduledPayments, recurringPayments, DaysAfter(d, toDay))
        decreases toDay - d
      {
        var s := ProcessDay(d + 1);
        if s.Fail? {
          return s;
        }
        d := d + 1;
      }
      day := toDay;
      return Pass;
    }
  }
}
