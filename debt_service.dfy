// DebtService: a user's debts and the payments made on them. The service
// holds the two tables it works on; `now` is the clock reading of the
// request, shared by the repositories' UpdatedAt stamps and the save.

module DebtService {
  import opened Wrappers
  import opened Text
  import opened Calendar
  import opened Persistence
  import opened BaseRepository
  import opened Entities
  import opened UnitOfWork
  import opened DebtValidators
  import opened DebtRepository
  import opened DebtPaymentRepository
  import opened Ordering

  /** `DebtDto`. */
  datatype DebtDto = DebtDto(id: int, name: string, lenderName: Option<string>, totalAmount: Money,
                             remainingAmount: Money, currency: string, isPaidOff: bool)

  /** `DebtPaymentDto`. */
  datatype DebtPaymentDto = DebtPaymentDto(id: int, debtId: int, amount: Money, paymentDate: Ticks, notes: Option<string>)

  function ToDebtDto(r: Row<Debt>): DebtDto
  {
    DebtDto(r.id, r.entity.name, r.entity.lenderName, r.entity.totalAmount, r.entity.remainingAmount,
            r.entity.currency, r.entity.isPaidOff)
  }

  function ToPaymentDto(r: Row<DebtPayment>): DebtPaymentDto
  {
    DebtPaymentDto(r.id, r.entity.debtId, r.entity.amount, r.entity.paymentDate, r.entity.notes)
  }

  function DebtDtos(rows: seq<Row<Debt>>): seq<DebtDto>
  {
    seq(|rows|, k requires 0 <= k < |rows| => ToDebtDto(rows[k]))
  }

  function PaymentDtos(rows: seq<Row<DebtPayment>>): seq<DebtPaymentDto>
  {
    seq(|rows|, k requires 0 <= k < |rows| => ToPaymentDto(rows[k]))
  }

  const DebtFetchError := "Borç getirilirken bir sunucu hatası oluştu."
  const RemainingAboveTotalError := "Kalan bakiye, toplam borç tutarından büyük olamaz."
  const DebtHasPayments := "Bu borçla ilişkili ödemeler bulunduğu için silinemez."
  const DebtAlreadyPaidOff := "Bu borç zaten tamamen ödenmiş."

  function DebtNotFound(debtId: int): string { "Borç bulunamadı (ID: " + IntToString(debtId) + ")." }
  function DebtToUpdateNotFound(debtId: int): string { "Güncellenecek borç bulunamadı (ID: " + IntToString(debtId) + ")." }
  function DebtToDeleteNotFound(debtId: int): string { "Silinecek borç bulunamadı (ID: " + IntToString(debtId) + ")." }
  function DebtToPayNotFound(debtId: int): string { "Ödeme yapılacak borç bulunamadı (ID: " + IntToString(debtId) + ")." }
  function DebtNotFoundOrNotOwned(debtId: int): string { "Borç bulunamadı veya size ait değil (ID: " + IntToString(debtId) + ")." }

  function PaymentAboveRemaining(amount: Money, remaining: Money): string
  {
    "Ödeme tutarı (" + MoneyText(amount) + "), kalan borçtan (" + MoneyText(remaining) + ") fazla olamaz."
  }

  /**
   * The lookup `GetAsync(d => d.Id == debtId && d.UserId == userId)`
   * followed by `First()`: the position of the user's live debt with that
   * id, and nothing when there is none or it belongs to someone else.
   */
  function OwnedDebt(rows: seq<Row<Debt>>, userId: int, debtId: int): (r: Option<nat>)
    ensures r.Some? ==> r.value < |rows| && Visible(rows[r.value]) && rows[r.value].id == debtId
                        && rows[r.value].entity.userId == userId
    ensures r.None? ==> forall k :: 0 <= k < |rows| && Visible(rows[k]) && rows[k].id == debtId
                                    ==> rows[k].entity.userId != userId
  {
    FirstIndex(rows, (d: Row<Debt>) => d.id == debtId && d.entity.userId == userId)
  }

  /**
   * A debt's amounts agree: the total is positive, what remains lies
   * between zero and the total, and the debt is paid off exactly when
   * nothing remains.
   */
  predicate DebtConsistent(d: Debt)
  {
    0 < d.totalAmount && 0 <= d.remainingAmount <= d.totalAmount && (d.isPaidOff <==> d.remainingAmount == 0)
  }

  predicate AllConsistent(rows: seq<Row<Debt>>)
  {
    forall k :: 0 <= k < |rows| ==> DebtConsistent(rows[k].entity)
  }

  /** Some live debt has identity `id`. */
  predicate HasLiveDebt(debts: seq<Row<Debt>>, id: int)
  {
    exists j :: 0 <= j < |debts| && Visible(debts[j]) && debts[j].id == id
  }

  /** Every live payment belongs to a live debt. */
  predicate PaymentsOnLiveDebts(payments: seq<Row<DebtPayment>>, debts: seq<Row<Debt>>)
  {
    forall k :: 0 <= k < |payments| && Visible(payments[k]) ==> HasLiveDebt(debts, payments[k].entity.debtId)
  }

  /** `dto` shows one of the user's live debts that is not paid off. */
  predicate ListsOpenDebt(rows: seq<Row<Debt>>, userId: int, dto: DebtDto)
  {
    exists k :: 0 <= k < |rows| && Visible(rows[k]) && OpenDebtOf(rows[k], userId) && dto == ToDebtDto(rows[k])
  }

  /** The debt `CreateDebtAsync` maps from an accepted request. */
  function NewDebt(userId: int, d: CreateDebtDto): (r: Debt)
    requires CreateDebtAcceptable(d)
    ensures DebtConsistent(r) && r.userId == userId
    ensures r.totalAmount == d.totalAmount && r.remainingAmount == d.remainingAmount
  {
    Debt(userId, d.name.value, d.lenderName, d.totalAmount, d.remainingAmount, d.currency.value, d.remainingAmount <= 0)
  }

  /**
   * The payment's effect on its debt: the remainder drops by the amount,
   * and a remainder at or below zero is set to zero and marks the debt paid
   * off.
   */
  function ApplyPayment(d: Debt, amount: Money): Debt
  {
    var rest := d.remainingAmount - amount;
    if rest <= 0 then d.(remainingAmount := 0, isPaidOff := true) else d.(remainingAmount := rest)
  }

  /**
   * A payment the service lets through (positive, not above the remainder,
   * on a debt not yet paid off) lowers the remainder by exactly its amount
   * (the clamp to zero never changes a value), keeps the debt consistent,
   * and pays it off exactly when it covers the whole remainder.
   */
  lemma PaymentKeepsDebtConsistent(d: Debt, amount: Money)
    requires DebtConsistent(d) && !d.isPaidOff && 0 < amount <= d.remainingAmount
    ensures var e := ApplyPayment(d, amount);
            DebtConsistent(e) && e.remainingAmount == d.remainingAmount - amount
            && e.totalAmount == d.totalAmount && (e.isPaidOff <==> amount == d.remainingAmount)
            && e == d.(remainingAmount := e.remainingAmount, isPaidOff := e.isPaidOff)
  {
  }

  /** The live debts stay live under a change that keeps every identity and deleted flag. */
  lemma LiveDebtsKept(before: seq<Row<Debt>>, after: seq<Row<Debt>>, payments: seq<Row<DebtPayment>>)
    requires PaymentsOnLiveDebts(payments, before) && |after| == |before|
    requires forall j :: 0 <= j < |before| ==> after[j].id == before[j].id && after[j].isDeleted == before[j].isDeleted
    ensures PaymentsOnLiveDebts(payments, after)
  {
    forall k | 0 <= k < |payments| && Visible(payments[k]) ensures HasLiveDebt(after, payments[k].entity.debtId) {
      var j :| 0 <= j < |before| && Visible(before[j]) && before[j].id == payments[k].entity.debtId;
      assert Visible(after[j]) && after[j].id == before[j].id;
    }
  }

  /** Deleting a debt no live payment refers to leaves every live payment on a live debt. */
  lemma DeleteKeepsPaymentsOnLiveDebts(debts: seq<Row<Debt>>, payments: seq<Row<DebtPayment>>, i: nat, now: Ticks)
    requires PaymentsOnLiveDebts(payments, debts) && i < |debts|
    requires forall k :: 0 <= k < |payments| && Visible(payments[k]) ==> payments[k].entity.debtId != debts[i].id
    ensures PaymentsOnLiveDebts(payments, debts[i := debts[i].(isDeleted := true, updatedAt := Some(now))])
  {
    var after := debts[i := debts[i].(isDeleted := true, updatedAt := Some(now))];
    forall k | 0 <= k < |payments| && Visible(payments[k]) ensures HasLiveDebt(after, payments[k].entity.debtId) {
      var j :| 0 <= j < |debts| && Visible(debts[j]) && debts[j].id == payments[k].entity.debtId;
      assert j != i;
      assert after[j] == debts[j];
    }
  }

  /**
   * `GetAsync(predicate, includeString: path)`: EF resolves a string
   * include path against the entity's navigations when the query runs and
   * throws for a name that is not one of them; `None` is that exception.
   */
  function QueryIncluding<T>(rows: seq<Row<T>>, p: Row<T> -> bool, path: string, navigations: set<string>): (r: Option<seq<Row<T>>>)
    ensures r.Some? <==> path in navigations
    ensures r.Some? ==> r.value == Get(rows, p)
  {
    if path in navigations then Some(Get(rows, p)) else None
  }

  /** The navigations of `Debt`: its owner and its payments collection. */
  const DebtNavigations: set<string> := {"User", "Payments"}

  class DebtService {
    const debts: DbSet<Debt>
    const payments: DbSet<DebtPayment>

    ghost predicate Valid()
      reads debts, payments
    {
      SetValid(debts) && SetValid(payments)
      && AllConsistent(debts.rows) && PaymentsOnLiveDebts(payments.rows, debts.rows)
    }

    /** Between requests: consistent, with nothing pending. */
    ghost predicate Ready()
      reads debts, payments
    {
      Valid() && debts.Clean() && payments.Clean()
    }

    constructor (debts: DbSet<Debt>, payments: DbSet<DebtPayment>)
      ensures this.debts == debts && this.payments == payments
    {
      this.debts := debts;
      this.payments := payments;
    }

    /** `CompleteAsync()` after this service's writes, all made with the save's clock reading: nothing moves. */
    method Complete(now: Ticks)
      requires Valid()
      requires Stamped(debts.rows, debts.states, now) && Stamped(payments.rows, payments.states, now)
      modifies debts, payments
      ensures Ready()
      ensures debts.rows == old(debts.rows) && payments.rows == old(payments.rows)
      ensures debts.nextId == old(debts.nextId) && payments.nextId == old(payments.nextId)
    {
      Save(debts, now);
      Save(payments, now);
    }

    /** `GetUserActiveDebtsAsync`: the user's open debts, by name. */
    method GetUserActiveDebts(userId: int) returns (r: Result<seq<DebtDto>>)
      requires Valid()
      ensures r.isSuccess && r.value.Some?
      ensures r.value.value == DebtDtos(GetActiveDebtsByUserId(debts.rows, userId))
      ensures forall i, j :: 0 <= i < j < |r.value.value| ==> StrLe(r.value.value[i].name, r.value.value[j].name)
      ensures forall dto {:trigger dto in r.value.value} :: dto in r.value.value <==> ListsOpenDebt(debts.rows, userId, dto)
    {
      var rows := GetActiveDebtsByUserId(debts.rows, userId);
      var dtos := DebtDtos(rows);
      assert forall i, j :: 0 <= i < j < |dtos| ==> StrLe(dtos[i].name, dtos[j].name) by {
        forall i, j | 0 <= i < j < |dtos| ensures StrLe(dtos[i].name, dtos[j].name) {
          assert DebtsByName(rows[i], rows[j]);
        }
      }
      forall dto ensures dto in dtos <==> ListsOpenDebt(debts.rows, userId, dto) {
        if dto in dtos {
          var m :| 0 <= m < |dtos| && dtos[m] == dto;
          assert rows[m] in rows;
          var k :| 0 <= k < |debts.rows| && debts.rows[k] == rows[m];
        }
        if ListsOpenDebt(debts.rows, userId, dto) {
          var k :| 0 <= k < |debts.rows| && Visible(debts.rows[k]) && OpenDebtOf(debts.rows[k], userId)
                   && dto == ToDebtDto(debts.rows[k]);
          assert debts.rows[k] in rows;
          var m :| 0 <= m < |rows| && rows[m] == debts.rows[k];
          assert dtos[m] == dto;
        }
      }
      return Success(dtos);
    }

    /**
     * `GetDebtByIdAsync` as written: the include path "DebtPayments" names
     * no navigation of Debt (the collection is `Payments`), so the query
     * throws and the catch block answers with the server error.
     */
    method GetDebtByIdAsWritten(userId: int, debtId: int) returns (r: Result<DebtDto>)
      requires Valid()
      ensures r == FailureOf(DebtFetchError)
    {
      r := GetDebtByIdIncluding(userId, debtId, "DebtPayments");
    }

    /** `GetDebtByIdAsync` with the include path that exists: the user's live debt, or the not-found message. */
    method GetDebtById(userId: int, debtId: int) returns (r: Result<DebtDto>)
      requires Valid()
      ensures OwnedDebt(debts.rows, userId, debtId).None? ==> r == FailureOf(DebtNotFound(debtId))
      ensures OwnedDebt(debts.rows, userId, debtId).Some? ==>
        r == Success(ToDebtDto(debts.rows[OwnedDebt(debts.rows, userId, debtId).value]))
    {
      r := GetDebtByIdIncluding(userId, debtId, "Payments");
    }

    /** The body of `GetDebtByIdAsync` for a given include path. */
    method GetDebtByIdIncluding(userId: int, debtId: int, path: string) returns (r: Result<DebtDto>)
      requires Valid()
      ensures path !in DebtNavigations ==> r == FailureOf(DebtFetchError)
      ensures path in DebtNavigations && OwnedDebt(debts.rows, userId, debtId).None? ==> r == FailureOf(DebtNotFound(debtId))
      ensures path in DebtNavigations && OwnedDebt(debts.rows, userId, debtId).Some? ==>
        r == Success(ToDebtDto(debts.rows[OwnedDebt(debts.rows, userId, debtId).value]))
    {
      var p := (d: Row<Debt>) => d.id == debtId && d.entity.userId == userId;
      var found := QueryIncluding(debts.rows, p, path, DebtNavigations);
      if found.None? {
        return FailureOf(DebtFetchError);
      }
      FirstIndexIsHead(debts.rows, p);
      if found.value == [] {
        return FailureOf(DebtNotFound(debtId));
      }
      return Success(ToDebtDto(found.value[0]));
    }

    /**
     * `CreateDebtAsync`: an accepted request adds the user's debt, paid off
     * exactly when nothing remains. The service's own check that the
     * remainder is not above the total is already one of the validator's
     * rules, so a request that reaches it always passes it.
     */
    method CreateDebt(userId: int, d: CreateDebtDto, now: Ticks) returns (r: Result<DebtDto>)
      requires Ready()
      modifies debts, payments
      ensures Ready() && payments.rows == old(payments.rows)
      ensures !CreateDebtAcceptable(d) ==> r == Failure(CreateDebtErrors(d)) && debts.rows == old(debts.rows)
      ensures r.isSuccess <==> CreateDebtAcceptable(d)
      ensures r.isSuccess ==>
        var row := Row(old(debts.nextId), now, None, false, NewDebt(userId, d));
        debts.rows == old(debts.rows) + [row] && r == Success(ToDebtDto(row))
    {
      var errs := CreateDebtErrors(d);
      if errs != [] {
        return Failure(errs);
      }
      if d.remainingAmount > d.totalAmount {
        return FailureOf(RemainingAboveTotalError);
      }
      CleanIsStamped(debts.rows, debts.states, now);
      CleanIsStamped(payments.rows, payments.states, now);
      StampedAdd(debts.rows, debts.states, now, Row(debts.nextId, now, None, false, NewDebt(userId, d)));
      ghost var before := debts.rows;
      var added := debts.Add(NewDebt(userId, d), now);
      LiveDebtsExtended(before, added, payments.rows);
      Complete(now);
      return Success(ToDebtDto(added));
    }

    /**
     * `UpdateDebtAsync`: an accepted request renames the user's live debt
     * and sets its lender; amounts, currency and status are untouched.
     */
    method UpdateDebt(userId: int, debtId: int, d: UpdateDebtDto, now: Ticks) returns (r: UnitResult)
      requires Ready()
      modifies debts, payments
      ensures Ready() && payments.rows == old(payments.rows)
      ensures !UpdateDebtAcceptable(d) ==> r == UnitFailure(UpdateDebtErrors(d))
      ensures UpdateDebtAcceptable(d) && OwnedDebt(old(debts.rows), userId, debtId).None? ==>
        r == UnitFailureOf(DebtToUpdateNotFound(debtId))
      ensures !r.isSuccess ==> debts.rows == old(debts.rows)
      ensures r.isSuccess <==> UpdateDebtAcceptable(d) && OwnedDebt(old(debts.rows), userId, debtId).Some?
      ensures r.isSuccess ==>
        var i := OwnedDebt(old(debts.rows), userId, debtId).value;
        var e := old(debts.rows)[i].entity;
        debts.rows == old(debts.rows)[i := old(debts.rows)[i].(entity := e.(name := d.name.value, lenderName := d.lenderName),
                                                               updatedAt := Some(now))]
        && r == UnitSuccess()
    {
      var errs := UpdateDebtErrors(d);
      if errs != [] {
        return UnitFailure(errs);
      }
      var found := OwnedDebt(debts.rows, userId, debtId);
      if found.None? {
        return UnitFailureOf(DebtToUpdateNotFound(debtId));
      }
      var i := found.value;
      var e := debts.rows[i].entity.(name := d.name.value, lenderName := d.lenderName);
      CleanIsStamped(debts.rows, debts.states, now);
      CleanIsStamped(payments.rows, payments.states, now);
      StampedModify(debts.rows, debts.states, now, i, debts.rows[i].(entity := e, updatedAt := Some(now)));
      ghost var before := debts.rows;
      Update(debts, i, e, now);
      LiveDebtsKept(before, debts.rows, payments.rows);
      Complete(now);
      return UnitSuccess();
    }

    /**
     * `DeleteDebtAsync`: soft-deletes the user's live debt unless a live
     * payment refers to it; afterwards no lookup by its id finds it.
     */
    method DeleteDebt(userId: int, debtId: int, now: Ticks) returns (r: UnitResult)
      requires Ready()
      modifies debts, payments
      ensures Ready() && payments.rows == old(payments.rows)
      ensures OwnedDebt(old(debts.rows), userId, debtId).None? ==> r == UnitFailureOf(DebtToDeleteNotFound(debtId))
      ensures OwnedDebt(old(debts.rows), userId, debtId).Some? && GetPaymentsByDebtId(payments.rows, debtId) != [] ==>
        r == UnitFailureOf(DebtHasPayments)
      ensures !r.isSuccess ==> debts.rows == old(debts.rows)
      ensures r.isSuccess <==> OwnedDebt(old(debts.rows), userId, debtId).Some?
                               && forall k :: 0 <= k < |payments.rows| && Visible(payments.rows[k])
                                              ==> payments.rows[k].entity.debtId != debtId
      ensures r.isSuccess ==>
        var i := OwnedDebt(old(debts.rows), userId, debtId).value;
        debts.rows == old(debts.rows)[i := old(debts.rows)[i].(isDeleted := true, updatedAt := Some(now))]
        && GetById(debts.rows, debtId).None? && r == UnitSuccess()
    {
      var found := OwnedDebt(debts.rows, userId, debtId);
      if found.None? {
        return UnitFailureOf(DebtToDeleteNotFound(debtId));
      }
      var i := found.value;
      var linked := GetPaymentsByDebtId(payments.rows, debtId);
      if linked != [] {
        assert linked[0] in linked;
        return UnitFailureOf(DebtHasPayments);
      }
      forall k | 0 <= k < |payments.rows| && Visible(payments.rows[k]) ensures payments.rows[k].entity.debtId != debtId {
        assert payments.rows[k] in linked <==> payments.rows[k] in payments.rows && Visible(payments.rows[k])
                                               && payments.rows[k].entity.debtId == debtId;
      }
      CleanIsStamped(debts.rows, debts.states, now);
      CleanIsStamped(payments.rows, payments.states, now);
      StampedModify(debts.rows, debts.states, now, i, debts.rows[i].(isDeleted := true, updatedAt := Some(now)));
      DeleteKeepsPaymentsOnLiveDebts(debts.rows, payments.rows, i, now);
      DeletedIsHidden(debts.rows, i, now, debtId);
      Delete(debts, i, now);
      Complete(now);
      return UnitSuccess();
    }

    /**
     * `AddDebtPaymentAsync`: an accepted payment on the user's live debt
     * that is not yet paid off and whose remainder covers the amount is
     * recorded, and the debt's remainder drops by the amount, the debt
     * becoming paid off when nothing remains. Every refusal changes nothing.
     */
    method AddDebtPayment(userId: int, d: CreateDebtPaymentDto, now: Ticks) returns (r: Result<DebtPaymentDto>)
      requires Ready()
      modifies debts, payments
      ensures Ready()
      ensures !PaymentAcceptable(d, now) ==> r == Failure(PaymentErrors(d, now))
      ensures PaymentAcceptable(d, now) && OwnedDebt(old(debts.rows), userId, d.debtId).None? ==>
        r == FailureOf(DebtToPayNotFound(d.debtId))
      ensures PaymentAcceptable(d, now) && OwnedDebt(old(debts.rows), userId, d.debtId).Some? ==>
        var e := old(debts.rows)[OwnedDebt(old(debts.rows), userId, d.debtId).value].entity;
        (e.isPaidOff ==> r == FailureOf(DebtAlreadyPaidOff))
        && (!e.isPaidOff && d.amount > e.remainingAmount ==> r == FailureOf(PaymentAboveRemaining(d.amount, e.remainingAmount)))
        && (r.isSuccess <==> !e.isPaidOff && d.amount <= e.remainingAmount)
      ensures !r.isSuccess ==> debts.rows == old(debts.rows) && payments.rows == old(payments.rows)
      ensures r.isSuccess ==>
        var i := OwnedDebt(old(debts.rows), userId, d.debtId).value;
        var e := old(debts.rows)[i].entity;
        var paid := Row(old(payments.nextId), now, None, false, DebtPayment(d.debtId, d.amount, d.paymentDate, d.notes));
        payments.rows == old(payments.rows) + [paid]
        && debts.rows == old(debts.rows)[i := old(debts.rows)[i].(entity := ApplyPayment(e, d.amount), updatedAt := Some(now))]
        && debts.rows[i].entity.remainingAmount == e.remainingAmount - d.amount
        && r == Success(ToPaymentDto(paid))
    {
      var errs := PaymentErrors(d, now);
      if errs != [] {
        return Failure(errs);
      }
      var found := OwnedDebt(debts.rows, userId, d.debtId);
      if found.None? {
        return FailureOf(DebtToPayNotFound(d.debtId));
      }
      var i := found.value;
      var debt := debts.rows[i].entity;
      if debt.isPaidOff {
        return FailureOf(DebtAlreadyPaidOff);
      }
      if d.amount > debt.remainingAmount {
        return FailureOf(PaymentAboveRemaining(d.amount, debt.remainingAmount));
      }
      var added := RecordPayment(i, DebtPayment(d.debtId, d.amount, d.paymentDate, d.notes), now);
      return Success(ToPaymentDto(added));
    }

    /** The write of `AddDebtPaymentAsync`: the payment is added and debt `i` loses its amount, in one save. */
    method RecordPayment(i: nat, payment: DebtPayment, now: Ticks) returns (added: Row<DebtPayment>)
      requires Ready() && i < |debts.rows| && Visible(debts.rows[i]) && debts.rows[i].id == payment.debtId
      requires !debts.rows[i].entity.isPaidOff && 0 < payment.amount <= debts.rows[i].entity.remainingAmount
      modifies debts, payments
      ensures Ready()
      ensures added == Row(old(payments.nextId), now, None, false, payment)
      ensures payments.rows == old(payments.rows) + [added]
      ensures var e := old(debts.rows)[i].entity;
              debts.rows == old(debts.rows)[i := old(debts.rows)[i].(entity := ApplyPayment(e, payment.amount), updatedAt := Some(now))]
              && debts.rows[i].entity.remainingAmount == e.remainingAmount - payment.amount
    {
      var debt := debts.rows[i].entity;
      assert DebtConsistent(debt);
      PaymentKeepsDebtConsistent(debt, payment.amount);
      CleanIsStamped(debts.rows, debts.states, now);
      CleanIsStamped(payments.rows, payments.states, now);
      StampedAdd(payments.rows, payments.states, now, Row(payments.nextId, now, None, false, payment));
      ghost var paymentsBefore := payments.rows;
      added := payments.Add(payment, now);
      PaymentOnLiveDebtAdded(paymentsBefore, added, debts.rows, i);
      var paid := ApplyPayment(debt, payment.amount);
      StampedModify(debts.rows, debts.states, now, i, debts.rows[i].(entity := paid, updatedAt := Some(now)));
      ghost var debtsBefore := debts.rows;
      Update(debts, i, paid, now);
      LiveDebtsKept(debtsBefore, debts.rows, payments.rows);
      Complete(now);
    }

    /** `GetDebtPaymentsAsync`: the payments of the user's live debt, newest first. */
    method GetDebtPayments(userId: int, debtId: int) returns (r: Result<seq<DebtPaymentDto>>)
      requires Valid()
      ensures OwnedDebt(debts.rows, userId, debtId).None? ==> r == FailureOf(DebtNotFoundOrNotOwned(debtId))
      ensures OwnedDebt(debts.rows, userId, debtId).Some? ==> r == Success(PaymentDtos(GetPaymentsByDebtId(payments.rows, debtId)))
    {
      var found := OwnedDebt(debts.rows, userId, debtId);
      if found.None? {
        return FailureOf(DebtNotFoundOrNotOwned(debtId));
      }
      return Success(PaymentDtos(GetPaymentsByDebtId(payments.rows, debtId)));
    }
  }

  /** Adding a live debt keeps every live payment on a live debt. */
  lemma LiveDebtsExtended(before: seq<Row<Debt>>, added: Row<Debt>, payments: seq<Row<DebtPayment>>)
    requires PaymentsOnLiveDebts(payments, before)
    ensures PaymentsOnLiveDebts(payments, before + [added])
  {
    var after := before + [added];
    forall k | 0 <= k < |payments| && Visible(payments[k]) ensures HasLiveDebt(after, payments[k].entity.debtId) {
      var j :| 0 <= j < |before| && Visible(before[j]) && before[j].id == payments[k].entity.debtId;
      assert after[j] == before[j];
    }
  }

  /** A live payment added on the live debt at `i` keeps every live payment on a live debt. */
  lemma PaymentOnLiveDebtAdded(before: seq<Row<DebtPayment>>, added: Row<DebtPayment>, debts: seq<Row<Debt>>, i: nat)
    requires PaymentsOnLiveDebts(before, debts)
    requires i < |debts| && Visible(debts[i]) && debts[i].id == added.entity.debtId
    ensures PaymentsOnLiveDebts(before + [added], debts)
  {
    var after := before + [added];
    forall k | 0 <= k < |after| && Visible(after[k]) ensures HasLiveDebt(debts, after[k].entity.debtId) {
      if k < |before| {
        assert after[k] == before[k];
      }
    }
  }
}
