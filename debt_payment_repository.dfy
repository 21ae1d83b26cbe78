// DebtPaymentRepository: the payments recorded against one debt, newest
// first. Only the payment's own deleted flag is consulted: the debt it
// belongs to is not read at all.

module DebtPaymentRepository {
  import opened Persistence
  import opened BaseRepository
  import opened Ordering
  import opened Entities

  /** `OrderByDescending(p => p.PaymentDate)`. */
  predicate NewestPaymentFirst(a: Row<DebtPayment>, b: Row<DebtPayment>)
  {
    a.entity.paymentDate >= b.entity.paymentDate
  }

  /** `GetPaymentsByDebtIdAsync(debtId)`: exactly the live payments of that debt, latest payment date first. */
  function GetPaymentsByDebtId(rows: seq<Row<DebtPayment>>, debtId: int): (r: seq<Row<DebtPayment>>)
    ensures forall x {:trigger x in r} :: x in r <==> x in rows && Visible(x) && x.entity.debtId == debtId
    ensures Sorted(r, NewestPaymentFirst)
  {
    var p := (x: Row<DebtPayment>) => x.entity.debtId == debtId;
    assert TotalPreorder(NewestPaymentFirst);
    GetOrderedSpec(rows, p, NewestPaymentFirst);
    GetOrdered(rows, p, NewestPaymentFirst)
  }
}
