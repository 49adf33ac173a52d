/** Payments on an invoice, handled one request after the other. */
module InvoiceLedger {
  import opened Prelude

  /** What became of a write: it never reached the table, it was stored and the answer got lost, the table refused it,
      or it was stored. The handler stops at the first two kinds, which look alike to it. */
  datatype Write = Unsent | Unanswered | Refused | Stored

  predicate InTable(w: Write) { w.Stored? || w.Unanswered? }

  /** The handler heard back, and goes on whatever it heard. */
  predicate Heard(w: Write) { w.Refused? || w.Stored? }

  datatype Request = Request(amount: real, paymentDate: string, insert: Write, update: Write)

  datatype Ledger = Ledger(status: string, total: real, amountPaid: real, balanceDue: real, payments: seq<real>)

  datatype Reply = BadAmount | DateMissing | Voided | StillDraft | FullyPaid | ExceedsBalance | WriteFailed | Accepted

  function Validate(l: Ledger, req: Request): Option<Reply> {
    if req.amount <= 0.0 then Some(BadAmount)
    else if Trim(req.paymentDate) == "" then Some(DateMissing)
    else if l.status == "void" then Some(Voided)
    else if l.status == "draft" then Some(StillDraft)
    else if l.balanceDue <= 0.0 then Some(FullyPaid)
    else if req.amount > l.balanceDue then Some(ExceedsBalance)
    else None
  }

  /** A request that may be paid: a positive amount, no more than is due, with a date, on an invoice that is posted and not void. */
  predicate Payable(l: Ledger, req: Request) {
    0.0 < req.amount <= l.balanceDue && Trim(req.paymentDate) != "" && l.status != "void" && l.status != "draft"
  }

  /** Why a request is answered so, said of the request and the invoice. */
  ghost predicate AnsweredFor(l: Ledger, req: Request, reply: Reply) {
    var asked := req.amount > 0.0 && Trim(req.paymentDate) != "";
    var open := asked && l.status != "void" && l.status != "draft";
    match reply
    case BadAmount => req.amount <= 0.0
    case DateMissing => req.amount > 0.0 && Trim(req.paymentDate) == ""
    case Voided => asked && l.status == "void"
    case StillDraft => asked && l.status == "draft"
    case FullyPaid => open && l.balanceDue <= 0.0
    case ExceedsBalance => open && 0.0 < l.balanceDue < req.amount
    case WriteFailed =>
      Payable(l, req) && (req.insert.Unsent? || req.insert.Unanswered? || req.update.Unsent? || req.update.Unanswered?)
    case Accepted => Payable(l, req) && (req.insert.Refused? || req.insert.Stored?) && (req.update.Refused? || req.update.Stored?)
  }

  /** Every answer is given exactly for its own reason; success, in particular, also where a write was refused. */
  lemma ReplyIff(l: Ledger, req: Request, reply: Reply)
    ensures Handle(l, req).1 == reply <==> AnsweredFor(l, req, reply)
  {
    assert "void" != "draft" by {
      assert "void"[0] != "draft"[0];
    }
  }

  function Max(a: real, b: real): real { if a < b then b else a }

  function Updated(l: Ledger, amount: real): Ledger {
    var paid := l.amountPaid + amount;
    var due := Max(l.total - paid, 0.0);
    l.(amountPaid := paid, balanceDue := due, status := if due <= 0.001 then "paid" else "partially_paid")
  }

  /** What a request does once it is checked. */
  function Settled(refusal: Option<Reply>, l: Ledger, req: Request): (Ledger, Reply) {
    if refusal.Some? then (l, refusal.value)
    else
      var l1 := if InTable(req.insert) then l.(payments := l.payments + [req.amount]) else l;
      if !Heard(req.insert) then (l1, WriteFailed)
      else (if InTable(req.update) then Updated(l1, req.amount) else l1, if Heard(req.update) then Accepted else WriteFailed)
  }

  function Handle(l: Ledger, req: Request): (Ledger, Reply) { Settled(Validate(l, req), l, req) }

  class Invoice {
    var status: string
    var total: real
    var amountPaid: real
    var balanceDue: real
    var payments: seq<real>

    function View(): Ledger
      reads this
    {
      Ledger(status, total, amountPaid, balanceDue, payments)
    }

    constructor (status: string, total: real)
      ensures View() == Ledger(status, total, 0.0, total, [])
    {
      this.status, this.total, amountPaid, balanceDue, payments := status, total, 0.0, total, [];
    }

    method CreatePayment(req: Request) returns (reply: Reply)
      modifies this
      ensures (View(), reply) == Handle(old(View()), req)
    {
      if req.amount <= 0.0 {
        return BadAmount;
      }
      if Trim(req.paymentDate) == "" {
        return DateMissing;
      }
      if status == "void" {
        return Voided;
      }
      if status == "draft" {
        return StillDraft;
      }
      if balanceDue <= 0.0 {
        return FullyPaid;
      }
      if req.amount > balanceDue {
        return ExceedsBalance;
      }
      if InTable(req.insert) {
        payments := payments + [req.amount];
      }
      if !Heard(req.insert) {
        return WriteFailed;
      }
      var newAmountPaid := amountPaid + req.amount;
      var newBalanceDue := Max(total - newAmountPaid, 0.0);
      var newStatus := if newBalanceDue <= 0.001 then "paid" else "partially_paid";
      if InTable(req.update) {
        amountPaid, balanceDue, status := newAmountPaid, newBalanceDue, newStatus;
      }
      if !Heard(req.update) {
        return WriteFailed;
      }
      return Accepted;
    }
  }

  // ---------------------------------------------------------------------
  // Runs
  // ---------------------------------------------------------------------

  function Final(start: Ledger, run: seq<Request>): Ledger {
    if run == [] then start else Handle(Final(start, run[..|run| - 1]), run[|run| - 1]).0
  }

  function Paid(payments: seq<real>): real {
    if payments == [] then 0.0 else Paid(payments[..|payments| - 1]) + payments[|payments| - 1]
  }

  predicate Fresh(l: Ledger) {
    l.amountPaid == 0.0 && l.balanceDue == l.total >= 0.0 && l.payments == []
  }

  predicate Balanced(l: Ledger) { l.amountPaid + l.balanceDue == l.total && l.balanceDue >= 0.0 && l.amountPaid >= 0.0 }

  /** Money recorded in the payments table that a request failed to bring into the invoice, less money it
      brought into the invoice without recording it. */
  function Drift(l: Ledger, req: Request): real {
    if Validate(l, req).Some? then 0.0
    else (if InTable(req.insert) then req.amount else 0.0) - (if Heard(req.insert) && InTable(req.update) then req.amount else 0.0)
  }

  function TotalDrift(start: Ledger, run: seq<Request>): real {
    if run == [] then 0.0
    else TotalDrift(start, run[..|run| - 1]) + Drift(Final(start, run[..|run| - 1]), run[|run| - 1])
  }

  lemma PaidSnoc(payments: seq<real>, amount: real)
    ensures Paid(payments + [amount]) == Paid(payments) + amount
  {
    assert (payments + [amount])[..|payments|] == payments;
  }

  lemma UpdatedBalances(l: Ledger, amount: real)
    requires Balanced(l) && 0.0 < amount <= l.balanceDue
    ensures var l' := Updated(l, amount);
            && Balanced(l') && l'.total == l.total && l'.payments == l.payments && l'.amountPaid == l.amountPaid + amount
            && l'.balanceDue == l.balanceDue - amount == l.total - l'.amountPaid
            && (l'.status == "paid" <==> l'.balanceDue <= 0.001)
            && (l'.status != "paid" ==> l'.status == "partially_paid")
  {
    assert "paid" != "partially_paid" by {
      assert |"paid"| == 4 && |"partially_paid"| == 14;
    }
  }

  /** One request keeps the invoice balanced whatever its writes do; the clamp at zero never acts; and
      a payment that reached the invoice leaves it paid exactly when at most 0.001 is due. */
  lemma HandleKeepsBalance(l: Ledger, req: Request)
    requires Balanced(l)
    ensures var (l', reply) := Handle(l, req);
            && Balanced(l') && l'.total == l.total
            && Paid(l'.payments) - l'.amountPaid == Paid(l.payments) - l.amountPaid + Drift(l, req)
            && (Validate(l, req).None? && Heard(req.insert) && InTable(req.update) ==>
                  && l'.balanceDue == l.balanceDue - req.amount == l.total - l'.amountPaid
                  && (l'.status == "paid" <==> l'.balanceDue <= 0.001)
                  && (l'.status != "paid" ==> l'.status == "partially_paid"))
            && (reply.Accepted? ==> 0.0 < req.amount <= l.balanceDue && l.status != "void" && l.status != "draft")
            && (!reply.Accepted? && !reply.WriteFailed? ==> l' == l)
  {
    ValidateIs(l, req);
    SettledKeepsBalance(Validate(l, req), l, req);
  }

  lemma ValidateIs(l: Ledger, req: Request)
    ensures Validate(l, req).None? <==> Payable(l, req)
    ensures Validate(l, req).Some? ==> !Validate(l, req).value.Accepted? && !Validate(l, req).value.WriteFailed?
  {
  }

  lemma SettledKeepsBalance(refusal: Option<Reply>, l: Ledger, req: Request)
    requires Balanced(l) && (refusal.None? ==> 0.0 < req.amount <= l.balanceDue)
    ensures var (l', reply) := Settled(refusal, l, req);
            && Balanced(l') && l'.total == l.total
            && (refusal.Some? ==> l' == l && reply == refusal.value)
            && (refusal.None? ==> reply.Accepted? || reply.WriteFailed?)
            && (refusal.None? ==> Paid(l'.payments) - l'.amountPaid == Paid(l.payments) - l.amountPaid
                                  + (if InTable(req.insert) then req.amount else 0.0)
                                  - (if Heard(req.insert) && InTable(req.update) then req.amount else 0.0))
            && (refusal.None? && Heard(req.insert) && InTable(req.update) ==>
                  && l'.balanceDue == l.balanceDue - req.amount == l.total - l'.amountPaid
                  && (l'.status == "paid" <==> l'.balanceDue <= 0.001)
                  && (l'.status != "paid" ==> l'.status == "partially_paid"))
  {
    PaidSnoc(l.payments, req.amount);
    if refusal.None? {
      UpdatedBalances(l, req.amount);
      UpdatedBalances(l.(payments := l.payments + [req.amount]), req.amount);
    }
  }

  /** Over every run, with every pattern of failed writes: what is paid and what is due add up to the total,
      and the payments table and the invoice differ by the drift of the run and nothing else. */
  lemma {:induction false} LedgerConserved(start: Ledger, run: seq<Request>)
    requires Fresh(start)
    ensures var l := Final(start, run);
            && Balanced(l) && l.total == start.total
            && Paid(l.payments) == l.amountPaid + TotalDrift(start, run)
  {
    if run != [] {
      LedgerConserved(start, run[..|run| - 1]);
      HandleKeepsBalance(Final(start, run[..|run| - 1]), run[|run| - 1]);
    }
  }

  predicate AllStored(run: seq<Request>) {
    forall i :: 0 <= i < |run| ==> run[i].insert.Stored? && run[i].update.Stored?
  }

  lemma {:induction false} NoDrift(start: Ledger, run: seq<Request>)
    requires AllStored(run)
    ensures TotalDrift(start, run) == 0.0
  {
    if run != [] {
      NoDrift(start, run[..|run| - 1]);
    }
  }

  /** When all writes are stored, the invoice shows exactly the payments recorded, and never more than the total is taken. */
  lemma StoredWritesConserve(start: Ledger, run: seq<Request>)
    requires Fresh(start) && AllStored(run)
    ensures var l := Final(start, run);
            l.amountPaid == Paid(l.payments) && Paid(l.payments) + l.balanceDue == l.total && Paid(l.payments) <= l.total
  {
    LedgerConserved(start, run);
    NoDrift(start, run);
  }

  /** The invoice shows what the payments table holds, after every request of the run. */
  predicate AlwaysAgrees(start: Ledger, run: seq<Request>) {
    forall k :: 0 <= k <= |run| ==> Agrees(Final(start, run[..k]))
  }

  predicate Agrees(l: Ledger) { l.amountPaid == Paid(l.payments) }

  /** A request that passes the checks has both its writes stored or neither; the second is not tried if nothing is
      heard of the first. */
  predicate WritesTogether(l: Ledger, req: Request) {
    Validate(l, req).None? ==> (InTable(req.insert) <==> Heard(req.insert) && InTable(req.update))
  }

  predicate AllWriteTogether(start: Ledger, run: seq<Request>) {
    forall k :: 0 <= k < |run| ==> WritesTogetherAt(start, run, k)
  }

  predicate WritesTogetherAt(start: Ledger, run: seq<Request>, k: nat)
    requires k < |run|
  {
    WritesTogether(Final(start, run[..k]), run[k])
  }

  lemma StepAgreesIff(l: Ledger, req: Request)
    requires Balanced(l) && Agrees(l)
    ensures Agrees(Handle(l, req).0) <==> WritesTogether(l, req)
  {
    HandleKeepsBalance(l, req);
  }

  /** The invoice shows the recorded payments throughout a run exactly when no request of it has one of its two
      writes stored and the other not: a refused write breaks the ledger as a lost one does. */
  lemma {:induction false} LedgerAgreesIff(start: Ledger, run: seq<Request>)
    requires Fresh(start)
    ensures AlwaysAgrees(start, run) <==> AllWriteTogether(start, run)
  {
    if run != [] {
      var front := run[..|run| - 1];
      LedgerAgreesIff(start, front);
      LedgerConserved(start, front);
      AgreesSnoc(start, run);
      TogetherSnoc(start, run);
      if Agrees(Final(start, front)) {
        StepAgreesIff(Final(start, front), run[|run| - 1]);
      }
    }
  }

  lemma AgreesSnoc(start: Ledger, run: seq<Request>)
    requires run != []
    ensures var front := run[..|run| - 1];
            && (AlwaysAgrees(start, run) <==> AlwaysAgrees(start, front) && Agrees(Final(start, run)))
            && (AlwaysAgrees(start, front) ==> Agrees(Final(start, front)))
  {
    var front := run[..|run| - 1];
    assert run[..|run|] == run && front[..|front|] == front;
    assert forall k :: 0 <= k <= |front| ==> front[..k] == run[..k];
  }

  lemma TogetherSnoc(start: Ledger, run: seq<Request>)
    requires run != []
    ensures var front := run[..|run| - 1];
            AllWriteTogether(start, run) <==> AllWriteTogether(start, front) && WritesTogether(Final(start, front), run[|run| - 1])
  {
    var front := run[..|run| - 1];
    forall k | 0 <= k < |front| ensures WritesTogetherAt(start, front, k) == WritesTogetherAt(start, run, k) {
      assert front[..k] == run[..k];
    }
    assert WritesTogetherAt(start, run, |front|) == WritesTogether(Final(start, front), run[|run| - 1]);
    if AllWriteTogether(start, run) {
      assert forall k :: 0 <= k < |front| ==> WritesTogetherAt(start, run, k);
    }
  }

  lemma FinalSnoc(start: Ledger, run: seq<Request>, req: Request)
    ensures Final(start, run + [req]) == Handle(Final(start, run), req).0
  {
    assert (run + [req])[..|run|] == run;
  }

  /** A lost update, or a stored payment whose answer is lost, lets any open invoice be paid in full twice. */
  lemma LostUpdatePaysTwice(start: Ledger, date: string, first: Request)
    requires Fresh(start) && start.total > 0.0 && start.status != "void" && start.status != "draft" && Trim(date) != ""
    requires first == Request(start.total, date, Stored, Unsent) || first == Request(start.total, date, Unanswered, Unsent)
    ensures var run := [first] + [Request(start.total, date, Stored, Stored)];
            Paid(Final(start, run).payments) == 2.0 * start.total
  {
    var second := Request(start.total, date, Stored, Stored);
    FinalSnoc(start, [], first);
    assert [] + [first] == [first];
    FinalSnoc(start, [first], second);
    PaidSnoc([], start.total);
    PaidSnoc([] + [start.total], start.total);
  }
}
