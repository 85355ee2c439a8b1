/** The outbox: what the committed events of one invoice say happened to it. */
module History {
  import opened Common
  import opened Schema

  datatype Past =
    | Absent
    | Live(failures: nat)
    | PaidAfter(failures: nat)
    | VoidedAfter(failures: nat)
    | Broken

  function Advance(past: Past, kind: EventKind): Past {
    match (past, kind)
    case (Absent, InvoiceCreated) => Live(0)
    case (Live(n), InvoicePaymentFailed) => Live(n + 1)
    case (Live(n), InvoicePaid) => PaidAfter(n)
    case (Live(n), InvoiceVoided) => VoidedAfter(n)
    case (_, _) => Broken
  }

  /** The events of one invoice, folded in commit order. */
  function Fold(events: seq<Event>, invoice: Id): Past {
    if events == [] then Absent
    else
      var past := Fold(events[..|events| - 1], invoice);
      var last := events[|events| - 1];
      if last.invoice == invoice then Advance(past, last.kind) else past
  }

  lemma FoldAppend(events: seq<Event>, event: Event, invoice: Id)
    ensures Fold(events + [event], invoice) ==
            if event.invoice == invoice then Advance(Fold(events, invoice), event.kind) else Fold(events, invoice)
  {
    assert (events + [event])[..|events|] == events;
  }

  /** The kinds of one invoice's events, in commit order. */
  function Kinds(events: seq<Event>, invoice: Id): seq<EventKind> {
    if events == [] then []
    else
      var last := events[|events| - 1];
      Kinds(events[..|events| - 1], invoice) + if last.invoice == invoice then [last.kind] else []
  }

  function Retries(failures: nat): seq<EventKind> {
    seq(failures, _ => InvoicePaymentFailed)
  }

  /** created, payment_failed*, then at most one of paid or voided, and nothing after. */
  function Shape(past: Past): seq<EventKind>
    requires past != Broken
  {
    match past
    case Absent => []
    case Live(n) => [InvoiceCreated] + Retries(n)
    case PaidAfter(n) => [InvoiceCreated] + Retries(n) + [InvoicePaid]
    case VoidedAfter(n) => [InvoiceCreated] + Retries(n) + [InvoiceVoided]
  }

  /** A fold that does not break pins down the whole event sequence. */
  lemma {:induction false} FoldGivesShape(events: seq<Event>, invoice: Id)
    ensures Fold(events, invoice) != Broken ==> Kinds(events, invoice) == Shape(Fold(events, invoice))
  {
    if events != [] {
      var front := events[..|events| - 1];
      var last := events[|events| - 1];
      FoldGivesShape(front, invoice);
      if last.invoice == invoice && Fold(events, invoice) != Broken {
        match Fold(front, invoice) {
          case Live(n) => assert Retries(n) + [InvoicePaymentFailed] == Retries(n + 1);
          case _ =>
        }
      }
    }
  }
}
