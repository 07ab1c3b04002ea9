/** Ticket purchase: one transaction that debits the wallet and creates the ticket. */
module Tickets {
  import opened Wrappers
  import opened Store
  import Wallet

  const TICKET_EXPIRY_MS := 60 * 60 * 1000

  function NewTicket(u: UserId, fare: int, now: int): Ticket {
    Ticket(u, fare, now, now + TICKET_EXPIRY_MS, Active, None, None)
  }

  function Purchased(db: Db, u: UserId, fare: int, t: TicketId, key: Key, now: int): Result<Db, Error> {
    match Wallet.Debited(db, u, fare, t, key)
    case Failure(e) => Failure(e)
    case Success(paid) =>
      if t in db.tickets then Failure(DuplicateTicket)
      else Success(paid.(tickets := paid.tickets[t := NewTicket(u, fare, now)]))
  }

  /** A failure anywhere in the transaction leaves every table as it was. */
  method Purchase(db: Database, u: UserId, fare: int, t: TicketId, key: Key, now: int)
    returns (r: Result<Ticket, Error>)
    modifies db
    ensures var want := Purchased(old(db.Rows()), u, fare, t, key, now);
            && (want.Success? ==> db.Rows() == want.value && r == Success(db.tickets[t]))
            && (want.Failure? ==> db.Rows() == old(db.Rows()) && r == Failure(want.error))
    ensures db.trips == old(db.trips)
  {
    var balances, ledger, events := db.balances, db.ledger, db.events;
    var tickets := db.tickets;
    ghost var completed := db.completed;
    var paid := Wallet.Debit(db, u, fare, t, key);
    if paid.Success? && t !in db.tickets {
      var ticket := NewTicket(u, fare, now);
      db.tickets := db.tickets[t := ticket];
      return Success(ticket);
    }
    r := Failure(if paid.Failure? then paid.error else DuplicateTicket);
    db.balances, db.ledger, db.events, db.tickets := balances, ledger, events, tickets;
    db.completed := completed;
  }
}
