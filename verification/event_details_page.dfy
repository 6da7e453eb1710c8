/** The ticket counter of the event details page: one to ten tickets at a
    fixed price. */
module EventDetailsPage {

  const MinTickets := 1
  const MaxTickets := 10
  /** The price of the page's event, in whole dollars. */
  const TicketPrice := 45

  /** `ticketCount` and its two handlers. */
  class TicketCounter {
    var ticketCount: int

    ghost predicate Valid()
      reads this
    {
      MinTickets <= ticketCount <= MaxTickets
    }

    constructor ()
      ensures Valid() && ticketCount == 1
    {
      ticketCount := 1;
    }

    /** `handleIncrement`: one more ticket, unless there are ten already. */
    method Increment()
      requires Valid()
      modifies this
      ensures Valid() && ticketCount == Press(old(ticketCount), true)
      ensures old(ticketCount) < MaxTickets ==> ticketCount == old(ticketCount) + 1
      ensures old(ticketCount) == MaxTickets ==> ticketCount == old(ticketCount)
    {
      if ticketCount < MaxTickets {
        ticketCount := ticketCount + 1;
      }
    }

    /** `handleDecrement`: one ticket fewer, unless there is only one. */
    method Decrement()
      requires Valid()
      modifies this
      ensures Valid() && ticketCount == Press(old(ticketCount), false)
      ensures old(ticketCount) > MinTickets ==> ticketCount == old(ticketCount) - 1
      ensures old(ticketCount) == MinTickets ==> ticketCount == old(ticketCount)
    {
      if ticketCount > MinTickets {
        ticketCount := ticketCount - 1;
      }
    }

    /** `totalPrice`. */
    function TotalPrice(): (total: int)
      requires Valid()
      reads this
      ensures total == TicketPrice * ticketCount
      ensures TicketPrice <= total <= TicketPrice * MaxTickets
    {
      TicketPrice * ticketCount
    }
  }

  /** The count after a press of + (`up`) or - (the two handlers' specification). */
  function Press(count: int, up: bool): (next: int)
    requires MinTickets <= count <= MaxTickets
    ensures MinTickets <= next <= MaxTickets
    ensures up ==> next == if count < MaxTickets then count + 1 else count
    ensures !up ==> next == if count > MinTickets then count - 1 else count
  {
    if up && count < MaxTickets then count + 1
    else if !up && count > MinTickets then count - 1
    else count
  }

  /** The count after a sequence of presses, starting from `count`. */
  function Presses(count: int, presses: seq<bool>): (final: int)
    requires MinTickets <= count <= MaxTickets
    ensures MinTickets <= final <= MaxTickets
    decreases |presses|
  {
    if presses == [] then count else Presses(Press(count, presses[0]), presses[1..])
  }

  /** Ten presses of + from any count reach the maximum, whatever came before. */
  lemma {:induction false} EnoughIncrementsReachMax(count: int, n: nat)
    requires MinTickets <= count <= MaxTickets
    requires n >= MaxTickets - count
    ensures Presses(count, seq(n, i => true)) == MaxTickets
    decreases n
  {
    if n > 0 {
      assert seq(n, i => true)[1..] == seq(n - 1, i => true);
      EnoughIncrementsReachMax(Press(count, true), n - 1);
    }
  }
}
