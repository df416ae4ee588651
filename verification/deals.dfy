/** The opportunity ("deal") rows that flow through one approval run, and the
    constants the approval policy compares them against. */
module Deals {

  datatype Option<+T> = None | Some(value: T)

  /** Internal ids of opportunity records and of employees (sales reps). */
  type RecordId = nat
  type RepId = nat

  /** One opportunity as the map stage sees it: the five columns the
      extraction query selects, plus the `salesorder` property that the map
      stage adds (the tranid of the sales order created from it) before it
      emits the record. Amounts are whole currency units. */
  datatype Deal = Deal(
    id: RecordId,
    salesrep: RepId,
    totalamount: int,
    email: string,
    status: string,
    salesorder: Option<string>)

  const OPEN: string := "Open"
  const APPROVED: string := "Approved"
  const CLOSED_WON: string := "Closed Won"
  const CLOSED_LOST: string := "Closed Lost"

  /** Deals strictly below this amount are approved without a human. */
  const AUTO_APPROVE_LIMIT: int := 10000

  /** The extraction query's WHERE clause: closed deals never reach the map stage. */
  predicate PassesExtractionFilter(d: Deal)
  {
    d.status != CLOSED_WON && d.status != CLOSED_LOST
  }

  /** A row exactly as the query returns it: no sales order attached yet. */
  predicate IsQueryRow(d: Deal)
  {
    d.salesorder == None
  }

  /** How the reduce stage's join renders a record's `salesorder`: a missing
      property is `undefined`, which `Array.prototype.join` renders as "". */
  function SalesOrderText(d: Deal): string
  {
    match d.salesorder
    case Some(tranid) => tranid
    case None => ""
  }
}
