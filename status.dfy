/** The eight values a transaction's `status` column may hold, with the codes
    under which they are stored (a `CharField(max_length=20)` with choices). */
module TransactionStatus {
  import opened Wrappers

  datatype Status =
    | Pending
    | AgentRequested
    | AgentOnline
    | AddressProvided
    | CryptoReceived
    | PaymentSent
    | Completed
    | Cancelled

  /** Width of the status column. */
  const MaxCodeLength: nat := 20

  /** The stored code of each status. */
  function Code(s: Status): (c: string)
    ensures 0 < |c| <= MaxCodeLength
  {
    match s
    case Pending => "pending"
    case AgentRequested => "agent_requested"
    case AgentOnline => "agent_online"
    case AddressProvided => "address_provided"
    case CryptoReceived => "crypto_received"
    case PaymentSent => "payment_sent"
    case Completed => "completed"
    case Cancelled => "cancelled"
  }

  /** Reads a stored code back; `None` for a string that is not one of the
      eight choices. */
  function FromCode(c: string): (r: Option<Status>)
    ensures r.Some? ==> Code(r.value) == c
  {
    if c == "pending" then Some(Pending)
    else if c == "agent_requested" then Some(AgentRequested)
    else if c == "agent_online" then Some(AgentOnline)
    else if c == "address_provided" then Some(AddressProvided)
    else if c == "crypto_received" then Some(CryptoReceived)
    else if c == "payment_sent" then Some(PaymentSent)
    else if c == "completed" then Some(Completed)
    else if c == "cancelled" then Some(Cancelled)
    else None
  }

  /** Every status survives being stored and read back. */
  lemma CodeRoundTrip(s: Status)
    ensures FromCode(Code(s)) == Some(s)
  {
  }

  /** Distinct statuses are stored under distinct codes. */
  lemma CodeInjective(s: Status, t: Status)
    requires Code(s) == Code(t)
    ensures s == t
  {
    CodeRoundTrip(s);
    CodeRoundTrip(t);
  }

  /** The default of a new transaction. */
  const DefaultStatus: Status := Pending
}
