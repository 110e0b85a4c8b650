/** The records of the exchange: client and agent profiles, transactions and
    the time-limited invitations sent to agents. Each is a class whose fields
    the methods assign in place; persisting a record is not modelled, and the
    current time is passed in as `now`. */
module Models {
  import opened Wrappers
  import opened Decimals
  import opened TransactionStatus

  /** An instant, as a count of ticks since a fixed epoch. */
  type Timestamp = int

  /** Python's `all(...)` over strings: every one is non-empty (truthy). */
  function AllTruthy(fields: seq<string>): (r: bool)
    ensures r <==> forall i :: 0 <= i < |fields| ==> fields[i] != ""
  {
    if fields == [] then true else fields[0] != "" && AllTruthy(fields[1..])
  }

  class ClientProfile {
    var userId: int
    var phoneNumber: string
    var firstName: string
    var lastName: string
    var email: string
    var createdAt: Timestamp

    constructor (userId: int, phoneNumber: string, firstName: string, lastName: string,
                 email: string, now: Timestamp)
      ensures this.userId == userId && this.phoneNumber == phoneNumber
      ensures this.firstName == firstName && this.lastName == lastName
      ensures this.email == email && createdAt == now
    {
      this.userId := userId;
      this.phoneNumber := phoneNumber;
      this.firstName := firstName;
      this.lastName := lastName;
      this.email := email;
      createdAt := now;
    }

    /** A profile is complete when none of its four identity fields is empty. */
    function IsComplete(): (r: bool)
      reads this
      ensures r <==> phoneNumber != "" && firstName != "" && lastName != "" && email != ""
    {
      var fields := [phoneNumber, firstName, lastName, email];
      assert fields[0] == phoneNumber && fields[1] == firstName;
      assert fields[2] == lastName && fields[3] == email;
      AllTruthy(fields)
    }
  }

  class AgentProfile {
    var userId: int
    var isOnline: bool
    var lastOnline: Option<Timestamp>

    /** An online agent has a time at which it went online. The constructor
        and both presence methods establish it whatever the prior state, so
        no method needs it as a precondition. */
    ghost predicate Valid()
      reads this
    {
      isOnline ==> lastOnline.Some?
    }

    constructor (userId: int)
      ensures Valid()
      ensures this.userId == userId && !isOnline && lastOnline == None
    {
      this.userId := userId;
      isOnline := false;
      lastOnline := None;
    }

    method GoOnline(now: Timestamp)
      modifies this`isOnline, this`lastOnline
      ensures Valid()
      ensures isOnline && lastOnline == Some(now)
    {
      isOnline := true;
      lastOnline := Some(now);
    }

    method GoOffline()
      modifies this`isOnline
      ensures Valid()
      ensures !isOnline && lastOnline == old(lastOnline)
    {
      isOnline := false;
    }
  }

  datatype Platform = Binance | Bybit | Bitget
  datatype Currency = Usdt | WorldCoin
  datatype PaymentMethod = MPesa | AirtelMoney

  class Transaction {
    var client: ClientProfile
    var agent: AgentProfile?
    var platform: Platform
    var currency: Currency
    var amount: Decimal
    var exchangeRate: Decimal
    var transactionFee: Decimal
    var amountToReceive: Option<Decimal>
    var paymentMethod: PaymentMethod
    var paymentPhone: string
    var transferAddress: Option<string>
    var status: Status
    var createdAt: Timestamp
    var updatedAt: Timestamp
    var requestTimeout: Option<Timestamp>

    /** A new transaction; an exchange rate or fee that is not given takes
        the field default (100.00 and 0.00). */
    constructor (client: ClientProfile, platform: Platform, currency: Currency, amount: Decimal,
                 exchangeRate: Option<Decimal>, transactionFee: Option<Decimal>,
                 paymentMethod: PaymentMethod, paymentPhone: string, now: Timestamp)
      ensures this.client == client && agent == null
      ensures this.platform == platform && this.currency == currency && this.amount == amount
      ensures this.exchangeRate == exchangeRate.GetOr(DefaultExchangeRate)
      ensures this.transactionFee == transactionFee.GetOr(DefaultTransactionFee)
      ensures amountToReceive == None && transferAddress == None && requestTimeout == None
      ensures this.paymentMethod == paymentMethod && this.paymentPhone == paymentPhone
      ensures status == Pending
      ensures createdAt == now && updatedAt == now
    {
      this.client := client;
      agent := null;
      this.platform := platform;
      this.currency := currency;
      this.amount := amount;
      this.exchangeRate := exchangeRate.GetOr(DefaultExchangeRate);
      this.transactionFee := transactionFee.GetOr(DefaultTransactionFee);
      amountToReceive := None;
      this.paymentMethod := paymentMethod;
      this.paymentPhone := paymentPhone;
      transferAddress := None;
      status := DefaultStatus;
      createdAt := now;
      updatedAt := now;
      requestTimeout := None;
    }

    /** Computes the payout exactly, stores it and returns it. */
    method CalculateAmountToReceive() returns (total: Decimal)
      modifies this`amountToReceive
      ensures Value(total) == Value(amount) * Value(exchangeRate) - Value(transactionFee)
      ensures total.places == Max(amount.places + exchangeRate.places, transactionFee.places)
      ensures amountToReceive == Some(total)
    {
      total := Sub(Mul(amount, exchangeRate), transactionFee);
      amountToReceive := Some(total);
    }
  }

  /** The flags of an agent request that the expiry check reads and writes. */
  datatype RequestFlags = RequestFlags(expiresAt: Timestamp, isAccepted: bool, isExpired: bool)

  /** A request is never both accepted and expired. */
  predicate Exclusive(f: RequestFlags) {
    !(f.isAccepted && f.isExpired)
  }

  /** Expiry check at time `now`: whether it fired, and the flags afterwards. */
  function ExpiryCheck(f: RequestFlags, now: Timestamp): (res: (bool, RequestFlags))
    ensures res.1.expiresAt == f.expiresAt && res.1.isAccepted == f.isAccepted
    ensures f.isExpired ==> res.1.isExpired
    ensures res.1.isExpired ==> res.0 || f.isExpired
  {
    if now > f.expiresAt && !f.isAccepted then (true, f.(isExpired := true))
    else (false, f)
  }

  /** The check fires exactly for an unaccepted request past its expiry; it
      then marks the request expired, and otherwise changes nothing. */
  lemma ExpiryCheckEffect(f: RequestFlags, now: Timestamp)
    ensures ExpiryCheck(f, now).0 <==> now > f.expiresAt && !f.isAccepted
    ensures ExpiryCheck(f, now).0 ==> ExpiryCheck(f, now).1 == RequestFlags(f.expiresAt, f.isAccepted, true)
    ensures !ExpiryCheck(f, now).0 ==> ExpiryCheck(f, now).1 == f
  {
  }

  /** The check keeps a request from being both accepted and expired. */
  lemma ExpiryCheckKeepsExclusive(f: RequestFlags, now: Timestamp)
    requires Exclusive(f)
    ensures Exclusive(ExpiryCheck(f, now).1)
  {
  }

  /** A second check at the same instant leaves the flags as the first left
      them and reports the same outcome. */
  lemma ExpiryCheckIdempotent(f: RequestFlags, now: Timestamp)
    ensures ExpiryCheck(ExpiryCheck(f, now).1, now) == (ExpiryCheck(f, now).0, ExpiryCheck(f, now).1)
  {
  }

  /** Once the check fires it fires at every later instant too. */
  lemma ExpiryCheckMonotone(f: RequestFlags, now: Timestamp, later: Timestamp)
    requires now <= later && ExpiryCheck(f, now).0
    ensures ExpiryCheck(f, later).0 && ExpiryCheck(f, later).1 == ExpiryCheck(f, now).1
  {
  }

  class AgentRequest {
    var transaction: Transaction
    var requestedAt: Timestamp
    var expiresAt: Timestamp
    var isAccepted: bool
    var isExpired: bool

    function Flags(): RequestFlags
      reads this
    {
      RequestFlags(expiresAt, isAccepted, isExpired)
    }

    constructor (transaction: Transaction, expiresAt: Timestamp, now: Timestamp)
      ensures Exclusive(Flags())
      ensures this.transaction == transaction && requestedAt == now && this.expiresAt == expiresAt
      ensures !isAccepted && !isExpired
    {
      this.transaction := transaction;
      requestedAt := now;
      this.expiresAt := expiresAt;
      isAccepted := false;
      isExpired := false;
    }

    /** Marks the request expired when `now` is past its expiry and no agent
        accepted it, and reports whether it did. */
    method CheckExpiry(now: Timestamp) returns (expired: bool)
      modifies this`isExpired
      ensures (expired, Flags()) == ExpiryCheck(old(Flags()), now)
      ensures expired <==> now > expiresAt && !isAccepted
      ensures isExpired == (old(isExpired) || expired)
      ensures Exclusive(old(Flags())) ==> Exclusive(Flags())
    {
      if now > expiresAt && !isAccepted {
        isExpired := true;
        return true;
      }
      return false;
    }
  }
}
