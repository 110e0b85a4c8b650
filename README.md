# Dust2Cash core model

A Dafny model of the domain core of Dust2Cash, a web application in which
clients convert crypto balances into mobile money with the help of human
agents. The model covers the two parts of the repository that hold logic:

- the records of `core/models.py`: client profiles and their completeness
  check, agent presence (`go_online` / `go_offline`), transactions with
  their exact `Decimal` payout `amount * exchange_rate - transaction_fee`,
  the eight transaction statuses and their `pending` default, and agent
  requests with their expiry check;
- the phone-number normaliser of `core/utils/phone.py`. It strips and
  filters the text, rewrites Kenyan prefixes to `+254…` and checks the
  length. Failures come back as a `Result` carrying one of its three errors.

Layout:

| file | module | contents |
|---|---|---|
| `wrappers.dfy` | `Wrappers` | `Option` for nullable fields, `Result` for raised errors |
| `decimals.dfy` | `Decimals` | finite Python decimals (coefficient and places), exact value as a `real`, `*` and `-`, the payout |
| `status.dfy` | `TransactionStatus` | the status enumeration and its stored codes |
| `models.dfy` | `Models` | the classes `ClientProfile`, `AgentProfile`, `Transaction`, `AgentRequest` |
| `phone.dfy` | `Phone` | `Normalize` and its rule lemmas |

Each record is a class whose methods assign its fields in place. Each
method's `modifies` clause names exactly the fields the Python method
assigns. The current time, `timezone.now()`, is an explicit `now` parameter.
Saving a record does nothing in the model.

A finite Python `Decimal` whose exponent is not positive is modelled as
`Decimal(coef, places)`. Multiplication adds
the places. Subtraction aligns both operands to the larger number of places.
`Value` gives the exact rational a decimal denotes. The payout is proved equal
to `amount * exchange_rate - transaction_fee` with no rounding. The operands
may be any values `DecimalField(max_digits=10, decimal_places=2)` accepts: at
most ten digits and at most two places. A form-typed amount such as "100"
keeps zero places. For all such operands the product and the payout have
coefficients of at most 28 digits. That is the precision of Python's default
decimal context, so Python rounds neither operation. The payout has at most
four places. When all operands are read back from the database, with exactly
two places, it has exactly four places.

The agent-request expiry check is specified by the pure function
`Models.ExpiryCheck` over the request's flags. `AgentRequest.CheckExpiry`
is proved to follow it. The lemmas about `ExpiryCheck` give the properties
that relate several calls.

The phone length bound (10 to 15) counts characters, and the leading `+` is
one of them. The error message speaks of digits, so a number of nine digits
plus the `+` is accepted. An input of white space alone is not "missing",
since a non-empty string is truthy in Python. It is rejected as an invalid
format.

- The payout subtracts the flat `transaction_fee` field; no percentage fee is computed.
- No lifetime is set on an agent request: `expires_at` has no default, and
  the constructor takes it as given.

## Model

| member | source | states |
|---|---|---|
| `Decimals.Mul` | core/models.py:103 | the product's exact value is the product of the operands' values; its places are the sum of theirs |
| `Decimals.Sub` | core/models.py:103 | the difference's exact value is the difference of the operands' values; its places are the larger of theirs |
| `Decimals.Rescale` | core/models.py:103 | aligning a decimal to more places keeps its value |
| `Decimals.AmountToReceive` | core/models.py:101-105 | the payout equals `amount * exchange_rate - transaction_fee` exactly, with `amount.places + rate.places` places (or the fee's, if more) |
| `Decimals.DefaultPricing` | core/models.py:86-87 | with the default rate 100.00 and fee 0.00 the payout is exactly the amount times 100 |
| `Decimals.PayoutIsExact` | core/models.py:84-88 | for any operands of at most ten digits and at most two places, the product's and the payout's coefficients have at most 28 digits (the payout's is below 10^22 + 10^14), so the default context rounds neither the multiplication nor the subtraction; the payout has at most 4 places |
| `Decimals.StoredPayoutBound` | core/models.py:84-88 | for operands with exactly two places, as read back from the database, the payout has exactly 4 places and a coefficient below 10^20 + 10^12 |
| `TransactionStatus.Code` | core/models.py:67-76 | each of the eight statuses has a non-empty code that fits the 20-character column |
| `TransactionStatus.FromCode` | core/models.py:67-76 | a code that is read back names a status whose code it is; anything else is rejected |
| `TransactionStatus.CodeRoundTrip` | core/models.py:67-76 | every status is read back from its own code |
| `TransactionStatus.CodeInjective` | core/models.py:67-76 | distinct statuses have distinct codes |
| `Models.AllTruthy` | core/models.py:26 | Python's `all` over strings holds exactly when no string is empty |
| `Models.ClientProfile.constructor` | core/models.py:17-23 | a new profile holds the given identity fields and creation time |
| `Models.ClientProfile.IsComplete` | core/models.py:25-26 | a profile is complete if and only if phone number, first name, last name and email are all non-empty |
| `Models.AgentProfile.constructor` | core/models.py:32-35 | a new agent is offline and has never been online |
| `Models.AgentProfile.GoOnline` | core/models.py:37-40 | the agent is online and `last_online` is the given time; only those two fields change; an online agent always has a `last_online` |
| `Models.AgentProfile.GoOffline` | core/models.py:42-44 | the agent is offline and `last_online` is unchanged; only `is_online` changes |
| `Models.Transaction.constructor` | core/models.py:78-99 | a new transaction has status `pending`, no agent, no payout, no address, no timeout, and the rate 100.00 and fee 0.00 unless given |
| `Models.Transaction.CalculateAmountToReceive` | core/models.py:101-105 | the returned and stored payout are the same value, exactly `amount * exchange_rate - transaction_fee`; nothing else changes |
| `Models.AgentRequest.constructor` | core/models.py:115-120 | a new request is neither accepted nor expired and was requested at the given time |
| `Models.AgentRequest.CheckExpiry` | core/models.py:122-127 | returns true and sets `is_expired` exactly when `now > expires_at` and the request is not accepted; otherwise returns false and changes nothing; only `is_expired` can change; never both accepted and expired afterwards if not before |
| `Models.ExpiryCheck` | core/models.py:122-127 | the expiry check never changes `expires_at` or `is_accepted`, never clears `is_expired`, and sets it only when it fires |
| `Models.ExpiryCheckEffect` | core/models.py:122-127 | the check fires exactly for an unaccepted request past its expiry; firing sets only the expired flag, not firing changes nothing |
| `Models.ExpiryCheckKeepsExclusive` | core/models.py:122-127 | the check preserves "not both accepted and expired" |
| `Models.ExpiryCheckIdempotent` | core/models.py:122-127 | a second check at the same instant changes nothing more and returns the same answer |
| `Models.ExpiryCheckMonotone` | core/models.py:122-127 | once the check fires it fires at every later instant, with the same resulting flags |
| `Phone.StripLeading` | core/utils/phone.py:11 | removes exactly the leading white space |
| `Phone.StripTrailing` | core/utils/phone.py:11 | removes exactly the trailing white space |
| `Phone.Strip` | core/utils/phone.py:11 | the result is no longer than the input, neither starts nor ends with white space, and equals the input when the input has no white space at either end |
| `Phone.StripIsSlice` | core/utils/phone.py:11 | stripping removes exactly the leading and trailing white space: the result is the input's middle slice and everything outside it is white space |
| `Phone.Filter` | core/utils/phone.py:11 | the result is no longer than the input and holds only digits and `+` |
| `Phone.FilterOfDropped` | core/utils/phone.py:11 | a string with no digit and no `+` filters to the empty string; with `FilterOfKept` and `FilterAppend` this fixes exactly which characters survive, in order |
| `Phone.FilterAppend` | core/utils/phone.py:11 | filtering distributes over concatenation |
| `Phone.FilterOfKept` | core/utils/phone.py:11 | filtering a string of digits and `+` leaves it unchanged |
| `Phone.StripIsRedundant` | core/utils/phone.py:11 | filtering the stripped text equals filtering the raw text |
| `Phone.Clean` | core/utils/phone.py:11 | the cleaned text holds only digits and `+`, and equals the raw text filtered without stripping |
| `Phone.Rewrite` | core/utils/phone.py:12-21 | a rule applies exactly when the cleaned text starts with `+`, `07` or `2547`; the rewritten number starts with `+` and holds only digits and `+` when the cleaned text does |
| `Phone.PlusPrefixIsKept` | core/utils/phone.py:12-19 | the rule table returns a number that starts with `+` unchanged |
| `Phone.Message` | core/utils/phone.py:8-24 | each of the three errors is raised with its own non-empty message text |
| `Phone.MessagesDistinct` | core/utils/phone.py:8-24 | the three errors have distinct messages |
| `Phone.Normalize` | core/utils/phone.py:7-26 | a successful result is 10 to 15 characters long, starts with `+` and holds only digits and `+` |
| `Phone.NormalizeRequired` | core/utils/phone.py:8-9 | the "Phone number is required" error is raised exactly for the empty input |
| `Phone.NormalizeLocalRule` | core/utils/phone.py:14-15 | cleaned text `07…` becomes `+254` followed by the text without its leading `0`, or a length error |
| `Phone.NormalizeCountryCodeRule` | core/utils/phone.py:16-17 | cleaned text `2547…` becomes `+` followed by the text, or a length error |
| `Phone.NormalizePlusRule` | core/utils/phone.py:12-19 | cleaned text starting with `+` (including `+2547`) is returned unchanged, or a length error |
| `Phone.NormalizeInvalidFormat` | core/utils/phone.py:20-21 | "Invalid phone number format" is raised exactly when the input is non-empty and its cleaned text starts with none of `+`, `07`, `2547` |
| `Phone.NormalFormIsFixed` | core/utils/phone.py:11-26 | every string of 10 to 15 digits or `+` that starts with `+` is returned unchanged |
| `Phone.NormalizeIdempotent` | core/utils/phone.py:11-26 | normalising a successful result again returns it unchanged |

## Left out

- `AdminProfile` and every `__str__`: fields and display text only, no behaviour.
- Persistence: `save()`, `updated_at` refreshed on save, cascade and set-null deletion, and quantising `amount_to_receive` to two places when stored.
- Field widths (`max_length`, `max_digits`) are not enforced by the constructors. Django checks them in forms and in the database. `Decimals.PayoutIsExact` takes them as its precondition.
- Decimal special values (NaN, infinities, signed zero) and rounding beyond the context precision are not modelled.
- Decimals with a positive exponent (e.g. `Decimal('1E+2')`) are not representable.
- `Decimals.Sub` does not model the clamp Python applies when one operand is zero. That clamp only changes the exponent when the two operands' places differ by more than 29.
- `Decimal(self.exchange_rate)` converting a float or a string is not modelled. The rate is always a decimal here.
- The transaction workflow (requesting and accepting agents, addresses, receipts, payments, the expiry sweep) is not modelled: its views are referenced in core/urls.py:18-26 but not defined in core/views.py, which holds only placeholder pages. Only the status values and their default are modelled.
- Platform, currency and payment-method choices are plain datatypes without their stored codes.
- The display labels of the status choices ("Pending", "Agent Requested", …) are not modelled; only the stored codes are.
- `Phone.Normalize`: `None` is represented by the empty string (both are falsy). Applying `str()` to a non-string argument is not modelled. `DEFAULT_COUNTRY_CODE` is read from the environment but never used, so it is left out.
- Notification, SMS and e-mail services, Celery tasks, admin actions, forms, URL routing, settings and browser scripts: I/O and framework plumbing.
