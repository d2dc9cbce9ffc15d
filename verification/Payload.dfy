/** The JSON payload that travels from the webhook through the outbox and the Redis stream to
    the worker, as the code reads it: a JSON value that may or may not be an object,
    and the four keys that are ever looked up in it. */
module Payload {
  import opened Prelude

  datatype Field =
    | Null
    | Boolean(b: bool)
    | Integer(n: int)
    | Float(x: real)
    | Text(s: string)
    | Composite(nonEmpty: bool)

  // An absent key is None; a key present with JSON null is Some(Null).
  datatype Data =
    | NotDict
    | Dict(amount: Option<Field>, transactionId: Option<Field>, kind: Option<Field>, traceId: Option<Field>)

  datatype Flaw = NotADictionary | MissingAmount | AmountNotNumeric | AmountNotPositive

  /** Python's truth value of `data.get(key)`. */
  predicate Truthy(f: Option<Field>) {
    match f
    case None => false
    case Some(Null) => false
    case Some(Boolean(b)) => b
    case Some(Integer(n)) => n != 0
    case Some(Float(x)) => x != 0.0
    case Some(Text(s)) => s != ""
    case Some(Composite(nonEmpty)) => nonEmpty
  }

  /** The relay's check; None means the payload is accepted. A bool is refused even
      though Python counts it as an int. */
  function Validate(d: Data): Option<Flaw> {
    if d.NotDict? then Some(NotADictionary)
    else match d.amount
      case None => Some(MissingAmount)
      case Some(Integer(n)) => if n <= 0 then Some(AmountNotPositive) else None
      case Some(Float(x)) => if x <= 0.0 then Some(AmountNotPositive) else None
      case Some(_) => Some(AmountNotNumeric)
  }

  /** What the webhook stores for an accepted SMS. */
  function PaymentData(tx: nat, amount: int, trace: string): Data {
    Dict(Some(Integer(amount)), Some(Integer(tx)), Some(Text("payment")), Some(Text(trace)))
  }

  predicate PositiveNumber(f: Field) {
    (f.Integer? && f.n > 0) || (f.Float? && f.x > 0.0)
  }

  /** The relay accepts exactly the dictionaries whose amount is a positive number, and in these
      the worker finds an amount: its no-amount branch is reachable only for payloads that got
      there by replay. The reverse fails (a negative amount is truthy), so the relay's check is
      strictly stronger. */
  lemma AcceptedHasAmount(d: Data)
    ensures Validate(d).None? <==> d.Dict? && d.amount.Some? && PositiveNumber(d.amount.value)
    ensures Validate(d).None? ==> Truthy(d.amount)
    ensures exists e: Data :: e.Dict? && Truthy(e.amount) && Validate(e) == Some(AmountNotPositive)
  {
    var e := PaymentData(1, -500, "");
    assert e.Dict? && Truthy(e.amount) && Validate(e) == Some(AmountNotPositive);
  }
}
