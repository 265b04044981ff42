/** What a page sees of one `fetch`: never the network itself, only the
    outcome it awaits, given to the model as an input. */
module Http {

  /** What `res.json()` gives: the parsed value, or the message of the error it throws. */
  datatype Json<+T> = Parsed(value: T) | Unparsable(error: string)

  /** A response body, read either as text (`res.text()`) or as JSON (`res.json()`). */
  datatype Body<+T> = Body(text: string, json: Json<T>)

  /** The outcome of `await fetch(...)`: a response with its HTTP status, or a
      rejection (network failure) with its error message. */
  datatype Reply<+T> = Response(status: nat, body: Body<T>) | Rejected(error: string)

  /** `res.ok`: the status is in the range 200-299. */
  predicate IsOk(status: nat) {
    200 <= status <= 299
  }

  /** JavaScript's `s || fallback` on strings: the empty string is falsy. */
  function OrElse(s: string, fallback: string): (r: string)
    ensures r == s || r == fallback
    ensures fallback != "" ==> r != ""
  {
    if s != "" then s else fallback
  }

  /** The decimal digits of `n`, as a template literal `${n}` writes a status code. */
  function NatToString(n: nat): (r: string)
    ensures |r| > 0
    ensures forall i :: 0 <= i < |r| ==> '0' <= r[i] <= '9'
  {
    if n < 10 then [Digit(n)] else NatToString(n / 10) + [Digit(n % 10)]
  }

  function Digit(d: nat): (c: char)
    requires d < 10
    ensures '0' <= c <= '9'
  {
    ['0', '1', '2', '3', '4', '5', '6', '7', '8', '9'][d]
  }
}
