/** Value wrappers and small string helpers shared by every module. */
module Base {

  datatype Option<+T> = None | Some(value: T)

  /** A Go `(T, error)` return that the model keeps apart: either a value or an error. */
  datatype Result<+T, +E> = Ok(value: T) | Err(error: E)

  /** What a Go call that may `panic` does: return a value, or panic with a message. */
  datatype Outcome<+T> = Returned(value: T) | Panicked(reason: string)

  function DigitChar(d: nat): (c: char)
    requires d < 10
    ensures '0' <= c <= '9'
  {
    ['0', '1', '2', '3', '4', '5', '6', '7', '8', '9'][d]
  }

  /** Decimal rendering of a natural number, as `%d` prints it. */
  function NatToString(n: nat): (s: string)
    ensures |s| >= 1
    ensures forall i :: 0 <= i < |s| ==> '0' <= s[i] <= '9'
  {
    if n < 10 then [DigitChar(n)] else NatToString(n / 10) + [DigitChar(n % 10)]
  }

  /** Decimal rendering of an integer, as `%d` prints it. */
  function IntToString(n: int): (s: string)
    ensures |s| >= 1
    ensures (s[0] == '-') <==> n < 0
  {
    if n < 0 then "-" + NatToString(-n) else NatToString(n)
  }

  /** `%q` of a string without escapes: the text between double quotes. */
  function Quote(s: string): (q: string)
    ensures |q| == |s| + 2 && q[0] == '"' && q[|q| - 1] == '"' && q[1..|q| - 1] == s
  {
    "\"" + s + "\""
  }

  /** `strings.Join` (and `%v` of a string slice, with " "): the elements in order, `sep` between neighbours. */
  function Join(xs: seq<string>, sep: string): string
  {
    if xs == [] then "" else if |xs| == 1 then xs[0] else Join(xs[..|xs| - 1], sep) + sep + xs[|xs| - 1]
  }

  /** The Go runtime's panic text when a nil function value is called. */
  const NilFunctionPanic: string := "runtime error: invalid memory address or nil pointer dereference"
}
