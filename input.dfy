/**
 * The console side of the calculator. Every `input()` call of tarifas.py
 * consumes one `Line`; Python's `.strip()`, `int()` and `float()` are taken
 * as given on each line, and a retry loop is a scan over the remaining lines.
 */
module Input {
  import opened Wrappers

  /** One line typed at a prompt: the text as `.strip()` returns it, and what
      `int()` and `float()` make of the line (None where they raise ValueError). */
  datatype Line = Line(stripped: string, asInt: Option<int>, asReal: Option<real>)

  function IntValue(l: Line): (r: Option<int>) { l.asInt }

  function RealValue(l: Line): (r: Option<real>) { l.asReal }

  /** Acceptance rule of the toll quantity. */
  predicate NonNegativeCount(n: int) { n >= 0 }

  /** Acceptance rule of a toll price, the operational margin and the discounts. */
  predicate NonNegative(x: real) { x >= 0.0 }

  /** Acceptance rule of the distance and the rate per km. */
  predicate Positive(x: real) { x > 0.0 }

  /** A line the retry loop turns away: it does not parse, or its value fails the rule. */
  predicate Rejected<T>(parse: Line -> Option<T>, accept: T -> bool, l: Line) {
    parse(l).None? || !accept(parse(l).value)
  }

  /**
   * What a `while True` retry loop does with the lines from `pos` on: it
   * returns the first line's value that parses and is accepted, together
   * with the position after that line; when no such line remains the input
   * is exhausted (None, at the end of the input).
   */
  function Scan<T>(input: seq<Line>, pos: nat, parse: Line -> Option<T>, accept: T -> bool)
    : (res: (Option<T>, nat))
    requires pos <= |input|
    ensures pos <= res.1 <= |input|
    ensures res.0.Some? ==> pos < res.1 && parse(input[res.1 - 1]) == res.0 && accept(res.0.value)
    ensures res.0.None? ==> res.1 == |input|
    decreases |input| - pos
  {
    if pos == |input| then (None, pos)
    else match parse(input[pos])
      case None => Scan(input, pos + 1, parse, accept)
      case Some(v) => if accept(v) then (Some(v), pos + 1) else Scan(input, pos + 1, parse, accept)
  }

  /** Every line the loop read before the one it returns, or every line when
      it returns nothing, was turned away. */
  lemma {:induction false} ScanSkipsOnlyRejected<T>(input: seq<Line>, pos: nat, parse: Line -> Option<T>,
                                                    accept: T -> bool)
    requires pos <= |input|
    ensures var res := Scan(input, pos, parse, accept);
            forall k :: pos <= k < res.1 && (res.0.None? || k < res.1 - 1) ==> Rejected(parse, accept, input[k])
    decreases |input| - pos
  {
    if pos < |input| {
      ScanSkipsOnlyRejected(input, pos + 1, parse, accept);
    }
  }

  /** The first acceptable line from `pos` on is the one a retry loop returns. */
  lemma {:induction false} ScanReturnsFirstAccepted<T>(input: seq<Line>, pos: nat, parse: Line -> Option<T>,
                                                       accept: T -> bool, j: nat)
    requires pos <= j < |input|
    requires !Rejected(parse, accept, input[j])
    requires forall k :: pos <= k < j ==> Rejected(parse, accept, input[k])
    ensures Scan(input, pos, parse, accept) == (parse(input[j]), j + 1)
    decreases j - pos
  {
    if pos < j {
      ScanReturnsFirstAccepted(input, pos + 1, parse, accept, j);
    }
  }

  /**
   * The retry loop of tarifas.py: read a line, reject it when it does not
   * parse or fails `accept`, otherwise return its value. Running out of
   * lines (EOFError in Python) yields None.
   */
  method ReadValidated<T>(input: seq<Line>, start: nat, parse: Line -> Option<T>, accept: T -> bool)
    returns (value: Option<T>, next: nat)
    requires start <= |input|
    ensures value.Some? ==> accept(value.value)
    ensures (value, next) == Scan(input, start, parse, accept)
  {
    next := start;
    while next < |input|
      invariant start <= next <= |input|
      invariant Scan(input, next, parse, accept) == Scan(input, start, parse, accept)
      decreases |input| - next
    {
      var parsed := parse(input[next]);
      next := next + 1;
      match parsed {
        case None =>
          // ValueError: "Invalid input", prompt again
        case Some(v) =>
          if accept(v) {
            return Some(v), next;
          }
          // out of range: the field's message, prompt again
      }
    }
    value := None;
  }

  /** Three lines "abc", "-5", "12" against the rule ">= 0": the first two are
      turned away and 12 is returned after exactly three reads. */
  lemma RetryExample()
    ensures var input := [Line("abc", None, None), Line("-5", Some(-5), Some(-5.0)), Line("12", Some(12), Some(12.0))];
            Scan(input, 0, RealValue, NonNegative) == (Some(12.0), 3)
  {
  }
}
