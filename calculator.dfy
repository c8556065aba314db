/**
 * A model of the `Calculator` class of the simple console calculator: an
 * object that performs binary arithmetic and keeps an append-only history of
 * the results it returned, together with the driver's usage scenario.
 *
 * The C++ `double` values are modelled as exact `real` numbers, so `+`, `-`
 * and `*` here are the mathematical operations, not IEEE-754 ones.
 */
module SimpleCalculator {

  /** One arithmetic call made on a calculator, with its two operands. */
  datatype Op =
    | AddCall(a: real, b: real)
    | MultiplyCall(a: real, b: real)
    | SubtractCall(a: real, b: real)

  /** The value a call computes (and returns, and records). */
  function Value(op: Op): real
  {
    match op
    case AddCall(a, b) => a + b
    case MultiplyCall(a, b) => a * b
    case SubtractCall(a, b) => a - b
  }

  /**
   * Reference definition of the history: the results of the calls made on a
   * fresh calculator, one per call, in the order the calls were made.
   */
  function Replay(calls: seq<Op>): seq<real>
  {
    if calls == [] then [] else [Value(calls[0])] + Replay(calls[1..])
  }

  /** The history holds exactly one entry per call. */
  lemma {:induction false} ReplayLength(calls: seq<Op>)
    ensures |Replay(calls)| == |calls|
  {
    if calls != [] {
      ReplayLength(calls[1..]);
    }
  }

  /** The i-th history entry is the result of the i-th call. */
  lemma {:induction false} ReplayAt(calls: seq<Op>, i: nat)
    requires i < |calls|
    ensures |Replay(calls)| == |calls|
    ensures Replay(calls)[i] == Value(calls[i])
  {
    ReplayLength(calls);
    if i > 0 {
      ReplayAt(calls[1..], i - 1);
    }
  }

  /** One more call appends its result and leaves every earlier entry as it was. */
  lemma {:induction false} ReplaySnoc(calls: seq<Op>, op: Op)
    ensures Replay(calls + [op]) == Replay(calls) + [Value(op)]
  {
    if calls == [] {
      assert calls + [op] == [op];
    } else {
      assert (calls + [op])[1..] == calls[1..] + [op];
      ReplaySnoc(calls[1..], op);
    }
  }

  /**
   * The history of a run of calls is the history of its first part followed
   * by that of the rest; so later calls never rewrite earlier entries.
   */
  lemma {:induction false} ReplayAppend(calls: seq<Op>, more: seq<Op>)
    ensures Replay(calls + more) == Replay(calls) + Replay(more)
    ensures |Replay(calls)| <= |Replay(calls + more)|
    ensures Replay(calls + more)[..|Replay(calls)|] == Replay(calls)
  {
    if calls == [] {
      assert calls + more == more;
    } else {
      assert (calls + more)[1..] == calls[1..] + more;
      ReplayAppend(calls[1..], more);
    }
  }

  /** One line of the history listing, without its character formatting. */
  datatype Line =
    | Header                           // "Calculation History:"
    | Entry(number: nat, value: real)  // "  <number>: <value>"

  class Calculator {
    /** The results returned so far, oldest first (`std::vector<double>`). */
    var history: seq<real>
    /** The calls made so far, oldest first; not kept by the program. */
    ghost var calls: seq<Op>

    /** The history is exactly the results of the calls, in call order. */
    ghost predicate Valid()
      reads this
    {
      history == Replay(calls)
    }

    /** A new calculator starts with an empty history. */
    constructor ()
      ensures Valid()
      ensures history == [] && calls == []
    {
      history := [];
      calls := [];
    }

    /** Returns `a + b` and appends it to the history. */
    method Add(a: real, b: real) returns (r: real)
      requires Valid()
      modifies this
      ensures Valid()
      ensures r == a + b
      ensures calls == old(calls) + [AddCall(a, b)]
      ensures history == old(history) + [r]
    {
      r := a + b;
      ReplaySnoc(calls, AddCall(a, b));
      history := history + [r];
      calls := calls + [AddCall(a, b)];
    }

    /** Returns `a * b` and appends it to the history. */
    method Multiply(a: real, b: real) returns (r: real)
      requires Valid()
      modifies this
      ensures Valid()
      ensures r == a * b
      ensures calls == old(calls) + [MultiplyCall(a, b)]
      ensures history == old(history) + [r]
    {
      r := a * b;
      assert Value(MultiplyCall(a, b)) == r;
      ReplaySnoc(calls, MultiplyCall(a, b));
      history := history + [r];
      calls := calls + [MultiplyCall(a, b)];
    }

    /** Returns `a - b` and appends it to the history. */
    method Subtract(a: real, b: real) returns (r: real)
      requires Valid()
      modifies this
      ensures Valid()
      ensures r == a - b
      ensures calls == old(calls) + [SubtractCall(a, b)]
      ensures history == old(history) + [r]
    {
      r := a - b;
      ReplaySnoc(calls, SubtractCall(a, b));
      history := history + [r];
      calls := calls + [SubtractCall(a, b)];
    }

    /**
     * The listing `printHistory` writes: a header, then every entry numbered
     * from 1 in history order. It changes nothing.
     */
    method PrintHistory() returns (lines: seq<Line>)
      ensures |lines| == |history| + 1
      ensures lines[0] == Header
      ensures forall i :: 1 <= i < |lines| ==> lines[i] == Entry(i, history[i - 1])
    {
      lines := [Header];
      var i := 0;
      while i < |history|
        invariant 0 <= i <= |history|
        invariant |lines| == i + 1
        invariant lines[0] == Header
        invariant forall k :: 1 <= k < |lines| ==> lines[k] == Entry(k, history[k - 1])
      {
        lines := lines + [Entry(i + 1, history[i])];
        i := i + 1;
      }
    }

    /** The number of entries in the history, which is the number of calls made. It changes nothing. */
    method GetHistorySize() returns (size: nat)
      requires Valid()
      ensures size == |history|
      ensures size == |calls|
    {
      ReplayLength(calls);
      size := |history|;
    }
  }

  /**
   * The driver's scenario: on a fresh calculator, an addition, a
   * multiplication and a subtraction return their results and leave them in
   * the history in call order; the listing then shows them numbered 1 to 3,
   * and the size query reports three entries.
   */
  method Scenario() returns (sum: real, product: real, difference: real, lines: seq<Line>, size: nat, ghost history: seq<real>)
    ensures sum == 15.5 + 24.3 && product == 7.0 * 8.0 && difference == 100.0 - 25.5
    ensures history == [sum, product, difference]
    ensures lines == [Header, Entry(1, sum), Entry(2, product), Entry(3, difference)]
    ensures size == 3
  {
    var calculator := new Calculator();
    sum := calculator.Add(15.5, 24.3);
    product := calculator.Multiply(7.0, 8.0);
    difference := calculator.Subtract(100.0, 25.5);
    lines := calculator.PrintHistory();
    assert lines[1] == Entry(1, sum) && lines[2] == Entry(2, product) && lines[3] == Entry(3, difference);
    size := calculator.GetHistorySize();
    history := calculator.history;
  }
}
