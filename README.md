# Simple calculator with a history — Dafny model

This project models the `Calculator` class of the simple C++ console
calculator (`main.cpp`). A calculator holds a growable `std::vector<double>`
called `history`. Each of `add`, `multiply` and `subtract` computes its
result, appends it to the history with `push_back` and returns it.
`printHistory` lists the history, numbered from 1. `getHistorySize` reports
how many entries it holds. The model also covers the driver in `main`: a
fresh calculator, three calls, a listing and a size query.

The model is one module, `SimpleCalculator`, in `calculator.dfy`:

- `Calculator` is a class whose field `history: seq<real>` is the vector.
  Its methods `Add`, `Multiply` and `Subtract` reassign the field
  (`modifies this`). `PrintHistory` and `GetHistorySize` only read it.
- A ghost field `calls: seq<Op>` records the calls made so far. The program
  does not keep it. The object invariant `Valid()` says that `history` equals
  `Replay(calls)`.
- `Replay` is the reference definition of the history: the result of each
  call (`Value`), in call order. The lemmas about `Replay` state the history's
  structure: one entry per call, the i-th entry is the i-th call's result, and
  later calls never rewrite earlier entries.
- `PrintHistory` returns the listing as `Line` records: a `Header`, then
  `Entry(number, value)` for each entry. The characters the stream writes are
  not modelled.
- `Scenario` is the driver's call sequence (`main.cpp:43-60`): three calls,
  the listing and the size query. The program reads the history only
  through the listing, so `Scenario` returns the history itself as a ghost
  value.

## Model

| member | source | states |
|---|---|---|
| `SimpleCalculator.Calculator.constructor` | main.cpp:7 | A new calculator has an empty history and no calls recorded, and satisfies the invariant that the history is the results of its calls. |
| `SimpleCalculator.Calculator.Add` | main.cpp:10-14 | Returns `a + b`. The new history is the old history with exactly that value appended. The call is recorded, and the invariant is kept. |
| `SimpleCalculator.Calculator.Multiply` | main.cpp:16-20 | Returns `a * b`. The new history is the old history with exactly that value appended. The call is recorded, and the invariant is kept. |
| `SimpleCalculator.Calculator.Subtract` | main.cpp:22-26 | Returns `a - b`. The new history is the old history with exactly that value appended. The call is recorded, and the invariant is kept. |
| `SimpleCalculator.Calculator.PrintHistory` | main.cpp:28-33 | Changes nothing. The listing is a header, then one line per history entry, in order: line `i`, for `i` from 1, carries number `i` and the entry `history[i - 1]`. |
| `SimpleCalculator.Calculator.GetHistorySize` | main.cpp:35-37 | Changes nothing. Returns the number of history entries, which is also the number of arithmetic calls made. |
| `SimpleCalculator.ReplayLength` | main.cpp:10-26 | The history after a run of calls has exactly one entry per call. |
| `SimpleCalculator.ReplayAt` | main.cpp:10-26 | Entry `i` of the history is the result of the `i`-th call. |
| `SimpleCalculator.ReplaySnoc` | main.cpp:12 | One more call appends its own result to the history and leaves the rest as it was. |
| `SimpleCalculator.ReplayAppend` | main.cpp:10-26 | The history of two runs of calls in sequence is the first run's history followed by the second's. So the history before more calls is a prefix of the history after them. |
| `SimpleCalculator.Scenario` | main.cpp:43-60 | From a fresh calculator, `add(15.5, 24.3)`, `multiply(7.0, 8.0)` and `subtract(100.0, 25.5)` return the sum, product and difference. The history is then `[sum, product, difference]`, in call order. The listing is then the header followed by entries 1, 2 and 3 carrying the sum, the product and the difference, and the size query reports 3. |

## Left out

- IEEE-754 `double` arithmetic: values are exact `real` numbers. `+`, `-` and `*` are the mathematical operations, with no rounding, overflow, infinities or NaN. So `Scenario`'s results are the exact real values, not the rounded doubles the program prints.
- `size_t`: `GetHistorySize` returns an unbounded `nat`. A vector longer than `size_t` can count is not modelled.
- Vector growth, reallocation and allocation failure of `push_back` (`std::bad_alloc`) are not modelled: an append always succeeds.
- Console output: `printHistory` and `main` write to `std::cout`. The model gives the listing as abstract `Line` records. It does not model the text, the number formatting or the stream itself. The per-result lines that `main` prints (`main.cpp:51-54`), the headings and the exit code are not modelled.
- `src/main.cpp` is not part of this model. It calls `divide`, `getHistory` and `clearHistory` of a `Calculator`, and the `MathUtils` functions. Those are declared in `Calculator.h` and `MathUtils.h`, and those headers are not part of this model. So there is no source for their behaviour, including the division-by-zero error.
