# Smart-meter load generator: backpressure and messages

This project models, in Dafny, the two sequential pieces of a Kafka load generator for household electricity readings:

- **Messages** (`messages.dfy`). The `Message` record: one customer's consumption reading with a timestamp. It covers `Message::new`, the three getters, and the integer part of `Message::with_rng`:
  - the customer id is drawn from `1_000..=9_999`;
  - the timestamp is the wall clock since the Unix epoch, truncated to milliseconds;
  - a clock before the epoch is a panic.
- **Decimal** (`decimal.dfy`). `to_string` of an unsigned id, which is the record key. It has an inverse `FromDecimal` and a digit-count lemma.
- **Pool** (`pool.dfy`). The `handles` vector of in-flight delivery tasks, as the class `HandlePool`:
  - `Register` is the `push` of a spawned task;
  - `MaybeDrain` is `drain_threadpool`, which does nothing below the limit and otherwise pops and awaits every handle, last pushed first;
  - `Await` is one join, with an outcome chosen outside the model.
  
  Each method is proved against a function on the value `Tracker`, which holds:
  - the handles held;
  - the next task id;
  - the handles joined so far, in join order.
- **Dispatch** (`dispatch.dfy`). One iteration of the producer loop (`Pass`) and a bounded run of iterations (`Run`). One iteration does the following:
  1. It generates a message.
  2. It serializes the message; a failure is fatal.
  3. It submits the message under its key. A refused submit is logged and skipped, with no push and no drain.
  4. After an accepted submit, it pushes one handle and applies `drain_threadpool`.
  
  The proved loop invariant is that, with `limit >= 1`, the vector is shorter than `limit` after every iteration. A drain therefore fires exactly when a push brings the length up to `limit`. A conservation lemma shows that every task in play at the start or spawned during the run ends either still held or joined, each exactly as often as it was in play.

The drain fires at `len >= limit`, as the code in `src/main.rs:85` does. Its doc comment (`src/main.rs:78`) says the pool is drained when the limit is "exceeded". The model follows the code.

## Model

| member | source | states |
|---|---|---|
| Messages.New | src/lib.rs:37-43 | The built message holds exactly the given id, consumption and timestamp |
| Messages.Message.CustomerId | src/lib.rs:75-77 | The id returned, together with the other two fields, rebuilds the same message |
| Messages.Message.Consumption | src/lib.rs:85-87 | The reading returned, together with the other two fields, rebuilds the same message |
| Messages.Message.Timestamp | src/lib.rs:95-97 | The timestamp returned, together with the other two fields, rebuilds the same message |
| Messages.GettersRoundTrip | src/lib.rs:37-97 | Building from a message's getters gives back the message, and each getter of `new(c, k, t)` returns its argument |
| Messages.CustomerIdOfDraw | src/lib.rs:59 | Every drawn customer id lies in `1_000..=9_999` |
| Messages.EveryCustomerIdIsDrawn | src/lib.rs:59 | Every id in `1_000..=9_999` is produced by some draw |
| Messages.AsMillis | src/lib.rs:61-64 | The result is the whole number of milliseconds in the elapsed nanoseconds, with the rest truncated |
| Messages.WithRng | src/lib.rs:55-67 | Generation panics exactly when the clock is before the epoch; otherwise the id is in range, the reading is passed through and the timestamp is the truncated clock |
| Messages.TimestampsNonDecreasing | src/lib.rs:61-64 | Non-decreasing clock readings at or after the epoch give non-decreasing timestamps |
| Decimal.ToDecimal | src/main.rs:43 | The rendering is non-empty and all digits, and it starts with `0` only when it is exactly `"0"`, the rendering of zero |
| Decimal.FromToDecimal | src/main.rs:43 | Reading the rendering back gives the number |
| Decimal.ToDecimalInjective | src/main.rs:43 | Different ids get different keys |
| Decimal.ToDecimalLength | src/main.rs:43 | A number in `[10^(k-1), 10^k)` renders with exactly `k` digits |
| Decimal.FourDigits | src/main.rs:43 | Every id in `1_000..=9_999` renders as exactly four digits |
| Dispatch.Key | src/main.rs:43 | The key is non-empty, all digits, starts with `0` only when it is exactly `"0"` for id zero, and reads back as the message's customer id, so it is the canonical decimal text of the id |
| Dispatch.GeneratedKeyHasFourDigits | src/main.rs:43 | A message generated at or after the epoch has a four-digit key |
| Pool.PopOrder | src/main.rs:90 | Popping to empty visits as many handles as the vector holds |
| Pool.PopOrderAt | src/main.rs:90 | The `k`-th handle popped is the `k`-th from the end |
| Pool.PopOrderIsPermutation | src/main.rs:90-95 | Popping to empty visits every held handle exactly as often as it is held |
| Pool.RegisterKeepsIssued | src/main.rs:55-61 | A push adds a handle not held before and keeps the held handles distinct |
| Pool.MaybeDrainAdmission | src/main.rs:84-95 | Below the limit the drain is a no-op. At or above it, the vector ends empty and its handles are joined last pushed first. With a positive limit the vector is left below the limit |
| Pool.MaybeDrainConserves | src/main.rs:90-95 | A drain loses no handle and joins none twice |
| Pool.HandlePool.constructor | src/main.rs:35 | The vector starts empty, with nothing joined |
| Pool.HandlePool.Register | src/main.rs:55-61 | Exactly one new handle, not held before, goes on the end |
| Pool.HandlePool.Await | src/main.rs:91 | The join yields the outcome the environment decides, and the handle is recorded as joined |
| Pool.HandlePool.MaybeDrain | src/main.rs:84-96 | The new state is `MaybeDrainState` of the old one for every join outcome, so a failed join never stops the drain |
| Dispatch.PassKeepsBelowLimit | src/main.rs:55-63 | Starting below a positive limit, an iteration ends below it. After an accepted submit the drain fires exactly when the length reaches the limit. An iteration joins either nothing or `limit` handles |
| Dispatch.PassConservesHandles | src/main.rs:47-63 | A refused submit leaves the bookkeeping unchanged. An accepted one spawns one new id and loses no handle |
| Dispatch.Pass | src/main.rs:36-64 | An iteration aborts exactly on a clock before the epoch or a serialization failure, and then leaves the pool unchanged. Otherwise the key is the message's and the pool follows `PassState` |
| Dispatch.RunStateStep | src/main.rs:36-64 | A run is the run without its last iteration, followed by that iteration |
| Dispatch.RunStaysBelowLimit | src/main.rs:36-64 | With `limit >= 1`, the vector is below the limit after every completed iteration |
| Dispatch.ProducerRunStaysBelowLimit | src/main.rs:63 | With the producer's own limit `1024 * 1024`, the vector stays below that limit after every completed iteration |
| Dispatch.RunConservesHandles | src/main.rs:36-64 | One task is spawned per accepted submit. The handles held or joined at the start plus those spawned during the run are, as a multiset, the handles held or joined at the end |
| Dispatch.Run | src/main.rs:36-64 | A run ends `Finished` after every iteration, or `Stopped` at the first fatal fault, which it names. It stays below the limit, and its state is `RunState` over the completed iterations |

## Left out

- Kafka (`create_producer`, the client settings, the broker list, `FutureRecord`, `send_result`) is network I/O. A submit is only `Accepted` or `Refused`, and the delivery outcome is the opaque join outcome.
- tokio spawning, task scheduling and concurrency are not modelled. A spawned task is an id from a counter, and `thread.await` is a call whose outcome comes from a function parameter.
- `tracing` logs are not modelled; they never change control flow.
- `serde_json::to_string` is an external serializer. Only its failure is modelled, as a boolean input that makes the iteration abort.
- `rng.random::<f32>() * 10.0` is floating point. `MilliwattHours` is kept as an opaque 32-bit pattern that is passed in.
- Messages.CustomerIdOfDraw: rand's uniform sampler is not modelled. A raw `u32` draw is mapped by `1_000 + draw % 9_000`, which keeps the range contract but not the distribution.
- `SystemTime::now()` is not modelled; the clock is an input, in signed nanoseconds from the epoch.
- Dispatch.Run: the endless `loop` is modelled as a run over a finite sequence of iteration inputs.
- The drain and the run take the limit as a parameter. The hard-coded `1024 * 1024` is the constant `ProducerLimit`, and the invariant is instantiated for it in `ProducerRunStaysBelowLimit`.
