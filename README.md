# M/M/1 queue: the event-by-event stepper

This project models the class `Markovian` of `queue_simulation/markovian.py`, an event-by-event simulator of a single-server queue with arrival rate lambda and service rate mu. Every event first installs the draw weights (`update_prob`): an empty system forces an arrival; otherwise arrival and departure have weights lambda/(lambda+mu) and mu/(lambda+mu). Then one of two things happens:

- An **entry** adds a customer with a zero wait at the back of the FIFO queue of waits.
- A **service** removes the front customer, logs its accumulated wait, and adds the drawn service time to the wait of everyone still queued.

After every event the occupancy is appended to a log. `run` applies `n` events and reports two figures. The "Average Queue Size" is the sum of the occupancy log divided by `n`. The "Average Waiting Time" is the mean wait of the finished customers.

Everything is in `markovian.dfy`, module `QueueSimulation`, in two layers:

- **A value layer.** It has the datatype `State` (counter, queue, finished waits, occupancy log), the single event `Step`, its repetition `Replay`, the weights `WeightsFor`/`Rates`, and the reported figures `Averages`. The lemmas that state the source's guarantees are written about these.
- **The class `Markovian`.** It keeps the source's fields (`currentCustomers`, `entryProbability`, `exitProbability`, `waitingTimeQueue`, `waitingTimePerCustomer`, `customersPerEvent`) and updates them in place as the source does. This includes the element-by-element loop that charges the service time to the remaining queue. Each method is proved to move the fields exactly as `Step`, `Replay` and `Averages` say.

The two random draws are parameters. `Event(kind, serviceTime)` and `Run(draws)` take the event kind and service time the source obtains from `random.choices` and `random.expovariate`. A weighted choice never yields an outcome of weight 0. So an event kind is admitted only when its weight is positive (`Allowed`). This is what makes a service on an empty system impossible, and `FeasibleIsServiceable` proves it.

Two divisions in `run` can divide by zero: by `n` when it is 0, and by the number of finished customers when nobody has been served yet. The source raises a division error in either case. Here they are the error values `NoIterations` and `NoFinishedCustomers` of `Averages`. The iteration count is checked first, because the source computes that figure first. The source does not check the sign of `n`: a negative `n` runs no event, and the occupancy total is then divided by that negative `n`. `Run` takes `n` as an integer for this reason, with one draw per event it runs.

`run` sums the whole occupancy log of the object, including events of earlier calls, but divides by this call's `n`. The model keeps this behaviour as the code has it. On a new object the figure is the true mean occupancy over the run's events (`FirstRunAverages`).

## Model

| member | source | states |
|---|---|---|
| `QueueSimulation.Rates` | queue_simulation/markovian.py:57-58 | the weights of a non-empty system satisfy entry·(lambda+mu) = lambda and exit·(lambda+mu) = mu, and they sum to 1 |
| `QueueSimulation.WeightsFor` | queue_simulation/markovian.py:53-58 | an empty system gets entry weight 1 and exit weight 0; any other system gets lambda/(lambda+mu) and mu/(lambda+mu); the two weights always sum to 1 |
| `QueueSimulation.RatesAreProbabilities` | queue_simulation/markovian.py:21-22 | for positive lambda and mu both weights lie strictly between 0 and 1 |
| `QueueSimulation.DrawableKinds` | queue_simulation/markovian.py:46-58 | for positive rates an entry can always be drawn, and a service can be drawn if and only if the system is not empty |
| `QueueSimulation.Shift` | queue_simulation/markovian.py:76-78 | the result has the input's length, and each element is the input's element at the same position plus the service time |
| `QueueSimulation.Step` | queue_simulation/markovian.py:65-80 | one event keeps counter = queue length, and appends exactly the new counter to the occupancy log |
| `QueueSimulation.EntryEffect` | queue_simulation/markovian.py:68-70 | an entry raises the counter by exactly 1 and appends one zero wait behind the unchanged queue; the finished log is untouched |
| `QueueSimulation.ServiceEffect` | queue_simulation/markovian.py:71-78 | a service lowers the counter by 1 and appends exactly the old front wait to the finished log; the queue shrinks by one, and each remaining wait, in the same order, is its old value plus the service time |
| `QueueSimulation.StepSound` | queue_simulation/markovian.py:68-80 | with a non-negative service time, one event preserves non-negative waits and occupancies, counter = queue length, and the queue's order by seniority (front has waited longest) |
| `QueueSimulation.Replay` | queue_simulation/markovian.py:89-90 | n events in a row keep counter = queue length (so the counter never goes negative) |
| `QueueSimulation.ReplaySnoc` | queue_simulation/markovian.py:89-90 | a prefix of a runnable draw sequence is runnable, and running one more draw is exactly one more event after the shorter prefix |
| `QueueSimulation.FeasibleIsServiceable` | queue_simulation/markovian.py:53-75 | draws that have positive weight never serve an empty system (so the front removal never fails); for positive rates the converse holds too |
| `QueueSimulation.ReplayBookkeeping` | queue_simulation/markovian.py:65-90 | n events add exactly n occupancies and one finished wait per service; they leave earlier log entries unchanged; the counter moves by entries minus services |
| `QueueSimulation.ReplaySound` | queue_simulation/markovian.py:60-90 | with non-negative service times, every wait and occupancy stays non-negative and the queue stays ordered by seniority after any number of events |
| `QueueSimulation.SumNonNegative` | queue_simulation/markovian.py:94-95 | the sum of non-negative waits is non-negative |
| `QueueSimulation.SumIntsNonNegative` | queue_simulation/markovian.py:92-93 | the sum of non-negative occupancies is non-negative |
| `QueueSimulation.Averages` | queue_simulation/markovian.py:92-95 | fails on zero iterations first (a negative count is divided by, not rejected), then on no finished customers; otherwise the queue figure times n is the occupancy total, and the wait figure times the number of finished customers is their total wait |
| `QueueSimulation.AveragesNonNegative` | queue_simulation/markovian.py:92-95 | for a non-negative iteration count, both reported figures of a sound state are non-negative |
| `QueueSimulation.Initial` | queue_simulation/markovian.py:20-29 | a new stepper starts empty with counter 0, and that state is sound |
| `QueueSimulation.FirstRunAverages` | queue_simulation/markovian.py:87-95 | on a new object, n events log exactly n occupancies and one wait per service; the figures are defined if and only if n > 0 and at least one service happened |
| `QueueSimulation.Markovian.constructor` | queue_simulation/markovian.py:13-34 | the object starts with empty queue and logs, counter 0, and weights lambda/(lambda+mu), mu/(lambda+mu) |
| `QueueSimulation.Markovian.UpdateProb` | queue_simulation/markovian.py:48-58 | installs exactly the weights `WeightsFor` gives for the current counter and changes nothing else |
| `QueueSimulation.Markovian.Event` | queue_simulation/markovian.py:60-80 | installs the weights for the counter before the event; the new counter, queue, finished log and occupancy log are exactly one `Step` of the old ones; the object invariant is kept |
| `QueueSimulation.Markovian.Run` | queue_simulation/markovian.py:82-97 | runs one event per draw, no event for a negative count; the new state is the `Replay` of the old state over the draws; the weights are unchanged after no event and otherwise are those for the counter before the last event; the result is `Averages` of the whole logs over this call's iteration count |

## Left out

- The random sampling (`random.expovariate`, `random.choices`) is a library call. The drawn kind and service time are parameters. A drawn kind must have positive weight, and service times are assumed non-negative where non-negativity is proved.
- The field `event_types` (the list `["service", "entry"]` the event draw picks from) is represented by the two-valued datatype `EventKind`. The source compares the drawn string with "entry" and treats anything else as a service; `random.choices` only ever returns one of the two listed strings.
- Floating point: waits, weights and averages are exact reals, and rounding is not modelled. Python's integers are unbounded, as Dafny's are.
- The fields `average_waiting_time`, `total_waiting_time`, `average_queue_size`, `total_customers`, `current_moment`, and `real_queue` are never read or updated, so they are not modelled.
- The metrics dictionary is the datatype `Metrics`. The two division-by-zero exceptions are the `MetricsError` values.
- Statistical claims, such as convergence to the M/M/1 steady-state formulas, are probabilistic and not stated.
- The timeline-discretization simulator, plotting and the command-line entry point are not part of this model.
- The constructor's division by lambda + mu = 0 is not modelled. The source raises there, and the model requires lambda + mu != 0 instead.
