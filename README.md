# Industry-insight refresh job, modelled in Dafny

This project models `generateIndustryInsights`, the weekly job that refreshes the
industry-insight table of the career-coach application. When it runs, the job:

1. fetches the industries whose record has `nextUpdate` at or before the current time;
2. for each fetched industry in turn, runs a step named `update-<industry>`. The step asks
   the insight generator for new columns, writes them back and sets `nextUpdate` to one
   week (604,800,000 ms) after the clock reading. Any error the generator or the write
   throws is caught, and the step returns a failed result for that industry without
   touching its record;
3. returns the message `"Industry insights updated"` and the number of fetched industries.

Files:

- `model.dfy`, module `InsightModel`. The data and the reference semantics:
  - the insight table is a `map<Industry, Record>`, where a record is its insight columns
    plus `nextUpdate` in integer milliseconds;
  - `IsDue` is the due rule and `IsDueListing` describes what an answer of the fetch query
    may be;
  - `Step` is the effect of one step and `Run` is the fold of the steps over the fetched
    industries, in order;
  - `FinalRecord` and `ExpectedResult` state the outcome of a run without reference to the
    order of the steps.
- `proofs.dfy`, module `InsightProofs`. Lemmas about `Run`: the selection rule, a
  successful refresh, failure isolation, the frame condition, the state after a fully
  successful run, and distinct step names.
- `job.dfy`, module `InsightJob`. The imperative code:
  - class `InsightDb` stands for the database table. Its `insights` map is updated in place
    by `Update` and queried by `FindManyDue`;
  - `UpdateIndustry` is one step body;
  - `GenerateIndustryInsights` is the handler with its loop. Its loop invariant ties the
    table after the first `i` steps to `Run` over the first `i` industries.

Outside inputs are parameters:

- the selection time `now`;
- per industry, a `StepEnv` with three parts:
  - what the generator returns, either columns or an error message;
  - whether the database write throws, and with what message;
  - the clock reading `Date.now()` takes in that step.

Industries in one run are distinct, so giving these inputs per industry is the same as
giving them per step.

Where the code and the written design of the system differ, the model follows the code:

- A successful step writes the generated columns over the record's old columns. This is
  a merge, as a point update does, not a full replacement. Columns the generator does not
  return keep their old values.
- The new `nextUpdate` comes from a clock reading taken inside each step. It is not the
  selection time. So the lemmas about the schedule after a run take each step's clock
  reading into account.
- The run returns only the message and the count. The step results are not part of the
  returned value. The model still returns them, as extra outputs, so that they can be
  stated.

## Model

| member | source | states |
|---|---|---|
| `InsightModel.StepResult.Status` | lib/inngest/function.js:37-40 | a step result's status is `"updated"` exactly for an updated result and `"failed"` exactly for a failed one |
| `InsightModel.StepName` | lib/inngest/function.js:25 | the step for an industry is named `update-` followed by exactly that industry |
| `InsightModel.StepNames` | lib/inngest/function.js:24-25 | one step name per fetched industry, in the order fetched |
| `InsightModel.Refreshed` | lib/inngest/function.js:31-34 | the written record has `nextUpdate` equal to the clock reading plus one week; every generated column other than `nextUpdate` takes the generated value; every old column not generated keeps its value; no other column appears |
| `InsightModel.Step` | lib/inngest/function.js:25-42 | a step succeeds exactly when generation returns columns, the key exists and the write does not throw; on success only that industry's record changes, to the refreshed record; on failure the table is unchanged and the result carries the caught error's message; the result names the industry |
| `InsightModel.Run` | lib/inngest/function.js:24-43 | running the steps in order never adds or removes a key, and yields one result per fetched industry |
| `InsightProofs.RunResults` | lib/inngest/function.js:24-42 | the i-th result belongs to the i-th fetched industry, and whether it is updated or failed (with which message) depends only on that industry's generator, write and presence |
| `InsightProofs.RunTable` | lib/inngest/function.js:24-43 | after a run over distinct industries, every record is refreshed if its industry was fetched and its step succeeded, and is unchanged otherwise |
| `InsightProofs.NotDueUntouched` | lib/inngest/function.js:10-21 | a record whose `nextUpdate` is after the selection time is not fetched and is not modified by the run |
| `InsightProofs.SuccessfulRefresh` | lib/inngest/function.js:27-35 | a fetched industry whose step succeeded ends with `nextUpdate` equal to its clock reading plus 604,800,000, whatever `nextUpdate` the generator returned, with the generated columns, and with its other old columns kept |
| `InsightProofs.FailedStaysDue` | lib/inngest/function.js:38-41 | a fetched industry whose step failed keeps its whole record, so it is still due at the selection time and at any later one |
| `InsightProofs.OnlySucceededWritten` | lib/inngest/function.js:29-31 | the keys of the table are unchanged, and the only records that differ after a run are those of fetched industries whose step succeeded |
| `InsightProofs.Isolation` | lib/inngest/function.js:24-42 | an industry's final record and step result are the same whatever the other industries' generators, writes and clocks did |
| `InsightProofs.AllSucceededNoneDue` | lib/inngest/function.js:14-33 | if every step succeeds and every clock reading is at or after the selection time, no record of the table is due at the selection time after the run |
| `InsightProofs.RefreshedDueAfterWeek` | lib/inngest/function.js:33 | a refreshed record is due at time t exactly when t is at least its step's clock reading plus one week |
| `InsightProofs.StepNamesDistinct` | lib/inngest/function.js:10-25 | the fetch step and the update steps of distinct industries all have pairwise distinct names |
| `InsightJob.InsightDb.FindManyDue` | lib/inngest/function.js:10-21 | returns every industry whose `nextUpdate` is at or before `now`, each exactly once, and nothing else |
| `InsightJob.InsightDb.Update` | lib/inngest/function.js:29-35 | an update of an absent key fails with a not-found error; an update the store rejects fails with its error; a failed update changes nothing; otherwise only that record changes, getting the given columns merged over its own and the given `nextUpdate` |
| `InsightJob.UpdateIndustry` | lib/inngest/function.js:25-42 | the step body changes the table and returns exactly as `Step` describes: a generator error or a write error is caught and returned as a failed result |
| `InsightJob.GenerateIndustryInsights` | lib/inngest/function.js:8-49 | the run fetches a due listing, runs the steps in that order, and names them `fetch-industries` then `update-<industry>`; it ends with the table and results of `Run` and the pointwise outcome of `RunTable`/`RunResults`; it returns the fixed message and a count equal to the number fetched, however many steps failed |

## Left out

- Registering the function with its workflow library, and the weekly cron string
  (lib/inngest/function.js:5-7). They are configuration of a library that is not
  part of this model.
- `step.run` memoization, replay and retry. They belong to the workflow library. Here
  each step is a direct call, and the model claims nothing about replaying a run.
- The database client and its query language. They are replaced by `InsightDb`: a map,
  a filter over it (`FindManyDue`) and a point update (`Update`). An error thrown by the
  fetch query, which would end the run before any step, is not modelled.
- `InsightDb.Update`: only the not-found error is named. Every other store error is the
  `writeFault` input, with its message opaque. The text of the not-found message is a
  stand-in, not the client's exact text.
- The insight generator (`generateAIInsights`). It is an AI call whose code is not part
  of this model. It is the per-industry `generation` input, and the generated column
  values are opaque strings. A generated column named `industry` is treated as an
  ordinary column; the model does not let a step rename its own key.
- The thrown value's `message` property. A failure carries a string message, and a thrown
  value without one (`undefined`) is not distinguished.
- Logging with `console.error` (lib/inngest/function.js:39).
- The clock and JavaScript `Date` semantics. Times are integer milliseconds passed in:
  `now` for the selection and one clock reading per step. The model does not require the
  clock to be monotonic; `AllSucceededNoneDue` assumes that each reading is at or after
  `now`.
- The order of the fetch query's answer. The store does not guarantee one, and
  `FindManyDue` picks an arbitrary order. The run processes whatever order was returned.
