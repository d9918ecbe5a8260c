/** Data model and reference semantics of the weekly industry-insight refresh
    job: the insight table, the rule that decides which records are due, the
    effect of one per-industry step, and the effect of a whole run as a fold of
    those steps over the due industries in the order they were fetched. */
module InsightModel {

  datatype Option<T> = None | Some(value: T)

  /** The key of an insight record (the unique `industry` column). */
  type Industry = string

  /** A column value. The generated insight data is opaque here, so every
      value is kept as its serialized text. */
  type Value = string

  /** The insight columns of one record, by column name. */
  type Columns = map<string, Value>

  const NextUpdateColumn: string := "nextUpdate"

  /** The refresh interval: one week in milliseconds (604,800,000). */
  const WeekMs: int := 7 * 24 * 60 * 60 * 1000

  const FetchStepName: string := "fetch-industries"
  const UpdateStepPrefix: string := "update-"
  const RunMessage: string := "Industry insights updated"

  /** The error message of an update whose key is not in the table. */
  const RecordNotFound: string := "Record to update not found."

  /** One row of the insight table: its insight columns and the time, in
      milliseconds, at which it is next due. */
  datatype Record = Record(fields: Columns, nextUpdate: int)

  type Table = map<Industry, Record>

  /** What the insight generator gives for one industry: new columns, or the
      message of the error it threw. */
  datatype Generation = Generated(insights: Columns) | GenerationFailed(message: string)

  /** Everything a step receives from outside: the generator's outcome, the
      error (if any) the database write throws, and the clock reading taken
      when the new `nextUpdate` is computed. */
  datatype StepEnv = StepEnv(generation: Generation, writeFault: Option<string>, clock: int)

  /** The value a per-industry step returns. */
  datatype StepResult = Updated(industry: Industry) | Failed(industry: Industry, error: string)
  {
    function Status(): (s: string)
      ensures s == "updated" <==> Updated?
      ensures s == "failed" <==> Failed?
    {
      if Updated? then "updated" else "failed"
    }
  }

  /** The value the run returns. */
  datatype RunSummary = RunSummary(message: string, count: nat)

  /** The due rule of the fetch query: `nextUpdate` at or before `now`. */
  predicate IsDue(r: Record, now: int) {
    r.nextUpdate <= now
  }

  predicate Distinct<T(==)>(s: seq<T>) {
    forall i, j :: 0 <= i < j < |s| ==> s[i] != s[j]
  }

  /** `due` is a possible answer of the fetch query at time `now`: every due
      industry exactly once, and nothing else, in some order. */
  predicate IsDueListing(table: Table, now: int, due: seq<Industry>) {
    && Distinct(due)
    && (forall k :: k in due ==> k in table && IsDue(table[k], now))
    && (forall k :: k in table && IsDue(table[k], now) ==> k in due)
  }

  /** The name under which the step for `industry` runs. */
  function StepName(industry: Industry): (name: string)
    ensures |name| == |UpdateStepPrefix| + |industry|
    ensures name[..|UpdateStepPrefix|] == UpdateStepPrefix
    ensures name[|UpdateStepPrefix|..] == industry
  {
    UpdateStepPrefix + industry
  }

  /** The names of the update steps, one per industry, in order. */
  function StepNames(due: seq<Industry>): (names: seq<string>)
    ensures |names| == |due|
    ensures forall i :: 0 <= i < |due| ==> names[i] == StepName(due[i])
  {
    seq(|due|, i requires 0 <= i < |due| => StepName(due[i]))
  }

  /** The record a successful step writes: the generated columns are merged
      over the old ones, except a generated `nextUpdate`, which the explicit
      `nextUpdate` written after the spread overrides. */
  function Refreshed(r: Record, insights: Columns, clock: int): (r': Record)
    ensures r'.nextUpdate == clock + WeekMs
    ensures r'.fields.Keys == r.fields.Keys + (insights.Keys - {NextUpdateColumn})
    ensures forall c :: c in insights && c != NextUpdateColumn ==> r'.fields[c] == insights[c]
    ensures forall c :: c in r.fields && c !in insights ==> r'.fields[c] == r.fields[c]
  {
    Record(r.fields + (insights - {NextUpdateColumn}), clock + WeekMs)
  }

  /** A step succeeds when the generator returns columns, the key is present
      and the write does not throw. */
  predicate Succeeds(table: Table, industry: Industry, e: StepEnv) {
    e.generation.Generated? && industry in table && e.writeFault.None?
  }

  /** The message of the error a failing step catches: the generator's own
      error, else the update's not-found error, else the write's error. */
  function FailureMessage(table: Table, industry: Industry, e: StepEnv): string
    requires !Succeeds(table, industry, e)
  {
    if e.generation.GenerationFailed? then e.generation.message
    else if industry !in table then RecordNotFound
    else e.writeFault.value
  }

  /** The effect of the step for `industry` on the table, and what it returns. */
  function Step(table: Table, industry: Industry, e: StepEnv): (p: (Table, StepResult))
    ensures p.1.industry == industry
    ensures p.0.Keys == table.Keys
    ensures p.1.Updated? <==> Succeeds(table, industry, e)
    ensures p.1.Failed? ==> p.0 == table && p.1.error == FailureMessage(table, industry, e)
    ensures p.1.Updated? ==> p.0[industry] == Refreshed(table[industry], e.generation.insights, e.clock)
    ensures forall k :: k in table && k != industry ==> p.0[k] == table[k]
  {
    if Succeeds(table, industry, e) then
      (table[industry := Refreshed(table[industry], e.generation.insights, e.clock)], Updated(industry))
    else
      (table, Failed(industry, FailureMessage(table, industry, e)))
  }

  /** The table and the step results after the steps for `due` have run in order. */
  datatype Progress = Progress(table: Table, results: seq<StepResult>)

  /** Reference semantics of the loop: the steps run one after the other,
      each on the table the previous one left. */
  function Run(table: Table, due: seq<Industry>, env: Industry -> StepEnv): (p: Progress)
    ensures p.table.Keys == table.Keys
    ensures |p.results| == |due|
    decreases |due|
  {
    if due == [] then Progress(table, [])
    else
      var last := due[|due| - 1];
      var before := Run(table, due[..|due| - 1], env);
      var step := Step(before.table, last, env(last));
      Progress(step.0, before.results + [step.1])
  }

  /** The record an industry holds after a run, stated without reference to
      the order of the steps. */
  function FinalRecord(table: Table, due: seq<Industry>, env: Industry -> StepEnv, k: Industry): Record
    requires k in table
  {
    if k in due && Succeeds(table, k, env(k))
    then Refreshed(table[k], env(k).generation.insights, env(k).clock)
    else table[k]
  }

  /** The result the step for `k` returns, stated without reference to the
      order of the steps. */
  function ExpectedResult(table: Table, k: Industry, e: StepEnv): StepResult {
    if Succeeds(table, k, e) then Updated(k) else Failed(k, FailureMessage(table, k, e))
  }
}
