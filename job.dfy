/** The handler of `generateIndustryInsights`: fetch the due industries, run
    one update step per industry in turn, and report a count. The database
    table is an object whose record map the steps update in place. */
module InsightJob {
  import opened InsightModel
  import InsightProofs

  /** The `industryInsight` table of the database. */
  class InsightDb {
    var insights: Table

    constructor (initial: Table)
      ensures insights == initial
    {
      insights := initial;
    }

    /** The fetch query: the industries whose `nextUpdate` is at or before
        `now`, each once, in an order the store chooses. */
    method FindManyDue(now: int) returns (industries: seq<Industry>)
      ensures IsDueListing(insights, now, industries)
    {
      industries := [];
      var rest := insights.Keys;
      while rest != {}
        invariant rest <= insights.Keys
        invariant Distinct(industries)
        invariant forall k :: k in industries ==> k in insights && k !in rest && IsDue(insights[k], now)
        invariant forall k :: k in insights && k !in rest && IsDue(insights[k], now) ==> k in industries
        decreases rest
      {
        var k :| k in rest;
        if IsDue(insights[k], now) {
          industries := industries + [k];
        }
        rest := rest - {k};
      }
    }

    /** A point update of the record of `industry`: the given columns are
        written over the old ones and `nextUpdate` is set. It throws, leaving
        the table as it was, when the key is absent or the store reports
        `fault`. */
    method Update(industry: Industry, data: Columns, nextUpdate: int, fault: Option<string>)
      returns (error: Option<string>)
      modifies this
      ensures industry !in old(insights) ==> error == Some(RecordNotFound)
      ensures industry in old(insights) ==> error == fault
      ensures error.Some? ==> insights == old(insights)
      ensures error.None? ==>
        insights == old(insights)[industry := Record(old(insights)[industry].fields + data, nextUpdate)]
    {
      if industry !in insights {
        return Some(RecordNotFound);
      }
      if fault.Some? {
        return fault;
      }
      insights := insights[industry := Record(insights[industry].fields + data, nextUpdate)];
      return None;
    }
  }

  /** The body of the step named `update-<industry>`: generate, write back
      with `nextUpdate` one week after the clock reading, and turn any error
      thrown on the way into a failed result. */
  method UpdateIndustry(db: InsightDb, industry: Industry, e: StepEnv) returns (result: StepResult)
    modifies db
    ensures (db.insights, result) == Step(old(db.insights), industry, e)
  {
    match e.generation
    case GenerationFailed(message) =>
      result := Failed(industry, message);
    case Generated(insights) =>
      // The explicit `nextUpdate` follows the spread, so it wins over any
      // `nextUpdate` the generator returned.
      var error := db.Update(industry, insights - {NextUpdateColumn}, e.clock + WeekMs, e.writeFault);
      if error.Some? {
        result := Failed(industry, error.value);
      } else {
        result := Updated(industry);
      }
  }

  /** One run of the job at selection time `now`. `env` gives, per industry,
      what the generator, the write and the clock do in that industry's step.
      Besides the summary, the fetched industries, the names of the steps in
      the order they ran and the step results are returned. */
  method GenerateIndustryInsights(db: InsightDb, now: int, env: Industry -> StepEnv)
    returns (summary: RunSummary, industries: seq<Industry>, stepNames: seq<string>, results: seq<StepResult>)
    modifies db
    ensures IsDueListing(old(db.insights), now, industries)
    ensures Run(old(db.insights), industries, env) == Progress(db.insights, results)
    ensures stepNames == [FetchStepName] + StepNames(industries)
    ensures summary == RunSummary(RunMessage, |industries|)
    ensures db.insights.Keys == old(db.insights).Keys
    ensures forall k :: k in old(db.insights) ==>
      db.insights[k] == FinalRecord(old(db.insights), industries, env, k)
    ensures forall i :: 0 <= i < |industries| ==>
      results[i] == ExpectedResult(old(db.insights), industries[i], env(industries[i]))
  {
    industries := db.FindManyDue(now);
    stepNames := [FetchStepName];
    results := [];
    for i := 0 to |industries|
      invariant Run(old(db.insights), industries[..i], env) == Progress(db.insights, results)
      invariant stepNames == [FetchStepName] + StepNames(industries[..i])
    {
      assert industries[..i + 1][..i] == industries[..i];
      var result := UpdateIndustry(db, industries[i], env(industries[i]));
      results := results + [result];
      stepNames := stepNames + [StepName(industries[i])];
    }
    assert industries[..|industries|] == industries;
    summary := RunSummary(RunMessage, |industries|);

    forall k | k in old(db.insights)
      ensures db.insights[k] == FinalRecord(old(db.insights), industries, env, k)
    {
      InsightProofs.RunTable(old(db.insights), industries, env, k);
    }
    forall i | 0 <= i < |industries|
      ensures results[i] == ExpectedResult(old(db.insights), industries[i], env(industries[i]))
    {
      InsightProofs.RunResults(old(db.insights), industries, env, i);
    }
  }
}
