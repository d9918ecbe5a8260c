/** Properties of the reference semantics in InsightModel: what each step
    returns, which records a run rewrites and how, and what the schedule looks
    like afterwards. */
module InsightProofs {
  import opened InsightModel

  /** The step results line up with the due industries, and each one is
      decided by its own industry alone: whether it succeeded does not depend
      on the steps that ran before it. */
  lemma {:induction false} RunResults(table: Table, due: seq<Industry>, env: Industry -> StepEnv, i: nat)
    requires i < |due|
    ensures Run(table, due, env).results[i] == ExpectedResult(table, due[i], env(due[i]))
    ensures Run(table, due, env).results[i].industry == due[i]
    decreases |due|
  {
    var prefix := due[..|due| - 1];
    if i < |due| - 1 {
      RunResults(table, prefix, env, i);
    }
  }

  /** The effect of a run on every record, when the due industries are
      distinct: a due industry whose step succeeded holds the refreshed
      record, and every other record is exactly as before. */
  lemma {:induction false} RunTable(table: Table, due: seq<Industry>, env: Industry -> StepEnv, k: Industry)
    requires Distinct(due)
    requires k in table
    ensures Run(table, due, env).table[k] == FinalRecord(table, due, env, k)
    decreases |due|
  {
    if due != [] {
      var last := due[|due| - 1];
      var prefix := due[..|due| - 1];
      assert Distinct(prefix);
      RunTable(table, prefix, env, k);
      if k == last {
        forall j | 0 <= j < |prefix|
          ensures prefix[j] != k
        {
          assert due[j] != due[|due| - 1];
        }
      } else {
        assert k in due <==> k in prefix by {
          assert due == prefix + [last];
        }
      }
    }
  }

  /** Selection rule: a record that is not due at `now` is neither fetched nor
      rewritten by the run. */
  lemma NotDueUntouched(table: Table, now: int, due: seq<Industry>, env: Industry -> StepEnv, k: Industry)
    requires IsDueListing(table, now, due)
    requires k in table && !IsDue(table[k], now)
    ensures k !in due
    ensures Run(table, due, env).table[k] == table[k]
  {
    RunTable(table, due, env, k);
  }

  /** Successful refresh: the generated columns replace the old ones of the
      same name, and `nextUpdate` becomes the step's clock reading plus one
      week, whatever `nextUpdate` the generator itself returned. */
  lemma SuccessfulRefresh(table: Table, due: seq<Industry>, env: Industry -> StepEnv, k: Industry)
    requires Distinct(due)
    requires k in due && Succeeds(table, k, env(k))
    ensures Run(table, due, env).table[k].nextUpdate == env(k).clock + 604800000
    ensures Run(table, due, env).table[k].fields.Keys ==
      table[k].fields.Keys + (env(k).generation.insights.Keys - {NextUpdateColumn})
    ensures forall c :: c in env(k).generation.insights && c != NextUpdateColumn ==>
      Run(table, due, env).table[k].fields[c] == env(k).generation.insights[c]
    ensures forall c :: c in table[k].fields && c !in env(k).generation.insights ==>
      Run(table, due, env).table[k].fields[c] == table[k].fields[c]
  {
    RunTable(table, due, env, k);
  }

  /** Failure isolation: a due industry whose step failed keeps its record,
      including `nextUpdate`, so it is still due at `now` and at every later
      selection time. */
  lemma FailedStaysDue(table: Table, now: int, due: seq<Industry>, env: Industry -> StepEnv, k: Industry, later: int)
    requires IsDueListing(table, now, due)
    requires k in due && !Succeeds(table, k, env(k))
    requires now <= later
    ensures Run(table, due, env).table[k] == table[k]
    ensures IsDue(Run(table, due, env).table[k], later)
  {
    RunTable(table, due, env, k);
  }

  /** Frame condition: the only records a run rewrites are those of due
      industries whose step succeeded; the set of keys never changes. */
  lemma {:induction false} OnlySucceededWritten(table: Table, due: seq<Industry>, env: Industry -> StepEnv)
    requires Distinct(due)
    ensures Run(table, due, env).table.Keys == table.Keys
    ensures forall k :: k in table && Run(table, due, env).table[k] != table[k] ==>
      k in due && Succeeds(table, k, env(k))
  {
    forall k | k in table
      ensures Run(table, due, env).table[k] != table[k] ==> k in due && Succeeds(table, k, env(k))
    {
      RunTable(table, due, env, k);
    }
  }

  /** Failure isolation across industries: what happens to one industry's
      record and step result depends only on that industry's own generator,
      write and clock, never on how the other steps went. */
  lemma Isolation(table: Table, due: seq<Industry>, env1: Industry -> StepEnv, env2: Industry -> StepEnv, i: nat)
    requires Distinct(due)
    requires i < |due| && due[i] in table
    requires env1(due[i]) == env2(due[i])
    ensures Run(table, due, env1).table[due[i]] == Run(table, due, env2).table[due[i]]
    ensures Run(table, due, env1).results[i] == Run(table, due, env2).results[i]
  {
    RunTable(table, due, env1, due[i]);
    RunTable(table, due, env2, due[i]);
    RunResults(table, due, env1, i);
    RunResults(table, due, env2, i);
  }

  /** Derived consequence: when every step succeeds and every clock reading is
      at or after the selection time, no record of the table is due at that
      time any more. */
  lemma AllSucceededNoneDue(table: Table, now: int, due: seq<Industry>, env: Industry -> StepEnv)
    requires IsDueListing(table, now, due)
    requires forall k :: k in due ==> Succeeds(table, k, env(k)) && now <= env(k).clock
    ensures forall k :: k in Run(table, due, env).table ==> !IsDue(Run(table, due, env).table[k], now)
  {
    forall k | k in table
      ensures !IsDue(Run(table, due, env).table[k], now)
    {
      RunTable(table, due, env, k);
    }
  }

  /** A refreshed record is not due again until a week after its step's clock
      reading, and is due from then on. */
  lemma {:induction false} RefreshedDueAfterWeek(table: Table, due: seq<Industry>, env: Industry -> StepEnv, k: Industry, t: int)
    requires Distinct(due)
    requires k in due && Succeeds(table, k, env(k))
    ensures IsDue(Run(table, due, env).table[k], t) <==> env(k).clock + WeekMs <= t
  {
    RunTable(table, due, env, k);
  }

  /** The names of the steps of one run are pairwise distinct: the update
      steps of distinct industries have distinct names, and none is named
      like the fetch step. */
  lemma StepNamesDistinct(due: seq<Industry>)
    requires Distinct(due)
    ensures Distinct([FetchStepName] + StepNames(due))
  {
    var names := [FetchStepName] + StepNames(due);
    forall i, j | 0 <= i < j < |names|
      ensures names[i] != names[j]
    {
      assert names[j] == StepName(due[j - 1]);
      if i == 0 {
        assert names[i][0] == 'f' && names[j][0] == 'u';
      } else {
        assert names[i] == StepName(due[i - 1]);
        assert due[i - 1] != due[j - 1];
        assert names[i][|UpdateStepPrefix|..] == due[i - 1];
      }
    }
  }
}
