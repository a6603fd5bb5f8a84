/**
 * Environment variables of a preview environment: the overlay of the caller's
 * variables on the base environment's (`createEnvironmentAction`) and one
 * upsert request per key (`createEnvironmentVariables`).
 */
module Variables {
  import opened Wrappers
  import opened Records
  import opened Store

  /** `{ ...base, ...caller }`: every key of either map, the caller's value winning. */
  function MergeVariables(base: map<string, string>, caller: map<string, string>): (r: map<string, string>)
    ensures r.Keys == base.Keys + caller.Keys
    ensures forall k :: k in caller ==> r[k] == caller[k]
    ensures forall k :: k in base && k !in caller ==> r[k] == base[k]
  {
    base + caller
  }

  /** Without base variables the overlay is the caller's map. */
  lemma MergeWithoutBase(caller: map<string, string>)
    ensures MergeVariables(map[], caller) == caller
  {
  }

  /** What a failed request rejects the whole `Promise.all` with. */
  const UpsertFailed := "Request failed"

  /** One upsert request per key, in the given order. */
  function Upserts(environmentId: string, variables: map<string, string>, keys: seq<string>): (r: seq<Request>)
    requires forall i :: 0 <= i < |keys| ==> keys[i] in variables
    ensures |r| == |keys|
    ensures forall i :: 0 <= i < |keys| ==> r[i] == UpsertEnvironmentVariable(environmentId, keys[i], variables[keys[i]])
  {
    if keys == [] then []
    else Upserts(environmentId, variables, keys[..|keys| - 1])
         + [UpsertEnvironmentVariable(environmentId, keys[|keys| - 1], variables[keys[|keys| - 1]])]
  }

  /** The request log after one more upsert, of key `k`. */
  lemma LogStep(log: seq<Request>, prev: seq<Request>, now: seq<Request>, environmentId: string,
                variables: map<string, string>, keys: seq<string>, k: string)
    requires forall i :: 0 <= i < |keys| ==> keys[i] in variables
    requires k in variables
    requires prev == log + Upserts(environmentId, variables, keys)
    requires now == prev + [UpsertEnvironmentVariable(environmentId, k, variables[k])]
    ensures now == log + Upserts(environmentId, variables, keys + [k])
  {
    assert (keys + [k])[..|keys|] == keys;
  }

  /** The variables among `keys` that the platform applies: those not rejected. */
  function Applied(variables: map<string, string>, keys: set<string>, rejected: set<string>): map<string, string> {
    map k | k in variables && k in keys && k !in rejected :: variables[k]
  }

  /** An environment's state after the upserts of `Applied(variables, keys, rejected)`. */
  function AfterUpserts(e: Environment, environmentId: string, variables: map<string, string>, keys: set<string>,
                        rejected: set<string>): Environment
  {
    if e.id == environmentId then e.(variables := e.variables + Applied(variables, keys, rejected)) else e
  }

  /** One more upsert, of key `k`, extends the applied keys by `k`. */
  lemma UpsertStep(e: Environment, environmentId: string, variables: map<string, string>, keys: set<string>,
                   rejected: set<string>, k: string)
    requires k in variables && k !in keys
    ensures (if k !in rejected then WithVariable(AfterUpserts(e, environmentId, variables, keys, rejected), environmentId, k, variables[k])
             else AfterUpserts(e, environmentId, variables, keys, rejected))
      == AfterUpserts(e, environmentId, variables, keys + {k}, rejected)
  {
    if e.id == environmentId {
      var before := e.variables + Applied(variables, keys, rejected);
      var after := e.variables + Applied(variables, keys + {k}, rejected);
      if k !in rejected {
        assert before[k := variables[k]] == after;
      } else {
        assert Applied(variables, keys, rejected) == Applied(variables, keys + {k}, rejected);
      }
    }
  }

  /** `after` is `before` once the variables among `done` were upserted into the environment `environmentId`. */
  predicate EnvironmentsAfter(before: seq<Environment>, after: seq<Environment>, environmentId: string,
                              variables: map<string, string>, done: set<string>, rejected: set<string>)
  {
    |after| == |before|
    && forall i :: 0 <= i < |after| ==> after[i] == AfterUpserts(before[i], environmentId, variables, done, rejected)
  }

  lemma NothingUpserted(envs: seq<Environment>, environmentId: string, variables: map<string, string>,
                        rejected: set<string>)
    ensures EnvironmentsAfter(envs, envs, environmentId, variables, {}, rejected)
  {
    assert Applied(variables, {}, rejected) == map[];
    forall i | 0 <= i < |envs|
      ensures envs[i] == AfterUpserts(envs[i], environmentId, variables, {}, rejected)
    {
      assert envs[i].variables + map[] == envs[i].variables;
    }
  }

  lemma EnvironmentsStep(before: seq<Environment>, mid: seq<Environment>, after: seq<Environment>, environmentId: string,
                         variables: map<string, string>, done: set<string>, rejected: set<string>, k: string)
    requires EnvironmentsAfter(before, mid, environmentId, variables, done, rejected)
    requires k in variables && k !in done
    requires |after| == |mid|
    requires forall i :: 0 <= i < |after| ==>
      after[i] == if k !in rejected then WithVariable(mid[i], environmentId, k, variables[k]) else mid[i]
    ensures EnvironmentsAfter(before, after, environmentId, variables, done + {k}, rejected)
  {
    forall i | 0 <= i < |after|
      ensures after[i] == AfterUpserts(before[i], environmentId, variables, done + {k}, rejected)
    {
      UpsertStep(before[i], environmentId, variables, done, rejected, k);
    }
  }

  lemma RejectedStep(done: set<string>, rejected: set<string>, k: string)
    ensures (done + {k}) * rejected != {} <==> done * rejected != {} || k in rejected
  {
    if k in rejected {
      assert k in (done + {k}) * rejected;
    }
    if done * rejected != {} {
      var x :| x in done * rejected;
      assert x in (done + {k}) * rejected;
    }
  }

  predicate Distinct(keys: seq<string>) {
    forall i, j :: 0 <= i < j < |keys| ==> keys[i] != keys[j]
  }

  /** The keys sent so far (`order`, whose elements make `done`) and those still to send (`todo`) split the map's keys. */
  ghost predicate KeysSplit(variables: map<string, string>, order: seq<string>, done: set<string>, todo: set<string>) {
    && todo <= variables.Keys && done == variables.Keys - todo
    && (forall k :: k in order <==> k in done)
    && (forall i :: 0 <= i < |order| ==> order[i] in variables)
    && Distinct(order) && |order| + |todo| == |variables|
  }

  lemma KeysStep(variables: map<string, string>, order: seq<string>, done: set<string>, todo: set<string>, k: string)
    requires KeysSplit(variables, order, done, todo) && k in todo
    ensures KeysSplit(variables, order + [k], done + {k}, todo - {k})
  {
  }

  /**
   * Where the upsert loop stands: the keys of `order` were sent, in that
   * order, and applied to the environments unless rejected; `failed` says
   * whether any of them was rejected.
   */
  ghost predicate Progress(envs0: seq<Environment>, log0: seq<Request>, envs: seq<Environment>, log: seq<Request>,
                           environmentId: string, variables: map<string, string>, rejected: set<string>,
                           order: seq<string>, done: set<string>, todo: set<string>, failed: bool)
  {
    && KeysSplit(variables, order, done, todo)
    && log == log0 + Upserts(environmentId, variables, order)
    && (failed <==> done * rejected != {})
    && EnvironmentsAfter(envs0, envs, environmentId, variables, done, rejected)
  }

  /** One upsert of a key still to send keeps `Progress`. */
  lemma ProgressStep(envs0: seq<Environment>, log0: seq<Request>, mid: seq<Environment>, prev: seq<Request>,
                     envs: seq<Environment>, log: seq<Request>, environmentId: string,
                     variables: map<string, string>, rejected: set<string>,
                     order: seq<string>, done: set<string>, todo: set<string>, failed: bool, k: string, ok: bool)
    requires Progress(envs0, log0, mid, prev, environmentId, variables, rejected, order, done, todo, failed)
    requires k in todo && ok == (k !in rejected)
    requires log == prev + [UpsertEnvironmentVariable(environmentId, k, variables[k])]
    requires |envs| == |mid|
    requires forall i :: 0 <= i < |envs| ==>
      envs[i] == if ok then WithVariable(mid[i], environmentId, k, variables[k]) else mid[i]
    ensures Progress(envs0, log0, envs, log, environmentId, variables, rejected,
                     order + [k], done + {k}, todo - {k}, failed || !ok)
  {
    EnvironmentsStep(envs0, mid, envs, environmentId, variables, done, rejected, k);
    LogStep(log0, prev, log, environmentId, variables, order, k);
    KeysStep(variables, order, done, todo, k);
    RejectedStep(done, rejected, k);
  }

  /** The request for one key inside `createEnvironmentVariables`' `Promise.all`. */
  method UpsertKey(remote: Remote, environmentId: string, variables: map<string, string>, rejected: set<string>,
                   k: string, failed: bool, ghost envs0: seq<Environment>, ghost log0: seq<Request>,
                   ghost order: seq<string>, ghost done: set<string>, ghost todo: set<string>)
    returns (nowFailed: bool)
    requires Progress(envs0, log0, remote.environments, remote.received, environmentId, variables, rejected,
                      order, done, todo, failed)
    requires k in todo
    modifies remote
    ensures Progress(envs0, log0, remote.environments, remote.received, environmentId, variables, rejected,
                     order + [k], done + {k}, todo - {k}, nowFailed)
    ensures remote.triggers == old(remote.triggers) && remote.repositories == old(remote.repositories)
    ensures remote.teamBranches == old(remote.teamBranches)
  {
    ghost var mid, prev := remote.environments, remote.received;
    var ok := remote.UpsertEnvironmentVariable(environmentId, k, variables[k], k !in rejected);
    ProgressStep(envs0, log0, mid, prev, remote.environments, remote.received, environmentId, variables, rejected,
                 order, done, todo, failed, k, ok);
    nowFailed := failed || !ok;
  }

  /**
   * `createEnvironmentVariables`: one upsert request per key of `variables`,
   * all carrying `environmentId`; the platform applies those whose key it does
   * not reject, and the call fails when it rejects any. The keys go out in an
   * order the model does not fix (`order`).
   */
  method CreateEnvironmentVariables(remote: Remote, environmentId: string, variables: map<string, string>,
                                    rejected: set<string>)
    returns (r: Result<()>, ghost order: seq<string>)
    modifies remote
    ensures Distinct(order) && |order| == |variables|
    ensures forall k :: k in order <==> k in variables
    ensures remote.received == old(remote.received) + Upserts(environmentId, variables, order)
    ensures r.Err? <==> variables.Keys * rejected != {}
    ensures r.Err? ==> r.error == UpsertFailed
    ensures EnvironmentsAfter(old(remote.environments), remote.environments, environmentId, variables, variables.Keys, rejected)
    ensures remote.triggers == old(remote.triggers) && remote.repositories == old(remote.repositories)
    ensures remote.teamBranches == old(remote.teamBranches)
  {
    var todo := variables.Keys;
    ghost var done: set<string> := {};
    ghost var envs0, log0 := remote.environments, remote.received;
    order := [];
    var failed := false;
    NothingUpserted(envs0, environmentId, variables, rejected);
    assert log0 + Upserts(environmentId, variables, []) == log0;
    while todo != {}
      invariant Progress(envs0, log0, remote.environments, remote.received, environmentId, variables, rejected,
                         order, done, todo, failed)
      invariant remote.triggers == old(remote.triggers) && remote.repositories == old(remote.repositories)
      invariant remote.teamBranches == old(remote.teamBranches)
      decreases |todo|
    {
      var k :| k in todo;
      failed := UpsertKey(remote, environmentId, variables, rejected, k, failed, envs0, log0, order, done, todo);
      order := order + [k];
      done := done + {k};
      todo := todo - {k};
    }
    assert done == variables.Keys;
    r := if failed then Err(UpsertFailed) else Ok(());
  }


  /**
   * When nothing is rejected, every key of the environment's variables that was
   * upserted holds the given value and every other one is unchanged.
   */
  lemma AllAppliedWhenNoneRejected(e: Environment, environmentId: string, variables: map<string, string>)
    requires e.id == environmentId
    ensures var after := AfterUpserts(e, environmentId, variables, variables.Keys, {});
      && after.variables.Keys == e.variables.Keys + variables.Keys
      && (forall k :: k in variables ==> after.variables[k] == variables[k])
      && (forall k :: k in e.variables && k !in variables ==> after.variables[k] == e.variables[k])
  {
    assert Applied(variables, variables.Keys, {}) == variables;
  }
}
