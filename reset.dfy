// Tearing a deployment down: the indexer, the skillset, the data-source
// connection and the index are deleted in that order with the search key, and
// nothing catches an error, so a failing delete ends the sequence.
module Reset {
  import opened Common
  import Naming

  datatype DeleteCall =
    | DeleteIndexerCall(credential: Credential, name: string)
    | DeleteSkillsetCall(credential: Credential, name: string)
    | DeleteDataSourceCall(credential: Credential, name: string)
    | DeleteIndexCall(credential: Credential, name: string)

  /** The four deletions delete_index issues, in order, all with the search key. */
  function ResetPlan(index: string, key: string): (plan: seq<DeleteCall>)
    ensures |plan| == 4
    ensures plan[0].DeleteIndexerCall? && plan[1].DeleteSkillsetCall?
    ensures plan[2].DeleteDataSourceCall? && plan[3].DeleteIndexCall?
    ensures forall i :: 0 <= i < 4 ==> plan[i].credential == KeyCredential(key)
  {
    var credential := KeyCredential(key);
    [ DeleteIndexerCall(credential, Naming.IndexerName(index)),
      DeleteSkillsetCall(credential, Naming.SkillsetName(index)),
      DeleteDataSourceCall(credential, Naming.DataSourceName(index)),
      DeleteIndexCall(credential, index) ]
  }

  /** The calls actually made when the plan runs with no handler: up to and including the first raise. */
  function Issued(plan: seq<DeleteCall>, respond: DeleteCall -> Outcome): seq<DeleteCall> {
    if plan == [] then []
    else if respond(plan[0]).Raised? then [plan[0]]
    else [plan[0]] + Issued(plan[1..], respond)
  }

  /** What the sequence ends with: the first error raised, or success. */
  function Result(plan: seq<DeleteCall>, respond: DeleteCall -> Outcome): Outcome {
    if plan == [] then Done
    else if respond(plan[0]).Raised? then respond(plan[0])
    else Result(plan[1..], respond)
  }

  /** The calls made are always the beginning of the plan, never skipping a step. */
  lemma {:induction false} IssuedIsPrefix(plan: seq<DeleteCall>, respond: DeleteCall -> Outcome)
    ensures Issued(plan, respond) <= plan
    ensures plan != [] ==> |Issued(plan, respond)| >= 1
  {
    if plan != [] && respond(plan[0]).Done? {
      IssuedIsPrefix(plan[1..], respond);
      assert plan == [plan[0]] + plan[1..];
    }
  }

  /** When every delete succeeds the whole plan is issued and the sequence succeeds. */
  lemma {:induction false} AllDoneIssuesPlan(plan: seq<DeleteCall>, respond: DeleteCall -> Outcome)
    requires forall i :: 0 <= i < |plan| ==> respond(plan[i]).Done?
    ensures Issued(plan, respond) == plan
    ensures Result(plan, respond) == Done
  {
    if plan != [] {
      assert respond(plan[0]).Done?;
      AllDoneIssuesPlan(plan[1..], respond);
      assert plan == [plan[0]] + plan[1..];
    }
  }

  /** When the k-th delete is the first to raise, exactly the first k+1 are issued and its error ends the run. */
  lemma {:induction false} FirstRaiseStops(plan: seq<DeleteCall>, respond: DeleteCall -> Outcome, k: nat)
    requires k < |plan|
    requires respond(plan[k]).Raised?
    requires forall i :: 0 <= i < k ==> respond(plan[i]).Done?
    ensures Issued(plan, respond) == plan[..k + 1]
    ensures Result(plan, respond) == respond(plan[k])
  {
    if k > 0 {
      assert respond(plan[0]).Done?;
      FirstRaiseStops(plan[1..], respond, k - 1);
      assert plan[..k + 1] == [plan[0]] + plan[1..][..k];
    }
  }

  /** The sequence fails exactly when some planned delete would raise. */
  lemma {:induction false} ResultRaisedIff(plan: seq<DeleteCall>, respond: DeleteCall -> Outcome)
    ensures Result(plan, respond).Raised? <==> exists i :: 0 <= i < |plan| && respond(plan[i]).Raised?
  {
    if plan != [] {
      ResultRaisedIff(plan[1..], respond);
      if respond(plan[0]).Done? {
        forall i | 0 <= i < |plan| && respond(plan[i]).Raised?
          ensures 0 <= i - 1 < |plan[1..]| && respond(plan[1..][i - 1]).Raised?
        {
          assert i != 0;
        }
      }
    }
  }

  /** The planned deletions target the names the other scripts create, and are pairwise distinct. */
  lemma PlanTargets(index: string, key: string)
    ensures ResetPlan(index, key)[0].name == index + "-indexer"
    ensures ResetPlan(index, key)[1].name == index + "-skillset"
    ensures ResetPlan(index, key)[2].name == index + "-blob"
    ensures ResetPlan(index, key)[3].name == index
    ensures forall i, j :: 0 <= i < j < 4 ==> ResetPlan(index, key)[i] != ResetPlan(index, key)[j]
  {
  }

  /** A fully successful reset issues the four deletions, each exactly once. */
  lemma FullResetIssuesEachOnce(index: string, key: string, respond: DeleteCall -> Outcome)
    requires forall c :: c in ResetPlan(index, key) ==> respond(c).Done?
    ensures Issued(ResetPlan(index, key), respond) == ResetPlan(index, key)
    ensures |Issued(ResetPlan(index, key), respond)| == 4
    ensures forall i, j :: 0 <= i < j < 4 ==> Issued(ResetPlan(index, key), respond)[i] != Issued(ResetPlan(index, key), respond)[j]
  {
    var plan := ResetPlan(index, key);
    assert forall i :: 0 <= i < |plan| ==> plan[i] in plan;
    AllDoneIssuesPlan(plan, respond);
  }

  /**
   * ManageSearch.delete_index: four deletions in order, stopping at the first one
   * that raises. Without AZURE_SEARCH_KEY the credential raises before any delete.
   */
  method DeleteIndex(index: string, env: Env, respond: DeleteCall -> Outcome)
    returns (calls: seq<DeleteCall>, result: Outcome)
    ensures env.searchKey.None? ==> calls == [] && result == Raised(KeyNotString)
    ensures env.searchKey.Some? ==>
      && calls == Issued(ResetPlan(index, env.searchKey.value), respond)
      && result == Result(ResetPlan(index, env.searchKey.value), respond)
  {
    calls := [];
    if env.searchKey.None? {
      result := Raised(KeyNotString);
      return;
    }
    var plan := ResetPlan(index, env.searchKey.value);
    var credential := KeyCredential(env.searchKey.value);
    var call := DeleteIndexerCall(credential, Naming.IndexerName(index));
    calls := calls + [call];
    result := respond(call);
    if result.Raised? {
      FirstRaiseStops(plan, respond, 0);
      return;
    }
    call := DeleteSkillsetCall(credential, Naming.SkillsetName(index));
    calls := calls + [call];
    result := respond(call);
    if result.Raised? {
      FirstRaiseStops(plan, respond, 1);
      return;
    }
    call := DeleteDataSourceCall(credential, Naming.DataSourceName(index));
    calls := calls + [call];
    result := respond(call);
    if result.Raised? {
      FirstRaiseStops(plan, respond, 2);
      return;
    }
    call := DeleteIndexCall(credential, index);
    calls := calls + [call];
    result := respond(call);
    if result.Raised? {
      FirstRaiseStops(plan, respond, 3);
    } else {
      AllDoneIssuesPlan(plan, respond);
    }
  }

  /** The entry condition: an endpoint was given, and an index name other than the string "None". */
  predicate EntryGuard(endpoint: Option<string>, indexName: Option<string>) {
    Truthy(endpoint) && Truthy(indexName) && indexName.value != "None"
  }

  /** The guard turns away a missing or empty endpoint, and a missing, empty or "None" index name. */
  lemma EntryGuardCases(endpoint: Option<string>, indexName: Option<string>)
    ensures !EntryGuard(None, indexName) && !EntryGuard(Some(""), indexName)
    ensures !EntryGuard(endpoint, None) && !EntryGuard(endpoint, Some("")) && !EntryGuard(endpoint, Some("None"))
    ensures (endpoint.Some? && endpoint.value != "" && indexName.Some? && indexName.value != ""
             && indexName.value != "None") ==> EntryGuard(endpoint, indexName)
  {
  }

  /** The script's entry: delete only when the guard holds, otherwise do nothing. */
  method ResetEntry(endpoint: Option<string>, indexName: Option<string>, env: Env, respond: DeleteCall -> Outcome)
    returns (calls: seq<DeleteCall>, result: Outcome)
    ensures !EntryGuard(endpoint, indexName) ==> calls == [] && result == Done
    ensures EntryGuard(endpoint, indexName) && env.searchKey.None? ==> calls == [] && result == Raised(KeyNotString)
    ensures EntryGuard(endpoint, indexName) && env.searchKey.Some? ==>
      && calls == Issued(ResetPlan(indexName.value, env.searchKey.value), respond)
      && result == Result(ResetPlan(indexName.value, env.searchKey.value), respond)
  {
    if EntryGuard(endpoint, indexName) {
      calls, result := DeleteIndex(indexName.value, env, respond);
    } else {
      calls, result := [], Done;
    }
  }
}
