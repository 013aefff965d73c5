/**
 * `get_resource_counts`: four independent inventory calls (EC2, RDS, S3, Lambda),
 * each reduced to a few counts. A call that fails, or whose response cannot be read,
 * contributes zeros for its own service only.
 */
module ResourceCensus {
  import opened Wrappers

  /** An EC2 instance, reduced to `State.Name`. */
  datatype Instance = Instance(stateName: string)

  /** One element of `Reservations`, with its `Instances`. */
  datatype Reservation = Reservation(instances: seq<Instance>)

  /** An RDS instance, reduced to `DBInstanceStatus`. */
  datatype DbInstance = DbInstance(status: string)

  /** One element of `Buckets`. */
  datatype Bucket = Bucket(name: string)

  /** One element of `Functions`. */
  datatype FunctionConfiguration = FunctionConfiguration(functionName: string)

  datatype Ec2Counts = Ec2Counts(total: nat, running: nat)
  datatype RdsCounts = RdsCounts(total: nat, available: nat)

  /** The `resources` dict: one entry per service. */
  datatype Census = Census(ec2: Ec2Counts, rds: RdsCounts, s3TotalBuckets: nat, lambdaTotalFunctions: nat)

  /**
   * What each describe/list call gave back: `None` when it raised, or when reading
   * its response raised inside the same `try`.
   */
  datatype InventoryResponses = InventoryResponses(
    reservations: Option<seq<Reservation>>,
    dbInstances: Option<seq<DbInstance>>,
    buckets: Option<seq<Bucket>>,
    functions: Option<seq<FunctionConfiguration>>)

  /** The instances of all reservations, reservation after reservation. */
  function Instances(rs: seq<Reservation>): seq<Instance>
  {
    if rs == [] then [] else Instances(rs[..|rs| - 1]) + rs[|rs| - 1].instances
  }

  predicate IsRunning(inst: Instance)
  {
    inst.stateName == "running"
  }

  /** The number of instances whose state is `running`. */
  function RunningCount(insts: seq<Instance>): (n: nat)
    ensures n <= |insts|
  {
    if insts == [] then 0 else RunningCount(insts[..|insts| - 1]) + (if IsRunning(insts[|insts| - 1]) then 1 else 0)
  }

  lemma {:induction false} RunningCountAppend(a: seq<Instance>, b: seq<Instance>)
    ensures RunningCount(a + b) == RunningCount(a) + RunningCount(b)
  {
    if b == [] {
      assert a + b == a;
    } else {
      var init := b[..|b| - 1];
      RunningCountAppend(a, init);
      assert (a + b)[..|a + b| - 1] == a + init;
    }
  }

  /** Every instance is counted as running exactly when every state is `running`. */
  lemma {:induction false} RunningCountAll(insts: seq<Instance>)
    ensures RunningCount(insts) == |insts| <==> forall i :: 0 <= i < |insts| ==> IsRunning(insts[i])
  {
    if insts != [] {
      var init := insts[..|insts| - 1];
      RunningCountAll(init);
      assert forall i :: 0 <= i < |init| ==> init[i] == insts[i];
    }
  }

  /** No instance is counted as running exactly when none is in state `running`. */
  lemma {:induction false} RunningCountNone(insts: seq<Instance>)
    ensures RunningCount(insts) == 0 <==> forall i :: 0 <= i < |insts| ==> !IsRunning(insts[i])
  {
    if insts != [] {
      var init := insts[..|insts| - 1];
      RunningCountNone(init);
      assert forall i :: 0 <= i < |init| ==> init[i] == insts[i];
    }
  }

  predicate IsAvailable(db: DbInstance)
  {
    db.status == "available"
  }

  /** `sum(1 for db in ... if db['DBInstanceStatus'] == 'available')`. */
  function AvailableCount(dbs: seq<DbInstance>): (n: nat)
    ensures n <= |dbs|
  {
    if dbs == [] then 0 else AvailableCount(dbs[..|dbs| - 1]) + (if IsAvailable(dbs[|dbs| - 1]) then 1 else 0)
  }

  /** Every database is counted as available exactly when every status is `available`. */
  lemma {:induction false} AvailableCountAll(dbs: seq<DbInstance>)
    ensures AvailableCount(dbs) == |dbs| <==> forall i :: 0 <= i < |dbs| ==> IsAvailable(dbs[i])
  {
    if dbs != [] {
      var init := dbs[..|dbs| - 1];
      AvailableCountAll(init);
      assert forall i :: 0 <= i < |init| ==> init[i] == dbs[i];
    }
  }

  /** The EC2 entry: zeros when the call failed. */
  function Ec2CountsOf(response: Option<seq<Reservation>>): (c: Ec2Counts)
    ensures c.running <= c.total
  {
    match response
    case None => Ec2Counts(0, 0)
    case Some(rs) => Ec2Counts(|Instances(rs)|, RunningCount(Instances(rs)))
  }

  /** The RDS entry: zeros when the call failed. */
  function RdsCountsOf(response: Option<seq<DbInstance>>): (c: RdsCounts)
    ensures c.available <= c.total
  {
    match response
    case None => RdsCounts(0, 0)
    case Some(dbs) => RdsCounts(|dbs|, AvailableCount(dbs))
  }

  /** `len(...)` of a listing, or 0 when the call failed. */
  function ListedCount<T>(response: Option<seq<T>>): nat
  {
    match response
    case None => 0
    case Some(items) => |items|
  }

  /** Lines 46-53: the nested loop over reservations and their instances. */
  method CountInstances(reservations: seq<Reservation>) returns (total: nat, running: nat)
    ensures total == |Instances(reservations)|
    ensures running == RunningCount(Instances(reservations))
  {
    total, running := 0, 0;
    var i := 0;
    while i < |reservations|
      invariant 0 <= i <= |reservations|
      invariant total == |Instances(reservations[..i])|
      invariant running == RunningCount(Instances(reservations[..i]))
    {
      var instances := reservations[i].instances;
      ghost var before := Instances(reservations[..i]);
      assert reservations[..i + 1][..i] == reservations[..i];
      assert Instances(reservations[..i + 1]) == before + instances;
      var j := 0;
      while j < |instances|
        invariant 0 <= j <= |instances|
        invariant total == |before| + j
        invariant running == RunningCount(before) + RunningCount(instances[..j])
      {
        assert instances[..j + 1][..j] == instances[..j];
        total := total + 1;
        if instances[j].stateName == "running" {
          running := running + 1;
        }
        j := j + 1;
      }
      assert instances[..j] == instances;
      RunningCountAppend(before, instances);
      i := i + 1;
    }
    assert reservations[..i] == reservations;
  }

  /**
   * Lines 40-96: each service's entry is computed from its own response alone, so
   * one failing call zeroes that entry and leaves the others as they are.
   */
  method GetResourceCounts(responses: InventoryResponses) returns (census: Census)
    ensures census.ec2 == Ec2CountsOf(responses.reservations)
    ensures census.rds == RdsCountsOf(responses.dbInstances)
    ensures census.s3TotalBuckets == ListedCount(responses.buckets)
    ensures census.lambdaTotalFunctions == ListedCount(responses.functions)
  {
    var ec2 := Ec2Counts(0, 0);
    if responses.reservations.Some? {
      var total, running := CountInstances(responses.reservations.value);
      ec2 := Ec2Counts(total, running);
    }
    var rds := RdsCounts(0, 0);
    if responses.dbInstances.Some? {
      var dbs := responses.dbInstances.value;
      rds := RdsCounts(|dbs|, AvailableCount(dbs));
    }
    var buckets := 0;
    if responses.buckets.Some? {
      buckets := |responses.buckets.value|;
    }
    var functions := 0;
    if responses.functions.Some? {
      functions := |responses.functions.value|;
    }
    census := Census(ec2, rds, buckets, functions);
  }

  /** The census `get_resource_counts` returns for the given responses. */
  function CensusOf(responses: InventoryResponses): Census
  {
    Census(Ec2CountsOf(responses.reservations), RdsCountsOf(responses.dbInstances),
           ListedCount(responses.buckets), ListedCount(responses.functions))
  }

  /** When every call fails, every count is 0. */
  lemma AllCallsFailed()
    ensures CensusOf(InventoryResponses(None, None, None, None)) == Census(Ec2Counts(0, 0), RdsCounts(0, 0), 0, 0)
  {
  }

  /**
   * The responses of the unit tests: reservations of two running and one stopped
   * instance, one available database, five buckets and two functions.
   */
  lemma FixtureCensus()
    ensures
      var reservations := [Reservation([Instance("running"), Instance("running")]), Reservation([Instance("stopped")])];
      var buckets := [Bucket("bucket1"), Bucket("bucket2"), Bucket("bucket3"), Bucket("bucket4"), Bucket("bucket5")];
      var functions := [FunctionConfiguration("function1"), FunctionConfiguration("function2")];
      CensusOf(InventoryResponses(Some(reservations), Some([DbInstance("available")]), Some(buckets), Some(functions)))
        == Census(Ec2Counts(3, 2), RdsCounts(1, 1), 5, 2)
  {
    var reservations := [Reservation([Instance("running"), Instance("running")]), Reservation([Instance("stopped")])];
    assert reservations[..1] == [reservations[0]];
    assert Instances(reservations) == [Instance("running"), Instance("running"), Instance("stopped")];
    var insts := Instances(reservations);
    assert insts[..2][..1] == [insts[0]];
    assert insts[..2] == [insts[0], insts[1]];
    assert "stopped" != "running";
  }
}
