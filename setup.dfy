/** The platform setup of the integration: from the first status document it
    builds the list of sensor entities it hands, once, to the host's
    entity-registration callback. Outputs 1..numberofoutputs are visited in
    order; an output whose mode is "Disabled" is skipped, every other one gets
    its temperature, power, high alarm and low alarm sensors; the three system
    sensors come last. A missing key or a non-integer output count aborts
    setup before the callback is called. */
module SensorSetup {
  import opened StatusDocument
  import opened Sensors
  import Decimal

  /** `f"output{i}"`: the document key of output i. */
  function OutputKey(i: nat): (k: string)
    ensures |k| > 6 && k[..6] == "output"
    ensures Decimal.IsDigits(k[6..]) && Decimal.ParseNat(k[6..]) == i
    ensures i > 0 ==> k[6] != '0'
  {
    var digits := Decimal.NatToString(i);
    Decimal.ParseNatToString(i);
    assert ("output" + digits)[6..] == digits;
    "output" + digits
  }

  /** Different outputs have different keys. */
  lemma OutputKeyInjective(i: nat, j: nat)
    ensures OutputKey(i) == OutputKey(j) ==> i == j
  {
    if OutputKey(i) == OutputKey(j) {
      assert Decimal.NatToString(i) == OutputKey(i)[6..];
      assert Decimal.NatToString(j) == OutputKey(j)[6..];
      Decimal.NatToStringInjective(i, j);
    }
  }

  /** `data["system"]["numberofoutputs"]`, the upper end of the loop. Python's
      `+ 1` accepts an integer or a boolean (True counts as 1, False as 0); for
      any other value either `+ 1` or, for a float, `range()` raises TypeError. */
  function OutputCount(data: Document): (r: Result<int>)
    ensures "system" !in data ==> r == Failure(KeyError("system"))
    ensures "system" in data && "numberofoutputs" !in data["system"] ==> r == Failure(KeyError("numberofoutputs"))
    ensures r.Success? <==> (Lookup(data, "system", "numberofoutputs").Success?
      && (data["system"]["numberofoutputs"].Int? || data["system"]["numberofoutputs"].Bool?))
    ensures r.Failure? && Lookup(data, "system", "numberofoutputs").Success? ==> r == Failure(TypeError)
    ensures forall n :: Lookup(data, "system", "numberofoutputs") == Success(Int(n)) ==> r == Success(n)
    ensures Lookup(data, "system", "numberofoutputs") == Success(Bool(true)) ==> r == Success(1)
    ensures Lookup(data, "system", "numberofoutputs") == Success(Bool(false)) ==> r == Success(0)
  {
    var count :- Lookup(data, "system", "numberofoutputs");
    match count
    case Int(n) => Success(n)
    case Bool(b) => Success(if b then 1 else 0)
    case _ => Failure(TypeError)
  }

  /** `data[f"output{i}"]["outputmode"]`. */
  function OutputMode(data: Document, i: nat): Result<Value> {
    Lookup(data, OutputKey(i), "outputmode")
  }

  /** Output i gets sensors: its mode can be read and is not "Disabled". */
  predicate IsActive(data: Document, i: nat) {
    OutputMode(data, i).Success? && OutputMode(data, i).value != Str("Disabled")
  }

  /** The four sensors of one output, in the order they are created. */
  function OutputBlock(key: string): seq<Entity> {
    [Temperature(key), Power(key), HighAlarm(key), LowAlarm(key)]
  }

  /** The three system sensors, in the order they are created. */
  function SystemEntities(): seq<Entity> {
    [InternalTemp, PowerResets, SafetyRelay]
  }

  /** The entity list after the loop has visited outputs 1..k, or the error
      that stopped it. */
  function OutputBlocks(data: Document, k: int): Result<seq<Entity>>
    decreases k
  {
    if k <= 0 then Success([])
    else
      var before :- OutputBlocks(data, k - 1);
      var mode :- OutputMode(data, k);
      Success(if mode != Str("Disabled") then before + OutputBlock(OutputKey(k)) else before)
  }

  /** What setup hands to the registration callback, or the exception that
      keeps it from being called. */
  function Setup(data: Document): Result<seq<Entity>> {
    var n :- OutputCount(data);
    var blocks :- OutputBlocks(data, n);
    Success(blocks + SystemEntities())
  }

  /** The setup loop: `for i in range(1, numberofoutputs + 1)` extending the
      entity list, then the system sensors. */
  method SetupEntry(data: Document) returns (r: Result<seq<Entity>>)
    ensures r == Setup(data)
  {
    var n :- OutputCount(data);
    var entities: seq<Entity> := [];
    var i := 1;
    while i < n + 1
      invariant 1 <= i <= if n < 0 then 1 else n + 1
      invariant OutputBlocks(data, i - 1) == Success(entities)
    {
      var outputKey := OutputKey(i);
      var mode := Lookup(data, outputKey, "outputmode");
      if mode.Failure? {
        BlocksFailurePersists(data, i, n);
        return Failure(mode.error);
      }
      if mode.value != Str("Disabled") {
        entities := entities + [Temperature(outputKey), Power(outputKey), HighAlarm(outputKey), LowAlarm(outputKey)];
      }
      i := i + 1;
    }
    entities := entities + [InternalTemp, PowerResets, SafetyRelay];
    r := Success(entities);
  }

  /** Once an output's lookup has failed, visiting more outputs reports the
      same error: the loop stops at the first failure. */
  lemma {:induction false} BlocksFailurePersists(data: Document, k: int, m: int)
    requires 1 <= k <= m
    requires OutputBlocks(data, k).Failure?
    ensures OutputBlocks(data, m) == OutputBlocks(data, k)
    decreases m - k
  {
    if k < m {
      BlocksFailurePersists(data, k, m - 1);
    }
  }
}
