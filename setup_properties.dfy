/** What the entity list built at setup looks like: which outputs contribute,
    in what order, how many entities there are, when setup fails and with which
    error, and why the unique ids it registers never clash. */
module SetupProperties {
  import opened StatusDocument
  import opened Sensors
  import opened SensorSetup
  import Decimal

  /** The outputs among 1..k that get sensors, in increasing order. */
  function ActiveIndices(data: Document, k: int): seq<nat>
    decreases k
  {
    if k <= 0 then [] else ActiveIndices(data, k - 1) + (if IsActive(data, k) then [k] else [])
  }

  /** The same outputs as a set. */
  function ActiveSet(data: Document, k: int): set<nat> {
    set i: nat | 1 <= i <= k && IsActive(data, i)
  }

  /** ActiveIndices lists only active outputs among 1..k. */
  lemma {:induction false} ActiveIndicesSound(data: Document, k: int)
    ensures forall i: nat :: i in ActiveIndices(data, k) ==> 1 <= i <= k && IsActive(data, i)
    decreases k
  {
    if k > 0 {
      ActiveIndicesSound(data, k - 1);
      var a' := ActiveIndices(data, k - 1);
      if IsActive(data, k) {
        assert ActiveIndices(data, k) == a' + [k];
      } else {
        assert ActiveIndices(data, k) == a';
      }
    }
  }

  /** ActiveIndices lists every active output among 1..k. */
  lemma {:induction false} ActiveIndicesComplete(data: Document, k: int)
    ensures forall i: nat :: 1 <= i <= k && IsActive(data, i) ==> i in ActiveIndices(data, k)
    decreases k
  {
    if k > 0 {
      ActiveIndicesComplete(data, k - 1);
      var a' := ActiveIndices(data, k - 1);
      forall i: nat | 1 <= i <= k && IsActive(data, i)
        ensures i in ActiveIndices(data, k)
      {
        if i < k {
          assert i in a';
        } else {
          assert ActiveIndices(data, k) == a' + [k];
        }
      }
    }
  }

  /** ActiveIndices lists exactly the active outputs among 1..k. */
  lemma {:induction false} ActiveIndicesMembers(data: Document, k: int)
    ensures forall i: nat :: i in ActiveIndices(data, k) <==> 1 <= i <= k && IsActive(data, i)
  {
    ActiveIndicesSound(data, k);
    ActiveIndicesComplete(data, k);
  }

  /** ActiveIndices lists outputs among 1..k only. */
  lemma {:induction false} ActiveIndicesBounded(data: Document, k: int)
    ensures forall p :: 0 <= p < |ActiveIndices(data, k)| ==> 1 <= ActiveIndices(data, k)[p] <= k
    decreases k
  {
    if k > 0 {
      ActiveIndicesBounded(data, k - 1);
    }
  }

  /** ActiveIndices lists the active outputs in increasing order. */
  lemma {:induction false} ActiveIndicesIncreasing(data: Document, k: int)
    ensures forall p, q :: 0 <= p < q < |ActiveIndices(data, k)| ==> ActiveIndices(data, k)[p] < ActiveIndices(data, k)[q]
    decreases k
  {
    if k > 0 {
      ActiveIndicesIncreasing(data, k - 1);
      ActiveIndicesBounded(data, k - 1);
    }
  }

  /** There are as many active outputs as ActiveIndices lists. */
  lemma {:induction false} ActiveSetSize(data: Document, k: int)
    ensures |ActiveSet(data, k)| == |ActiveIndices(data, k)|
    decreases k
  {
    if k <= 0 {
      assert ActiveSet(data, k) == {};
    } else {
      ActiveSetSize(data, k - 1);
      var before, now := ActiveSet(data, k - 1), ActiveSet(data, k);
      assert k !in before;
      var added := if IsActive(data, k) then {k} else {};
      forall i | i in now
        ensures i in before + added
      {
        if i < k {
          assert i in before;
        }
      }
      assert now == before + added;
    }
  }

  /** The blocks of four sensors of the given outputs, one after another. */
  function Blocks(a: seq<nat>): seq<Entity>
    decreases |a|
  {
    if a == [] then [] else Blocks(a[..|a| - 1]) + OutputBlock(OutputKey(a[|a| - 1]))
  }

  /** Four entities per output. */
  lemma {:induction false} BlocksLength(a: seq<nat>)
    ensures |Blocks(a)| == 4 * |a|
    decreases |a|
  {
    if a != [] {
      BlocksLength(a[..|a| - 1]);
    }
  }

  /** Sensor j of the block of the p-th output sits at position 4p + j. */
  lemma {:induction false} BlockAt(a: seq<nat>, p: nat, j: nat)
    requires p < |a| && j < 4
    ensures 4 * p + j < |Blocks(a)| && Blocks(a)[4 * p + j] == OutputBlock(OutputKey(a[p]))[j]
    decreases |a|
  {
    var init := a[..|a| - 1];
    BlocksLength(a);
    BlocksLength(init);
    if p < |init| {
      BlockAt(init, p, j);
      assert a[p] == init[p];
    }
  }

  /** The loop's list after outputs 1..k is the blocks of the active outputs
      among them, in increasing order. */
  lemma {:induction false} BlocksLayout(data: Document, k: int)
    requires OutputBlocks(data, k).Success?
    ensures OutputBlocks(data, k).value == Blocks(ActiveIndices(data, k))
    decreases k
  {
    if k > 0 {
      BlocksLayout(data, k - 1);
      var a, a' := ActiveIndices(data, k), ActiveIndices(data, k - 1);
      var es' := OutputBlocks(data, k - 1).value;
      if IsActive(data, k) {
        assert a == a' + [k];
        assert a[..|a| - 1] == a' && a[|a| - 1] == k;
        assert OutputBlocks(data, k).value == es' + OutputBlock(OutputKey(k));
      } else {
        assert a == a';
        assert OutputBlocks(data, k).value == es';
      }
    }
  }

  /** The active outputs of a document whose output count is usable. */
  function Active(data: Document): seq<nat>
    requires OutputCount(data).Success?
  {
    ActiveIndices(data, OutputCount(data).value)
  }

  /** The complete list setup registers: the blocks of the active outputs in
      increasing output order, each ordered temperature, power, high alarm, low
      alarm, followed by the internal temperature, power resets and safety
      relay sensors. */
  lemma SetupLayout(data: Document)
    requires Setup(data).Success?
    ensures Setup(data).value == Blocks(Active(data)) + SystemEntities()
    ensures |Setup(data).value| == 4 * |Active(data)| + 3
  {
    BlocksLayout(data, OutputCount(data).value);
    BlocksLength(Active(data));
  }

  /** Four entities per output whose mode is not "Disabled", plus three. */
  lemma SetupCount(data: Document)
    requires Setup(data).Success?
    ensures |Setup(data).value| == 4 * |ActiveSet(data, OutputCount(data).value)| + 3
  {
    SetupLayout(data);
    ActiveSetSize(data, OutputCount(data).value);
  }

  /** Sensor j of the block of the p-th active output. */
  lemma SetupBlockAt(data: Document, p: nat, j: nat)
    requires Setup(data).Success?
    requires p < |Active(data)| && j < 4
    ensures 4 * p + j < |Setup(data).value|
    ensures Setup(data).value[4 * p + j] == OutputBlock(OutputKey(Active(data)[p]))[j]
  {
    SetupLayout(data);
    BlockAt(Active(data), p, j);
  }

  /** One position of the list: positions before the system sensors hold
      the (q % 4)-th sensor of the (q / 4)-th active output, an output in range
      that is not "Disabled"; the last three hold the system sensors. */
  lemma SetupEntityAt(data: Document, q: int)
    requires Setup(data).Success?
    requires 0 <= q < |Setup(data).value|
    ensures |Setup(data).value| == 4 * |Active(data)| + 3
    ensures q < 4 * |Active(data)| ==>
      && Setup(data).value[q] == OutputBlock(OutputKey(Active(data)[q / 4]))[q % 4]
      && 1 <= Active(data)[q / 4] <= OutputCount(data).value
      && IsActive(data, Active(data)[q / 4])
    ensures q >= 4 * |Active(data)| ==> Setup(data).value[q] == SystemEntities()[q - 4 * |Active(data)|]
  {
    SetupLayout(data);
    var a := Active(data);
    if q < 4 * |a| {
      var p, j := q / 4, q % 4;
      assert q == 4 * p + j;
      BlockAt(a, p, j);
      ActiveIndicesMembers(data, OutputCount(data).value);
      assert a[p] in a;
    } else {
      BlocksLength(a);
    }
  }

  /** Every per-output entity in the list belongs to an output in range whose
      mode is not "Disabled". */
  lemma SetupEntitiesAreActive(data: Document)
    requires Setup(data).Success?
    ensures forall e :: e in Setup(data).value && e.PerOutput() ==>
      exists i: nat :: 1 <= i <= OutputCount(data).value && IsActive(data, i) && e.output == OutputKey(i)
  {
    var es := Setup(data).value;
    forall e | e in es && e.PerOutput()
      ensures exists i: nat :: 1 <= i <= OutputCount(data).value && IsActive(data, i) && e.output == OutputKey(i)
    {
      var q :| 0 <= q < |es| && es[q] == e;
      SetupEntityAt(data, q);
      var a := Active(data);
      assert q < 4 * |a|;
      assert e.output == OutputKey(a[q / 4]);
    }
  }

  /** An active output's four sensors are all in the list. */
  lemma ActiveOutputListed(data: Document, i: nat)
    requires Setup(data).Success? && 1 <= i <= OutputCount(data).value && IsActive(data, i)
    ensures Temperature(OutputKey(i)) in Setup(data).value
    ensures Power(OutputKey(i)) in Setup(data).value
    ensures HighAlarm(OutputKey(i)) in Setup(data).value
    ensures LowAlarm(OutputKey(i)) in Setup(data).value
  {
    var a := Active(data);
    ActiveIndicesMembers(data, OutputCount(data).value);
    assert i in a;
    var p :| 0 <= p < |a| && a[p] == i;
    SetupBlockAt(data, p, 0);
    SetupBlockAt(data, p, 1);
    SetupBlockAt(data, p, 2);
    SetupBlockAt(data, p, 3);
  }

  /** An inactive output has no sensor in the list. */
  lemma InactiveOutputUnlisted(data: Document, i: nat)
    requires Setup(data).Success? && 1 <= i <= OutputCount(data).value && !IsActive(data, i)
    ensures forall e :: e in Setup(data).value && e.PerOutput() ==> e.output != OutputKey(i)
  {
    var n := OutputCount(data).value;
    SetupEntitiesAreActive(data);
    forall e | e in Setup(data).value && e.PerOutput()
      ensures e.output != OutputKey(i)
    {
      var j: nat :| 1 <= j <= n && IsActive(data, j) && e.output == OutputKey(j);
      OutputKeyInjective(i, j);
    }
  }

  /** An output in range gets its four sensors when its mode is anything but
      "Disabled", and none of them when it is "Disabled". */
  lemma DisabledOutputsExcluded(data: Document, i: nat)
    requires Setup(data).Success? && 1 <= i <= OutputCount(data).value
    ensures OutputKey(i) in data && "outputmode" in data[OutputKey(i)]
    ensures var es, key := Setup(data).value, OutputKey(i);
      var enabled := data[key]["outputmode"] != Str("Disabled");
      && (Temperature(key) in es <==> enabled)
      && (Power(key) in es <==> enabled)
      && (HighAlarm(key) in es <==> enabled)
      && (LowAlarm(key) in es <==> enabled)
  {
    SetupSucceedsIffWellFormed(data);
    assert OutputMode(data, i).Success?;
    if IsActive(data, i) {
      ActiveOutputListed(data, i);
    } else {
      InactiveOutputUnlisted(data, i);
    }
  }

  /** With no outputs to visit (`numberofoutputs` zero or negative) the list is
      just the three system sensors. */
  lemma SetupWithoutOutputs(data: Document)
    requires OutputCount(data).Success? && OutputCount(data).value <= 0
    ensures Setup(data) == Success(SystemEntities())
  {
    assert OutputBlocks(data, OutputCount(data).value) == Success([]);
    assert [] + SystemEntities() == SystemEntities();
  }

  /** The loop over outputs 1..k gets through exactly when every one of them
      has an "outputmode". */
  lemma {:induction false} BlocksSucceedIff(data: Document, k: int)
    ensures OutputBlocks(data, k).Success? <==> forall i: nat :: 1 <= i <= k ==> OutputMode(data, i).Success?
    decreases k
  {
    if k > 0 {
      BlocksSucceedIff(data, k - 1);
      assert OutputBlocks(data, k).Success?
        <==> OutputBlocks(data, k - 1).Success? && OutputMode(data, k).Success?;
      assert (forall i: nat :: 1 <= i <= k ==> OutputMode(data, i).Success?)
        <==> (forall i: nat :: 1 <= i <= k - 1 ==> OutputMode(data, i).Success?) && OutputMode(data, k).Success?;
    }
  }

  /** Setup reaches the registration callback exactly when the system section
      holds an integer output count and every output in range has a mode. */
  lemma SetupSucceedsIffWellFormed(data: Document)
    ensures Setup(data).Success? <==>
      && OutputCount(data).Success?
      && forall i: nat :: 1 <= i <= OutputCount(data).value ==> OutputMode(data, i).Success?
  {
    if OutputCount(data).Success? {
      BlocksSucceedIff(data, OutputCount(data).value);
    }
  }

  /** Without a usable output count setup fails before the loop: KeyError for
      a missing "system" section or "numberofoutputs" field, TypeError for a
      count that is not an integer. */
  lemma SetupFailsWithoutCount(data: Document)
    ensures "system" !in data ==> Setup(data) == Failure(KeyError("system"))
    ensures "system" in data && "numberofoutputs" !in data["system"]
      ==> Setup(data) == Failure(KeyError("numberofoutputs"))
    ensures "system" in data && "numberofoutputs" in data["system"]
      && (data["system"]["numberofoutputs"].Str? || data["system"]["numberofoutputs"].Other?)
      ==> Setup(data) == Failure(TypeError)
  {
  }

  /** The first output in range without a mode stops setup with its KeyError:
      the output's key when the output is missing, "outputmode" when only its
      mode is. */
  lemma SetupReportsFirstMissingOutput(data: Document, i: nat)
    requires OutputCount(data).Success? && 1 <= i <= OutputCount(data).value
    requires forall j: nat :: 1 <= j < i ==> OutputMode(data, j).Success?
    requires OutputMode(data, i).Failure?
    ensures OutputKey(i) !in data ==> Setup(data) == Failure(KeyError(OutputKey(i)))
    ensures OutputKey(i) in data ==> Setup(data) == Failure(KeyError("outputmode"))
  {
    BlocksSucceedIff(data, i - 1);
    BlocksFailurePersists(data, i, OutputCount(data).value);
  }

  /** Of two positions, the later one is in the same block of four or a later one. */
  lemma BlockOrder(j: int, k: int)
    requires 0 <= j < k
    ensures j / 4 < k / 4 || (j / 4 == k / 4 && j % 4 < k % 4)
  {
  }

  /** Sensor q of the blocks belongs to output a[q / 4]. */
  lemma BlockEntityAt(a: seq<nat>, q: int)
    requires 0 <= q < 4 * |a|
    ensures q < |Blocks(a)|
    ensures Blocks(a)[q] == OutputBlock(OutputKey(a[q / 4]))[q % 4]
    ensures Blocks(a)[q].PerOutput() && Blocks(a)[q].output == OutputKey(a[q / 4])
  {
    var p, j := q / 4, q % 4;
    assert q == 4 * p + j;
    BlockAt(a, p, j);
  }

  /** Blocks of outputs listed in increasing order never repeat a sensor. */
  lemma BlocksDifferAt(a: seq<nat>, j: int, k: int)
    requires forall p, q :: 0 <= p < q < |a| ==> a[p] < a[q]
    requires 0 <= j < k < 4 * |a|
    ensures j < |Blocks(a)| && k < |Blocks(a)| && Blocks(a)[j] != Blocks(a)[k]
  {
    BlockEntityAt(a, j);
    BlockEntityAt(a, k);
    BlockOrder(j, k);
    if j / 4 < k / 4 {
      OutputKeyInjective(a[j / 4], a[k / 4]);
      assert Blocks(a)[j].output != Blocks(a)[k].output;
    }
  }

  /** In the blocks of outputs listed in increasing order followed by the
      system sensors, two positions hold different entities, each keyed by its
      output when it belongs to one. */
  lemma ListDifferAt(a: seq<nat>, j: int, k: int)
    requires forall p, q :: 0 <= p < q < |a| ==> a[p] < a[q]
    requires 0 <= j < k < |Blocks(a) + SystemEntities()|
    ensures (Blocks(a) + SystemEntities())[j] != (Blocks(a) + SystemEntities())[k]
    ensures KeyedByOutput((Blocks(a) + SystemEntities())[j])
    ensures KeyedByOutput((Blocks(a) + SystemEntities())[k])
  {
    var es := Blocks(a) + SystemEntities();
    BlocksLength(a);
    if k < 4 * |a| {
      BlocksDifferAt(a, j, k);
      BlockEntityAt(a, j);
      BlockEntityAt(a, k);
    } else if j < 4 * |a| {
      BlockEntityAt(a, j);
      assert es[k] == SystemEntities()[k - 4 * |a|];
    } else {
      assert es[j] == SystemEntities()[j - 4 * |a|];
      assert es[k] == SystemEntities()[k - 4 * |a|];
    }
  }

  /** Two positions of the list hold different entities. */
  lemma SetupEntitiesDifferAt(data: Document, j: int, k: int)
    requires Setup(data).Success?
    requires 0 <= j < k < |Setup(data).value|
    ensures Setup(data).value[j] != Setup(data).value[k]
    ensures KeyedByOutput(Setup(data).value[j]) && KeyedByOutput(Setup(data).value[k])
  {
    SetupLayout(data);
    ActiveIndicesIncreasing(data, OutputCount(data).value);
    ListDifferAt(Active(data), j, k);
  }

  /** No entity appears twice in the list. */
  lemma SetupEntitiesDistinct(data: Document)
    requires Setup(data).Success?
    ensures forall j, k :: 0 <= j < k < |Setup(data).value| ==> Setup(data).value[j] != Setup(data).value[k]
  {
    forall j, k | 0 <= j < k < |Setup(data).value|
      ensures Setup(data).value[j] != Setup(data).value[k]
    {
      SetupEntitiesDifferAt(data, j, k);
    }
  }

  /** The unique ids setup registers are pairwise different. */
  lemma SetupIdsDistinct(data: Document)
    requires Setup(data).Success?
    ensures forall j, k :: 0 <= j < k < |Setup(data).value| ==>
      UniqueId(Setup(data).value[j]) != UniqueId(Setup(data).value[k])
  {
    var es := Setup(data).value;
    forall j, k | 0 <= j < k < |es|
      ensures UniqueId(es[j]) != UniqueId(es[k])
    {
      SetupEntitiesDifferAt(data, j, k);
      UniqueIdInjective(es[j], es[k]);
    }
  }

  /** A controller with one dimmer output nicknamed "Porch". */
  function PorchDocument(mode: string): Document {
    map[
      "system" := map[
        "numberofoutputs" := Int(1), "internaltemp" := Int(70), "internaltempmax" := Int(90),
        "powerresets" := Int(2), "safetyrelay" := Str("OK")],
      "output1" := map[
        "outputmode" := Str(mode), "outputnickname" := Str("Porch"),
        "probereadingTEMP" := Int(68), "probereadingTEMPMAX" := Int(80), "probereadingTEMPMIN" := Int(40),
        "currentsetting" := Int(50), "errorcode" := Int(0), "errorcodedescription" := Str("None"),
        "poweroutput" := Int(30), "poweroutputLIMIT" := Int(100), "highalarm" := Int(85), "lowalarm" := Int(30)]
    ]
  }

  /** Output 1 is keyed "output1". */
  lemma FirstOutputKey()
    ensures OutputKey(1) == "output1"
  {
    assert Decimal.NatToString(1) == "1";
  }

  /** The one-output controller yields seven entities: the porch output's four
      sensors and the three system sensors. */
  lemma PorchSetup()
    ensures Setup(PorchDocument("Dimmer")) == Success(OutputBlock("output1") + SystemEntities())
    ensures |Setup(PorchDocument("Dimmer")).value| == 7
  {
    var data := PorchDocument("Dimmer");
    FirstOutputKey();
    assert OutputMode(data, 1) == Success(Str("Dimmer"));
    assert OutputBlocks(data, 0) == Success([]);
    assert OutputBlocks(data, 1) == Success([] + OutputBlock("output1"));
    assert [] + OutputBlock("output1") == OutputBlock("output1");
    assert OutputCount(data) == Success(1);
  }

  /** Once the porch output is disabled only the three system sensors remain. */
  lemma PorchDisabledSetup()
    ensures Setup(PorchDocument("Disabled")) == Success(SystemEntities())
  {
    var data := PorchDocument("Disabled");
    FirstOutputKey();
    assert OutputMode(data, 1) == Success(Str("Disabled"));
    assert OutputBlocks(data, 0) == Success([]);
    assert OutputBlocks(data, 1) == Success([]);
    assert [] + SystemEntities() == SystemEntities();
  }

  /** The porch temperature sensor is called "Spyder Porch Temperature" and
      shows 68. */
  lemma PorchTemperatureSensor()
    ensures Name(PorchDocument("Dimmer"), Temperature("output1")) == Success("Spyder Porch Temperature")
    ensures NativeValue(PorchDocument("Dimmer"), Temperature("output1")) == Success(Int(68))
  {
    var data := PorchDocument("Dimmer");
    assert data["output1"]["outputnickname"] == Str("Porch");
    assert "Spyder " + "Porch" + " " + "Temperature" == "Spyder Porch Temperature";
  }
}
