/** Devices, volumes, and the capacity arithmetic that decides whether a request fits. */
module Devices {
  import opened Wrappers
  import opened Machine

  /** gRPC status codes the driver uses; Unknown is that of a plain error, and Unavailable stands for
      whatever the transport answers when a call fails. */
  datatype Code =
    OK | InvalidArgument | NotFound | ResourceExhausted | OutOfRange | Internal | Aborted | Unknown | Unavailable

  type Params = map<string, string>

  /** A *csi.Volume. The node's device manager only ever stores Nil. */
  datatype Volume = Nil | Vol(id: string, size: int, topology: seq<Params>, context: Params)

  /** The contents of a DeviceInfo. */
  datatype Device = Device(id: string, volumes: map<string, Volume>, paths: seq<string>, size: int, params: Params)

  /** resource.ParseQuantity followed by AsInt64: None when parsing fails. */
  type Parser = string -> Option<Int64>

  const DEVICE_TYPE := "deviceType"
  const VENDOR := "vendor"
  const GPU := "gpu"
  const FPGA := "fpga"
  const MEMORY := "memory"
  const MILLICORES := "millicores"
  const COMMON_REQUIRED := [DEVICE_TYPE, VENDOR]
  const FPGA_REQUIRED := ["afuID", "interfaceID"]

  // ----- amounts in use

  /** What one volume takes of a parameter: only present, parseable, positive amounts count. */
  function Amount(parse: Parser, v: Volume, p: string): (a: nat)
    ensures a <= MAX_INT64
  {
    if v.Vol? && p in v.context then
      match parse(v.context[p])
      case Some(q) => if q > 0 then q else 0
      case None => 0
    else 0
  }

  /** The exact total taken by a set of volumes, summed in no particular order. */
  ghost function Used(parse: Parser, volumes: map<string, Volume>, p: string): nat {
    if |volumes| == 0 then 0
    else
      var k := Pick(volumes.Keys);
      Amount(parse, volumes[k], p) + Used(parse, volumes - {k}, p)
  }

  /** The volumes counted after the first few names of an iteration order. */
  ghost function Counted(volumes: map<string, Volume>, visited: set<string>): map<string, Volume> {
    map k | k in volumes && k in visited :: volumes[k]
  }

  lemma Shrinks(volumes: map<string, Volume>, k: string)
    requires k in volumes
    ensures |volumes - {k}| < |volumes|
  {
    assert (volumes - {k}).Keys == volumes.Keys - {k};
  }

  /** The total does not depend on which volume is counted first. */
  lemma {:induction false} UsedPick(parse: Parser, volumes: map<string, Volume>, p: string, k: string)
    requires k in volumes
    ensures Used(parse, volumes, p) == Amount(parse, volumes[k], p) + Used(parse, volumes - {k}, p)
    decreases |volumes|
  {
    Shrinks(volumes, k);
    var j := Pick(volumes.Keys);
    if j != k {
      Shrinks(volumes, j);
      UsedPick(parse, volumes - {j}, p, k);
      UsedPick(parse, volumes - {k}, p, j);
      assert volumes - {j} - {k} == volumes - {k} - {j};
    }
  }

  lemma UsedPut(parse: Parser, volumes: map<string, Volume>, p: string, k: string, v: Volume)
    ensures Used(parse, volumes[k := v], p) == Amount(parse, v, p) + Used(parse, volumes - {k}, p)
  {
    UsedPick(parse, volumes[k := v], p, k);
    assert volumes[k := v] - {k} == volumes - {k};
  }

  /** A volume adds to what is in use exactly the quantity under the parameter's name in its context; an
      absent, unreadable or non-positive one adds nothing, and no volumes use nothing. */
  lemma UsedExactly(parse: Parser, volumes: map<string, Volume>, p: string, name: string, v: Volume)
    requires v.Vol?
    ensures Used(parse, map[], p) == 0
    ensures p in v.context && parse(v.context[p]).Some? && parse(v.context[p]).value > 0 ==>
              Used(parse, volumes[name := v], p) == Used(parse, volumes - {name}, p) + parse(v.context[p]).value
    ensures p !in v.context || parse(v.context[p]).None? || parse(v.context[p]).value <= 0 ==>
              Used(parse, volumes[name := v], p) == Used(parse, volumes - {name}, p)
  {
    UsedPut(parse, volumes, p, name, v);
  }

  lemma CountNext(parse: Parser, volumes: map<string, Volume>, p: string, visited: set<string>, k: string)
    requires k in volumes && k !in visited
    ensures Used(parse, Counted(volumes, visited + {k}), p) ==
              Used(parse, Counted(volumes, visited), p) + Amount(parse, volumes[k], p)
  {
    var after := Counted(volumes, visited + {k});
    UsedPick(parse, after, p, k);
    assert after - {k} == Counted(volumes, visited);
  }

  /** Fewer volumes never take more. */
  lemma {:induction false} UsedMonotone(parse: Parser, fewer: map<string, Volume>, volumes: map<string, Volume>,
                                        p: string)
    requires forall k | k in fewer :: k in volumes && fewer[k] == volumes[k]
    ensures Used(parse, fewer, p) <= Used(parse, volumes, p)
    decreases |volumes|
  {
    if |fewer| == 0 {
    } else {
      var k :| k in fewer;
      UsedPick(parse, fewer, p, k);
      UsedPick(parse, volumes, p, k);
      UsedMonotone(parse, fewer - {k}, volumes - {k}, p);
    }
  }

  // ----- matching a request against a device

  /** DeviceInfo.checkParamFits, with the int64 sum and subtraction of the machine. */
  ghost function CheckParamFits(parse: Parser, d: Device, params: Params, p: string): Code {
    if p !in params || p !in d.params then InvalidArgument
    else
      match (parse(params[p]), parse(d.params[p]))
      case (Some(want), Some(have)) =>
        if want <= Wrap64(have - Wrap64(Used(parse, d.volumes, p))) then OK
        else if want <= have then ResourceExhausted
        else NotFound
      case _ => InvalidArgument
  }

  function CheckParam(d: Device, params: Params, p: string): Code {
    if p !in params || p !in d.params then InvalidArgument
    else if d.params[p] != params[p] then OutOfRange
    else OK
  }

  /** DeviceInfo.checkParams: the first verdict that is not OK, in the order of the names. */
  function CheckParams(d: Device, params: Params, names: seq<string>): Code {
    if |names| == 0 then OK
    else if CheckParam(d, params, names[0]) != OK then CheckParam(d, params, names[0])
    else CheckParams(d, params, names[1..])
  }

  /** GPUManager.checkParams. */
  function CombineGpu(c1: Code, c2: Code): Code {
    if c1 == OK && c2 == OK then OK
    else if c1 == ResourceExhausted || c2 == ResourceExhausted then ResourceExhausted
    else NotFound
  }

  /** DeviceManager.checkParams: dispatch on the deviceType of the REQUEST. */
  ghost function CheckTyped(parse: Parser, d: Device, params: Params): Code {
    var kind := if DEVICE_TYPE in params then params[DEVICE_TYPE] else "";
    if kind == FPGA then CheckParams(d, params, FPGA_REQUIRED)
    else if kind == GPU then
      CombineGpu(CheckParamFits(parse, d, params, MEMORY), CheckParamFits(parse, d, params, MILLICORES))
    else InvalidArgument
  }

  /** DeviceInfo.Match. */
  ghost function Match(parse: Parser, d: Device, params: Params): Code {
    var code := CheckParams(d, params, COMMON_REQUIRED);
    if code == OK then CheckTyped(parse, d, params) else code
  }

  // ----- what the verdicts mean

  predicate IsGpu(d: Device) {
    DEVICE_TYPE in d.params && d.params[DEVICE_TYPE] == GPU
  }

  /** The device's own amount of a parameter; nothing if absent, unparseable or negative. */
  function Limit(parse: Parser, d: Device, p: string): (a: nat)
    ensures a <= MAX_INT64
  {
    if p in d.params then
      match parse(d.params[p])
      case Some(q) => if q > 0 then q else 0
      case None => 0
    else 0
  }

  /** No GPU holds more than it has. */
  ghost predicate WithinLimits(parse: Parser, d: Device) {
    IsGpu(d) ==>
      && Used(parse, d.volumes, MEMORY) <= Limit(parse, d, MEMORY)
      && Used(parse, d.volumes, MILLICORES) <= Limit(parse, d, MILLICORES)
  }

  /** A partial sum of volumes is at most the whole sum. */
  lemma CountedBelow(parse: Parser, volumes: map<string, Volume>, p: string, visited: set<string>)
    ensures Used(parse, Counted(volumes, visited), p) <= Used(parse, volumes, p)
  {
    UsedMonotone(parse, Counted(volumes, visited), volumes, p);
  }

  /** As long as no more is used than there is, no partial sum overflows, whatever the iteration
      order. */
  lemma NoSumOverflow(parse: Parser, d: Device, p: string, visited: set<string>)
    requires Used(parse, d.volumes, p) <= Limit(parse, d, p)
    ensures Used(parse, Counted(d.volumes, visited), p) <= Used(parse, d.volumes, p) <= MAX_INT64
  {
    CountedBelow(parse, d.volumes, p, visited);
  }

  /** Neither does the subtraction: the machine's value is the mathematical one. */
  lemma NoDifferenceOverflow(parse: Parser, d: Device, p: string)
    requires Used(parse, d.volumes, p) <= Limit(parse, d, p)
    requires p in d.params && parse(d.params[p]).Some?
    ensures var have := parse(d.params[p]).value;
            var used := Used(parse, d.volumes, p);
            -MAX_INT64 - 1 <= have - used <= MAX_INT64 && Wrap64(have - Wrap64(used)) == have - used
  {
    WrapExact(parse(d.params[p]).value, Used(parse, d.volumes, p));
  }

  lemma WrapExact(have: Int64, used: nat)
    requires used <= if have > 0 then have else 0
    ensures -MAX_INT64 - 1 <= have - used <= MAX_INT64
    ensures Wrap64(have - Wrap64(used)) == have - used
  {
  }

  /** A request asks for `want` of p; the device has `left` of it unused, out of `total`. */
  ghost predicate Asks(parse: Parser, d: Device, params: Params, p: string, want: int, left: int, total: int) {
    && p in params && p in d.params
    && parse(params[p]) == Some(want) && parse(d.params[p]) == Some(total)
    && left == total - Used(parse, d.volumes, p)
  }

  ghost predicate FitsNow(parse: Parser, d: Device, params: Params, p: string) {
    exists want: Int64, left, total: Int64 :: Asks(parse, d, params, p, want, left, total) && want <= left
  }

  ghost predicate FitsOnceFreed(parse: Parser, d: Device, params: Params, p: string) {
    exists want: Int64, left, total: Int64 :: Asks(parse, d, params, p, want, left, total) && left < want <= total
  }

  lemma FitsVerdict(parse: Parser, d: Device, params: Params, p: string)
    requires Used(parse, d.volumes, p) <= Limit(parse, d, p)
    ensures CheckParamFits(parse, d, params, p) == OK <==> FitsNow(parse, d, params, p)
    ensures CheckParamFits(parse, d, params, p) == ResourceExhausted <==> FitsOnceFreed(parse, d, params, p)
  {
    if p in params && p in d.params && parse(params[p]).Some? && parse(d.params[p]).Some? {
      var want, total := parse(params[p]).value, parse(d.params[p]).value;
      NoDifferenceOverflow(parse, d, p);
      assert Asks(parse, d, params, p, want, total - Used(parse, d.volumes, p), total);
    }
  }

  /** The request names the device's own type and vendor. */
  predicate SameKind(d: Device, params: Params) {
    && DEVICE_TYPE in params && DEVICE_TYPE in d.params && d.params[DEVICE_TYPE] == params[DEVICE_TYPE]
    && VENDOR in params && VENDOR in d.params && d.params[VENDOR] == params[VENDOR]
  }

  lemma {:induction false} CheckParamsOk(d: Device, params: Params, names: seq<string>)
    ensures CheckParams(d, params, names) == OK <==>
            forall p | p in names :: p in params && p in d.params && d.params[p] == params[p]
  {
    if |names| > 0 {
      CheckParamsOk(d, params, names[1..]);
      assert names == [names[0]] + names[1..];
    }
  }

  lemma SameKindOk(d: Device, params: Params)
    ensures CheckParams(d, params, COMMON_REQUIRED) == OK <==> SameKind(d, params)
  {
    CheckParamsOk(d, params, COMMON_REQUIRED);
    assert COMMON_REQUIRED[0] == DEVICE_TYPE && COMMON_REQUIRED[1] == VENDOR;
  }

  /** The verdict on a GPU, in terms of amounts: accepted exactly when both amounts fit in what is
      left; ResourceExhausted exactly when some amount would fit the empty device but not now. */
  lemma GpuVerdict(parse: Parser, d: Device, params: Params)
    requires IsGpu(d) && WithinLimits(parse, d)
    ensures Match(parse, d, params) == OK <==>
            SameKind(d, params) && FitsNow(parse, d, params, MEMORY) && FitsNow(parse, d, params, MILLICORES)
    ensures Match(parse, d, params) == ResourceExhausted <==>
            SameKind(d, params) && (FitsOnceFreed(parse, d, params, MEMORY)
                || FitsOnceFreed(parse, d, params, MILLICORES))
  {
    SameKindOk(d, params);
    CommonVerdict(d, params);
    if SameKind(d, params) {
      FitsVerdict(parse, d, params, MEMORY);
      FitsVerdict(parse, d, params, MILLICORES);
    }
  }

  /** checkParams itself never answers ResourceExhausted. */
  lemma {:induction false} CheckParamsCodes(d: Device, params: Params, names: seq<string>)
    ensures CheckParams(d, params, names) in {OK, InvalidArgument, OutOfRange}
  {
    if |names| > 0 {
      CheckParamsCodes(d, params, names[1..]);
    }
  }

  lemma CommonVerdict(d: Device, params: Params)
    ensures CheckParams(d, params, COMMON_REQUIRED) != ResourceExhausted
  {
    CheckParamsCodes(d, params, COMMON_REQUIRED);
  }

  /** An FPGA is handed out on equality of four parameters alone: the volumes it holds play no part, and
      it is never exhausted. */
  lemma FpgaVerdict(parse: Parser, d: Device, params: Params)
    requires "deviceType" in d.params && d.params["deviceType"] == "fpga"
    ensures Match(parse, d, params) == OK <==>
            && "deviceType" in params && params["deviceType"] == "fpga"
            && "vendor" in params && "vendor" in d.params && d.params["vendor"] == params["vendor"]
            && "afuID" in params && "afuID" in d.params && d.params["afuID"] == params["afuID"]
            && "interfaceID" in params && "interfaceID" in d.params && d.params["interfaceID"] == params["interfaceID"]
    ensures Match(parse, d, params) in {OK, InvalidArgument, OutOfRange}
  {
    SameKindOk(d, params);
    CheckParamsOk(d, params, FPGA_REQUIRED);
    CheckParamsCodes(d, params, COMMON_REQUIRED);
    CheckParamsCodes(d, params, FPGA_REQUIRED);
    assert FPGA_REQUIRED[0] == "afuID" && FPGA_REQUIRED[1] == "interfaceID";
  }

  /** A request for any other type of device matches none. */
  lemma OtherVerdict(parse: Parser, d: Device, params: Params)
    requires "deviceType" !in params || (params["deviceType"] != "gpu" && params["deviceType"] != "fpga")
    ensures Match(parse, d, params) in {InvalidArgument, OutOfRange}
  {
    CheckParamsCodes(d, params, COMMON_REQUIRED);
  }

  /** Both amounts can be read, and the request wants no more than the volumes leave. */
  ghost predicate Leaves(parse: Parser, d: Device, params: Params, p: string) {
    && p in params && p in d.params && parse(params[p]).Some? && parse(d.params[p]).Some?
    && parse(params[p]).value <= parse(d.params[p]).value - Used(parse, d.volumes, p)
  }

  lemma LeavesFits(parse: Parser, d: Device, params: Params, p: string)
    ensures Leaves(parse, d, params, p) <==> FitsNow(parse, d, params, p)
  {
    if Leaves(parse, d, params, p) {
      var total := parse(d.params[p]).value;
      assert Asks(parse, d, params, p, parse(params[p]).value, total - Used(parse, d.volumes, p), total);
    }
  }

  /** The verdict on a GPU with every name spelled out: type and vendor are equal, and of memory and of
      millicores the request wants no more than the device has, less what its volumes take. */
  lemma GpuAccepts(parse: Parser, d: Device, params: Params)
    requires "deviceType" in d.params && d.params["deviceType"] == "gpu" && WithinLimits(parse, d)
    ensures Match(parse, d, params) == OK <==>
            && "deviceType" in params && params["deviceType"] == "gpu"
            && "vendor" in params && "vendor" in d.params && d.params["vendor"] == params["vendor"]
            && Leaves(parse, d, params, "memory") && Leaves(parse, d, params, "millicores")
  {
    GpuVerdict(parse, d, params);
    LeavesFits(parse, d, params, "memory");
    LeavesFits(parse, d, params, "millicores");
  }

  predicate SharesValue(d: Device, params: Params, p: string) {
    p in params && p in d.params && d.params[p] == params[p]
  }

  /** The code of a refusal: deviceType is compared first and then vendor, a difference is OutOfRange and an
      absence InvalidArgument; a GPU of the right kind is otherwise NotFound, unless it is exhausted. */
  lemma RefusalCodes(parse: Parser, d: Device, params: Params)
    ensures !SharesValue(d, params, "deviceType") ==>
              Match(parse, d, params) ==
              if "deviceType" in params && "deviceType" in d.params then OutOfRange else InvalidArgument
    ensures SharesValue(d, params, "deviceType") && !SharesValue(d, params, "vendor") ==>
              Match(parse, d, params) ==
              if "vendor" in params && "vendor" in d.params then OutOfRange else InvalidArgument
    ensures SharesValue(d, params, "deviceType") && SharesValue(d, params, "vendor")
              && params["deviceType"] == "gpu" ==>
              Match(parse, d, params) in {OK, ResourceExhausted, NotFound}
  {
    CodeOfTwo(d, params);
  }

  lemma CodeOfTwo(d: Device, params: Params)
    ensures CheckParams(d, params, COMMON_REQUIRED) ==
            if CheckParam(d, params, "deviceType") != OK then CheckParam(d, params, "deviceType")
            else CheckParam(d, params, "vendor")
  {
    assert COMMON_REQUIRED[1..] == ["vendor"];
    assert CheckParams(d, params, ["vendor"][1..]) == OK;
  }

  // ----- what allocation and release do to the limits

  /** Whatever the name (even one the device already holds), recording an approved request keeps
      the device within its limits. */
  lemma ApprovalKeepsLimits(parse: Parser, d: Device, params: Params, name: string, v: Volume)
    requires WithinLimits(parse, d) && Match(parse, d, params) == OK
    requires v.Vol?
    requires forall p | p in {MEMORY, MILLICORES} && p in v.context :: p in params && v.context[p] == params[p]
    ensures WithinLimits(parse, d.(volumes := d.volumes[name := v]))
  {
    if IsGpu(d) {
      GpuVerdict(parse, d, params);
      ApprovedAmount(parse, d, params, name, v, MEMORY);
      ApprovedAmount(parse, d, params, name, v, MILLICORES);
    }
  }

  lemma ApprovedAmount(parse: Parser, d: Device, params: Params, name: string, v: Volume, p: string)
    requires Used(parse, d.volumes, p) <= Limit(parse, d, p) && FitsNow(parse, d, params, p)
    requires v.Vol? && (p in v.context ==> p in params && v.context[p] == params[p])
    ensures Used(parse, d.volumes[name := v], p) <= Limit(parse, d, p)
  {
    UsedPut(parse, d.volumes, p, name, v);
    UsedMonotone(parse, d.volumes - {name}, d.volumes, p);
  }

  /** An approved request under a new name takes from the device exactly the amount it asks for. */
  lemma ApprovalTakesExactly(parse: Parser, d: Device, params: Params, name: string, v: Volume, p: string)
    requires "deviceType" in d.params && d.params["deviceType"] == "gpu" && WithinLimits(parse, d)
    requires Match(parse, d, params) == OK && name !in d.volumes && (p == "memory" || p == "millicores")
    requires v.Vol? && p in params && p in v.context && v.context[p] == params[p]
    ensures parse(params[p]).Some?
    ensures var want := parse(params[p]).value;
            Used(parse, d.volumes[name := v], p) == Used(parse, d.volumes, p) + if want > 0 then want else 0
  {
    GpuAccepts(parse, d, params);
    NewNameTakes(parse, d.volumes, p, name, v);
  }

  lemma NewNameTakes(parse: Parser, volumes: map<string, Volume>, p: string, name: string, v: Volume)
    requires name !in volumes && v.Vol? && p in v.context && parse(v.context[p]).Some?
    ensures var want := parse(v.context[p]).value;
            Used(parse, volumes[name := v], p) == Used(parse, volumes, p) + if want > 0 then want else 0
  {
    assert volumes - {name} == volumes;
    UsedPut(parse, volumes, p, name, v);
  }

  /** So a further request for more than the first has left is not accepted, whatever else it says. */
  lemma RestRefused(parse: Parser, d: Device, params: Params, name: string, v: Volume, p: string, more: Params)
    requires "deviceType" in d.params && d.params["deviceType"] == "gpu" && WithinLimits(parse, d)
    requires Match(parse, d, params) == OK && name !in d.volumes && v.Vol?
    requires forall q | q in {"memory", "millicores"} ::
               q in params && q in v.context && v.context[q] == params[q]
    requires p in {"memory", "millicores"} && p in d.params && p in more
    requires parse(d.params[p]).Some? && parse(params[p]).Some? && parse(params[p]).value > 0 && parse(more[p]).Some?
    requires parse(more[p]).value > parse(d.params[p]).value - Used(parse, d.volumes, p) - parse(params[p]).value
    ensures Match(parse, d.(volumes := d.volumes[name := v]), more) != OK
  {
    ApprovalTakesExactly(parse, d, params, name, v, p);
    ApprovalKeepsLimits(parse, d, params, name, v);
    GpuAccepts(parse, d.(volumes := d.volumes[name := v]), more);
  }

  lemma ReleaseKeepsLimits(parse: Parser, d: Device, name: string)
    requires WithinLimits(parse, d)
    ensures WithinLimits(parse, d.(volumes := d.volumes - {name}))
  {
    UsedMonotone(parse, d.volumes - {name}, d.volumes, MEMORY);
    UsedMonotone(parse, d.volumes - {name}, d.volumes, MILLICORES);
  }

  lemma EmptyWithinLimits(parse: Parser, d: Device)
    requires d.volumes == map[]
    ensures WithinLimits(parse, d)
  {
  }

  /** Freeing volumes never turns an accepted request into a refused one. */
  lemma FreeingKeepsMatch(parse: Parser, d: Device, params: Params, kept: map<string, Volume>)
    requires IsGpu(d) && WithinLimits(parse, d)
    requires forall k | k in kept :: k in d.volumes && kept[k] == d.volumes[k]
    requires Match(parse, d, params) == OK
    ensures Match(parse, d.(volumes := kept), params) == OK
  {
    var d' := d.(volumes := kept);
    UsedMonotone(parse, kept, d.volumes, MEMORY);
    UsedMonotone(parse, kept, d.volumes, MILLICORES);
    GpuVerdict(parse, d, params);
    FitsAfterFreeing(parse, d, d', params, MEMORY);
    FitsAfterFreeing(parse, d, d', params, MILLICORES);
    GpuVerdict(parse, d', params);
  }

  lemma FitsAfterFreeing(parse: Parser, d: Device, d': Device, params: Params, p: string)
    requires d.params == d'.params && Used(parse, d'.volumes, p) <= Used(parse, d.volumes, p)
    requires FitsNow(parse, d, params, p)
    ensures FitsNow(parse, d', params, p)
  {
    var want: Int64, left, total: Int64 :| Asks(parse, d, params, p, want, left, total) && want <= left;
    assert Asks(parse, d', params, p, want, total - Used(parse, d'.volumes, p), total);
  }

  /** The request asks for no more of p than the device has in all. */
  predicate WithinTotal(parse: Parser, d: Device, params: Params, p: string) {
    && p in params && p in d.params && parse(params[p]).Some? && parse(d.params[p]).Some?
    && parse(params[p]).value <= parse(d.params[p]).value
  }

  /** A fresh device satisfies every request whose amounts it has: the limits are not slack. */
  lemma EmptyDeviceMatches(parse: Parser, d: Device, params: Params)
    requires IsGpu(d) && d.volumes == map[] && SameKind(d, params)
    requires WithinTotal(parse, d, params, MEMORY) && WithinTotal(parse, d, params, MILLICORES)
    ensures Match(parse, d, params) == OK
  {
    GpuVerdict(parse, d, params);
    forall p | WithinTotal(parse, d, params, p) ensures FitsNow(parse, d, params, p) {
      assert Asks(parse, d, params, p, parse(params[p]).value, parse(d.params[p]).value, parse(d.params[p]).value);
    }
  }
}
