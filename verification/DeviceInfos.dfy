/** DeviceInfo objects and the methods that read them. */
module DeviceInfos {
  import opened Machine
  import opened Devices

  /** The machine's running total once only the volumes in rest remain to be visited. */
  ghost function Running(parse: Parser, volumes: map<string, Volume>, p: string, rest: set<string>): Int64 {
    Wrap64(Used(parse, Counted(volumes, volumes.Keys - rest), p))
  }

  lemma RunningStep(parse: Parser, volumes: map<string, Volume>, p: string, rest: set<string>, k: string)
    requires k in rest && rest <= volumes.Keys
    ensures Running(parse, volumes, p, rest - {k}) ==
              Add64(Running(parse, volumes, p, rest), Amount(parse, volumes[k], p))
  {
    var visited := volumes.Keys - rest;
    assert volumes.Keys - (rest - {k}) == visited + {k};
    CountNext(parse, volumes, p, visited, k);
    WrapSum64(Used(parse, Counted(volumes, visited), p), Amount(parse, volumes[k], p));
  }

  lemma RunningEnds(parse: Parser, volumes: map<string, Volume>, p: string)
    ensures Running(parse, volumes, p, volumes.Keys) == 0
    ensures Running(parse, volumes, p, {}) == Wrap64(Used(parse, volumes, p))
  {
    assert Counted(volumes, volumes.Keys - volumes.Keys) == map[];
    assert Counted(volumes, volumes.Keys - {}) == volumes;
  }

  /** totalUsedParam: a loop over the volumes in an arbitrary order, adding with int64 wrap-around.
      No pointer in the map may be nil: the source dereferences every one of them. */
  method TotalUsedParam(parse: Parser, volumes: map<string, Volume>, p: string) returns (total: Int64)
    requires forall k | k in volumes :: volumes[k].Vol?
    ensures total == Wrap64(Used(parse, volumes, p))
  {
    RunningEnds(parse, volumes, p);
    total := 0;
    var rest := volumes.Keys;
    while rest != {}
      invariant rest <= volumes.Keys
      invariant total == Running(parse, volumes, p, rest)
    {
      var k :| k in rest;
      RunningStep(parse, volumes, p, rest, k);
      var context := volumes[k].context;
      if p in context {
        var quantity := parse(context[p]);
        if quantity.Some? && quantity.value > 0 {
          total := Add64(total, quantity.value);
        }
      }
      rest := rest - {k};
    }
  }

  class DeviceInfo {
    var ID: string
    var Volumes: map<string, Volume>
    var Paths: seq<string>
    var Size: int
    var Parameters: Params

    constructor (id: string, volumes: map<string, Volume>, paths: seq<string>, size: int, parameters: Params)
      ensures Value() == Device(id, volumes, paths, size, parameters)
    {
      ID, Volumes, Paths, Size, Parameters := id, volumes, paths, size, parameters;
    }

    function Value(): Device
      reads this
    {
      Device(ID, Volumes, Paths, Size, Parameters)
    }

    predicate NoNil()
      reads this
    {
      forall k | k in Volumes :: Volumes[k].Vol?
    }

    method CheckParamFits(parse: Parser, params: Params, p: string) returns (code: Code)
      requires NoNil()
      ensures code == Devices.CheckParamFits(parse, Value(), params, p)
    {
      if p in params && p in Parameters {
        var want := parse(params[p]);
        if want.Some? {
          var used := TotalUsedParam(parse, Volumes, p);
          var have := parse(Parameters[p]);
          if have.Some? {
            if want.value <= Sub64(have.value, used) {
              return OK;
            }
            if want.value <= have.value {
              return ResourceExhausted;
            }
            return NotFound;
          }
        }
      }
      return InvalidArgument;
    }

    method CheckParams(params: Params, names: seq<string>) returns (code: Code)
      ensures code == Devices.CheckParams(Value(), params, names)
    {
      var i := 0;
      while i < |names|
        invariant 0 <= i <= |names|
        invariant Devices.CheckParams(Value(), params, names) == Devices.CheckParams(Value(), params, names[i..])
      {
        code := CheckParam(Value(), params, names[i]);
        if code != OK {
          return code;
        }
        i := i + 1;
      }
      code := OK;
    }

    method Match(parse: Parser, params: Params) returns (code: Code)
      requires NoNil()
      ensures code == Devices.Match(parse, Value(), params)
    {
      code := CheckParams(params, COMMON_REQUIRED);
      if code == OK {
        code := CheckTyped(parse, params);
      }
    }

    /** DeviceManager.checkParams with the two type managers it knows. */
    method CheckTyped(parse: Parser, params: Params) returns (code: Code)
      requires NoNil()
      ensures code == Devices.CheckTyped(parse, Value(), params)
    {
      var kind := if DEVICE_TYPE in params then params[DEVICE_TYPE] else "";
      if kind == FPGA {
        code := CheckParams(params, FPGA_REQUIRED);
      } else if kind == GPU {
        var c1 := CheckParamFits(parse, params, MEMORY);
        var c2 := CheckParamFits(parse, params, MILLICORES);
        code := CombineGpu(c1, c2);
      } else {
        code := InvalidArgument;
      }
    }
  }
}
