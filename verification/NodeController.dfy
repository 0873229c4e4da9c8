/** The controller service of one node: the other end of the master's calls. */
module NodeController {
  import opened Wrappers
  import opened Devices
  import opened Tables
  import opened NodeAllocator

  class NodeControllerServer {
    const dm: DeviceManager

    constructor (dm: DeviceManager)
      ensures this.dm == dm
    {
      this.dm := dm;
    }

    /** The device is the one the master names in the parameters. */
    method CreateVolume(name: string, params: Params) returns (code: Code)
      requires dm.Valid()
      modifies dm`devicesByVolumeName, dm.Repr`Volumes
      ensures dm.Valid() && code in {OK, InvalidArgument, Internal}
      ensures code == InvalidArgument <==> name == ""
      ensures code == OK <==> name != "" && "ID" in params && Tables.Allocate(old(dm.Abs()), params["ID"], name).Some?
      ensures code == OK ==> Some(dm.Abs()) == Tables.Allocate(old(dm.Abs()), params["ID"], name)
      ensures code != OK ==> dm.Abs() == old(dm.Abs())
    {
      if name == "" {
        return InvalidArgument;
      }
      if "ID" !in params {
        return Internal;
      }
      var ok := dm.Allocate(params["ID"], name);
      code := if ok then OK else Internal;
    }

    method DeleteVolume(name: string) returns (code: Code)
      requires dm.Valid()
      modifies dm`devicesByVolumeName, dm.Repr`Volumes
      ensures dm.Valid() && code in {OK, InvalidArgument, Internal}
      ensures code == InvalidArgument <==> name == ""
      ensures code == OK <==> name != "" && Tables.DeAllocate(old(dm.Abs()), name).Some?
      ensures code == OK ==> Some(dm.Abs()) == Tables.DeAllocate(old(dm.Abs()), name)
      ensures code != OK ==> dm.Abs() == old(dm.Abs())
    {
      if name == "" {
        return InvalidArgument;
      }
      var ok := dm.DeAllocate(name);
      code := if ok then OK else Internal;
    }

    /** One entry per device, in an arbitrary order. */
    method ListVolumes() returns (entries: seq<Report>)
      requires dm.Valid()
      ensures exists order :: Reports(dm.Abs(), order, entries)
    {
      entries := [];
      ghost var order: seq<string> := [];
      var rest := dm.devicesByDeviceID.Keys;
      while rest != {}
        invariant rest <= dm.devicesByDeviceID.Keys && |order| == |entries|
        invariant Distinct(order)
        invariant forall i | i in dm.devicesByDeviceID :: i in rest <==> i !in order
        invariant forall i | i in order :: i in dm.devicesByDeviceID
        invariant forall k | 0 <= k < |order| :: entries[k] == ReportOf(dm.devicesByDeviceID[order[k]].Value())
      {
        var i :| i in rest;
        var dev := dm.devicesByDeviceID[i];
        entries := entries + [Report(dev.ID, dev.Size, dev.Parameters)];
        order := order + [i];
        rest := rest - {i};
      }
      assert Reports(dm.Abs(), order, entries);
    }
  }
}
