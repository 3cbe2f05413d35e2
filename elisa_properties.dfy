/** What a compiled ELISA plan guarantees: record order, record contents and where the helper output goes. */
module ElisaProperties {
  import opened Actions
  import opened ElisaProtocol

  /** A record asking the washer to run its wash programme. */
  predicate IsWashPlate(a: Action) {
    IsDeviceAction(a, "wash_plate")
  }

  /** The plan opens with the start log naming the plate, then a half-second wait. */
  lemma PlanOpensWithStart(p: Params, addLiquid: LiquidHelper)
    requires |p.readWavelengths| > 0
    ensures var r := Plan(p, addLiquid);
      && r[0] == Log(RunStarted(p.plate.id), Rocket)
      && r[1] == Wait(0.5)
  {
  }

  /** Transport to the washer: navigate to WSH_DOCK, then pick, then place, both arm moves carrying the plate id. */
  lemma WasherTransportOrder(p: Params, addLiquid: LiquidHelper)
    requires |p.readWavelengths| > 0
    ensures var r := Plan(p, addLiquid);
      && r[2] == Log(NavigatingToWasher, Robot)
      && r[3] == Device(p.agvId, "send_nav_task", map["target" := StrVal("WSH_DOCK")])
      && r[4] == Device(p.armId, "move_pos_task",
                   map["task_name" := StrVal("camera/pick_plate.urp"), "plate_id" := StrVal(p.plate.id)])
      && r[5] == Device(p.armId, "move_pos_task",
                   map["task_name" := StrVal("camera/place_to_washer.urp"), "plate_id" := StrVal(p.plate.id)])
      && r[6] == Log(PlateInWasher, Basket)
  {
  }

  /** The wash record carries the PBST settings: cycles, one volume for aspirate and dispense, soak, shake at 600 rpm. */
  lemma WashSettings(p: Params, addLiquid: LiquidHelper)
    requires |p.readWavelengths| > 0
    ensures var r := Plan(p, addLiquid);
      && r[7] == Log(WashPlan(p.pbstCycles, p.pbstVolumeUl, p.pbstSoakS), Shower)
      && r[8].Device? && r[8].deviceId == p.washerId && r[8].name == "wash_plate"
      && r[8].kwargs.Keys == {"plate", "wells", "buffer", "cycles", "aspirate_volume_ul",
                              "dispense_volume_ul", "soak_time_s", "shake", "shake_speed_rpm"}
      && r[8].kwargs["plate"] == StrVal(p.plate.id)
      && r[8].kwargs["wells"] == StrVal(p.wells)
      && r[8].kwargs["buffer"] == StrVal("PBST")
      && r[8].kwargs["cycles"] == IntVal(p.pbstCycles)
      && r[8].kwargs["aspirate_volume_ul"] == RealVal(p.pbstVolumeUl)
      && r[8].kwargs["dispense_volume_ul"] == RealVal(p.pbstVolumeUl)
      && r[8].kwargs["soak_time_s"] == IntVal(p.pbstSoakS)
      && r[8].kwargs["shake"] == BoolVal(true)
      && r[8].kwargs["shake_speed_rpm"] == IntVal(600)
      && r[9] == Log(WashDone, CheckMark)
  {
  }

  /** The compiler itself emits exactly one wash record; any other comes from the liquid helper. */
  lemma {:induction false} WashPlateOnce(p: Params, addLiquid: LiquidHelper)
    requires |p.readWavelengths| > 0
    ensures Count(Plan(p, addLiquid), IsWashPlate)
         == 1 + Count(addLiquid(TmbRequest(p)), IsWashPlate) + Count(addLiquid(StopRequest(p)), IsWashPlate)
  {
    var tmb, stop := addLiquid(TmbRequest(p)), addLiquid(StopRequest(p));
    var head := [StartLog(p), Wait(StartWaitS)] + WasherTransport(p) + WashPhase(p) + [TmbLog(p)];
    var middle := Incubation(p) + [StopLog(p)];
    var tail := StopSettle() + ReaderTransport(p) + ReadPhase(p) + Teardown(p);
    assert Plan(p, addLiquid) == head + tmb + middle + stop + tail;
    HeadHasOneWash(p);
    assert Count(middle, IsWashPlate) == 0;
    assert Count(tail, IsWashPlate) == 0;
    CountConcat(head, tmb, IsWashPlate);
    CountConcat(head + tmb, middle, IsWashPlate);
    CountConcat(head + tmb + middle, stop, IsWashPlate);
    CountConcat(head + tmb + middle + stop, tail, IsWashPlate);
  }

  lemma HeadHasOneWash(p: Params)
    ensures Count([StartLog(p), Wait(StartWaitS)] + WasherTransport(p) + WashPhase(p) + [TmbLog(p)], IsWashPlate) == 1
  {
    var head := [StartLog(p), Wait(StartWaitS)] + WasherTransport(p) + WashPhase(p) + [TmbLog(p)];
    var before, after := head[..8], head[9..];
    assert head == before + [WashPlate(p)] + after;
    assert Count(before, IsWashPlate) == 0;
    assert Count(after, IsWashPlate) == 0;
    CountConcat(before + [WashPlate(p)], after, IsWashPlate);
    CountConcat(before, [WashPlate(p)], IsWashPlate);
  }

  /** The TMB helper output sits unaltered between the "add TMB" log and the development log; the development wait follows. */
  lemma TmbSplice(p: Params, addLiquid: LiquidHelper)
    requires |p.readWavelengths| > 0
    ensures var r, tmb := Plan(p, addLiquid), addLiquid(LiquidRequest(p.plate, "TMB", p.tmbVolumeUl, "1", ""));
      var t := |tmb|;
      && r[10] == Log(AddingTmb(p.tmbVolumeUl, p.wells), TestTube)
      && r[11..11 + t] == tmb
      && r[11 + t] == Log(Developing(p.tmbDevelopMin), Hourglass)
      && r[12 + t] == Wait((p.tmbDevelopMin * 60) as real)
  {
  }

  /** The Stop helper output is spliced whole; right after it come the 5 s settling wait, the "stop complete" log, and only then the move to the reader. */
  lemma StopSplice(p: Params, addLiquid: LiquidHelper)
    requires |p.readWavelengths| > 0
    ensures var r, stop := Plan(p, addLiquid), addLiquid(LiquidRequest(p.plate, "Stop", p.stopVolumeUl, "1", ""));
      var t, s := |addLiquid(TmbRequest(p))|, |stop|;
      && r[13 + t] == Log(AddingStop(p.stopVolumeUl, p.wells), StopSign)
      && r[14 + t..14 + t + s] == stop
      && r[14 + t + s] == Wait(5.0)
      && r[15 + t + s] == Log(StopDone, CheckMark)
      && r[16 + t + s] == Log(NavigatingToReader, Robot)
      && r[17 + t + s] == Device(p.agvId, "send_nav_task", map["target" := StrVal("H1_DOCK")])
  {
  }

  /** Transport to the reader: pick from the washer, then place into the reader, both carrying the plate id. */
  lemma ReaderTransportOrder(p: Params, addLiquid: LiquidHelper)
    requires |p.readWavelengths| > 0
    ensures var r := Plan(p, addLiquid);
      var k := |addLiquid(TmbRequest(p))| + |addLiquid(StopRequest(p))|;
      && r[18 + k] == Device(p.armId, "move_pos_task",
                        map["task_name" := StrVal("camera/pick_from_washer.urp"), "plate_id" := StrVal(p.plate.id)])
      && r[19 + k] == Device(p.armId, "move_pos_task",
                        map["task_name" := StrVal("camera/place_to_reader.urp"), "plate_id" := StrVal(p.plate.id)])
      && r[20 + k] == Log(PlateInReader, Inbox)
  {
  }

  /** The read log names the primary wavelength, and the reference wavelength exactly when a second one is given; the read passes the wavelengths through unchanged. */
  lemma ReadPhaseContents(p: Params, addLiquid: LiquidHelper)
    requires |p.readWavelengths| > 0
    ensures var r, ws := Plan(p, addLiquid), p.readWavelengths;
      var k := |addLiquid(TmbRequest(p))| + |addLiquid(StopRequest(p))|;
      && r[21 + k].Log? && r[21 + k].icon == Chart
      && r[21 + k].msg.Reading?
      && r[21 + k].msg.primaryNm == ws[0]
      && (r[21 + k].msg.referenceNm.Some? <==> |ws| > 1)
      && (|ws| > 1 ==> r[21 + k].msg.referenceNm.value == ws[1])
      && r[22 + k].Device? && r[22 + k].deviceId == p.readerId && r[22 + k].name == "read_absorbance"
      && r[22 + k].kwargs.Keys == {"plate", "wells", "wavelengths_nm", "read_speed", "shake_before_read", "shake_time_s"}
      && r[22 + k].kwargs["plate"] == StrVal(p.plate.id)
      && r[22 + k].kwargs["wells"] == StrVal(p.wells)
      && r[22 + k].kwargs["wavelengths_nm"] == IntListVal(ws)
      && r[22 + k].kwargs["read_speed"] == StrVal("normal")
      && r[22 + k].kwargs["shake_before_read"] == BoolVal(true)
      && r[22 + k].kwargs["shake_time_s"] == IntVal(5)
  {
  }

  /** Right after the read comes the CSV export to a path derived from the plate id, then the "read done" log. */
  lemma ExportFollowsRead(p: Params, addLiquid: LiquidHelper)
    requires |p.readWavelengths| > 0
    ensures var r := Plan(p, addLiquid);
      var k := |addLiquid(TmbRequest(p))| + |addLiquid(StopRequest(p))|;
      && r[23 + k] == Device(p.readerId, "export_data", map[
                        "format" := StrVal("csv"),
                        "path" := StrVal("results/" + p.plate.id + "_ELISA.csv")])
      && r[24 + k] == Log(ReadDone, CheckMark)
  {
  }

  /** The plate id can be read back from its export path. */
  lemma ExportPathRoundTrip(plateId: string)
    ensures PlateIdOfPath(ExportPath(plateId)) == Some(plateId)
  {
  }

  /** Distinct plates export to distinct paths. */
  lemma ExportPathInjective(a: string, b: string)
    ensures ExportPath(a) == ExportPath(b) <==> a == b
  {
    if ExportPath(a) == ExportPath(b) {
      ExportPathRoundTrip(a);
      ExportPathRoundTrip(b);
    }
  }

  /** The plan ends by taking the plate out of the reader and logging completion. */
  lemma PlanCloses(p: Params, addLiquid: LiquidHelper)
    requires |p.readWavelengths| > 0
    ensures var r := Plan(p, addLiquid);
      && r[|r| - 2] == Device(p.armId, "move_pos_task",
                        map["task_name" := StrVal("camera/take_out_reader.urp"), "plate_id" := StrVal(p.plate.id)])
      && r[|r| - 1] == Log(RunComplete, Party)
  {
  }

  /** With the default parameters: 3 PBST cycles of 300 uL soaked 30 s, a 600 s development, a 5 s settle, reads at 450 and 570 nm. */
  lemma DefaultsPlan(plate: Plate, addLiquid: LiquidHelper)
    ensures var p := Defaults(plate);
      var r := Plan(p, addLiquid);
      var t, s := |addLiquid(TmbRequest(p))|, |addLiquid(StopRequest(p))|;
      && r[8].kwargs["cycles"] == IntVal(3)
      && r[8].kwargs["aspirate_volume_ul"] == RealVal(300.0)
      && r[8].kwargs["soak_time_s"] == IntVal(30)
      && r[12 + t] == Wait(600.0)
      && r[14 + t + s] == Wait(5.0)
      && r[21 + t + s] == Log(Reading(450, Some(570)), Chart)
      && r[22 + t + s].kwargs["wavelengths_nm"] == IntListVal([450, 570])
  {
  }
}
