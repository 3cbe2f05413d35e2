/** The ELISA plan compiler: turns assay parameters into one ordered list of action records. */
module ElisaProtocol {
  import opened Actions

  /** The target plate, a container node of the experiment graph; only its id is read. */
  datatype Plate = Plate(id: string)

  /** The compiler's parameters, one field per keyword parameter (the graph is carried by the liquid helper). */
  datatype Params = Params(
    plate: Plate,
    wells: string,
    pbstCycles: int,
    pbstVolumeUl: real,
    pbstSoakS: int,
    tmbVolumeUl: real,
    tmbDevelopMin: int,
    stopVolumeUl: real,
    readWavelengths: seq<int>,
    agvId: string,
    armId: string,
    washerId: string,
    readerId: string)

  /** The arguments of one call to the liquid-addition helper. */
  datatype LiquidRequest = LiquidRequest(
    vessel: Plate, reagent: string, volumeUl: real, time: string, rateSpec: string)

  /** The liquid-addition helper: a request expanded into pump, wait and log records. */
  type LiquidHelper = LiquidRequest -> seq<Action>

  const StartWaitS: real := 0.5
  const StopSettleS: real := 5.0
  const WashShakeRpm: int := 600
  const ReadShakeS: int := 5

  // ---------------------------------------------------------------- defaults

  /** The declared type of `read_wavelengths`' default: a bare integer or a list. */
  datatype WavelengthArg = ScalarNm(nm: int) | ListNm(nms: seq<int>)

  /** The default line 24 declares, read as a parameter default: the integer 450. */
  const DeclaredDefaultWavelengths: WavelengthArg := ScalarNm(450)

  /** `read_wavelengths[i]`: None where Python raises (an int is not subscriptable; index out of range). */
  function WavelengthAt(w: WavelengthArg, i: nat): Option<int> {
    match w
    case ScalarNm(_) => None
    case ListNm(nms) => if i < |nms| then Some(nms[i]) else None
  }

  /** The read log of the read step over the declared argument type: None where the step raises. */
  function ReadLogAsWritten(w: WavelengthArg): (r: Option<Message>)
    ensures r.Some? <==> w.ListNm? && |w.nms| > 0
    ensures r.Some? ==> r.value == ReadingMessage(w.nms)
  {
    match WavelengthAt(w, 0)
    case None => None
    case Some(primary) =>
      Some(Reading(primary, if w.ListNm? && |w.nms| > 1 then WavelengthAt(w, 1) else None))
  }

  /** On a bare integer, the read step fails whatever the integer. */
  lemma ScalarReadLogFails(n: int)
    ensures ReadLogAsWritten(ScalarNm(n)) == None
  {
  }

  /** The declared default makes the read step's `read_wavelengths[0]` fail. */
  lemma DeclaredDefaultNotIndexable()
    ensures ReadLogAsWritten(DeclaredDefaultWavelengths) == None
  {
  }

  /** The default the declaration's comment describes: primary 450 nm, reference 570 nm. */
  const DefaultWavelengths: seq<int> := [450, 570]

  /** The defaults of lines 16-29, with `read_wavelengths` the `[450, 570]` its comment describes. */
  function Defaults(plate: Plate): (p: Params)
    ensures p.plate == plate && |p.readWavelengths| > 0
  {
    Params(plate, "A1:H12", 3, 300.0, 30, 100.0, 10, 50.0, DefaultWavelengths,
           "zhixing_agv", "zhixing_ur_arm", "405_ls", "synergy_h1")
  }

  // ------------------------------------------------------------ the records

  function NavTask(agvId: string, target: string): (r: Action) {
    Device(agvId, "send_nav_task", map["target" := StrVal(target)])
  }

  function ArmTask(armId: string, task: string, plateId: string): (r: Action) {
    Device(armId, "move_pos_task", map["task_name" := StrVal(task), "plate_id" := StrVal(plateId)])
  }

  function WashPlate(p: Params): (r: Action) {
    Device(p.washerId, "wash_plate", map[
      "plate" := StrVal(p.plate.id),
      "wells" := StrVal(p.wells),
      "buffer" := StrVal("PBST"),
      "cycles" := IntVal(p.pbstCycles),
      "aspirate_volume_ul" := RealVal(p.pbstVolumeUl),
      "dispense_volume_ul" := RealVal(p.pbstVolumeUl),
      "soak_time_s" := IntVal(p.pbstSoakS),
      "shake" := BoolVal(true),
      "shake_speed_rpm" := IntVal(WashShakeRpm)])
  }

  /** The read log names the primary wavelength, and the reference one only when a second is given. */
  function ReadingMessage(ws: seq<int>): (r: Message)
    requires |ws| > 0
  {
    Reading(ws[0], if |ws| > 1 then Some(ws[1]) else None)
  }

  function ReadAbsorbance(p: Params): (r: Action) {
    Device(p.readerId, "read_absorbance", map[
      "plate" := StrVal(p.plate.id),
      "wells" := StrVal(p.wells),
      "wavelengths_nm" := IntListVal(p.readWavelengths),
      "read_speed" := StrVal("normal"),
      "shake_before_read" := BoolVal(true),
      "shake_time_s" := IntVal(ReadShakeS)])
  }

  const ExportPrefix: string := "results/"
  const ExportSuffix: string := "_ELISA.csv"

  /** Where the reader exports its results, keyed by the plate id. */
  function ExportPath(plateId: string): (r: string) {
    ExportPrefix + plateId + ExportSuffix
  }

  /** The plate id an export path was derived from, if it has the export path's shape. */
  function PlateIdOfPath(path: string): (r: Option<string>)
    ensures r.Some? ==> ExportPath(r.value) == path
  {
    if |path| >= |ExportPrefix| + |ExportSuffix|
       && path[..|ExportPrefix|] == ExportPrefix
       && path[|path| - |ExportSuffix|..] == ExportSuffix
    then
      var id := path[|ExportPrefix|..|path| - |ExportSuffix|];
      assert path == path[..|ExportPrefix|] + id + path[|path| - |ExportSuffix|..];
      Some(id)
    else None
  }

  function ExportData(p: Params): (r: Action) {
    Device(p.readerId, "export_data", map[
      "format" := StrVal("csv"),
      "path" := StrVal(ExportPath(p.plate.id))])
  }

  function TmbRequest(p: Params): (r: LiquidRequest) {
    LiquidRequest(p.plate, "TMB", p.tmbVolumeUl, "1", "")
  }

  function StopRequest(p: Params): (r: LiquidRequest) {
    LiquidRequest(p.plate, "Stop", p.stopVolumeUl, "1", "")
  }

  // ------------------------------------------------------------- the phases

  function StartLog(p: Params): (r: Action) {
    Log(RunStarted(p.plate.id), Rocket)
  }

  function WasherTransport(p: Params): (r: seq<Action>) {
    [ Log(NavigatingToWasher, Robot),
      NavTask(p.agvId, "WSH_DOCK"),
      ArmTask(p.armId, "camera/pick_plate.urp", p.plate.id),
      ArmTask(p.armId, "camera/place_to_washer.urp", p.plate.id),
      Log(PlateInWasher, Basket) ]
  }

  function WashPhase(p: Params): (r: seq<Action>) {
    [ Log(WashPlan(p.pbstCycles, p.pbstVolumeUl, p.pbstSoakS), Shower),
      WashPlate(p),
      Log(WashDone, CheckMark) ]
  }

  function TmbLog(p: Params): (r: Action) {
    Log(AddingTmb(p.tmbVolumeUl, p.wells), TestTube)
  }

  function Incubation(p: Params): (r: seq<Action>) {
    [ Log(Developing(p.tmbDevelopMin), Hourglass),
      Wait((p.tmbDevelopMin * 60) as real) ]
  }

  function StopLog(p: Params): (r: Action) {
    Log(AddingStop(p.stopVolumeUl, p.wells), StopSign)
  }

  function StopSettle(): (r: seq<Action>) {
    [ Wait(StopSettleS), Log(StopDone, CheckMark) ]
  }

  function ReaderTransport(p: Params): (r: seq<Action>) {
    [ Log(NavigatingToReader, Robot),
      NavTask(p.agvId, "H1_DOCK"),
      ArmTask(p.armId, "camera/pick_from_washer.urp", p.plate.id),
      ArmTask(p.armId, "camera/place_to_reader.urp", p.plate.id),
      Log(PlateInReader, Inbox) ]
  }

  function ReadPhase(p: Params): (r: seq<Action>)
    requires |p.readWavelengths| > 0
  {
    [ Log(ReadingMessage(p.readWavelengths), Chart),
      ReadAbsorbance(p),
      ExportData(p),
      Log(ReadDone, CheckMark) ]
  }

  function Teardown(p: Params): (r: seq<Action>) {
    [ ArmTask(p.armId, "camera/take_out_reader.urp", p.plate.id),
      Log(RunComplete, Party) ]
  }

  /** The records one compilation adds, in execution order. */
  function Plan(p: Params, addLiquid: LiquidHelper): (r: seq<Action>)
    requires |p.readWavelengths| > 0
    ensures |r| == 27 + |addLiquid(TmbRequest(p))| + |addLiquid(StopRequest(p))|
  {
    [StartLog(p), Wait(StartWaitS)]
    + WasherTransport(p)
    + WashPhase(p)
    + [TmbLog(p)] + addLiquid(TmbRequest(p)) + Incubation(p)
    + [StopLog(p)] + addLiquid(StopRequest(p)) + StopSettle()
    + ReaderTransport(p)
    + ReadPhase(p)
    + Teardown(p)
  }

  // ---------------------------------------------------------- the compiler

  /** Appends the plan's records to `actions`, phase by phase, and returns the extended list. */
  method GenerateElisaProtocol(p: Params, addLiquid: LiquidHelper, actions: seq<Action>)
    returns (result: seq<Action>)
    requires |p.readWavelengths| > 0
    ensures result == actions + Plan(p, addLiquid)
    ensures |result| == |actions| + 27 + |addLiquid(TmbRequest(p))| + |addLiquid(StopRequest(p))|
    ensures result[..|actions|] == actions
  {
    result := actions;
    // 0) start
    result := result + [StartLog(p)];
    result := result + [Wait(StartWaitS)];
    // 1) AGV and arm carry the plate to the washer
    result := result + WasherTransport(p);
    // 2) PBST wash
    result := result + WashPhase(p);
    // 3) TMB substrate, then development in the dark
    result := result + [TmbLog(p)];
    result := result + addLiquid(TmbRequest(p));
    result := result + Incubation(p);
    // 4) Stop solution (strong acid), then a settling pause
    result := result + [StopLog(p)];
    result := result + addLiquid(StopRequest(p));
    result := result + StopSettle();
    // 5) AGV and arm carry the plate to the reader
    result := result + ReaderTransport(p);
    // 6) absorbance read and export
    result := result + ReadPhase(p);
    // 7) teardown
    result := result + Teardown(p);
  }
}
