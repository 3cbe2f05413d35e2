/** The action records an ELISA plan is made of, and counting over a plan. */
module Actions {

  datatype Option<+T> = None | Some(value: T)

  /** A value in an action's keyword-argument dictionary. */
  datatype Value =
    | StrVal(s: string)
    | IntVal(i: int)
    | RealVal(r: real)
    | BoolVal(b: bool)
    | IntListVal(xs: seq<int>)

  /** `action_kwargs`: parameter name to value. */
  type Kwargs = map<string, Value>

  /** The display icon a log record carries. */
  datatype Icon =
    | Rocket | Robot | Basket | Shower | CheckMark | TestTube
    | Hourglass | StopSign | Inbox | Chart | Party

  /** The narration of a log record: which message it is and the values it interpolates. */
  datatype Message =
    | RunStarted(plateId: string)
    | NavigatingToWasher
    | PlateInWasher
    | WashPlan(cycles: int, volumeUl: real, soakS: int)
    | WashDone
    | AddingTmb(tmbVolumeUl: real, tmbWells: string)
    | Developing(minutes: int)
    | AddingStop(stopVolumeUl: real, stopWells: string)
    | StopDone
    | NavigatingToReader
    | PlateInReader
    | Reading(primaryNm: int, referenceNm: Option<int>)
    | ReadDone
    | RunComplete

  /** One instruction of a plan; index order in a plan is execution order. */
  datatype Action =
    | Log(msg: Message, icon: Icon)
    | Wait(seconds: real)
    | Device(deviceId: string, name: string, kwargs: Kwargs)

  /** Number of records of `s` that `keep` selects. */
  function Count(s: seq<Action>, keep: Action -> bool): (n: nat)
    ensures n <= |s|
    ensures n == 0 <==> forall i :: 0 <= i < |s| ==> !keep(s[i])
  {
    if s == [] then 0
    else (if keep(s[0]) then 1 else 0) + Count(s[1..], keep)
  }

  lemma {:induction false} CountConcat(a: seq<Action>, b: seq<Action>, keep: Action -> bool)
    ensures Count(a + b, keep) == Count(a, keep) + Count(b, keep)
  {
    if a == [] {
      assert a + b == b;
    } else {
      assert (a + b)[1..] == a[1..] + b;
      CountConcat(a[1..], b, keep);
    }
  }

  /** A device record invoking capability `name`. */
  predicate IsDeviceAction(a: Action, name: string) {
    a.Device? && a.name == name
  }
}
