# ELISA plan compiler

A Dafny model of `generate_elisa_protocol`, the step of the lab-automation stack that turns a
handful of ELISA assay parameters (plate, well range, PBST wash settings, TMB and Stop volumes,
development time, read wavelengths, device ids) into one flat, ordered list of action records for
an AGV, a robotic arm, a 405 LS plate washer, the liquid-handling pumps and a Synergy H1 reader.

A record is one of three kinds (`Actions.Action`):

- `Log(msg, icon)`: a narration record, what `create_action_log` builds;
- `Wait(seconds)`: `{"action_name": "wait", "action_kwargs": {"time": t}}`;
- `Device(deviceId, name, kwargs)`: a device call with its keyword-argument dictionary.

The compiler extends the caller's list `actions` phase by phase (start, transport to the washer,
wash, TMB and development, Stop and settling, transport to the reader, read and export, teardown),
splicing in the records the liquid-addition helper returns for the TMB and the Stop additions.
`ElisaProtocol.GenerateElisaProtocol` is that method, one statement per `append`/`+=` of the
source; `ElisaProtocol.Plan` is the list of added records as a function, built from one function
per phase; `ElisaProperties` proves what the plan guarantees about order and contents.
With `t` and `s` the lengths of the TMB and Stop helper outputs, the added records are:

| index | record |
|---|---|
| 0, 1 | start log naming the plate, wait 0.5 s |
| 2-6 | log, AGV to `WSH_DOCK`, arm `pick_plate`, arm `place_to_washer`, log |
| 7-9 | log, `wash_plate`, log |
| 10 | "add TMB" log |
| 11 .. 10+t | TMB helper output |
| 11+t, 12+t | development log, wait `tmb_develop_min * 60` s |
| 13+t | "add Stop" log |
| 14+t .. 13+t+s | Stop helper output |
| 14+t+s, 15+t+s | wait 5 s, "stop complete" log |
| 16+t+s .. 20+t+s | log, AGV to `H1_DOCK`, arm `pick_from_washer`, arm `place_to_reader`, log |
| 21+t+s .. 24+t+s | read log, `read_absorbance`, `export_data`, log |
| 25+t+s, 26+t+s | arm `take_out_reader`, completion log |

The two collaborators are modelled at their interface:

- `add_liquid_volume` is the parameter `addLiquid: LiquidRequest -> seq<Action>`. A request
  carries the vessel, the reagent, the volume in uL, the time hint `"1"` and the empty rate spec.
  The experiment graph is captured by that function, since the compiler only forwards it.
- `create_action_log` is the `Log` constructor. Its message is a `Message` value that holds what
  the source interpolates into the text: the plate id, the wash settings, the volumes and wells,
  the minutes, and the wavelengths.

The code validates nothing: there is no rejection of bad volumes, well ranges or wavelength
lists, and no error type. Development time is an integer number of minutes. The caller's list is
extended rather than rebuilt. The only precondition is a non-empty `read_wavelengths`, because the
code indexes it at line 114.

As written, `-> List[...]:` closes the signature after `wells`. Lines 18-29 are then annotated
assignments in the body, and each trailing comma makes a one-element tuple
(`read_wavelengths = (450,)`); `actions` is a fresh local list. The model takes lines 14-29 as the
parameter list instead, with `read_wavelengths` as a list of integers.

## Model

| member | source | states |
|---|---|---|
| `ElisaProtocol.GenerateElisaProtocol` | elisa_protocol.py:25-137 | the result is the input `actions` unchanged as a prefix followed by the plan's records, 27 plus the lengths of the two helper outputs in all |
| `ElisaProtocol.Plan` | elisa_protocol.py:33-136 | the added records number exactly 27 plus the lengths of the TMB and Stop helper outputs |
| `ElisaProtocol.Defaults` | elisa_protocol.py:16-29 | the default parameters keep the given plate and have a non-empty wavelength list, so the read log can index it |
| `ElisaProtocol.ReadLogAsWritten` | elisa_protocol.py:114-115 | over the declared argument type (an integer or a list), the read log exists exactly when the argument is a non-empty list, and then it is the compiler's read log for that list |
| `ElisaProtocol.ScalarReadLogFails` | elisa_protocol.py:114 | on any bare integer the read step's `read_wavelengths[0]` fails |
| `ElisaProtocol.DeclaredDefaultNotIndexable` | elisa_protocol.py:24 | on the declared default 450 the read step fails, because `read_wavelengths[0]` cannot index an integer |
| `ElisaProtocol.PlateIdOfPath` | elisa_protocol.py:126 | a plate id read back from a path is one whose export path is that path |
| `ElisaProperties.PlanOpensWithStart` | elisa_protocol.py:33-34 | the added records open with the start log naming the plate id, then a 0.5 s wait |
| `ElisaProperties.WasherTransportOrder` | elisa_protocol.py:37-45 | AGV navigation to `WSH_DOCK`, then arm `camera/pick_plate.urp`, then arm `camera/place_to_washer.urp`, both arm moves carrying the plate id |
| `ElisaProperties.WashSettings` | elisa_protocol.py:49-65 | the wash record goes to the washer with exactly the keys plate, wells, buffer PBST, cycles, aspirate and dispense volume both the PBST volume, soak time, shake on at 600 rpm |
| `ElisaProperties.WashPlateOnce` | elisa_protocol.py:51-63 | the plan holds one `wash_plate` record more than the two helper outputs together |
| `ElisaProperties.TmbSplice` | elisa_protocol.py:70-84 | the TMB helper output, called with the plate, reagent TMB and the TMB volume, is spliced unaltered right after the "add TMB" log; the development log and a wait of `tmb_develop_min * 60` s follow it |
| `ElisaProperties.StopSplice` | elisa_protocol.py:87-104 | the Stop helper output is spliced unaltered after the "add Stop" log; the record right after it is a 5 s wait, then the "stop complete" log, and only then the reader-transport log and AGV navigation to `H1_DOCK` |
| `ElisaProperties.ReaderTransportOrder` | elisa_protocol.py:102-110 | arm `camera/pick_from_washer.urp` then arm `camera/place_to_reader.urp`, both carrying the plate id, then the "in reader" log |
| `ElisaProperties.ReadPhaseContents` | elisa_protocol.py:113-123 | the read log names `read_wavelengths[0]`, and names `read_wavelengths[1]` if and only if there are more than one; the read record passes the wavelengths through unchanged with shake before read for 5 s |
| `ElisaProperties.ExportFollowsRead` | elisa_protocol.py:124-128 | right after the read comes `export_data` in csv format to `results/<plate id>_ELISA.csv`, then the "read done" log |
| `ElisaProperties.ExportPathRoundTrip` | elisa_protocol.py:126 | the plate id is recovered from its export path |
| `ElisaProperties.ExportPathInjective` | elisa_protocol.py:126 | two plates share an export path if and only if they have the same id |
| `ElisaProperties.PlanCloses` | elisa_protocol.py:132-136 | the last added record is the completion log, preceded by arm `camera/take_out_reader.urp` carrying the plate id |
| `ElisaProperties.DefaultsPlan` | elisa_protocol.py:16-29 | with the defaults: 3 cycles of 300 uL soaked 30 s, a 600 s development wait, the 5 s settle, and a read at 450 nm with reference 570 nm |

## Left out

- `debug_print` (elisa_protocol.py:8-11): console and logger output only.
- The internals of `add_liquid_volume`: unit parsing, pump routing and its own records. The helper
  is any function from a request to a list of records, and its output is spliced verbatim.
- Errors raised inside `add_liquid_volume`: the helper is total here. In the source such an
  exception would leave the records appended so far in the caller's list.
- The internals and exact wording of `create_action_log` and its messages: the text, the
  emoji, and the formatting of numbers into strings.
- The behaviour of the file as it literally parses, with lines 18-29 as body assignments of
  one-element tuples (`pbst_cycles = (3,)`, `tmb_develop_min * 60` a 60-element tuple, a 450 nm
  read with no reference): the model reads lines 14-29 as the parameter list.
- The `"<volume> uL"` string passed to the helper: the request carries the volume as a number.
- The networkx graph `G`: it is only forwarded to the helper, so it lives inside `addLiquid`.
- The rest of the plate dictionary, and the KeyError when it has no `"id"`: `Plate` has only the id.
- GenerateElisaProtocol: the caller's list is mutated in place and returned as the same object.
  The model returns the extended sequence, so aliasing is not captured. Neither is the shared
  mutable default `actions=[]`, which would accumulate records across calls.
- Python's int/float distinction among wait times and volumes: every wait is a `real` (0.5, 5, an
  integer times 60), and so is every volume, including the integer defaults 300, 100 and 50.
- GenerateElisaProtocol, Plan: require a non-empty `read_wavelengths`. On an empty list the source
  raises IndexError at line 114, after the earlier records are already in the caller's list.
- The insertion order of keys in the keyword-argument dictionaries: `Kwargs` is a map.

## Findings

| source | as written | input that shows it | evidently intended | confidence | as-written member | corrected member |
|---|---|---|---|---|---|---|
| elisa_protocol.py:24 | the default of `read_wavelengths` is the integer `450` | with lines 14-29 as parameters, a call that does not pass `read_wavelengths`: line 114 evaluates `450[0]`, a TypeError | the list `[450, 570]`, the primary and reference wavelengths the comment on line 24 names | medium, not executed | `ElisaProtocol.DeclaredDefaultNotIndexable` | `ElisaProtocol.Defaults` |
