/** The presence engine: the script's `main(userKey)`, one pass over all
    configured devices that turns the presence source's booleans and the stored
    times into the next snapshot of per-person and aggregate states. */
module Engine {
  import opened Numbers
  import opened Strings
  import opened Names
  import opened StateStore
  import opened Offset

  /** One entry of `DEVICES`: the presence source's device name and the
      owner's display name. */
  datatype Device = Device(id: string, name: string)

  /** The script's settings. `devices` is `DEVICES` in the order `for..in`
      visits it. */
  datatype Config = Config(
    devices: seq<Device>,
    logToFile: bool,         // LOGFLAG
    simulation: bool,        // SIMULATION_ACTIVE
    simulationDelay: nat,    // SIMULATION_DELAY, seconds
    logInfo: bool,           // LOG_INFO
    fixError: bool,          // FIX_ERROR
    fixErrorDelay: nat,      // FIX_ERROR_DELAY, seconds
    delimiter: string,       // PRESENT_PERSONS_DELIMITER
    noneText: string,        // PRESENT_PERSONS_NONE_TXT
    hoursAndMins: bool)      // OFFSET_HOURS_AND_MINS

  /** The settings as the script ships them. */
  const Shipped: Config :=
    Config([Device("iPhoneDon", "Donald"), Device("Xiaomi", "Daisy")],
           false, false, 600, true, true, 25, ", ", "", true)

  /** The keys of a JavaScript object are distinct. */
  predicate DistinctIds(devices: seq<Device>)
  {
    forall i, j :: 0 <= i < j < |devices| ==> devices[i].id != devices[j].id
  }

  /** `main(0)` at start-up, or `main(deviceName)` after a notification. */
  datatype Trigger = Initial | Changed(id: string)

  /** The current time as the script formats it (day, month, year, hours,
      minutes, seconds) and the same moment in milliseconds, which the store
      uses for last-change times. */
  datatype Clock = Clock(text: string, ms: int)

  /** The presence source: the TR-064 adapter's boolean per device. */
  type Source = map<string, bool>

  /** The value of the adapter's state for device `id`; a device the adapter
      does not have reads as null. */
  function SourceValue(src: Source, id: string): (v: Value)
    ensures Truthy(v) <==> id in src && src[id]
  {
    if id in src then VBool(src[id]) else VNull
  }

  predicate PresentIn(src: Source, id: string)
  {
    Truthy(SourceValue(src, id))
  }

  const PresentSep: string := "######"
  const JsonOpen: string := "["
  const JsonClose: string := "]"
  const HtmlHead: string :=
    "<table style='width:100%'><thead><tr><th style='text-align:left;'>Name</th>"
    + "<th style='text-align:left;'>Status</th><th style='text-align:left;'>Kommt</th>"
    + "<th style='text-align:left;'>Geht</th></tr></thead><tbody>"
  const HtmlFoot: string := "</body></table>"

  function StatusWord(present: bool): string
  {
    if present then "anwesend" else "abwesend"
  }

  // The fixed texts of a JSON record and an HTML row.
  const JsonName: string := "{\"Name\":\""
  const JsonStatus: string := "\",\"Status\":\""
  const JsonEntry: string := "\",\"Letzte Ankunft\":\""
  const JsonLeave: string := "\",\"Letzte Abwesenheit\":\""
  const JsonEnd: string := "\"}"
  const PresentCell: string := "<div class=\"mdui-green-bg mdui-state mdui-card\">anwesend</div>"
  const AbsentCell: string := "<div class=\"mdui-red-bg mdui-state mdui-card\">abwesend</div>"
  const RowOpen: string := "<tr>"
  const RowClose: string := "</tr>"
  const CellOpen: string := "<td>"
  const CellClose: string := "</td>"

  /** One person's JSON object: four fields, no separator after it. */
  function JsonRecord(name: string, present: bool, entry: Value, leave: Value): string
  {
    JsonName + name + JsonStatus + StatusWord(present) + JsonEntry + ValueText(entry) + JsonLeave + ValueText(leave) + JsonEnd
  }

  function StatusCell(present: bool): string
  {
    if present then PresentCell else AbsentCell
  }

  /** One person's HTML table row. */
  function HtmlRow(name: string, present: bool, entry: Value, leave: Value): string
  {
    RowOpen + CellOpen + name + CellClose + CellOpen + StatusCell(present) + CellClose
    + CellOpen + ValueText(entry) + CellClose + CellOpen + ValueText(leave) + CellClose + RowClose
  }

  /** The argument `main` passes to `writelog` for the triggering person. */
  function FileLogLine(name: string, id: string, present: bool): string
  {
    name + ";" + id + ";" + (if present then "Kommt" else "Geht")
  }

  /** The time slot a transition stamps. */
  function StampField(present: bool): Field
  {
    if present then TimeLastEntry else TimeLastLeave
  }

  /** Stamping the triggering person: the entry or leave time, then the most
      recent time, both set to the current time. */
  function Stamp(st: Store, name: string, present: bool, clock: Clock): Store
  {
    var s := Write(st, Person(name, StampField(present)), VStr(clock.text), clock.ms);
    Write(s, Person(name, TimeMostRecent), VStr(clock.text), clock.ms)
  }

  /** The store after the person's `isPresent` is set to the device's presence
      for `d`. */
  function AfterPresence(src: Source, clock: Clock, st: Store, d: Device): Store
  {
    Write(st, Person(Cl(d.name), IsPresent), SourceValue(src, d.id), clock.ms)
  }

  /** The store after the person's own writes of one turn, before the offset:
      `isPresent`, and for the triggering device the stamps. */
  function Visited(src: Source, trigger: Trigger, clock: Clock, st: Store, d: Device): Store
  {
    var s1 := AfterPresence(src, clock, st, d);
    if trigger == Changed(d.id) then Stamp(s1, Cl(d.name), PresentIn(src, d.id), clock) else s1
  }

  /** All store writes of one turn of the loop for device `d`. */
  function Turn(cfg: Config, src: Source, trigger: Trigger, clock: Clock, st: Store, d: Device): Store
  {
    var s2 := Visited(src, trigger, clock, st, d);
    var offset := OffsetFor(cfg.hoursAndMins, PresentIn(src, d.id), s2, Cl(d.name));
    Write(s2, Person(Cl(d.name), OffsetEntryLeave), VStr(offset), clock.ms)
  }

  /** `lpTimeLastEntry` as the record shows it: read after the `isPresent`
      write, or the current time for an arriving triggering device. */
  function EntryShown(src: Source, trigger: Trigger, clock: Clock, st: Store, d: Device): Value
  {
    if trigger == Changed(d.id) && PresentIn(src, d.id) then VStr(clock.text)
    else ValOf(AfterPresence(src, clock, st, d), Person(Cl(d.name), TimeLastEntry))
  }

  /** `lpTimeLastLeave` as the record shows it. */
  function LeaveShown(src: Source, trigger: Trigger, clock: Clock, st: Store, d: Device): Value
  {
    if trigger == Changed(d.id) && !PresentIn(src, d.id) then VStr(clock.text)
    else ValOf(AfterPresence(src, clock, st, d), Person(Cl(d.name), TimeLastLeave))
  }

  // One turn of the loop, accumulator by accumulator; `st` is the store
  // before the turn.

  function JsonStep(src: Source, trigger: Trigger, clock: Clock, st: Store, json: string, d: Device): string
  {
    json + JsonRecord(Cl(d.name), PresentIn(src, d.id), EntryShown(src, trigger, clock, st, d), LeaveShown(src, trigger, clock, st, d))
  }

  function HtmlStep(src: Source, trigger: Trigger, clock: Clock, st: Store, html: string, d: Device): string
  {
    html + HtmlRow(Cl(d.name), PresentIn(src, d.id), EntryShown(src, trigger, clock, st, d), LeaveShown(src, trigger, clock, st, d))
  }

  function PresentStep(src: Source, acc: string, d: Device): string
  {
    if !PresentIn(src, d.id) then acc
    else if acc == "" then Cl(d.name)
    else acc + PresentSep + Cl(d.name)
  }

  /** The branch that sets `isAnyonePresent` to false when it already is false
      is kept. */
  function AnyoneStep(src: Source, before: bool, d: Device): bool
  {
    var present := PresentIn(src, d.id);
    var kept := if !present && !before then false else before;
    if present then true else kept
  }

  function CounterStep(src: Source, counter: nat, d: Device): nat
  {
    if PresentIn(src, d.id) then counter + 1 else counter
  }

  function MessageStep(src: Source, trigger: Trigger, message: string, d: Device): string
  {
    if trigger == Changed(d.id) then Cl(d.name) + (if PresentIn(src, d.id) then " kommt" else " geht") else message
  }

  function FileLogStep(cfg: Config, src: Source, trigger: Trigger, fileLog: seq<string>, d: Device): seq<string>
  {
    if trigger == Changed(d.id) && cfg.logToFile then fileLog + [FileLogLine(Cl(d.name), d.id, PresentIn(src, d.id))]
    else fileLog
  }

  /** The store after the turns for the first `n` devices. */
  function StoreAfter(cfg: Config, src: Source, trigger: Trigger, clock: Clock, store: Store, n: nat): Store
    requires n <= |cfg.devices|
  {
    if n == 0 then store
    else Turn(cfg, src, trigger, clock, StoreAfter(cfg, src, trigger, clock, store, n - 1), cfg.devices[n - 1])
  }

  /** `JsonString` after the first `n` devices. */
  function JsonAfter(cfg: Config, src: Source, trigger: Trigger, clock: Clock, store: Store, n: nat): string
    requires n <= |cfg.devices|
  {
    if n == 0 then JsonOpen
    else JsonStep(src, trigger, clock, StoreAfter(cfg, src, trigger, clock, store, n - 1),
                  JsonAfter(cfg, src, trigger, clock, store, n - 1), cfg.devices[n - 1])
  }

  /** `HTMLString` after the first `n` devices. */
  function HtmlAfter(cfg: Config, src: Source, trigger: Trigger, clock: Clock, store: Store, n: nat): string
    requires n <= |cfg.devices|
  {
    if n == 0 then HtmlHead
    else HtmlStep(src, trigger, clock, StoreAfter(cfg, src, trigger, clock, store, n - 1),
                  HtmlAfter(cfg, src, trigger, clock, store, n - 1), cfg.devices[n - 1])
  }

  /** `presentPersons` after the first `n` devices. */
  function PresentAfter(src: Source, ds: seq<Device>, n: nat): string
    requires n <= |ds|
  {
    if n == 0 then "" else PresentStep(src, PresentAfter(src, ds, n - 1), ds[n - 1])
  }

  /** `isAnyonePresent` after the first `n` devices. */
  function AnyoneAfter(src: Source, ds: seq<Device>, n: nat): bool
    requires n <= |ds|
  {
    if n == 0 then false else AnyoneStep(src, AnyoneAfter(src, ds, n - 1), ds[n - 1])
  }

  /** `counter` after the first `n` devices. */
  function CounterAfter(src: Source, ds: seq<Device>, n: nat): nat
    requires n <= |ds|
  {
    if n == 0 then 0 else CounterStep(src, CounterAfter(src, ds, n - 1), ds[n - 1])
  }

  /** `message` after the first `n` devices. */
  function MessageAfter(src: Source, trigger: Trigger, ds: seq<Device>, n: nat): string
    requires n <= |ds|
  {
    if n == 0 then "" else MessageStep(src, trigger, MessageAfter(src, trigger, ds, n - 1), ds[n - 1])
  }

  /** The lines handed to `writelog` during the first `n` turns. */
  function FileLogAfter(cfg: Config, src: Source, trigger: Trigger, n: nat): seq<string>
    requires n <= |cfg.devices|
  {
    if n == 0 then [] else FileLogStep(cfg, src, trigger, FileLogAfter(cfg, src, trigger, n - 1), cfg.devices[n - 1])
  }

  /** What the loop of `main` has built: the store and the local variables
      `presentPersons`, `isAnyonePresent`, `counter`, `JsonString`,
      `HTMLString` and `message`, and the lines handed to `writelog`. */
  datatype Tally = Tally(
    store: Store,
    present: string,
    anyone: bool,
    counter: nat,
    json: string,
    html: string,
    message: string,
    fileLog: seq<string>)

  /** One turn of the loop for device `d`. */
  function Step(cfg: Config, src: Source, trigger: Trigger, clock: Clock, t: Tally, d: Device): Tally
  {
    Tally(Turn(cfg, src, trigger, clock, t.store, d), PresentStep(src, t.present, d), AnyoneStep(src, t.anyone, d),
          CounterStep(src, t.counter, d), JsonStep(src, trigger, clock, t.store, t.json, d),
          HtmlStep(src, trigger, clock, t.store, t.html, d), MessageStep(src, trigger, t.message, d),
          FileLogStep(cfg, src, trigger, t.fileLog, d))
  }

  /** The loop after the first `n` devices. */
  function Pass(cfg: Config, src: Source, trigger: Trigger, clock: Clock, store: Store, n: nat): Tally
    requires n <= |cfg.devices|
  {
    var ds := cfg.devices;
    Tally(StoreAfter(cfg, src, trigger, clock, store, n), PresentAfter(src, ds, n), AnyoneAfter(src, ds, n),
          CounterAfter(src, ds, n), JsonAfter(cfg, src, trigger, clock, store, n),
          HtmlAfter(cfg, src, trigger, clock, store, n), MessageAfter(src, trigger, ds, n),
          FileLogAfter(cfg, src, trigger, n))
  }

  /** One more turn extends the loop by one device. */
  lemma PassExtends(cfg: Config, src: Source, trigger: Trigger, clock: Clock, store: Store, n: nat)
    requires n < |cfg.devices|
    ensures Pass(cfg, src, trigger, clock, store, n + 1)
         == Step(cfg, src, trigger, clock, Pass(cfg, src, trigger, clock, store, n), cfg.devices[n])
  {
  }

  /** What `main` does about the presence simulation flag. */
  datatype SimAction =
    | SimUntouched
    | SimCleared                        // setState(presenceSimulationActive, false)
    | ActivationScheduled(delayMs: nat) // setStateDelayed(presenceSimulationActive, true, delay)

  /** All effects of one `main` run: the new store, the lines logged at info
      level, the lines handed to `writelog` and the simulation action. */
  datatype Outcome = Outcome(store: Store, infoLog: seq<string>, fileLog: seq<string>, sim: SimAction)

  /** `presentPersonsString`: the placeholder when nobody is present, otherwise
      the '######'-joined names split again, sorted and joined with the
      delimiter. */
  function PresentText(cfg: Config, t: Tally): string
  {
    if !t.anyone then cfg.noneText
    else Join(SortStrings(Split(t.present, PresentSep)), cfg.delimiter)
  }

  // The fixed texts of the info log lines.
  const Therefore: string := ", damit "
  const Now: string := " jetzt "
  const OnePresent: string := " Person anwesend: "
  const ManyPresent: string := " Personen anwesend: "
  const NobodyLeft: string := ", damit ist jetzt niemand mehr anwesend."
  const SimulationHead: string := "Presence Simulation flag will be activated in "
  const SimulationTail: string := " seconds."

  /** The info line about the triggering person and who is now present. */
  function InfoLine(message: string, anyone: bool, counter: nat, presentText: string): string
  {
    if anyone then
      message + Therefore + (if counter <= 1 then "ist" else "sind") + Now
      + NatToString(counter) + (if counter <= 1 then OnePresent else ManyPresent) + presentText
    else
      message + NobodyLeft
  }

  function SimulationLine(cfg: Config): string
  {
    SimulationHead + NatToString(cfg.simulationDelay) + SimulationTail
  }

  /** The aggregate writes after the loop. */
  function Aggregated(cfg: Config, clock: Clock, t: Tally): Store
  {
    var s1 := Write(t.store, PresentPersonsJson, VStr(t.json + JsonClose), clock.ms);
    var s2 := Write(s1, PresentPersonsHtml, VStr(t.html + HtmlFoot), clock.ms);
    var s3 := Write(s2, AnyonePresent, VBool(t.anyone), clock.ms);
    var s4 := Write(s3, AllPresentPersonsCount, VNum(t.counter), clock.ms);
    Write(s4, PresentPersonsString, VStr(PresentText(cfg, t)), clock.ms)
  }

  /** The simulation decision, taken on the store after the aggregate writes. */
  function SimDecision(cfg: Config, anyone: bool, st: Store): SimAction
  {
    if !cfg.simulation then SimUntouched
    else if anyone then SimCleared
    else if !Truthy(ValOf(st, PresenceSimulationActive)) then ActivationScheduled(cfg.simulationDelay * 1000)
    else SimUntouched
  }

  /** The info-level line about the triggering person, when there is one. */
  function PresenceLog(cfg: Config, t: Tally): seq<string>
  {
    if cfg.logInfo && t.message != "" then [InfoLine(t.message, t.anyone, t.counter, PresentText(cfg, t))] else []
  }

  /** The info-level line about a scheduled activation. */
  function SimulationLog(cfg: Config, sim: SimAction): seq<string>
  {
    if cfg.logInfo && sim.ActivationScheduled? then [SimulationLine(cfg)] else []
  }

  /** The store after the simulation decision. */
  function Decided(clock: Clock, st: Store, sim: SimAction): Store
  {
    if sim == SimCleared then Write(st, PresenceSimulationActive, VBool(false), clock.ms) else st
  }

  /** What `main` does after the loop. */
  function Finish(cfg: Config, clock: Clock, t: Tally): Outcome
  {
    var st := Aggregated(cfg, clock, t);
    var sim := SimDecision(cfg, t.anyone, st);
    Outcome(Decided(clock, st, sim), PresenceLog(cfg, t) + SimulationLog(cfg, sim), t.fileLog, sim)
  }

  /** The specification of `main(trigger)`. */
  function Recompute(cfg: Config, src: Source, store: Store, trigger: Trigger, clock: Clock): Outcome
  {
    Finish(cfg, clock, Pass(cfg, src, trigger, clock, store, |cfg.devices|))
  }

  /** `main(userKey)`: the loop over `DEVICES` with its accumulators, then the
      aggregate writes, the info log and the simulation decision. */
  method RunMain(cfg: Config, src: Source, store0: Store, trigger: Trigger, clock: Clock) returns (out: Outcome)
    ensures out == Recompute(cfg, src, store0, trigger, clock)
  {
    var t := Tally(store0, "", false, 0, JsonOpen, HtmlHead, "", []);
    var devices := cfg.devices;
    for i := 0 to |devices|
      invariant t == Pass(cfg, src, trigger, clock, store0, i)
    {
      PassExtends(cfg, src, trigger, clock, store0, i);
      t := Visit(cfg, src, trigger, clock, t, devices[i]);
    }
    out := Conclude(cfg, clock, t);
  }

  /** The body of the loop for device `d`: the script's local accumulators
      come in as `t` and go out updated. */
  method Visit(cfg: Config, src: Source, trigger: Trigger, clock: Clock, t: Tally, d: Device) returns (t': Tally)
    ensures t' == Step(cfg, src, trigger, clock, t, d)
  {
    var name := Cl(d.name);
    var store, present, entry, leave := Arrive(src, trigger, clock, t.store, d);
    var message, fileLog := Announce(cfg, src, trigger, t.message, t.fileLog, d);
    var presentPersons, isAnyonePresent, counter := Count(src, t.present, t.anyone, t.counter, d);
    var json := t.json + JsonRecord(name, present, entry, leave);
    var html := t.html + HtmlRow(name, present, entry, leave);
    var offset := OffsetFor(cfg.hoursAndMins, present, store, name);
    store := Write(store, Person(name, OffsetEntryLeave), VStr(offset), clock.ms);
    t' := Tally(store, presentPersons, isAnyonePresent, counter, json, html, message, fileLog);
  }

  /** The person's own writes for device `d` and the two time slots as the
      records show them. */
  method Arrive(src: Source, trigger: Trigger, clock: Clock, st: Store, d: Device)
    returns (store: Store, present: bool, entry: Value, leave: Value)
    ensures store == Visited(src, trigger, clock, st, d)
    ensures present == PresentIn(src, d.id)
    ensures entry == EntryShown(src, trigger, clock, st, d)
    ensures leave == LeaveShown(src, trigger, clock, st, d)
  {
    var name := Cl(d.name);
    var isLoopUserPresent := SourceValue(src, d.id);
    present := Truthy(isLoopUserPresent);
    store := Write(st, Person(name, IsPresent), isLoopUserPresent, clock.ms);
    leave := ValOf(store, Person(name, TimeLastLeave));
    entry := ValOf(store, Person(name, TimeLastEntry));
    if trigger == Changed(d.id) {
      store := Write(store, Person(name, StampField(present)), VStr(clock.text), clock.ms);
      store := Write(store, Person(name, TimeMostRecent), VStr(clock.text), clock.ms);
      if present {
        entry := VStr(clock.text);
      } else {
        leave := VStr(clock.text);
      }
    }
  }

  /** For the triggering device: the `writelog` line and the message. */
  method Announce(cfg: Config, src: Source, trigger: Trigger, message0: string, fileLog0: seq<string>, d: Device)
    returns (message: string, fileLog: seq<string>)
    ensures message == MessageStep(src, trigger, message0, d)
    ensures fileLog == FileLogStep(cfg, src, trigger, fileLog0, d)
  {
    message, fileLog := message0, fileLog0;
    if trigger == Changed(d.id) {
      var name := Cl(d.name);
      var present := PresentIn(src, d.id);
      if cfg.logToFile {
        fileLog := fileLog + [FileLogLine(name, d.id, present)];
      }
      message := name + (if present then " kommt" else " geht");
    }
  }

  /** `isAnyonePresent`, `counter` and `presentPersons` for device `d`. */
  method Count(src: Source, presentPersons0: string, isAnyonePresent0: bool, counter0: nat, d: Device)
    returns (presentPersons: string, isAnyonePresent: bool, counter: nat)
    ensures presentPersons == PresentStep(src, presentPersons0, d)
    ensures isAnyonePresent == AnyoneStep(src, isAnyonePresent0, d)
    ensures counter == CounterStep(src, counter0, d)
  {
    presentPersons, isAnyonePresent, counter := presentPersons0, isAnyonePresent0, counter0;
    var present := PresentIn(src, d.id);
    if !present && !isAnyonePresent {
      isAnyonePresent := false;
    }
    if present {
      counter := counter + 1;
      if presentPersons == "" {
        presentPersons := Cl(d.name);
      } else {
        presentPersons := presentPersons + PresentSep + Cl(d.name);
      }
      isAnyonePresent := true;
    }
  }

  /** The end of `main`, after the loop: the present-persons text, the info log
      lines, the aggregate writes and the simulation decision. */
  method Conclude(cfg: Config, clock: Clock, t: Tally) returns (out: Outcome)
    ensures out == Finish(cfg, clock, t)
  {
    var presentPersons, log := Summarize(cfg, t);
    var store := WriteAggregates(cfg, clock, t, presentPersons);
    var sim;
    store, sim, log := DecideSimulation(cfg, clock, t.anyone, store, log);
    out := Outcome(store, log, t.fileLog, sim);
  }

  /** The sorted present-persons text and the presence line of the info log. */
  method Summarize(cfg: Config, t: Tally) returns (presentPersons: string, log: seq<string>)
    ensures presentPersons == PresentText(cfg, t)
    ensures log == PresenceLog(cfg, t)
  {
    if !t.anyone {
      presentPersons := cfg.noneText;
    } else {
      var presPersArr := Split(t.present, PresentSep);
      presentPersons := Join(SortStrings(presPersArr), cfg.delimiter);
    }
    log := [];
    if cfg.logInfo && t.message != "" {
      log := [InfoLine(t.message, t.anyone, t.counter, presentPersons)];
    }
  }

  /** The five aggregate writes. */
  method WriteAggregates(cfg: Config, clock: Clock, t: Tally, presentPersons: string) returns (store: Store)
    requires presentPersons == PresentText(cfg, t)
    ensures store == Aggregated(cfg, clock, t)
  {
    store := t.store;
    store := Write(store, PresentPersonsJson, VStr(t.json + JsonClose), clock.ms);
    store := Write(store, PresentPersonsHtml, VStr(t.html + HtmlFoot), clock.ms);
    store := Write(store, AnyonePresent, VBool(t.anyone), clock.ms);
    store := Write(store, AllPresentPersonsCount, VNum(t.counter), clock.ms);
    store := Write(store, PresentPersonsString, VStr(presentPersons), clock.ms);
  }

  /** The simulation flag: cleared while someone is present, an activation
      scheduled when nobody is and the flag is not already set. */
  method DecideSimulation(cfg: Config, clock: Clock, anyone: bool, st: Store, log0: seq<string>)
    returns (store: Store, sim: SimAction, log: seq<string>)
    ensures sim == SimDecision(cfg, anyone, st)
    ensures store == Decided(clock, st, sim)
    ensures log == log0 + SimulationLog(cfg, sim)
  {
    store, sim, log := st, SimUntouched, log0;
    if cfg.simulation {
      if anyone {
        store := Write(store, PresenceSimulationActive, VBool(false), clock.ms);
        sim := SimCleared;
      } else if !Truthy(ValOf(store, PresenceSimulationActive)) {
        sim := ActivationScheduled(cfg.simulationDelay * 1000);
        if cfg.logInfo {
          log := log + [SimulationLine(cfg)];
        }
      }
    }
  }
}
