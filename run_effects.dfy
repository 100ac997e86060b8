/** What one run of `main` logs and does about the presence simulation, and
    the run on concrete configurations. */
module RunEffects {
  import opened Numbers
  import opened Strings
  import opened Names
  import opened StateStore
  import opened Engine
  import opened Aggregates
  import opened PersonSlots
  import opened Notifications

  // The message and the file log of the loop

  /** The text `message` gets from the turn of the triggering device. */
  function Announcement(d: Device, present: bool): string
  {
    Cl(d.name) + (if present then " kommt" else " geht")
  }

  /** Turns of devices other than the triggering one leave `message` alone. */
  lemma {:induction false} MessageUnmatched(src: Source, trigger: Trigger, ds: seq<Device>, lo: nat, n: nat)
    requires lo <= n <= |ds|
    requires forall m :: lo <= m < n ==> trigger != Changed(ds[m].id)
    ensures MessageAfter(src, trigger, ds, n) == MessageAfter(src, trigger, ds, lo)
    decreases n - lo
  {
    if lo < n {
      var k := n - 1;
      MessageUnmatched(src, trigger, ds, lo, k);
    }
  }

  /** `main(0)` builds no message, and neither does a trigger no configured
      device has. */
  lemma UntriggeredMessage(src: Source, trigger: Trigger, ds: seq<Device>)
    requires forall m :: 0 <= m < |ds| ==> trigger != Changed(ds[m].id)
    ensures MessageAfter(src, trigger, ds, |ds|) == ""
  {
    MessageUnmatched(src, trigger, ds, 0, |ds|);
  }

  /** With distinct ids, `main(ds[i].id)` announces device `i`'s person as
      arriving or leaving, as the presence source says. */
  lemma TriggeredMessage(src: Source, ds: seq<Device>, i: nat)
    requires DistinctIds(ds) && i < |ds|
    ensures MessageAfter(src, Changed(ds[i].id), ds, |ds|) == Announcement(ds[i], PresentIn(src, ds[i].id))
  {
    var j := i + 1;
    MessageUnmatched(src, Changed(ds[i].id), ds, j, |ds|);
  }

  /** Turns of devices other than the triggering one hand nothing to
      `writelog`. */
  lemma {:induction false} FileLogUnmatched(cfg: Config, src: Source, trigger: Trigger, lo: nat, n: nat)
    requires lo <= n <= |cfg.devices|
    requires forall m :: lo <= m < n ==> trigger != Changed(cfg.devices[m].id)
    ensures FileLogAfter(cfg, src, trigger, n) == FileLogAfter(cfg, src, trigger, lo)
    decreases n - lo
  {
    if lo < n {
      var k := n - 1;
      FileLogUnmatched(cfg, src, trigger, lo, k);
    }
  }

  /** `main` hands `writelog` nothing unless a configured device triggered
      it; then, with `LOG_TO_FILE` on, exactly that device's line. */
  lemma FileLogAfterMain(cfg: Config, src: Source, store: Store, clock: Clock, i: nat)
    requires DistinctIds(cfg.devices) && i < |cfg.devices|
    ensures var d := cfg.devices[i];
      Recompute(cfg, src, store, Changed(d.id), clock).fileLog
        == if cfg.logToFile then [FileLogLine(Cl(d.name), d.id, PresentIn(src, d.id))] else []
  {
    var j := i + 1;
    FileLogUnmatched(cfg, src, Changed(cfg.devices[i].id), j, |cfg.devices|);
    FileLogUnmatched(cfg, src, Changed(cfg.devices[i].id), 0, i);
  }

  lemma UntriggeredFileLog(cfg: Config, src: Source, store: Store, trigger: Trigger, clock: Clock)
    requires forall m :: 0 <= m < |cfg.devices| ==> trigger != Changed(cfg.devices[m].id)
    ensures Recompute(cfg, src, store, trigger, clock).fileLog == []
  {
    FileLogUnmatched(cfg, src, trigger, 0, |cfg.devices|);
  }

  // The info log

  /** The info log after the loop: the presence line when `LOG_INFO` is on and
      there is a message, then the simulation line. */
  lemma FinishLog(cfg: Config, clock: Clock, t: Tally)
    ensures var out := Finish(cfg, clock, t);
      out.infoLog == (if cfg.logInfo && t.message != "" then [InfoLine(t.message, t.anyone, t.counter, PresentText(cfg, t))] else [])
                     + SimulationLog(cfg, out.sim)
  {
  }

  /** The info log of `main` in terms of the presence source: the line about
      the triggering person, who is now present and how many, then the line
      about a scheduled activation. */
  lemma InfoLogAfterMain(cfg: Config, src: Source, store: Store, trigger: Trigger, clock: Clock)
    ensures var out := Recompute(cfg, src, store, trigger, clock);
      var present := PresentDevices(src, cfg.devices);
      var message := MessageAfter(src, trigger, cfg.devices, |cfg.devices|);
      out.infoLog == (if cfg.logInfo && message != "" then [InfoLine(message, present != [], |present|, PresentPersonsText(cfg, src))] else [])
                     + SimulationLog(cfg, out.sim)
  {
    LoopAggregates(src, cfg.devices);
    PresentTextOfPass(cfg, src, trigger, clock, store);
    FinishLog(cfg, clock, Pass(cfg, src, trigger, clock, store, |cfg.devices|));
  }

  /** `main(0)` logs no presence line. */
  lemma InitialLogsNoPresence(cfg: Config, src: Source, store: Store, clock: Clock)
    ensures var out := Recompute(cfg, src, store, Initial, clock);
      out.infoLog == SimulationLog(cfg, out.sim)
  {
    InfoLogAfterMain(cfg, src, store, Initial, clock);
    UntriggeredMessage(src, Initial, cfg.devices);
  }

  /** A run triggered by a configured device, with `LOG_INFO` on, first logs
      who came or went and who is now present. */
  lemma TriggeredRunLogs(cfg: Config, src: Source, store: Store, clock: Clock, i: nat)
    requires DistinctIds(cfg.devices) && i < |cfg.devices| && cfg.logInfo
    ensures var d := cfg.devices[i];
      var out := Recompute(cfg, src, store, Changed(d.id), clock);
      var present := PresentDevices(src, cfg.devices);
      out.infoLog != []
      && out.infoLog[0] == InfoLine(Announcement(d, PresentIn(src, d.id)), present != [], |present|, PresentPersonsText(cfg, src))
  {
    var d := cfg.devices[i];
    InfoLogAfterMain(cfg, src, store, Changed(d.id), clock);
    TriggeredMessage(src, cfg.devices, i);
  }

  /** The presence line: "... ist jetzt 1 Person anwesend: ..." for one
      present person, "... sind jetzt n Personen anwesend: ..." for more, and
      "... niemand mehr anwesend." for none. */
  lemma InfoLineWording(message: string, anyone: bool, counter: nat, text: string)
    ensures var line := InfoLine(message, anyone, counter, text);
      && (!anyone ==> line == message + NobodyLeft)
      && (anyone && counter == 1 ==> line == message + Therefore + "ist" + Now + "1" + OnePresent + text)
      && (anyone && counter >= 2 ==> line == message + Therefore + "sind" + Now + NatToString(counter) + ManyPresent + text)
  {
    if anyone && counter == 1 {
      assert NatToString(1) == "1";
    }
  }

  // The simulation decision

  /** The loop and the aggregate writes leave `presenceSimulationActive` as
      it was. */
  lemma FlagBeforeDecision(cfg: Config, src: Source, store: Store, trigger: Trigger, clock: Clock)
    ensures ValOf(Aggregated(cfg, clock, Pass(cfg, src, trigger, clock, store, |cfg.devices|)), PresenceSimulationActive)
         == ValOf(store, PresenceSimulationActive)
  {
    SegmentFrame(cfg, src, trigger, clock, store, 0, |cfg.devices|, PresenceSimulationActive);
  }

  /** The simulation decision on the aggregated store. */
  lemma FinishSimulation(cfg: Config, clock: Clock, t: Tally, flag: Value)
    requires ValOf(Aggregated(cfg, clock, t), PresenceSimulationActive) == flag
    ensures var out := Finish(cfg, clock, t);
      && (!cfg.simulation ==> out.sim == SimUntouched && ValOf(out.store, PresenceSimulationActive) == flag)
      && (cfg.simulation && t.anyone ==> out.sim == SimCleared && ValOf(out.store, PresenceSimulationActive) == VBool(false))
      && (cfg.simulation && !t.anyone && !Truthy(flag) ==>
            out.sim == ActivationScheduled(cfg.simulationDelay * 1000) && ValOf(out.store, PresenceSimulationActive) == flag)
      && (cfg.simulation && !t.anyone && Truthy(flag) ==> out.sim == SimUntouched && ValOf(out.store, PresenceSimulationActive) == flag)
  {
  }

  /** What `main` does about the presence simulation: nothing when it is
      off; when someone is present it clears the flag; when nobody is present
      and the flag is not set it schedules the activation after
      `PRESENCE_SIMULATION_DELAY` seconds and leaves the flag for now; with
      the flag already set it does nothing. */
  lemma SimulationAfterMain(cfg: Config, src: Source, store: Store, trigger: Trigger, clock: Clock)
    ensures var out := Recompute(cfg, src, store, trigger, clock);
      var anyone := PresentDevices(src, cfg.devices) != [];
      var flag := ValOf(store, PresenceSimulationActive);
      && (!cfg.simulation ==> out.sim == SimUntouched && ValOf(out.store, PresenceSimulationActive) == flag)
      && (cfg.simulation && anyone ==> out.sim == SimCleared && ValOf(out.store, PresenceSimulationActive) == VBool(false))
      && (cfg.simulation && !anyone && !Truthy(flag) ==>
            out.sim == ActivationScheduled(cfg.simulationDelay * 1000) && ValOf(out.store, PresenceSimulationActive) == flag)
      && (cfg.simulation && !anyone && Truthy(flag) ==> out.sim == SimUntouched && ValOf(out.store, PresenceSimulationActive) == flag)
  {
    LoopAggregates(src, cfg.devices);
    FlagBeforeDecision(cfg, src, store, trigger, clock);
    FinishSimulation(cfg, clock, Pass(cfg, src, trigger, clock, store, |cfg.devices|), ValOf(store, PresenceSimulationActive));
  }

  /** A scheduled activation is announced in the info log when `LOG_INFO` is
      on. */
  lemma ActivationLogged(cfg: Config, sim: SimAction)
    requires cfg.logInfo && sim.ActivationScheduled?
    ensures SimulationLog(cfg, sim) == [SimulationHead + NatToString(cfg.simulationDelay) + SimulationTail]
  {
  }

  /** The delayed `setStateDelayed(presenceSimulationActive, true, ...)` when
      its timer fires at time `ms`. */
  function Activated(st: Store, ms: int): (r: Store)
    ensures ValOf(r, PresenceSimulationActive) == VBool(true)
    ensures forall k :: k != PresenceSimulationActive ==> ValOf(r, k) == ValOf(st, k)
  {
    Write(st, PresenceSimulationActive, VBool(true), ms)
  }

  /** Nothing cancels a scheduled activation: a run while nobody is present
      schedules it, a later run after someone arrived clears the flag, and
      when the timer then fires the flag is set although someone is
      present. */
  lemma ActivationNotCancelled(cfg: Config, store: Store, src1: Source, trigger1: Trigger, clock1: Clock,
                               src2: Source, trigger2: Trigger, clock2: Clock, fireMs: int)
    requires cfg.simulation
    requires PresentDevices(src1, cfg.devices) == [] && !Truthy(ValOf(store, PresenceSimulationActive))
    requires PresentDevices(src2, cfg.devices) != []
    ensures var out1 := Recompute(cfg, src1, store, trigger1, clock1);
      var out2 := Recompute(cfg, src2, out1.store, trigger2, clock2);
      var fired := Activated(out2.store, fireMs);
      && out1.sim.ActivationScheduled?
      && out2.sim == SimCleared
      && ValOf(fired, AnyonePresent) == VBool(true)
      && ValOf(fired, PresenceSimulationActive) == VBool(true)
  {
    SimulationAfterMain(cfg, src1, store, trigger1, clock1);
    var out1 := Recompute(cfg, src1, store, trigger1, clock1);
    SimulationAfterMain(cfg, src2, out1.store, trigger2, clock2);
    AggregatesAfterMain(cfg, src2, out1.store, trigger2, clock2);
  }

  /** `isAnyonePresent` after a turn is the disjunction, the branch that sets
      it to false when it already is false changing nothing. */
  lemma AnyoneStepIsOr(src: Source, before: bool, d: Device)
    ensures AnyoneStep(src, before, d) == (before || PresentIn(src, d.id))
  {
  }

  // The JSON rendering

  /** A record opens with '{' and closes with '}'. */
  lemma RecordBounds(name: string, present: bool, entry: Value, leave: Value)
    ensures var r := JsonRecord(name, present, entry, leave);
      |r| >= 2 && r[0] == '{' && r[|r| - 1] == '}'
  {
  }

  lemma AppendEdges(x: string, y: string)
    requires y != []
    ensures var xy := x + y;
      && (x != [] ==> xy[|x| - 1] == x[|x| - 1]) && xy[|x|] == y[0] && xy[|xy| - 1] == y[|y| - 1]
  {
  }

  /** One turn appends the record read from the store before it. */
  lemma JsonAfterNext(cfg: Config, src: Source, trigger: Trigger, clock: Clock, store: Store, n: nat, r: string)
    requires 0 < n <= |cfg.devices|
    requires var d := cfg.devices[n - 1];
      var st := StoreAfter(cfg, src, trigger, clock, store, n - 1);
      r == JsonRecord(Cl(d.name), PresentIn(src, d.id), EntryShown(src, trigger, clock, st, d), LeaveShown(src, trigger, clock, st, d))
    ensures JsonAfter(cfg, src, trigger, clock, store, n) == JsonAfter(cfg, src, trigger, clock, store, n - 1) + r
  {
  }

  /** Turn `n` appends a text that opens with '{' and closes with '}'. */
  lemma JsonTurnShape(cfg: Config, src: Source, trigger: Trigger, clock: Clock, store: Store, n: nat)
    requires 0 < n <= |cfg.devices|
    ensures exists r: string ::
      (|r| >= 2 && r[0] == '{' && r[|r| - 1] == '}'
       && JsonAfter(cfg, src, trigger, clock, store, n) == JsonAfter(cfg, src, trigger, clock, store, n - 1) + r)
  {
    var d := cfg.devices[n - 1];
    var st := StoreAfter(cfg, src, trigger, clock, store, n - 1);
    var r := JsonRecord(Cl(d.name), PresentIn(src, d.id), EntryShown(src, trigger, clock, st, d), LeaveShown(src, trigger, clock, st, d));
    RecordBounds(Cl(d.name), PresentIn(src, d.id), EntryShown(src, trigger, clock, st, d), LeaveShown(src, trigger, clock, st, d));
    JsonAfterNext(cfg, src, trigger, clock, store, n, r);
  }

  /** After at least one turn, `JsonString` ends with '}'. */
  lemma JsonAfterEnds(cfg: Config, src: Source, trigger: Trigger, clock: Clock, store: Store, n: nat)
    requires 0 < n <= |cfg.devices|
    ensures var json := JsonAfter(cfg, src, trigger, clock, store, n);
      |json| >= 2 && json[|json| - 1] == '}'
  {
    JsonTurnShape(cfg, src, trigger, clock, store, n);
    var before := JsonAfter(cfg, src, trigger, clock, store, n - 1);
    var r: string :| |r| >= 2 && r[0] == '{' && r[|r| - 1] == '}' && JsonAfter(cfg, src, trigger, clock, store, n) == before + r;
    AppendEdges(before, r);
  }

  /** Every turn after the first appends its record right after the previous
      one's closing '}': the text has "}{" there and no ',' between the
      records, so for two or more devices `presentPersonsJson` is not a JSON
      array. */
  lemma RecordsWithoutComma(cfg: Config, src: Source, trigger: Trigger, clock: Clock, store: Store, n: nat)
    requires 1 < n <= |cfg.devices|
    ensures var before := JsonAfter(cfg, src, trigger, clock, store, n - 1);
      var after := JsonAfter(cfg, src, trigger, clock, store, n);
      && |before| < |after| && after[|before| - 1] == '}' && after[|before|] == '{'
  {
    var m := n - 1;
    JsonTurnShape(cfg, src, trigger, clock, store, n);
    JsonAfterEnds(cfg, src, trigger, clock, store, m);
    var before := JsonAfter(cfg, src, trigger, clock, store, m);
    var r: string :| |r| >= 2 && r[0] == '{' && r[|r| - 1] == '}' && JsonAfter(cfg, src, trigger, clock, store, n) == before + r;
    AppendEdges(before, r);
  }

  // Runs on concrete configurations

  lemma {:induction false} AllPresent(src: Source, ds: seq<Device>)
    requires forall i :: 0 <= i < |ds| ==> PresentIn(src, ds[i].id)
    ensures PresentDevices(src, ds) == ds
    decreases |ds|
  {
    if ds != [] {
      AllPresent(src, ds[..|ds| - 1]);
      assert ds[..|ds| - 1] + [ds[|ds| - 1]] == ds;
    }
  }

  lemma {:induction false} NonePresent(src: Source, ds: seq<Device>)
    requires forall i :: 0 <= i < |ds| ==> !PresentIn(src, ds[i].id)
    ensures PresentDevices(src, ds) == []
    decreases |ds|
  {
    if ds != [] {
      NonePresent(src, ds[..|ds| - 1]);
    }
  }

  lemma CleanNamesOfTwo(ds: seq<Device>)
    requires |ds| == 2
    ensures CleanNames(ds) == [Cl(ds[0].name), Cl(ds[1].name)]
  {
    CleanNamesAt(ds, 0);
    CleanNamesAt(ds, 1);
  }

  /** Two names in order. */
  function Ordered(a: string, b: string): seq<string>
  {
    if StrLe(a, b) then [a, b] else [b, a]
  }

  /** The only sorted arrangement of two names. */
  lemma SortedPair(s: seq<string>, a: string, b: string)
    requires Sorted(s) && multiset(s) == multiset([a, b])
    ensures s == Ordered(a, b)
  {
    StrLeTotal(a, b);
    assert multiset(Ordered(a, b)) == multiset([a, b]);
    SortedUnique(s, Ordered(a, b));
  }

  lemma SortTwo(a: string, b: string)
    ensures SortStrings([a, b]) == Ordered(a, b)
  {
    SortedPair(SortStrings([a, b]), a, b);
  }

  lemma JoinTwo(a: string, b: string, sep: string)
    ensures Join([a, b], sep) == a + sep + b
  {
    assert [a, b][1..] == [b];
  }

  /** Two configured devices, both present, the first with a name that does
      not clean to "": the text is the two cleaned names in order around the
      delimiter; the second name may clean to "", which then sorts first. */
  lemma TwoPresentText(cfg: Config, src: Source)
    requires |cfg.devices| == 2
    requires PresentIn(src, cfg.devices[0].id) && PresentIn(src, cfg.devices[1].id)
    requires Cl(cfg.devices[0].name) != ""
    ensures var a := Cl(cfg.devices[0].name);
      var b := Cl(cfg.devices[1].name);
      && |PresentDevices(src, cfg.devices)| == 2
      && PresentPersonsText(cfg, src) == if StrLe(a, b) then a + cfg.delimiter + b else b + cfg.delimiter + a
  {
    var ds := cfg.devices;
    var a := Cl(ds[0].name);
    var b := Cl(ds[1].name);
    AllPresent(src, ds);
    CleanNamesOfTwo(ds);
    assert Pieces([a, b]) == [a, b];
    SortTwo(a, b);
    JoinTwo(a, b, cfg.delimiter);
    JoinTwo(b, a, cfg.delimiter);
  }

  /** Two configured devices, both present, the first with a name that cleans
      to "": only the second name is listed, although both are counted. */
  lemma LeadingEmptyText(cfg: Config, src: Source)
    requires |cfg.devices| == 2
    requires PresentIn(src, cfg.devices[0].id) && PresentIn(src, cfg.devices[1].id)
    requires Cl(cfg.devices[0].name) == "" && Cl(cfg.devices[1].name) != ""
    ensures |PresentDevices(src, cfg.devices)| == 2
    ensures PresentPersonsText(cfg, src) == Cl(cfg.devices[1].name)
  {
    var ds := cfg.devices;
    var b := Cl(ds[1].name);
    AllPresent(src, ds);
    CleanNamesOfTwo(ds);
    assert ["", b][1..] == [b];
    assert DropLeadingEmpty([b]) == [b];
  }

  /** The shipped devices: "iPhoneDon" for Donald, then "Xiaomi" for
      Daisy. */
  predicate ShippedDevices(ds: seq<Device>)
  {
    |ds| == 2 && ds[0] == Device("iPhoneDon", "Donald") && ds[1] == Device("Xiaomi", "Daisy")
  }

  lemma ShippedIsShipped()
    ensures ShippedDevices(Shipped.devices) && Shipped.delimiter == ", " && Shipped.noneText == ""
  {
  }

  lemma ShippedNames()
    ensures Cl("Donald") == "Donald" && Cl("Daisy") == "Daisy" && !StrLe("Donald", "Daisy")
  {
    ClKeepsClean("Donald");
    ClKeepsClean("Daisy");
    assert "Daisy"[1] < "Donald"[1];
  }

  /** The aggregates `main` writes, given the number of present devices and
      the text. */
  lemma AggregatesAre(cfg: Config, src: Source, store: Store, trigger: Trigger, clock: Clock, count: nat, text: string)
    requires |PresentDevices(src, cfg.devices)| == count && PresentPersonsText(cfg, src) == text
    ensures var st := Recompute(cfg, src, store, trigger, clock).store;
      && ValOf(st, AnyonePresent) == VBool(count > 0)
      && ValOf(st, AllPresentPersonsCount) == VNum(count)
      && ValOf(st, PresentPersonsString) == VStr(text)
  {
    AggregatesAfterMain(cfg, src, store, trigger, clock);
  }

  lemma ShippedBothText(cfg: Config, src: Source)
    requires ShippedDevices(cfg.devices) && cfg.delimiter == ", "
    requires PresentIn(src, "iPhoneDon") && PresentIn(src, "Xiaomi")
    ensures |PresentDevices(src, cfg.devices)| == 2
    ensures PresentPersonsText(cfg, src) == "Daisy, Donald"
  {
    ShippedNames();
    DescendingPairText(cfg, src, "Donald", "Daisy");
    DaisyDonald();
  }

  lemma DaisyDonald()
    ensures "Daisy" + ", " + "Donald" == "Daisy, Donald"
  {
    assert "Daisy" + ", " == "Daisy, ";
  }

  /** Two present devices whose names clean to `a` and then `b`, with `b`
      sorting first. */
  lemma DescendingPairText(cfg: Config, src: Source, a: string, b: string)
    requires |cfg.devices| == 2
    requires PresentIn(src, cfg.devices[0].id) && PresentIn(src, cfg.devices[1].id)
    requires Cl(cfg.devices[0].name) == a && Cl(cfg.devices[1].name) == b && a != "" && !StrLe(a, b)
    ensures |PresentDevices(src, cfg.devices)| == 2
    ensures PresentPersonsText(cfg, src) == b + cfg.delimiter + a
  {
    TwoPresentText(cfg, src);
  }

  /** With the shipped devices and delimiter and both phones at home, `main`
      reports two persons present, Daisy first. */
  lemma ShippedBothPresent(cfg: Config, src: Source, store: Store, trigger: Trigger, clock: Clock)
    requires ShippedDevices(cfg.devices) && cfg.delimiter == ", "
    requires PresentIn(src, "iPhoneDon") && PresentIn(src, "Xiaomi")
    ensures var st := Recompute(cfg, src, store, trigger, clock).store;
      && ValOf(st, AnyonePresent) == VBool(true)
      && ValOf(st, AllPresentPersonsCount) == VNum(2)
      && ValOf(st, PresentPersonsString) == VStr("Daisy, Donald")
  {
    ShippedBothText(cfg, src);
    AggregatesAre(cfg, src, store, trigger, clock, 2, "Daisy, Donald");
  }

  lemma ShippedNobodyText(cfg: Config, src: Source)
    requires ShippedDevices(cfg.devices)
    requires !PresentIn(src, "iPhoneDon") && !PresentIn(src, "Xiaomi")
    ensures |PresentDevices(src, cfg.devices)| == 0
    ensures PresentPersonsText(cfg, src) == cfg.noneText
  {
    NonePresent(src, cfg.devices);
  }

  /** With the shipped devices and nobody at home, `main` writes the
      placeholder and a count of 0. */
  lemma ShippedNobodyPresent(cfg: Config, src: Source, store: Store, trigger: Trigger, clock: Clock)
    requires ShippedDevices(cfg.devices)
    requires !PresentIn(src, "iPhoneDon") && !PresentIn(src, "Xiaomi")
    ensures var st := Recompute(cfg, src, store, trigger, clock).store;
      && ValOf(st, AnyonePresent) == VBool(false)
      && ValOf(st, AllPresentPersonsCount) == VNum(0)
      && ValOf(st, PresentPersonsString) == VStr(cfg.noneText)
  {
    ShippedNobodyText(cfg, src);
    AggregatesAre(cfg, src, store, trigger, clock, 0, cfg.noneText);
  }

  lemma BangsAndBob()
    ensures Cl("!!") == "" && Cl("Bob") == "Bob" && !StrLe("Bob", "")
  {
    assert Cl("!!") == Cl("!");
    ClKeepsClean("Bob");
  }

  lemma LeadingEmptyNameText(cfg: Config, src: Source)
    requires |cfg.devices| == 2 && cfg.devices[0].name == "!!" && cfg.devices[1].name == "Bob"
    requires PresentIn(src, cfg.devices[0].id) && PresentIn(src, cfg.devices[1].id)
    ensures |PresentDevices(src, cfg.devices)| == 2
    ensures PresentPersonsText(cfg, src) == "Bob"
  {
    BangsAndBob();
    LeadingEmptyText(cfg, src);
  }

  /** A name that cleans to the empty string ("!!") ahead of "Bob", both
      present: both are counted, only Bob is listed. */
  lemma LeadingEmptyNameDropped(cfg: Config, src: Source, store: Store, trigger: Trigger, clock: Clock)
    requires |cfg.devices| == 2 && cfg.devices[0].name == "!!" && cfg.devices[1].name == "Bob"
    requires PresentIn(src, cfg.devices[0].id) && PresentIn(src, cfg.devices[1].id)
    ensures var st := Recompute(cfg, src, store, trigger, clock).store;
      && ValOf(st, AllPresentPersonsCount) == VNum(2)
      && ValOf(st, PresentPersonsString) == VStr("Bob")
  {
    LeadingEmptyNameText(cfg, src);
    AggregatesAre(cfg, src, store, trigger, clock, 2, "Bob");
  }

  lemma LaterEmptyNameText(cfg: Config, src: Source)
    requires |cfg.devices| == 2 && cfg.devices[0].name == "Bob" && cfg.devices[1].name == "!!"
    requires PresentIn(src, cfg.devices[0].id) && PresentIn(src, cfg.devices[1].id)
    ensures |PresentDevices(src, cfg.devices)| == 2
    ensures PresentPersonsText(cfg, src) == cfg.delimiter + "Bob"
  {
    BangsAndBob();
    TwoPresentText(cfg, src);
    var a, b := Cl(cfg.devices[0].name), Cl(cfg.devices[1].name);
    assert a == "Bob" && b == "";
    EmptyFirst(cfg.delimiter, a);
  }

  lemma EmptyFirst(sep: string, a: string)
    ensures "" + sep + a == sep + a
  {
  }

  /** The same names the other way round: the empty name after "Bob" is kept
      as an empty piece, which sorts first, and the text starts with the
      delimiter. */
  lemma LaterEmptyNameKept(cfg: Config, src: Source, store: Store, trigger: Trigger, clock: Clock)
    requires |cfg.devices| == 2 && cfg.devices[0].name == "Bob" && cfg.devices[1].name == "!!"
    requires PresentIn(src, cfg.devices[0].id) && PresentIn(src, cfg.devices[1].id)
    ensures var st := Recompute(cfg, src, store, trigger, clock).store;
      && ValOf(st, AllPresentPersonsCount) == VNum(2)
      && ValOf(st, PresentPersonsString) == VStr(cfg.delimiter + "Bob")
  {
    LaterEmptyNameText(cfg, src);
    AggregatesAre(cfg, src, store, trigger, clock, 2, cfg.delimiter + "Bob");
  }

  // From a notification to the run of `main`

  /** An acknowledged arrival of configured device `i` that the person's
      `isPresent` does not show yet runs `main` for the device at once, and
      that run stamps the person's last entry with the current time. */
  lemma ArrivalStampsEntry(cfg: Config, store: Store, n: Notification, i: nat, src: Source, clock: Clock)
    requires DistinctIds(cfg.devices) && i < |cfg.devices|
    requires n.device == cfg.devices[i].id && FreeOf(n.device, ".")
    requires n.ack && n.val == VBool(true) && n.oldVal != n.val
    requires n.val != ValOf(store, Person(Cl(cfg.devices[i].name), IsPresent))
    requires PresentIn(src, n.device)
    ensures OnChange(cfg, store, n) == RunNow(Changed(n.device))
    ensures var st := Recompute(cfg, src, store, Changed(n.device), clock).store;
      ValOf(st, Person(Cl(cfg.devices[i].name), TimeLastEntry)) == VStr(clock.text)
  {
    OnChangeForDevice(cfg, store, n, i);
    TriggerStamps(cfg, src, store, clock, i);
  }

  /** With `FIX_ERROR` on, an acknowledged departure of configured device `i`
      is rechecked after `FIX_ERROR_DELAY` seconds; when the adapter still
      reads absent then, `main` runs for the device and stamps the person's
      last leave. */
  lemma ConfirmedDepartureStampsLeave(cfg: Config, store: Store, n: Notification, i: nat, later: Source, clock: Clock)
    requires DistinctIds(cfg.devices) && i < |cfg.devices| && cfg.fixError
    requires n.device == cfg.devices[i].id && FreeOf(n.device, ".")
    requires n.ack && n.val == VBool(false) && n.oldVal != n.val
    requires n.val != ValOf(store, Person(Cl(cfg.devices[i].name), IsPresent))
    requires !PresentIn(later, n.device)
    ensures var r := OnChange(cfg, store, n);
      && r == Recheck(n.device, n.device, cfg.fixErrorDelay * 1000)
      && AfterRecheck(later, r) == Some(Changed(n.device))
    ensures var st := Recompute(cfg, later, store, Changed(n.device), clock).store;
      ValOf(st, Person(Cl(cfg.devices[i].name), TimeLastLeave)) == VStr(clock.text)
  {
    OnChangeForDevice(cfg, store, n, i);
    TriggerStamps(cfg, later, store, clock, i);
  }
}
