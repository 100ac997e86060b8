/** Two runs of `main(0)` on an unchanged presence source, and the agreement
    between the count and the JSON records of one run. */
module Consistency {
  import opened StateStore
  import opened Names
  import opened Offset
  import opened Engine
  import opened Aggregates
  import opened PersonSlots

  /** Two stores agree on the entry and leave slots of every configured
      person. */
  predicate SameTimes(ds: seq<Device>, st1: Store, st2: Store)
  {
    forall m :: 0 <= m < |ds| ==>
      SameSlot(st1, st2, Person(Cl(ds[m].name), TimeLastEntry)) && SameSlot(st1, st2, Person(Cl(ds[m].name), TimeLastLeave))
  }

  /** `main(0)` leaves every configured person's entry and leave slots as
      they were. */
  lemma InitialKeepsAllTimes(cfg: Config, src: Source, store: Store, clock: Clock)
    ensures SameTimes(cfg.devices, Recompute(cfg, src, store, Initial, clock).store, store)
  {
    var ds := cfg.devices;
    forall m | 0 <= m < |ds|
      ensures SameSlot(Recompute(cfg, src, store, Initial, clock).store, store, Person(Cl(ds[m].name), TimeLastEntry))
      ensures SameSlot(Recompute(cfg, src, store, Initial, clock).store, store, Person(Cl(ds[m].name), TimeLastLeave))
    {
      InitialKeepsTimes(cfg, src, store, clock, Cl(ds[m].name), TimeLastEntry);
      InitialKeepsTimes(cfg, src, store, clock, Cl(ds[m].name), TimeLastLeave);
    }
  }

  /** Without a trigger the JSON records depend only on the presence source
      and the stored entry and leave times, not on the clock. */
  lemma {:induction false} JsonRecordsSameTimes(src: Source, clock1: Clock, clock2: Clock, st1: Store, st2: Store, ds: seq<Device>, n: nat)
    requires n <= |ds| && SameTimes(ds, st1, st2)
    ensures JsonRecords(src, Initial, clock1, st1, ds, n) == JsonRecords(src, Initial, clock2, st2, ds, n)
  {
    if n > 0 {
      var m := n - 1;
      var d := ds[m];
      JsonRecordsSameTimes(src, clock1, clock2, st1, st2, ds, m);
      assert SeenEntry(src, Initial, clock1, st1, d) == SeenEntry(src, Initial, clock2, st2, d);
      assert SeenLeave(src, Initial, clock1, st1, d) == SeenLeave(src, Initial, clock2, st2, d);
      var r := JsonRecord(Cl(d.name), PresentIn(src, d.id), SeenEntry(src, Initial, clock1, st1, d), SeenLeave(src, Initial, clock1, st1, d));
      JsonRecordsNext(src, Initial, clock1, st1, ds, m, r);
      JsonRecordsNext(src, Initial, clock2, st2, ds, m, r);
    }
  }

  lemma JsonRecordsNext(src: Source, trigger: Trigger, clock: Clock, store: Store, ds: seq<Device>, m: nat, r: string)
    requires m < |ds|
    requires r == JsonRecord(Cl(ds[m].name), PresentIn(src, ds[m].id), SeenEntry(src, trigger, clock, store, ds[m]), SeenLeave(src, trigger, clock, store, ds[m]))
    ensures JsonRecords(src, trigger, clock, store, ds, m + 1) == JsonRecords(src, trigger, clock, store, ds, m) + r
  {
  }

  /** The same for the HTML rows. */
  lemma {:induction false} HtmlRowsSameTimes(src: Source, clock1: Clock, clock2: Clock, st1: Store, st2: Store, ds: seq<Device>, n: nat)
    requires n <= |ds| && SameTimes(ds, st1, st2)
    ensures HtmlRows(src, Initial, clock1, st1, ds, n) == HtmlRows(src, Initial, clock2, st2, ds, n)
  {
    if n > 0 {
      var m := n - 1;
      var d := ds[m];
      HtmlRowsSameTimes(src, clock1, clock2, st1, st2, ds, m);
      assert SeenEntry(src, Initial, clock1, st1, d) == SeenEntry(src, Initial, clock2, st2, d);
      assert SeenLeave(src, Initial, clock1, st1, d) == SeenLeave(src, Initial, clock2, st2, d);
      var r := HtmlRow(Cl(d.name), PresentIn(src, d.id), SeenEntry(src, Initial, clock1, st1, d), SeenLeave(src, Initial, clock1, st1, d));
      HtmlRowsNext(src, Initial, clock1, st1, ds, m, r);
      HtmlRowsNext(src, Initial, clock2, st2, ds, m, r);
    }
  }

  /** The last device whose name cleans to `name`. */
  lemma LastWithName(ds: seq<Device>, name: string) returns (i: nat)
    requires exists j :: 0 <= j < |ds| && Cl(ds[j].name) == name
    ensures i < |ds| && Cl(ds[i].name) == name
    ensures forall j :: i < j < |ds| ==> Cl(ds[j].name) != name
  {
    var j :| 0 <= j < |ds| && Cl(ds[j].name) == name;
    i := |ds| - 1;
    while Cl(ds[i].name) != name
      invariant j <= i < |ds|
      invariant forall m :: i < m < |ds| ==> Cl(ds[m].name) != name
      decreases i
    {
      i := i - 1;
    }
  }

  /** Without a trigger, the offset of the last device with a given cleaned
      name is computed from the entry and leave slots the run started with. */
  lemma InitialOffsetAt(cfg: Config, src: Source, store: Store, clock: Clock, i: nat)
    requires i < |cfg.devices|
    requires forall j :: i < j < |cfg.devices| ==> Cl(cfg.devices[j].name) != Cl(cfg.devices[i].name)
    ensures var d := cfg.devices[i];
      ValOf(Recompute(cfg, src, store, Initial, clock).store, Person(Cl(d.name), OffsetEntryLeave))
        == VStr(OffsetFor(cfg.hoursAndMins, PresentIn(src, d.id), store, Cl(d.name)))
  {
    var ds := cfg.devices;
    var d := ds[i];
    var name := Cl(d.name);
    var before := StoreAfter(cfg, src, Initial, clock, store, i);
    forall f | f == TimeLastLeave || f == TimeLastEntry
      ensures SameSlot(Visited(src, Initial, clock, before, d), store, Person(name, f))
    {
      forall m | 0 <= m < i ensures !WrittenBy(src, Initial, ds[m], Person(name, f)) {
      }
      SegmentFrame(cfg, src, Initial, clock, store, 0, i, Person(name, f));
      assert SameSlot(Visited(src, Initial, clock, before, d), before, Person(name, f));
      SameSlotTrans(Visited(src, Initial, clock, before, d), before, store, Person(name, f));
    }
    OffsetForLocal(cfg.hoursAndMins, PresentIn(src, d.id), Visited(src, Initial, clock, before, d), store, name);
    TurnOffset(cfg, src, Initial, clock, before, d);
    NoLaterSameName(src, Initial, ds, i, Person(name, OffsetEntryLeave));
    SlotAfterMain(cfg, src, store, Initial, clock, i, Person(name, OffsetEntryLeave));
  }

  /** A second `main(0)` leaves every person's offset as the first left it. */
  lemma InitialOffsetStable(cfg: Config, src: Source, store: Store, clock1: Clock, clock2: Clock, name: string)
    ensures var s1 := Recompute(cfg, src, store, Initial, clock1).store;
      var s2 := Recompute(cfg, src, s1, Initial, clock2).store;
      ValOf(s2, Person(name, OffsetEntryLeave)) == ValOf(s1, Person(name, OffsetEntryLeave))
  {
    var ds := cfg.devices;
    var s1 := Recompute(cfg, src, store, Initial, clock1).store;
    if exists j :: 0 <= j < |ds| && Cl(ds[j].name) == name {
      var i := LastWithName(ds, name);
      InitialOffsetAt(cfg, src, store, clock1, i);
      InitialOffsetAt(cfg, src, s1, clock2, i);
      InitialKeepsTimes(cfg, src, store, clock1, name, TimeLastEntry);
      InitialKeepsTimes(cfg, src, store, clock1, name, TimeLastLeave);
      OffsetForLocal(cfg.hoursAndMins, PresentIn(src, ds[i].id), s1, store, name);
    } else {
      forall m | 0 <= m < |ds| ensures !WrittenBy(src, Initial, ds[m], Person(name, OffsetEntryLeave)) {
      }
      RecomputeFrame(cfg, src, s1, Initial, clock2, Person(name, OffsetEntryLeave));
    }
  }

  /** `main(0)` run twice on an unchanged presence source, at any two times:
      the second run leaves `anyonePresent`, `allPresentPersonsCount`,
      `presentPersonsString`, `presentPersonsJson`, `presentPersonsHTML` and
      every person's `offsetEntryLeave` as the first run left them. */
  lemma InitialRunIdempotent(cfg: Config, src: Source, store: Store, clock1: Clock, clock2: Clock, name: string)
    ensures var s1 := Recompute(cfg, src, store, Initial, clock1).store;
      var s2 := Recompute(cfg, src, s1, Initial, clock2).store;
      && ValOf(s2, AnyonePresent) == ValOf(s1, AnyonePresent)
      && ValOf(s2, AllPresentPersonsCount) == ValOf(s1, AllPresentPersonsCount)
      && ValOf(s2, PresentPersonsString) == ValOf(s1, PresentPersonsString)
      && ValOf(s2, PresentPersonsJson) == ValOf(s1, PresentPersonsJson)
      && ValOf(s2, PresentPersonsHtml) == ValOf(s1, PresentPersonsHtml)
      && ValOf(s2, Person(name, OffsetEntryLeave)) == ValOf(s1, Person(name, OffsetEntryLeave))
  {
    var ds := cfg.devices;
    var n := |ds|;
    var s1 := Recompute(cfg, src, store, Initial, clock1).store;
    AggregatesAfterMain(cfg, src, store, Initial, clock1);
    AggregatesAfterMain(cfg, src, s1, Initial, clock2);
    assert NoStampAlias(Initial, ds);
    JsonAfterMain(cfg, src, store, Initial, clock1);
    JsonAfterMain(cfg, src, s1, Initial, clock2);
    HtmlAfterMain(cfg, src, store, Initial, clock1);
    HtmlAfterMain(cfg, src, s1, Initial, clock2);
    InitialKeepsAllTimes(cfg, src, store, clock1);
    JsonRecordsSameTimes(src, clock2, clock1, s1, store, ds, n);
    HtmlRowsSameTimes(src, clock2, clock1, s1, store, ds, n);
    InitialOffsetStable(cfg, src, store, clock1, clock2, name);
  }

  /** The number of the first `n` JSON records whose Status field is
      "anwesend": record `m` carries the status word of device `m`'s
      presence, as `JsonRecords` builds it. */
  function AnwesendRecords(src: Source, ds: seq<Device>, n: nat): nat
    requires n <= |ds|
  {
    if n == 0 then 0
    else AnwesendRecords(src, ds, n - 1) + (if StatusWord(PresentIn(src, ds[n - 1].id)) == "anwesend" then 1 else 0)
  }

  /** Among the first `n` records, those marked "anwesend" are exactly the
      present devices. */
  lemma {:induction false} AnwesendArePresent(src: Source, ds: seq<Device>, n: nat)
    requires n <= |ds|
    ensures AnwesendRecords(src, ds, n) == |PresentDevices(src, ds[..n])|
  {
    if n > 0 {
      AnwesendArePresent(src, ds, n - 1);
      PresentPrefix(src, ds, n);
    }
  }

  lemma AnwesendAll(src: Source, ds: seq<Device>)
    ensures AnwesendRecords(src, ds, |ds|) == |PresentDevices(src, ds)|
  {
    AnwesendArePresent(src, ds, |ds|);
    assert ds[..|ds|] == ds;
  }

  /** After any `main`, `allPresentPersonsCount` is the number of records in
      `presentPersonsJson` whose Status is "anwesend", and `anyonePresent`
      holds exactly when there is one. */
  lemma CountMatchesJson(cfg: Config, src: Source, store: Store, trigger: Trigger, clock: Clock)
    ensures var st := Recompute(cfg, src, store, trigger, clock).store;
      var marked := AnwesendRecords(src, cfg.devices, |cfg.devices|);
      && ValOf(st, AllPresentPersonsCount) == VNum(marked)
      && ValOf(st, AnyonePresent) == VBool(marked > 0)
  {
    var ds := cfg.devices;
    AggregatesAfterMain(cfg, src, store, trigger, clock);
    AnwesendAll(src, ds);
  }
}
