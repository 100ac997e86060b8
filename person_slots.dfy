/** What one run of `main` does to each person's slots, and the JSON and
    HTML renderings built from them. */
module PersonSlots {
  import opened Numbers
  import opened Strings
  import opened Names
  import opened StateStore
  import opened Offset
  import opened Engine

  /** The slots device `d`'s turn of the loop may write: the person's
      `isPresent` and `offsetEntryLeave`, and for the triggering device the
      stamped time slot and `timeMostRecent`. */
  predicate WrittenBy(src: Source, trigger: Trigger, d: Device, k: Key)
  {
    var name := Cl(d.name);
    || k == Person(name, IsPresent)
    || k == Person(name, OffsetEntryLeave)
    || (trigger == Changed(d.id) && (k == Person(name, StampField(PresentIn(src, d.id))) || k == Person(name, TimeMostRecent)))
  }

  /** Two stores agree on slot `k`. */
  predicate SameSlot(st1: Store, st2: Store, k: Key)
  {
    (k in st1 <==> k in st2) && (k in st1 ==> st1[k] == st2[k])
  }

  lemma SameSlotTrans(st1: Store, st2: Store, st3: Store, k: Key)
    requires SameSlot(st1, st2, k) && SameSlot(st2, st3, k)
    ensures SameSlot(st1, st3, k)
  {
  }

  /** A turn leaves every slot it does not write as it was. */
  lemma TurnFrame(cfg: Config, src: Source, trigger: Trigger, clock: Clock, st: Store, d: Device, k: Key)
    requires !WrittenBy(src, trigger, d, k)
    ensures SameSlot(Turn(cfg, src, trigger, clock, st, d), st, k)
  {
  }

  /** Turns `i` to `j - 1` leave every slot none of them writes as it was. */
  lemma {:induction false} SegmentFrame(cfg: Config, src: Source, trigger: Trigger, clock: Clock, store: Store,
                                        i: nat, j: nat, k: Key)
    requires i <= j <= |cfg.devices|
    requires forall m :: i <= m < j ==> !WrittenBy(src, trigger, cfg.devices[m], k)
    ensures SameSlot(StoreAfter(cfg, src, trigger, clock, store, j), StoreAfter(cfg, src, trigger, clock, store, i), k)
    decreases j - i
  {
    if i < j {
      var m := j - 1;
      var before := StoreAfter(cfg, src, trigger, clock, store, m);
      SegmentFrame(cfg, src, trigger, clock, store, i, m, k);
      assert !WrittenBy(src, trigger, cfg.devices[m], k);
      TurnFrame(cfg, src, trigger, clock, before, cfg.devices[m], k);
      StoreAfterNext(cfg, src, trigger, clock, store, m);
      SameSlotTrans(StoreAfter(cfg, src, trigger, clock, store, j), before, StoreAfter(cfg, src, trigger, clock, store, i), k);
    }
  }

  /** The writes after the loop touch no per-person slot. */
  lemma FinishFrame(cfg: Config, clock: Clock, t: Tally, k: Key)
    requires k.Person?
    ensures SameSlot(Finish(cfg, clock, t).store, t.store, k)
  {
  }

  /** After `main` every per-person slot holds what the loop left in it. */
  lemma MainKeepsPersonSlot(cfg: Config, src: Source, store: Store, trigger: Trigger, clock: Clock, k: Key)
    requires k.Person?
    ensures SameSlot(Recompute(cfg, src, store, trigger, clock).store, StoreAfter(cfg, src, trigger, clock, store, |cfg.devices|), k)
  {
    FinishFrame(cfg, clock, Pass(cfg, src, trigger, clock, store, |cfg.devices|), k);
  }

  /** `main` changes no per-person slot that no turn of its loop writes. */
  lemma RecomputeFrame(cfg: Config, src: Source, store: Store, trigger: Trigger, clock: Clock, k: Key)
    requires k.Person?
    requires forall m :: 0 <= m < |cfg.devices| ==> !WrittenBy(src, trigger, cfg.devices[m], k)
    ensures SameSlot(Recompute(cfg, src, store, trigger, clock).store, store, k)
  {
    var n := |cfg.devices|;
    SegmentFrame(cfg, src, trigger, clock, store, 0, n, k);
    MainKeepsPersonSlot(cfg, src, store, trigger, clock, k);
    SameSlotTrans(Recompute(cfg, src, store, trigger, clock).store, StoreAfter(cfg, src, trigger, clock, store, n), store, k);
  }

  /** Turn `i` is the store after `i + 1` turns. */
  lemma StoreAfterNext(cfg: Config, src: Source, trigger: Trigger, clock: Clock, store: Store, i: nat)
    requires i < |cfg.devices|
    ensures StoreAfter(cfg, src, trigger, clock, store, i + 1)
         == Turn(cfg, src, trigger, clock, StoreAfter(cfg, src, trigger, clock, store, i), cfg.devices[i])
  {
  }

  /** The slot `k` after the loop is the slot after turn `i` when no later
      turn writes it. */
  lemma TailFrame(cfg: Config, src: Source, trigger: Trigger, clock: Clock, store: Store, i: nat, k: Key)
    requires i < |cfg.devices|
    requires forall m :: i < m < |cfg.devices| ==> !WrittenBy(src, trigger, cfg.devices[m], k)
    ensures SameSlot(StoreAfter(cfg, src, trigger, clock, store, |cfg.devices|),
                     Turn(cfg, src, trigger, clock, StoreAfter(cfg, src, trigger, clock, store, i), cfg.devices[i]), k)
  {
    var j := i + 1;
    SegmentFrame(cfg, src, trigger, clock, store, j, |cfg.devices|, k);
    StoreAfterNext(cfg, src, trigger, clock, store, i);
  }

  lemma SameSlotValue(st1: Store, st2: Store, st3: Store, k: Key)
    requires SameSlot(st1, st2, k) && SameSlot(st2, st3, k)
    ensures ValOf(st1, k) == ValOf(st3, k)
  {
  }

  /** The initial run `main(0)` matches no device, so it leaves every time
      slot as it was. */
  lemma InitialKeepsTimes(cfg: Config, src: Source, store: Store, clock: Clock, name: string, f: Field)
    requires f == TimeLastEntry || f == TimeLastLeave || f == TimeMostRecent
    ensures SameSlot(Recompute(cfg, src, store, Initial, clock).store, store, Person(name, f))
  {
    RecomputeFrame(cfg, src, store, Initial, clock, Person(name, f));
  }

  /** `main(id)` changes no time slot of a person whose cleaned name is not
      that of a device with id `id`. */
  lemma OthersKeepTimes(cfg: Config, src: Source, store: Store, id: string, clock: Clock, name: string, f: Field)
    requires f == TimeLastEntry || f == TimeLastLeave || f == TimeMostRecent
    requires forall m :: 0 <= m < |cfg.devices| && cfg.devices[m].id == id ==> Cl(cfg.devices[m].name) != name
    ensures SameSlot(Recompute(cfg, src, store, Changed(id), clock).store, store, Person(name, f))
  {
    var ds := cfg.devices;
    forall m | 0 <= m < |ds| ensures !WrittenBy(src, Changed(id), ds[m], Person(name, f)) {
    }
    RecomputeFrame(cfg, src, store, Changed(id), clock, Person(name, f));
  }

  /** The triggering device's turn stamps its slots with the current time. */
  lemma TurnStamps(cfg: Config, src: Source, clock: Clock, st: Store, d: Device)
    ensures var st' := Turn(cfg, src, Changed(d.id), clock, st, d);
      && ValOf(st', Person(Cl(d.name), StampField(PresentIn(src, d.id)))) == VStr(clock.text)
      && ValOf(st', Person(Cl(d.name), TimeMostRecent)) == VStr(clock.text)
  {
  }

  /** A per-person slot that no turn after turn `i` writes holds after `main`
      what turn `i` left in it. */
  lemma SlotAfterMain(cfg: Config, src: Source, store: Store, trigger: Trigger, clock: Clock, i: nat, k: Key)
    requires k.Person? && i < |cfg.devices|
    requires forall m :: i < m < |cfg.devices| ==> !WrittenBy(src, trigger, cfg.devices[m], k)
    ensures ValOf(Recompute(cfg, src, store, trigger, clock).store, k)
         == ValOf(Turn(cfg, src, trigger, clock, StoreAfter(cfg, src, trigger, clock, store, i), cfg.devices[i]), k)
  {
    var n := |cfg.devices|;
    MainKeepsPersonSlot(cfg, src, store, trigger, clock, k);
    TailFrame(cfg, src, trigger, clock, store, i, k);
    SameSlotValue(Recompute(cfg, src, store, trigger, clock).store, StoreAfter(cfg, src, trigger, clock, store, n),
                  Turn(cfg, src, trigger, clock, StoreAfter(cfg, src, trigger, clock, store, i), cfg.devices[i]), k);
  }

  /** No turn after turn `i` writes the stamped slots of device `i`'s person
      when device ids are distinct. */
  lemma NoLaterStamp(src: Source, ds: seq<Device>, i: nat, k: Key)
    requires DistinctIds(ds) && i < |ds|
    requires k == Person(Cl(ds[i].name), StampField(PresentIn(src, ds[i].id))) || k == Person(Cl(ds[i].name), TimeMostRecent)
    ensures forall m :: i < m < |ds| ==> !WrittenBy(src, Changed(ds[i].id), ds[m], k)
  {
    forall m | i < m < |ds| ensures !WrittenBy(src, Changed(ds[i].id), ds[m], k) {
      assert ds[m].id != ds[i].id;
    }
  }

  /** After `main(id)` for a configured device, that person's entry time (on
      arrival) or leave time (on departure) and most recent time hold the
      current time. Device ids are distinct, so no other turn stamps. */
  lemma TriggerStamps(cfg: Config, src: Source, store: Store, clock: Clock, i: nat)
    requires DistinctIds(cfg.devices) && i < |cfg.devices|
    ensures var d := cfg.devices[i];
      var st := Recompute(cfg, src, store, Changed(d.id), clock).store;
      && ValOf(st, Person(Cl(d.name), StampField(PresentIn(src, d.id)))) == VStr(clock.text)
      && ValOf(st, Person(Cl(d.name), TimeMostRecent)) == VStr(clock.text)
  {
    var ds := cfg.devices;
    var d := ds[i];
    var trigger := Changed(d.id);
    var k1 := Person(Cl(d.name), StampField(PresentIn(src, d.id)));
    var k2 := Person(Cl(d.name), TimeMostRecent);
    TurnStamps(cfg, src, clock, StoreAfter(cfg, src, trigger, clock, store, i), d);
    NoLaterStamp(src, ds, i, k1);
    SlotAfterMain(cfg, src, store, trigger, clock, i, k1);
    NoLaterStamp(src, ds, i, k2);
    SlotAfterMain(cfg, src, store, trigger, clock, i, k2);
  }

  /** `isPresent` of the last device whose name cleans to a given name mirrors
      that device's source value (devices sharing a cleaned name share the
      slot, and the later one wins). */
  lemma IsPresentMirrorsSource(cfg: Config, src: Source, store: Store, trigger: Trigger, clock: Clock, i: nat)
    requires i < |cfg.devices|
    requires forall j :: i < j < |cfg.devices| ==> Cl(cfg.devices[j].name) != Cl(cfg.devices[i].name)
    ensures ValOf(Recompute(cfg, src, store, trigger, clock).store, Person(Cl(cfg.devices[i].name), IsPresent))
         == SourceValue(src, cfg.devices[i].id)
  {
    var k := Person(Cl(cfg.devices[i].name), IsPresent);
    TurnPresence(cfg, src, trigger, clock, StoreAfter(cfg, src, trigger, clock, store, i), cfg.devices[i]);
    NoLaterSameName(src, trigger, cfg.devices, i, k);
    SlotAfterMain(cfg, src, store, trigger, clock, i, k);
  }

  /** A turn sets the person's `isPresent` to the device's source value. */
  lemma TurnPresence(cfg: Config, src: Source, trigger: Trigger, clock: Clock, st: Store, d: Device)
    ensures ValOf(Turn(cfg, src, trigger, clock, st, d), Person(Cl(d.name), IsPresent)) == SourceValue(src, d.id)
  {
  }

  /** No later turn writes a slot of device `i`'s person when no later device
      shares the cleaned name. */
  lemma NoLaterSameName(src: Source, trigger: Trigger, ds: seq<Device>, i: nat, k: Key)
    requires i < |ds| && k.Person? && k.name == Cl(ds[i].name)
    requires forall j :: i < j < |ds| ==> Cl(ds[j].name) != Cl(ds[i].name)
    ensures forall m :: i < m < |ds| ==> !WrittenBy(src, trigger, ds[m], k)
  {
  }

  /** The offset reads only the person's entry and leave slots. */
  lemma OffsetForLocal(hoursAndMins: bool, present: bool, st1: Store, st2: Store, name: string)
    requires SameSlot(st1, st2, Person(name, TimeLastLeave)) && SameSlot(st1, st2, Person(name, TimeLastEntry))
    ensures OffsetFor(hoursAndMins, present, st1, name) == OffsetFor(hoursAndMins, present, st2, name)
  {
  }

  lemma WriteKeepsSame(st1: Store, st2: Store, k: Key, v: Value, nowMs: int, k': Key)
    requires SameSlot(st1, st2, k')
    ensures SameSlot(Write(st1, k, v, nowMs), Write(st2, k, v, nowMs), k')
  {
  }

  lemma VisitedKeepsSame(src: Source, trigger: Trigger, clock: Clock, st1: Store, st2: Store, d: Device, k: Key)
    requires SameSlot(st1, st2, k)
    ensures SameSlot(Visited(src, trigger, clock, st1, d), Visited(src, trigger, clock, st2, d), k)
  {
    var name := Cl(d.name);
    var v := SourceValue(src, d.id);
    WriteKeepsSame(st1, st2, Person(name, IsPresent), v, clock.ms, k);
    var a := AfterPresence(src, clock, st1, d);
    var b := AfterPresence(src, clock, st2, d);
    if trigger == Changed(d.id) {
      WriteKeepsSame(a, b, Person(name, StampField(Truthy(v))), VStr(clock.text), clock.ms, k);
      var a' := Write(a, Person(name, StampField(Truthy(v))), VStr(clock.text), clock.ms);
      var b' := Write(b, Person(name, StampField(Truthy(v))), VStr(clock.text), clock.ms);
      WriteKeepsSame(a', b', Person(name, TimeMostRecent), VStr(clock.text), clock.ms, k);
    }
  }

  /** A turn writes the offset from the person's slots after the person's own
      writes. */
  lemma TurnOffset(cfg: Config, src: Source, trigger: Trigger, clock: Clock, st: Store, d: Device)
    ensures ValOf(Turn(cfg, src, trigger, clock, st, d), Person(Cl(d.name), OffsetEntryLeave))
         == VStr(OffsetFor(cfg.hoursAndMins, PresentIn(src, d.id), Visited(src, trigger, clock, st, d), Cl(d.name)))
  {
  }

  /** Turns before `i` write none of the time slots of a person no earlier
      device shares a name with. */
  lemma EarlierFrame(cfg: Config, src: Source, store: Store, trigger: Trigger, clock: Clock, i: nat, f: Field)
    requires i < |cfg.devices|
    requires f == TimeLastLeave || f == TimeLastEntry
    requires forall j :: 0 <= j < i ==> Cl(cfg.devices[j].name) != Cl(cfg.devices[i].name)
    ensures SameSlot(StoreAfter(cfg, src, trigger, clock, store, i), store, Person(Cl(cfg.devices[i].name), f))
  {
    SegmentFrame(cfg, src, trigger, clock, store, 0, i, Person(Cl(cfg.devices[i].name), f));
  }

  /** A person whose cleaned name no other device shares gets the offset
      computed from that person's own slots alone: the slots the run started
      with, updated by this run's writes for that person. */
  lemma OffsetAfterMain(cfg: Config, src: Source, store: Store, trigger: Trigger, clock: Clock, i: nat)
    requires i < |cfg.devices|
    requires forall j :: 0 <= j < |cfg.devices| && j != i ==> Cl(cfg.devices[j].name) != Cl(cfg.devices[i].name)
    ensures var d := cfg.devices[i];
      ValOf(Recompute(cfg, src, store, trigger, clock).store, Person(Cl(d.name), OffsetEntryLeave))
        == VStr(OffsetFor(cfg.hoursAndMins, PresentIn(src, d.id), Visited(src, trigger, clock, store, d), Cl(d.name)))
  {
    var ds := cfg.devices;
    var d := ds[i];
    var name := Cl(d.name);
    var before := StoreAfter(cfg, src, trigger, clock, store, i);
    forall f | f == TimeLastLeave || f == TimeLastEntry
      ensures SameSlot(Visited(src, trigger, clock, before, d), Visited(src, trigger, clock, store, d), Person(name, f))
    {
      EarlierFrame(cfg, src, store, trigger, clock, i, f);
      VisitedKeepsSame(src, trigger, clock, before, store, d, Person(name, f));
    }
    OffsetForLocal(cfg.hoursAndMins, PresentIn(src, d.id), Visited(src, trigger, clock, before, d),
                   Visited(src, trigger, clock, store, d), name);
    TurnOffset(cfg, src, trigger, clock, before, d);
    SlotAfterMain(cfg, src, store, trigger, clock, i, Person(name, OffsetEntryLeave));
  }

  /** For a person other than the triggering one, the offset is recomputed
      from the stored entry and leave slots. */
  lemma UntriggeredOffset(hoursAndMins: bool, src: Source, trigger: Trigger, clock: Clock, st: Store, d: Device)
    requires trigger != Changed(d.id)
    ensures OffsetFor(hoursAndMins, PresentIn(src, d.id), Visited(src, trigger, clock, st, d), Cl(d.name))
         == OffsetFor(hoursAndMins, PresentIn(src, d.id), st, Cl(d.name))
  {
    OffsetForLocal(hoursAndMins, PresentIn(src, d.id), Visited(src, trigger, clock, st, d), st, Cl(d.name));
  }

  /** The last-change time of slot `k` once it is stamped with the current
      time: now, unless the slot already held that very text, in which case
      the write changes nothing and the old time stays. */
  function StampedLc(st: Store, k: Key, clock: Clock): (r: Option<int>)
    ensures ValOf(st, k) != VStr(clock.text) ==> r == Some(clock.ms)
    ensures ValOf(st, k) == VStr(clock.text) ==> r == LcOf(st, k)
  {
    if ValOf(st, k) == VStr(clock.text) then LcOf(st, k) else Some(clock.ms)
  }

  /** For the triggering person: on arrival the offset is the time from the
      last leave to the stamped entry, on departure the time from the last
      entry to the stamped leave, or empty when that slot is empty. The
      stamped time is now whenever the stamp changes the slot. */
  lemma TriggeredOffset(hoursAndMins: bool, src: Source, clock: Clock, st: Store, d: Device)
    ensures var name := Cl(d.name);
      var present := PresentIn(src, d.id);
      var leave := Person(name, TimeLastLeave);
      var entry := Person(name, TimeLastEntry);
      OffsetFor(hoursAndMins, present, Visited(src, Changed(d.id), clock, st, d), name)
        == if present then (if IsEmpty(ValOf(st, leave)) then "" else OffsetText(hoursAndMins, LcOf(st, leave), StampedLc(st, entry, clock)))
           else (if IsEmpty(ValOf(st, entry)) then "" else OffsetText(hoursAndMins, StampedLc(st, leave, clock), LcOf(st, entry)))
  {
  }

  /** The entry time the record of device `d` shows: now for an arriving
      triggering device, otherwise the stored one. */
  function SeenEntry(src: Source, trigger: Trigger, clock: Clock, st: Store, d: Device): Value
  {
    if trigger == Changed(d.id) && PresentIn(src, d.id) then VStr(clock.text)
    else ValOf(st, Person(Cl(d.name), TimeLastEntry))
  }

  /** The leave time the record of device `d` shows. */
  function SeenLeave(src: Source, trigger: Trigger, clock: Clock, st: Store, d: Device): Value
  {
    if trigger == Changed(d.id) && !PresentIn(src, d.id) then VStr(clock.text)
    else ValOf(st, Person(Cl(d.name), TimeLastLeave))
  }

  /** The JSON records of the first `n` devices, in order and with nothing
      between them, each showing the times of the store the run started from. */
  function JsonRecords(src: Source, trigger: Trigger, clock: Clock, st: Store, ds: seq<Device>, n: nat): string
    requires n <= |ds|
  {
    if n == 0 then ""
    else
      var d := ds[n - 1];
      JsonRecords(src, trigger, clock, st, ds, n - 1)
      + JsonRecord(Cl(d.name), PresentIn(src, d.id), SeenEntry(src, trigger, clock, st, d), SeenLeave(src, trigger, clock, st, d))
  }

  /** The HTML rows of the first `n` devices, in order. */
  function HtmlRows(src: Source, trigger: Trigger, clock: Clock, st: Store, ds: seq<Device>, n: nat): string
    requires n <= |ds|
  {
    if n == 0 then ""
    else
      var d := ds[n - 1];
      HtmlRows(src, trigger, clock, st, ds, n - 1)
      + HtmlRow(Cl(d.name), PresentIn(src, d.id), SeenEntry(src, trigger, clock, st, d), SeenLeave(src, trigger, clock, st, d))
  }

  /** No device shares its cleaned name with an earlier triggering device, so
      every record reads time slots no earlier turn stamped. This holds for
      `main(0)` and whenever cleaned names are distinct. */
  predicate NoStampAlias(trigger: Trigger, ds: seq<Device>)
  {
    forall j, i :: 0 <= j < i < |ds| && trigger == Changed(ds[j].id) ==> Cl(ds[j].name) != Cl(ds[i].name)
  }

  /** The times a record shows are those of the store it reads, updated by the
      stamp of an arriving or leaving triggering device. */
  lemma ShownAgree(src: Source, trigger: Trigger, clock: Clock, st1: Store, st2: Store, d: Device)
    requires SameSlot(st1, st2, Person(Cl(d.name), TimeLastEntry)) && SameSlot(st1, st2, Person(Cl(d.name), TimeLastLeave))
    ensures EntryShown(src, trigger, clock, st1, d) == SeenEntry(src, trigger, clock, st2, d)
    ensures LeaveShown(src, trigger, clock, st1, d) == SeenLeave(src, trigger, clock, st2, d)
  {
  }

  /** Before turn `n`, the time slots of device `n`'s person are those of the
      store the run started from. */
  lemma UnstampedBefore(cfg: Config, src: Source, trigger: Trigger, clock: Clock, store: Store, n: nat, f: Field)
    requires n < |cfg.devices| && NoStampAlias(trigger, cfg.devices)
    requires f == TimeLastEntry || f == TimeLastLeave
    ensures SameSlot(StoreAfter(cfg, src, trigger, clock, store, n), store, Person(Cl(cfg.devices[n].name), f))
  {
    var ds := cfg.devices;
    forall m | 0 <= m < n ensures !WrittenBy(src, trigger, ds[m], Person(Cl(ds[n].name), f)) {
    }
    SegmentFrame(cfg, src, trigger, clock, store, 0, n, Person(Cl(ds[n].name), f));
  }

  /** The times turn `n` shows in its record are those of the store the run
      started from, updated by its own stamp. */
  predicate ShownAsStart(cfg: Config, src: Source, trigger: Trigger, clock: Clock, store: Store, n: nat)
    requires n < |cfg.devices|
  {
    var d := cfg.devices[n];
    var st := StoreAfter(cfg, src, trigger, clock, store, n);
    && EntryShown(src, trigger, clock, st, d) == SeenEntry(src, trigger, clock, store, d)
    && LeaveShown(src, trigger, clock, st, d) == SeenLeave(src, trigger, clock, store, d)
  }

  lemma ShownFromStart(cfg: Config, src: Source, trigger: Trigger, clock: Clock, store: Store, n: nat)
    requires n < |cfg.devices| && NoStampAlias(trigger, cfg.devices)
    ensures ShownAsStart(cfg, src, trigger, clock, store, n)
  {
    UnstampedBefore(cfg, src, trigger, clock, store, n, TimeLastEntry);
    UnstampedBefore(cfg, src, trigger, clock, store, n, TimeLastLeave);
    ShownAgree(src, trigger, clock, StoreAfter(cfg, src, trigger, clock, store, n), store, cfg.devices[n]);
  }

  /** The loop's `JsonString` after the first `n` devices is its opening text
      followed by their records. */
  predicate JsonMatches(cfg: Config, src: Source, trigger: Trigger, clock: Clock, store: Store, n: nat)
    requires n <= |cfg.devices|
  {
    JsonAfter(cfg, src, trigger, clock, store, n) == JsonOpen + JsonRecords(src, trigger, clock, store, cfg.devices, n)
  }

  lemma {:induction false} LoopJson(cfg: Config, src: Source, trigger: Trigger, clock: Clock, store: Store, n: nat)
    requires n <= |cfg.devices| && NoStampAlias(trigger, cfg.devices)
    ensures JsonMatches(cfg, src, trigger, clock, store, n)
  {
    if n > 0 {
      var m := n - 1;
      LoopJson(cfg, src, trigger, clock, store, m);
      ShownFromStart(cfg, src, trigger, clock, store, m);
      JsonTurn(cfg, src, trigger, clock, store, m);
    }
  }

  /** Turn `n` appends the device's record, showing the times the run started
      with. */
  lemma JsonTurn(cfg: Config, src: Source, trigger: Trigger, clock: Clock, store: Store, m: nat)
    requires m < |cfg.devices|
    requires JsonMatches(cfg, src, trigger, clock, store, m)
    requires ShownAsStart(cfg, src, trigger, clock, store, m)
    ensures JsonMatches(cfg, src, trigger, clock, store, m + 1)
  {
    var d := cfg.devices[m];
    var st := StoreAfter(cfg, src, trigger, clock, store, m);
    var acc := JsonAfter(cfg, src, trigger, clock, store, m);
    var recs := JsonRecords(src, trigger, clock, store, cfg.devices, m);
    var r := JsonRecord(Cl(d.name), PresentIn(src, d.id), SeenEntry(src, trigger, clock, store, d), SeenLeave(src, trigger, clock, store, d));
    assert JsonAfter(cfg, src, trigger, clock, store, m + 1) == JsonStep(src, trigger, clock, st, acc, d);
    assert JsonStep(src, trigger, clock, st, acc, d) == acc + r;
    assert JsonRecords(src, trigger, clock, store, cfg.devices, m + 1) == recs + r;
    Extend(JsonAfter(cfg, src, trigger, clock, store, m + 1), acc, JsonOpen, recs, r, JsonRecords(src, trigger, clock, store, cfg.devices, m + 1));
  }

  /** The loop's `HTMLString` after the first `n` devices is its opening text
      followed by their rows. */
  predicate HtmlMatches(cfg: Config, src: Source, trigger: Trigger, clock: Clock, store: Store, n: nat)
    requires n <= |cfg.devices|
  {
    HtmlAfter(cfg, src, trigger, clock, store, n) == HtmlHead + HtmlRows(src, trigger, clock, store, cfg.devices, n)
  }

  lemma {:induction false} LoopHtml(cfg: Config, src: Source, trigger: Trigger, clock: Clock, store: Store, n: nat)
    requires n <= |cfg.devices| && NoStampAlias(trigger, cfg.devices)
    ensures HtmlMatches(cfg, src, trigger, clock, store, n)
  {
    if n > 0 {
      var m := n - 1;
      LoopHtml(cfg, src, trigger, clock, store, m);
      ShownFromStart(cfg, src, trigger, clock, store, m);
      HtmlTurn(cfg, src, trigger, clock, store, m);
    }
  }

  /** Turn `m` appends the device's row, showing the times the run started
      with. */
  lemma HtmlTurn(cfg: Config, src: Source, trigger: Trigger, clock: Clock, store: Store, m: nat)
    requires m < |cfg.devices|
    requires HtmlMatches(cfg, src, trigger, clock, store, m)
    requires ShownAsStart(cfg, src, trigger, clock, store, m)
    ensures HtmlMatches(cfg, src, trigger, clock, store, m + 1)
  {
    var d := cfg.devices[m];
    var r := HtmlRow(Cl(d.name), PresentIn(src, d.id), SeenEntry(src, trigger, clock, store, d), SeenLeave(src, trigger, clock, store, d));
    HtmlAfterNext(cfg, src, trigger, clock, store, m, r);
    HtmlRowsNext(src, trigger, clock, store, cfg.devices, m, r);
    Extend(HtmlAfter(cfg, src, trigger, clock, store, m + 1), HtmlAfter(cfg, src, trigger, clock, store, m), HtmlHead,
           HtmlRows(src, trigger, clock, store, cfg.devices, m), r, HtmlRows(src, trigger, clock, store, cfg.devices, m + 1));
  }

  lemma HtmlAfterNext(cfg: Config, src: Source, trigger: Trigger, clock: Clock, store: Store, m: nat, r: string)
    requires m < |cfg.devices|
    requires ShownAsStart(cfg, src, trigger, clock, store, m)
    requires var d := cfg.devices[m];
      r == HtmlRow(Cl(d.name), PresentIn(src, d.id), SeenEntry(src, trigger, clock, store, d), SeenLeave(src, trigger, clock, store, d))
    ensures HtmlAfter(cfg, src, trigger, clock, store, m + 1) == HtmlAfter(cfg, src, trigger, clock, store, m) + r
  {
  }

  lemma HtmlRowsNext(src: Source, trigger: Trigger, clock: Clock, store: Store, ds: seq<Device>, m: nat, r: string)
    requires m < |ds|
    requires r == HtmlRow(Cl(ds[m].name), PresentIn(src, ds[m].id), SeenEntry(src, trigger, clock, store, ds[m]), SeenLeave(src, trigger, clock, store, ds[m]))
    ensures HtmlRows(src, trigger, clock, store, ds, m + 1) == HtmlRows(src, trigger, clock, store, ds, m) + r
  {
  }

  /** An accumulator that is a head followed by pieces, extended by one more
      piece, is the head followed by the longer pieces. */
  lemma Extend(after: string, before: string, head: string, pieces: string, piece: string, longer: string)
    requires after == before + piece && before == head + pieces && longer == pieces + piece
    ensures after == head + longer
  {
  }

  /** After `main`, `presentPersonsJson` is '[' and the records, with no
      separator between them, and ']'. */
  lemma JsonAfterMain(cfg: Config, src: Source, store: Store, trigger: Trigger, clock: Clock)
    requires NoStampAlias(trigger, cfg.devices)
    ensures ValOf(Recompute(cfg, src, store, trigger, clock).store, PresentPersonsJson)
         == VStr("[" + JsonRecords(src, trigger, clock, store, cfg.devices, |cfg.devices|) + "]")
  {
    var n := |cfg.devices|;
    LoopJson(cfg, src, trigger, clock, store, n);
    FinishJson(cfg, clock, Pass(cfg, src, trigger, clock, store, n), JsonRecords(src, trigger, clock, store, cfg.devices, n));
  }

  /** After `main`, `presentPersonsHTML` is the table head, which opens the
      body with `<tbody>`, the rows, and `</body></table>`. */
  lemma HtmlAfterMain(cfg: Config, src: Source, store: Store, trigger: Trigger, clock: Clock)
    requires NoStampAlias(trigger, cfg.devices)
    ensures ValOf(Recompute(cfg, src, store, trigger, clock).store, PresentPersonsHtml)
         == VStr(HtmlHead + HtmlRows(src, trigger, clock, store, cfg.devices, |cfg.devices|) + "</body></table>")
  {
    var n := |cfg.devices|;
    LoopHtml(cfg, src, trigger, clock, store, n);
    FinishHtml(cfg, clock, Pass(cfg, src, trigger, clock, store, n), HtmlRows(src, trigger, clock, store, cfg.devices, n));
  }

  /** The end of `main` closes the JSON array. */
  lemma FinishJson(cfg: Config, clock: Clock, t: Tally, records: string)
    requires t.json == JsonOpen + records
    ensures ValOf(Finish(cfg, clock, t).store, PresentPersonsJson) == VStr("[" + records + "]")
  {
  }

  /** The end of `main` closes the table. */
  lemma FinishHtml(cfg: Config, clock: Clock, t: Tally, rows: string)
    requires t.html == HtmlHead + rows
    ensures ValOf(Finish(cfg, clock, t).store, PresentPersonsHtml) == VStr(HtmlHead + rows + "</body></table>")
  {
  }
}
