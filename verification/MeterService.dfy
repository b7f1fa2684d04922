/** The meter, its sample store and billing in place. */
module MeterService {
  import opened Prelude
  import opened Metering
  import M = Metering

  class SampleStore {
    var samples: map<string, seq<Sample>>
    var fingerprints: set<string>

    constructor ()
      ensures samples == map[] && fingerprints == {}
    {
      samples, fingerprints := map[], {};
    }

    method Add(vessel: string, smp: Sample) returns (e: Option<Error>)
      modifies this
      ensures (samples, fingerprints, e) == Stored(old(samples), old(fingerprints), vessel, smp)
    {
      hide SampleText;
      if vessel == "" || smp.number <= 0 {
        return Some(InvalidSample);
      }
      var fp := SampleText(smp.vessel, smp.berthID, smp.number);
      if fp in fingerprints {
        return None;
      }
      fingerprints := fingerprints + {fp};
      samples := samples[vessel := (if vessel in samples then samples[vessel] else []) + [smp]];
      return None;
    }

    method Last(vessel: string) returns (s: Option<Sample>)
      ensures var history := if vessel in samples then samples[vessel] else [];
              s == if history == [] then None else Some(history[|history| - 1])
    {
      var items := if vessel in samples then samples[vessel] else [];
      return if |items| == 0 then None else Some(items[|items| - 1]);
    }
  }

  class Meter {
    const store: SampleStore
    var active: map<string, M.Run>

    ghost function View(): Meters
      reads this, store
    {
      Meters(active, store.samples, store.fingerprints)
    }

    /** Every run has its samples, numbered from one without a gap, and nothing else is stored. */
    ghost predicate Complete()
      reads this, store
    {
      MeterInv(View())
    }

    constructor ()
      ensures View() == NO_METERS && Complete() && fresh(store)
    {
      store := new SampleStore();
      active := map[];
    }

    method Start(vessel: string, berthID: string, now: Time) returns (e: Option<Error>)
      modifies this
      ensures (View(), e) == M.Start(old(View()), vessel, berthID, now)
      ensures e.None? <==> vessel != "" && berthID != "" && vessel !in old(active)
      ensures e.None? ==> vessel in active && active[vessel].state == Metering && active[vessel].samples == 0
      ensures old(Complete()) && NulFree(berthID) ==> Complete()
    {
      hide MeterInv;
      if Complete() && NulFree(berthID) {
        StartSafe(View(), vessel, berthID, now);
      }
      if vessel == "" || berthID == "" {
        return Some(VesselRequired);
      }
      if vessel in active {
        return Some(AlreadyMetering);
      }
      active := active[vessel := M.Run(vessel, berthID, now, Metering, 0)];
      return None;
    }

    method Sample(vessel: string, now: Time) returns (r: Result<M.Sample>)
      modifies this, store
      ensures (View(), r) == M.TakeSample(old(View()), vessel, now)
      ensures old(Complete()) ==> Complete() && (r.Ok? <==> old(M.StateOf(View(), vessel)) == Metering)
      ensures old(Complete()) && r.Ok? ==>
                && vessel in old(active) && Samples(View(), vessel) == old(Samples(View(), vessel)) + [r.value]
                && r.value.vessel == vessel && r.value.berthID == old(active)[vessel].berthID && r.value.at == now
                && r.value.number == |Samples(View(), vessel)|
                && r.value.kwh == r.value.number as real * 0.10 && r.value.kvah == r.value.number as real * 0.08
    {
      hide SampleText, MeterInv;
      if Complete() {
        TakeSampleSafe(View(), vessel, now);
        SampleNumbered(View(), vessel, now);
      }
      if vessel !in active || active[vessel].state != Metering {
        return Err(MeterNotRunning);
      }
      var run := active[vessel];
      run := run.(samples := run.samples + 1);
      active := active[vessel := run];
      var n := run.samples;
      var smp := M.Sample(vessel, run.berthID, n as real * 0.10, n as real * 0.08, now, n);
      var e := store.Add(vessel, smp);
      if e.Some? {
        return Err(e.value);
      }
      return Ok(smp);
    }

    method Suspend(vessel: string) returns (e: Option<Error>)
      modifies this
      ensures (View(), e) == M.Suspend(old(View()), vessel)
      ensures old(Complete()) ==> Complete()
    {
      hide MeterInv;
      if Complete() {
        SuspendSafe(View(), vessel);
      }
      if vessel !in active || active[vessel].state != Metering {
        return Some(MeterNotRunning);
      }
      active := active[vessel := active[vessel].(state := Suspended)];
      return None;
    }

    method Resume(vessel: string) returns (e: Option<Error>)
      modifies this
      ensures (View(), e) == M.Resume(old(View()), vessel)
      ensures old(Complete()) ==> Complete()
    {
      hide MeterInv;
      if Complete() {
        ResumeSafe(View(), vessel);
      }
      if vessel !in active {
        return Some(MeterNotRunning);
      }
      if active[vessel].state != Suspended {
        return Some(NotSuspended);
      }
      active := active[vessel := active[vessel].(state := Metering)];
      return None;
    }

    method Stop(vessel: string) returns (e: Option<Error>)
      modifies this
      ensures (View(), e) == M.Stop(old(View()), vessel)
      ensures old(Complete()) ==> Complete()
    {
      hide MeterInv;
      if Complete() {
        StopSafe(View(), vessel);
      }
      if vessel !in active {
        return Some(MeterNotRunning);
      }
      active := active[vessel := active[vessel].(state := Settled)];
      return None;
    }

    method StateOf(vessel: string) returns (st: MeterState)
      ensures st == M.StateOf(View(), vessel)
    {
      return if vessel in active then active[vessel].state else NotMetering;
    }
  }

  class Billing {
    const meter: Meter
    const rate: Rate
    var records: map<string, seq<Bill>>
    var number: nat

    ghost function View(): Bills
      reads this
    {
      Bills(records, number)
    }

    /** Every bill is for the whole, frozen history of its vessel. */
    ghost predicate Proper()
      reads this, meter, meter.store
    {
      BillInv(meter.View(), View(), rate)
    }

    constructor (meter: Meter, rate: Rate)
      ensures this.meter == meter && this.rate == rate && View() == NO_BILLS && Proper()
    {
      this.meter, this.rate := meter, rate;
      records, number := map[], 0;
    }

    method Settle(vessel: string, hour: int, now: Time) returns (r: Result<Bill>)
      modifies this, meter
      ensures (meter.View(), View(), r) == M.Settle(old(meter.View()), old(View()), rate, vessel, hour, now)
      ensures old(meter.Complete() && Proper()) ==>
                && meter.Complete() && Proper()
                && (r.Ok? <==> old(vessel in meter.active && meter.active[vessel].samples > 0))
                && (r.Ok? ==> r.value.kwh == old(meter.active)[vessel].samples as real * 0.10)
      ensures r.Ok? ==>
                && BillsOf(View(), vessel) == old(BillsOf(View(), vessel)) + [r.value]
                && r.value.tier == TierAt(rate, hour)
                && r.value.energy == r.value.kwh * EnergyPrice(rate, r.value.tier)
                && r.value.service == r.value.kwh * ServicePrice(rate, r.value.tier)
                && r.value.total == r.value.energy + r.value.service
    {
      hide BillFor, TierAt, EnergyPrice, ServicePrice, MeterInv, BillInv;
      if meter.Complete() && Proper() {
        SettleSafe(meter.View(), View(), rate, vessel, hour, now);
      }
      SettleCharges(meter.View(), View(), rate, vessel, hour, now);
      var last := meter.store.Last(vessel);
      if last.None? {
        return Err(NoSamples);
      }
      var bill := Charge(last.value, vessel, hour, now);
      var _ := meter.Stop(vessel);
      return Ok(bill);
    }

    /** The locked part: number, price and append the bill. */
    method Charge(last: M.Sample, vessel: string, hour: int, now: Time) returns (bill: Bill)
      modifies this
      ensures bill == BillFor(rate, last, vessel, old(number) + 1, hour, now)
      ensures View() == Bills(old(records)[vessel := BillsOf(old(View()), vessel) + [bill]], old(number) + 1)
    {
      hide BillID, TierAt, EnergyPrice, ServicePrice;
      var tier := TierAt(rate, hour);
      var energy := last.kwh * EnergyPrice(rate, tier);
      var service := last.kwh * ServicePrice(rate, tier);
      number := number + 1;
      bill := Bill(BillID(vessel, number), vessel, last.berthID, last.kwh,
                   energy, service, energy + service, tier, now);
      records := records[vessel := (if vessel in records then records[vessel] else []) + [bill]];
    }
  }
}
