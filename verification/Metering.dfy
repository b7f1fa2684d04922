/** Metering and billing as values: one run per vessel, its deduplicated samples, and the bills. */
module Metering {
  import opened Prelude
  import Decimal

  datatype MeterState = NotMetering | Metering | Suspended | Settled

  datatype Run = Run(vessel: string, berthID: string, startedAt: Time, state: MeterState, samples: nat)

  datatype Sample = Sample(vessel: string, berthID: string, kwh: real, kvah: real, at: Time, number: int)

  datatype Meters = Meters(active: map<string, Run>, samples: map<string, seq<Sample>>, fps: set<string>)

  const NO_METERS: Meters := Meters(map[], map[], {})

  /** The text whose hash is a sample's fingerprint. */
  function SampleText(vessel: string, berthID: string, number: int): string {
    (vessel + [NUL] + berthID) + [NUL] + Decimal.Dec(number)
  }

  /** The text determines vessel, berth and number even for vessels whose names contain separators. */
  lemma SampleTextInjective(v: string, b: string, n: int, v': string, b': string, n': int)
    requires NulFree(b) && NulFree(b') && SampleText(v, b, n) == SampleText(v', b', n')
    ensures v == v' && b == b' && n == n'
  {
    hide Decimal.Dec, FirstField, LastField;
    Decimal.DecNulFree(n);
    Decimal.DecNulFree(n');
    LastFieldOf(v + [NUL] + b, Decimal.Dec(n));
    LastFieldOf(v' + [NUL] + b', Decimal.Dec(n'));
    Decimal.DecInjective(n, n');
    LastFieldOf(v, b);
    LastFieldOf(v', b');
  }

  function Samples(m: Meters, vessel: string): seq<Sample> {
    if vessel in m.samples then m.samples[vessel] else []
  }

  function StateOf(m: Meters, vessel: string): MeterState {
    if vessel in m.active then m.active[vessel].state else NotMetering
  }

  function Start(m: Meters, vessel: string, berthID: string, now: Time): (Meters, Option<Error>) {
    if vessel == "" || berthID == "" then (m, Some(VesselRequired))
    else if vessel in m.active then (m, Some(AlreadyMetering))
    else (m.(active := m.active[vessel := Run(vessel, berthID, now, Metering, 0)]), None)
  }

  /** The store alone: a repeated text is acknowledged and dropped. */
  function Stored(samples: map<string, seq<Sample>>, fps: set<string>, vessel: string, s: Sample)
    : (map<string, seq<Sample>>, set<string>, Option<Error>)
  {
    var fp := SampleText(s.vessel, s.berthID, s.number);
    if vessel == "" || s.number <= 0 then (samples, fps, Some(InvalidSample))
    else if fp in fps then (samples, fps, None)
    else (samples[vessel := (if vessel in samples then samples[vessel] else []) + [s]], fps + {fp}, None)
  }

  function Add(m: Meters, vessel: string, s: Sample): (Meters, Option<Error>) {
    var (samples, fps, e) := Stored(m.samples, m.fps, vessel, s);
    (m.(samples := samples, fps := fps), e)
  }

  function SampleOf(run: Run, vessel: string, number: nat, now: Time): Sample {
    Sample(vessel, run.berthID, number as real * 0.10, number as real * 0.08, now, number)
  }

  function TakeSample(m: Meters, vessel: string, now: Time): (Meters, Result<Sample>) {
    if StateOf(m, vessel) != Metering then (m, Err(MeterNotRunning))
    else
      var run := m.active[vessel].(samples := m.active[vessel].samples + 1);
      var s := SampleOf(run, vessel, run.samples, now);
      var (m1, e) := Add(m.(active := m.active[vessel := run]), vessel, s);
      (m1, if e.Some? then Err(e.value) else Ok(s))
  }

  function SetState(m: Meters, vessel: string, st: MeterState): Meters
    requires vessel in m.active
  {
    m.(active := m.active[vessel := m.active[vessel].(state := st)])
  }

  function Suspend(m: Meters, vessel: string): (Meters, Option<Error>) {
    if StateOf(m, vessel) != Metering then (m, Some(MeterNotRunning)) else (SetState(m, vessel, Suspended), None)
  }

  function Resume(m: Meters, vessel: string): (Meters, Option<Error>) {
    if vessel !in m.active then (m, Some(MeterNotRunning))
    else if m.active[vessel].state != Suspended then (m, Some(NotSuspended))
    else (SetState(m, vessel, Metering), None)
  }

  function Stop(m: Meters, vessel: string): (Meters, Option<Error>) {
    if vessel !in m.active then (m, Some(MeterNotRunning)) else (SetState(m, vessel, Settled), None)
  }

  // Billing.

  datatype Tier = Peak | Flat | Valley

  datatype Rate = Rate(peakStart: int, peakEnd: int, valleyStart: int, valleyEnd: int, energyPrice: real,
    servicePrice: real)

  predicate InRange(hour: int, start: int, end: int) {
    if start == end then hour == start
    else if start < end then start <= hour < end
    else hour >= start || hour < end
  }

  function TierAt(r: Rate, hour: int): Tier {
    if InRange(hour, r.peakStart, r.peakEnd) then Peak
    else if InRange(hour, r.valleyStart, r.valleyEnd) then Valley
    else Flat
  }

  function EnergyPrice(r: Rate, t: Tier): real {
    match t case Peak => r.energyPrice * 1.5 case Valley => r.energyPrice * 0.5 case Flat => r.energyPrice
  }

  function ServicePrice(r: Rate, t: Tier): real {
    match t case Peak => r.servicePrice * 1.2 case Valley => r.servicePrice * 0.8 case Flat => r.servicePrice
  }

  datatype Bill = Bill(
    id: string, vessel: string, berthID: string, kwh: real, energy: real, service: real, total: real,
    tier: Tier, settledAt: Time)

  datatype Bills = Bills(records: map<string, seq<Bill>>, number: nat)

  const NO_BILLS: Bills := Bills(map[], 0)

  function BillsOf(b: Bills, vessel: string): seq<Bill> {
    if vessel in b.records then b.records[vessel] else []
  }

  function BillID(vessel: string, number: nat): string {
    "bill-" + vessel + "-" + Decimal.Pad3(number)
  }

  function BillFor(r: Rate, last: Sample, vessel: string, number: nat, hour: int, now: Time): Bill {
    var tier := TierAt(r, hour);
    var energy := last.kwh * EnergyPrice(r, tier);
    var service := last.kwh * ServicePrice(r, tier);
    Bill(BillID(vessel, number), vessel, last.berthID, last.kwh, energy, service, energy + service, tier, now)
  }

  function Settle(m: Meters, b: Bills, r: Rate, vessel: string, hour: int, now: Time): (Meters, Bills, Result<Bill>) {
    var history := Samples(m, vessel);
    if history == [] then (m, b, Err(NoSamples))
    else
      var bill := BillFor(r, history[|history| - 1], vessel, b.number + 1, hour, now);
      (Stop(m, vessel).0, Bills(b.records[vessel := BillsOf(b, vessel) + [bill]], b.number + 1), Ok(bill))
  }

  // What holds over every sequence of metering calls.

  /** The samples a run must have: numbered from one without a gap, each a tenth of a kWh more. */
  ghost predicate FullHistory(run: Run, history: seq<Sample>) {
    && |history| == run.samples
    && forall i :: 0 <= i < |history| ==> history[i] == SampleOf(run, run.vessel, i + 1, history[i].at)
  }

  ghost predicate Taken(active: map<string, Run>, vessel: string, number: int) {
    vessel in active && 1 <= number <= active[vessel].samples
  }

  ghost predicate Accounted(active: map<string, Run>, fp: string) {
    exists v, n :: Taken(active, v, n) && fp == SampleText(v, active[v].berthID, n)
  }

  ghost predicate GoodRun(vessel: string, run: Run) {
    run.vessel == vessel && vessel != "" && NulFree(run.berthID) && run.state != NotMetering
  }

  ghost predicate MeterInv(m: Meters) {
    && (forall v :: v in m.active ==> GoodRun(v, m.active[v]))
    && (forall v :: v in m.active ==> FullHistory(m.active[v], Samples(m, v)))
    && m.samples.Keys <= m.active.Keys
    && forall fp :: fp in m.fps ==> Accounted(m.active, fp)
  }

  /** Every bill of a vessel is for its whole, frozen history. */
  ghost predicate BillInv(m: Meters, b: Bills, r: Rate) {
    forall v :: v in b.records && b.records[v] != [] ==>
      && v in m.active && m.active[v].state == Settled && m.active[v].samples > 0
      && forall i :: 0 <= i < |b.records[v]| ==> ProperBill(b.records[v][i], m.active[v], r)
  }

  ghost predicate ProperBill(bill: Bill, run: Run, r: Rate) {
    && bill.vessel == run.vessel && bill.berthID == run.berthID
    && bill.kwh == run.samples as real * 0.10
    && bill.energy == bill.kwh * EnergyPrice(r, bill.tier)
    && bill.service == bill.kwh * ServicePrice(r, bill.tier)
    && bill.total == bill.kwh * (EnergyPrice(r, bill.tier) + ServicePrice(r, bill.tier))
  }

  /** Runs only ever gain samples, and keep vessel and berth. */
  ghost predicate RunsGrow(before: map<string, Run>, after: map<string, Run>) {
    && before.Keys <= after.Keys
    && forall v :: v in before ==>
         && after[v].vessel == before[v].vessel && after[v].berthID == before[v].berthID
         && before[v].samples <= after[v].samples
         && (before[v].state == Settled ==> after[v] == before[v])
  }

  lemma AccountedGrows(before: map<string, Run>, after: map<string, Run>, fp: string)
    requires RunsGrow(before, after) && Accounted(before, fp)
    ensures Accounted(after, fp)
  {
    hide SampleText;
    var v, n :| Taken(before, v, n) && fp == SampleText(v, before[v].berthID, n);
    assert Taken(after, v, n);
  }

  /** A change of run states, or a new run, keeps the invariant. */
  lemma ActiveChange(m: Meters, m1: Meters)
    requires MeterInv(m) && m1.samples == m.samples && m1.fps == m.fps && RunsGrow(m.active, m1.active)
    requires forall v :: v in m.active ==> m1.active[v].samples == m.active[v].samples
    requires forall v :: v in m1.active ==> GoodRun(v, m1.active[v])
    requires forall v :: v in m1.active && v !in m.active ==> m1.active[v].samples == 0
    ensures MeterInv(m1)
  {
    hide SampleText, Accounted;
    forall fp | fp in m1.fps ensures Accounted(m1.active, fp) {
      AccountedGrows(m.active, m1.active, fp);
    }
  }

  /** A sample is never mistaken for a repetition: its number is new for its vessel. */
  lemma SampleIsNew(m: Meters, vessel: string)
    requires MeterInv(m) && vessel in m.active
    ensures SampleText(vessel, m.active[vessel].berthID, m.active[vessel].samples + 1) !in m.fps
  {
    hide SampleText;
    var b, n := m.active[vessel].berthID, m.active[vessel].samples + 1;
    var fp := SampleText(vessel, b, n);
    if fp in m.fps {
      assert Accounted(m.active, fp);
      var v', n' :| Taken(m.active, v', n') && fp == SampleText(v', m.active[v'].berthID, n');
      SampleTextInjective(vessel, b, n, v', m.active[v'].berthID, n');
      assert false;
    }
  }

  lemma HistoryExtended(run: Run, history: seq<Sample>, now: Time)
    requires FullHistory(run, history)
    ensures FullHistory(run.(samples := run.samples + 1), history + [SampleOf(run, run.vessel, run.samples + 1, now)])
  {
  }

  /** What one successful sample adds. */
  lemma SampleAdds(m: Meters, vessel: string, now: Time)
    requires MeterInv(m) && StateOf(m, vessel) == Metering
    ensures var (m1, r) := TakeSample(m, vessel, now);
            var run := m.active[vessel];
            var s := SampleOf(run, vessel, run.samples + 1, now);
            && r == Ok(s)
            && m1.active == m.active[vessel := run.(samples := run.samples + 1)]
            && m1.samples == m.samples[vessel := Samples(m, vessel) + [s]]
            && m1.fps == m.fps + {SampleText(vessel, run.berthID, run.samples + 1)}
  {
    hide SampleText, Accounted, FullHistory;
    SampleIsNew(m, vessel);
  }

  lemma SampleRunsGrow(m: Meters, vessel: string, now: Time)
    requires MeterInv(m)
    ensures RunsGrow(m.active, TakeSample(m, vessel, now).0.active)
  {
    hide MeterInv, SampleOf, Add;
    if StateOf(m, vessel) == Metering {
      SampleAdds(m, vessel, now);
    }
  }

  lemma NotTaken(m: Meters, vessel: string, now: Time)
    requires StateOf(m, vessel) != Metering
    ensures TakeSample(m, vessel, now) == (m, Err(MeterNotRunning))
  {
    hide Stored;
  }

  lemma TakeSampleSafe(m: Meters, vessel: string, now: Time)
    requires MeterInv(m)
    ensures var (m1, r) := TakeSample(m, vessel, now);
            && MeterInv(m1) && RunsGrow(m.active, m1.active)
            && (StateOf(m, vessel) == Metering <==> r.Ok?)
            && (r.Ok? ==> Samples(m1, vessel) == Samples(m, vessel) + [r.value])
            && (forall v :: v in m.active && (v != vessel || r.Err?)
                 ==> m1.active[v] == m.active[v] && Samples(m1, v) == Samples(m, v))
  {
    hide SampleText, Accounted, FullHistory, SampleOf, RunsGrow, TakeSample;
    SampleRunsGrow(m, vessel, now);
    if StateOf(m, vessel) != Metering {
      NotTaken(m, vessel, now);
    } else {
      var m1 := TakeSample(m, vessel, now).0;
      SampleAdds(m, vessel, now);
      HistoryExtended(m.active[vessel], Samples(m, vessel), now);
      forall x | x in m1.fps ensures Accounted(m1.active, x) {
        if x in m.fps {
          AccountedGrows(m.active, m1.active, x);
        } else {
          NewAccounted(m1.active, vessel);
        }
      }
    }
  }

  /** The number of a sample is its place in the vessel's history, and with it the meter's readings. */
  lemma SampleNumbered(m: Meters, vessel: string, now: Time)
    requires MeterInv(m)
    ensures var (m1, r) := TakeSample(m, vessel, now);
            r.Ok? ==>
              && vessel in m.active && r.value.vessel == vessel && r.value.berthID == m.active[vessel].berthID
              && r.value.number == |Samples(m, vessel)| + 1 && r.value.at == now
              && r.value.kwh == r.value.number as real * 0.10 && r.value.kvah == r.value.number as real * 0.08
  {
    hide SampleText, Accounted;
    if StateOf(m, vessel) == Metering {
      SampleAdds(m, vessel, now);
    }
  }

  lemma NewAccounted(active: map<string, Run>, vessel: string)
    requires vessel in active && active[vessel].samples > 0
    ensures Accounted(active, SampleText(vessel, active[vessel].berthID, active[vessel].samples))
  {
    hide SampleText;
    assert Taken(active, vessel, active[vessel].samples);
  }

  datatype MeterOp =
    | Starting(vessel: string, berthID: string, at: Time)
    | Sampling(vessel: string, at: Time)
    | Suspending(vessel: string)
    | Resuming(vessel: string)
    | Stopping(vessel: string)
    | Settling(vessel: string, hour: int, at: Time)

  ghost predicate Metered(op: MeterOp) {
    op.Starting? ==> NulFree(op.berthID)
  }

  function Perform(m: Meters, b: Bills, r: Rate, op: MeterOp): (Meters, Bills) {
    match op
    case Starting(v, berthID, at) => (Start(m, v, berthID, at).0, b)
    case Sampling(v, at) => (TakeSample(m, v, at).0, b)
    case Suspending(v) => (Suspend(m, v).0, b)
    case Resuming(v) => (Resume(m, v).0, b)
    case Stopping(v) => (Stop(m, v).0, b)
    case Settling(v, hour, at) => var (m1, b1, _) := Settle(m, b, r, v, hour, at); (m1, b1)
  }

  lemma StartSafe(m: Meters, vessel: string, berthID: string, now: Time)
    requires MeterInv(m) && NulFree(berthID)
    ensures var m1 := Start(m, vessel, berthID, now).0; MeterInv(m1) && RunsGrow(m.active, m1.active)
  {
    hide SampleText, Accounted;
    ActiveChange(m, Start(m, vessel, berthID, now).0);
  }

  lemma StopSafe(m: Meters, vessel: string)
    requires MeterInv(m)
    ensures var m1 := Stop(m, vessel).0; MeterInv(m1) && RunsGrow(m.active, m1.active)
  {
    hide SampleText, Accounted;
    ActiveChange(m, Stop(m, vessel).0);
  }

  lemma SuspendSafe(m: Meters, vessel: string)
    requires MeterInv(m)
    ensures var m1 := Suspend(m, vessel).0; MeterInv(m1) && RunsGrow(m.active, m1.active)
  {
    hide SampleText, Accounted;
    ActiveChange(m, Suspend(m, vessel).0);
  }

  lemma ResumeSafe(m: Meters, vessel: string)
    requires MeterInv(m)
    ensures var m1 := Resume(m, vessel).0; MeterInv(m1) && RunsGrow(m.active, m1.active)
  {
    hide SampleText, Accounted;
    ActiveChange(m, Resume(m, vessel).0);
  }

  lemma BillsSurvive(m: Meters, m1: Meters, b: Bills, r: Rate)
    requires BillInv(m, b, r) && RunsGrow(m.active, m1.active)
    ensures BillInv(m1, b, r)
  {
  }

  /** A further proper bill for a settled run. */
  lemma BillAdded(m: Meters, b: Bills, r: Rate, vessel: string, bill: Bill)
    requires BillInv(m, b, r)
    requires vessel in m.active && m.active[vessel].state == Settled && m.active[vessel].samples > 0
    requires ProperBill(bill, m.active[vessel], r)
    ensures BillInv(m, Bills(b.records[vessel := BillsOf(b, vessel) + [bill]], b.number + 1), r)
  {
    hide ProperBill;
  }

  lemma LastBillProper(m: Meters, r: Rate, vessel: string, number: nat, hour: int, now: Time)
    requires vessel in m.active && m.active[vessel].vessel == vessel
    requires FullHistory(m.active[vessel], Samples(m, vessel)) && Samples(m, vessel) != []
    ensures var history := Samples(m, vessel);
            ProperBill(BillFor(r, history[|history| - 1], vessel, number, hour, now), m.active[vessel], r)
  {
    hide BillID, TierAt, EnergyPrice, ServicePrice;
    var history := Samples(m, vessel);
    var kwh := m.active[vessel].samples as real * 0.10;
    assert history[|history| - 1].kwh == kwh;
    Distribute(kwh, EnergyPrice(r, TierAt(r, hour)), ServicePrice(r, TierAt(r, hour)));
  }

  lemma HistoryOf(m: Meters, vessel: string)
    requires MeterInv(m)
    ensures Samples(m, vessel) != [] <==> vessel in m.active && m.active[vessel].samples > 0
    ensures vessel in m.active
      ==> m.active[vessel].vessel == vessel && FullHistory(m.active[vessel], Samples(m, vessel))
  {
    hide Accounted;
  }

  lemma ProperForRun(bill: Bill, a: Run, b: Run, r: Rate)
    requires ProperBill(bill, a, r) && b.vessel == a.vessel && b.berthID == a.berthID && b.samples == a.samples
    ensures ProperBill(bill, b, r)
  {
  }

  lemma SettleSafe(m: Meters, b: Bills, r: Rate, vessel: string, hour: int, now: Time)
    requires MeterInv(m) && BillInv(m, b, r)
    ensures var (m1, b1, bill) := Settle(m, b, r, vessel, hour, now);
            && MeterInv(m1) && RunsGrow(m.active, m1.active) && BillInv(m1, b1, r)
            && (bill.Ok? <==> vessel in m.active && m.active[vessel].samples > 0)
            && (bill.Ok? ==> ProperBill(bill.value, m.active[vessel], r) && StateOf(m1, vessel) == Settled)
  {
    hide MeterInv, FullHistory, BillInv, BillFor, ProperBill;
    var m1 := Stop(m, vessel).0;
    HistoryOf(m, vessel);
    StopSafe(m, vessel);
    BillsSurvive(m, m1, b, r);
    var history := Samples(m, vessel);
    if history != [] {
      var bill := BillFor(r, history[|history| - 1], vessel, b.number + 1, hour, now);
      LastBillProper(m, r, vessel, b.number + 1, hour, now);
      ProperForRun(bill, m.active[vessel], m1.active[vessel], r);
      BillAdded(m1, b, r, vessel, bill);
    }
  }

  lemma Distribute(x: real, y: real, z: real)
    ensures x * y + x * z == x * (y + z)
  {
  }

  lemma PerformSafe(m: Meters, b: Bills, r: Rate, op: MeterOp)
    requires MeterInv(m) && BillInv(m, b, r) && Metered(op)
    ensures var (m1, b1) := Perform(m, b, r, op);
            MeterInv(m1) && BillInv(m1, b1, r) && RunsGrow(m.active, m1.active)
  {
    hide MeterInv, BillInv, RunsGrow, TakeSample, Settle, Start, Stop, Suspend, Resume;
    var (m1, b1) := Perform(m, b, r, op);
    match op {
      case Starting(v, berthID, at) => StartSafe(m, v, berthID, at);
      case Sampling(v, at) => TakeSampleSafe(m, v, at);
      case Suspending(v) => SuspendSafe(m, v);
      case Resuming(v) => ResumeSafe(m, v);
      case Stopping(v) => StopSafe(m, v);
      case Settling(v, hour, at) => SettleSafe(m, b, r, v, hour, at);
    }
    if !op.Settling? {
      BillsSurvive(m, m1, b, r);
    }
  }

  function PerformAll(m: Meters, b: Bills, r: Rate, ops: seq<MeterOp>): (Meters, Bills)
    decreases |ops|
  {
    if ops == [] then (m, b)
    else var (m1, b1) := Perform(m, b, r, ops[0]); PerformAll(m1, b1, r, ops[1..])
  }

  /** Over every run of metering and billing calls: histories are complete, no sample is lost to
      deduplication, settled runs stay as they are, and every bill is for the whole history. */
  lemma {:induction false} MeteringHistory(m: Meters, b: Bills, r: Rate, ops: seq<MeterOp>)
    requires MeterInv(m) && BillInv(m, b, r) && forall op :: op in ops ==> Metered(op)
    ensures var (m1, b1) := PerformAll(m, b, r, ops);
            MeterInv(m1) && BillInv(m1, b1, r) && RunsGrow(m.active, m1.active)
    decreases |ops|
  {
    hide MeterInv, BillInv, Perform;
    if ops != [] {
      var (m1, b1) := Perform(m, b, r, ops[0]);
      assert ops[0] in ops && Metered(ops[0]);
      PerformSafe(m, b, r, ops[0]);
      MeteringHistory(m1, b1, r, ops[1..]);
    }
  }

  /** From the start: whatever bills a vessel has been sent agree on energy and berth, and each is
      priced by its own tier. */
  lemma BillsAgree(r: Rate, ops: seq<MeterOp>, vessel: string, i: nat, j: nat)
    requires forall op :: op in ops ==> Metered(op)
    requires var b := PerformAll(NO_METERS, NO_BILLS, r, ops).1; i < |BillsOf(b, vessel)| && j < |BillsOf(b, vessel)|
    ensures var bills := BillsOf(PerformAll(NO_METERS, NO_BILLS, r, ops).1, vessel);
            && bills[i].kwh == bills[j].kwh && bills[i].berthID == bills[j].berthID
            && bills[i].energy == bills[i].kwh * EnergyPrice(r, bills[i].tier)
            && bills[i].service == bills[i].kwh * ServicePrice(r, bills[i].tier)
            && bills[i].total == bills[i].kwh * (EnergyPrice(r, bills[i].tier) + ServicePrice(r, bills[i].tier))
  {
    hide PerformAll, EnergyPrice, ServicePrice;
    MeteringHistory(NO_METERS, NO_BILLS, r, ops);
    var (m, b) := PerformAll(NO_METERS, NO_BILLS, r, ops);
    assert ProperBill(b.records[vessel][i], m.active[vessel], r);
    assert ProperBill(b.records[vessel][j], m.active[vessel], r);
  }

  // What callers see of the meter.

  /** Starting succeeds exactly for a named vessel and berth without a run, and the vessel is then being
      metered at that berth, with nothing read yet. */
  lemma StartRuns(m: Meters, vessel: string, berthID: string, now: Time)
    ensures var (m1, e) := Start(m, vessel, berthID, now);
            && (e.None? <==> vessel != "" && berthID != "" && vessel !in m.active)
            && (e == Some(AlreadyMetering) <==> vessel != "" && berthID != "" && vessel in m.active)
            && (e.None? ==>
                  && StateOf(m1, vessel) == Metering && vessel in m1.active && m1.active[vessel].berthID == berthID
                  && m1.active[vessel].startedAt == now && m1.active[vessel].samples == 0)
            && (e.Some? ==> m1 == m)
            && forall v :: v != vessel ==> StateOf(m1, v) == StateOf(m, v)
  {
  }

  /** The first sample of a new run is number one, at the berth the run was started for. */
  lemma StartThenSample(m: Meters, vessel: string, berthID: string, now: Time, later: Time)
    requires MeterInv(m) && NulFree(berthID) && vessel != "" && berthID != "" && vessel !in m.active
    ensures var (m2, r) := TakeSample(Start(m, vessel, berthID, now).0, vessel, later);
            && r == Ok(Sample(vessel, berthID, 0.10, 0.08, later, 1))
            && Samples(m2, vessel) == [r.value] && StateOf(m2, vessel) == Metering
  {
    hide MeterInv, Start, TakeSample;
    StartRuns(m, vessel, berthID, now);
    StartSafe(m, vessel, berthID, now);
    var m1 := Start(m, vessel, berthID, now).0;
    HistoryOf(m1, vessel);
    TakeSampleSafe(m1, vessel, later);
    SampleNumbered(m1, vessel, later);
    SampleKeepsState(m1, vessel, later);
  }

  lemma SampleKeepsState(m: Meters, vessel: string, now: Time)
    ensures StateOf(TakeSample(m, vessel, now).0, vessel) == StateOf(m, vessel)
  {
    hide Stored;
  }

  /** When a run may be suspended, and resumed. */
  lemma SuspendGuards(m: Meters, vessel: string)
    ensures Suspend(m, vessel).1 == if StateOf(m, vessel) == Metering then None else Some(MeterNotRunning)
    ensures Resume(m, vessel).1.None? ==> StateOf(m, vessel) == Suspended
    ensures Resume(m, vessel).1 == Some(MeterNotRunning) <==> vessel !in m.active
    ensures vessel in m.active && StateOf(m, vessel) != Suspended ==> Resume(m, vessel).1 == Some(NotSuspended)
    ensures Stop(m, vessel).1 == if vessel in m.active then None else Some(MeterNotRunning)
  {
  }

  /** A suspended run takes no samples until it is resumed, and resuming undoes suspending: the next
      sample carries the next number. */
  lemma SuspendThenResume(m: Meters, vessel: string, between: Time, later: Time)
    requires MeterInv(m) && StateOf(m, vessel) == Metering
    ensures var m1 := Suspend(m, vessel).0;
            && TakeSample(m1, vessel, between) == (m1, Err(MeterNotRunning))
            && Suspend(m1, vessel) == (m1, Some(MeterNotRunning)) && Resume(m1, vessel) == (m, None)
            && var r := TakeSample(Resume(m1, vessel).0, vessel, later).1;
               r.Ok? && r.value.number == |Samples(m, vessel)| + 1
  {
    hide MeterInv, TakeSample;
    SuspendUndone(m, vessel);
    NotTaken(Suspend(m, vessel).0, vessel, between);
    TakeSampleSafe(m, vessel, later);
    SampleNumbered(m, vessel, later);
  }

  lemma SuspendUndone(m: Meters, vessel: string)
    requires StateOf(m, vessel) == Metering
    ensures var m1 := Suspend(m, vessel).0;
            StateOf(m1, vessel) == Suspended && Suspend(m1, vessel) == (m1, Some(MeterNotRunning))
                                             && Resume(m1, vessel) == (m, None)
  {
    var run := m.active[vessel];
    assert m.active[vessel := run.(state := Suspended)][vessel := run] == m.active;
  }

  /** Stopping is final: no sample is taken any more, and nothing starts the run again. */
  lemma StopEnds(m: Meters, vessel: string, berthID: string, now: Time)
    requires vessel in m.active
    ensures var m1 := Stop(m, vessel).0;
            && StateOf(m1, vessel) == Settled && TakeSample(m1, vessel, now) == (m1, Err(MeterNotRunning))
            && Suspend(m1, vessel) == (m1, Some(MeterNotRunning)) && Resume(m1, vessel) == (m1, Some(NotSuspended))
            && Start(m1, vessel, berthID, now).1.Some?
  {
    hide Stored;
  }

  // What callers see of the bills.

  /** A bill is issued exactly if the vessel has samples. It is the last of the vessel's bills, charges the
      energy last read at the prices of the hour's tier, and stops the meter. */
  lemma SettleCharges(m: Meters, b: Bills, r: Rate, vessel: string, hour: int, now: Time)
    ensures var (m1, b1, bill) := Settle(m, b, r, vessel, hour, now);
            var history := Samples(m, vessel);
            && (bill.Ok? <==> history != []) && (bill.Err? ==> bill.error == NoSamples && m1 == m && b1 == b)
            && (bill.Ok? ==>
                  && BillsOf(b1, vessel) == BillsOf(b, vessel) + [bill.value] && b1.number == b.number + 1
                  && (forall v :: v != vessel ==> BillsOf(b1, v) == BillsOf(b, v))
                  && bill.value.vessel == vessel && bill.value.settledAt == now
                  && bill.value.tier == TierAt(r, hour) && bill.value.kwh == history[|history| - 1].kwh
                  && bill.value.energy == bill.value.kwh * EnergyPrice(r, bill.value.tier)
                  && bill.value.service == bill.value.kwh * ServicePrice(r, bill.value.tier)
                  && bill.value.total == bill.value.energy + bill.value.service
                  && (vessel in m.active ==> StateOf(m1, vessel) == Settled) && m1.samples == m.samples)
  {
    hide BillID, TierAt, EnergyPrice, ServicePrice;
  }

  /** The windows go round the clock: an hour is in one if it is reached from its start before its end.
      The peak window comes first, and only a window that starts where it ends has just one hour. */
  lemma TierMeans(r: Rate, hour: int)
    requires 0 <= hour < 24 && 0 <= r.peakStart < 24 && 0 <= r.peakEnd < 24
    requires 0 <= r.valleyStart < 24 && 0 <= r.valleyEnd < 24
    ensures var peak := hour == r.peakStart || (hour - r.peakStart) % 24 < (r.peakEnd - r.peakStart) % 24;
            var valley := hour == r.valleyStart || (hour - r.valleyStart) % 24 < (r.valleyEnd - r.valleyStart) % 24;
            && (TierAt(r, hour) == Peak <==> peak)
            && (TierAt(r, hour) == Valley <==> valley && !peak)
            && (TierAt(r, hour) == Flat <==> !valley && !peak)
  {
    RoundTheClock(hour, r.peakStart, r.peakEnd);
    RoundTheClock(hour, r.valleyStart, r.valleyEnd);
  }

  lemma RoundTheClock(hour: int, start: int, end: int)
    requires 0 <= hour < 24 && 0 <= start < 24 && 0 <= end < 24
    ensures InRange(hour, start, end) <==> hour == start || (hour - start) % 24 < (end - start) % 24
  {
    assert (hour - start) % 24 == if hour >= start then hour - start else hour - start + 24;
    assert (end - start) % 24 == if end >= start then end - start else end - start + 24;
  }

  /** Flat prices are the configured ones; a kilowatt hour at peak costs three times one in the valley,
      and its service half as much again. */
  lemma PricesByTier(r: Rate)
    ensures EnergyPrice(r, Flat) == r.energyPrice && ServicePrice(r, Flat) == r.servicePrice
    ensures EnergyPrice(r, Peak) == 3.0 * EnergyPrice(r, Valley)
    ensures 2.0 * EnergyPrice(r, Valley) == r.energyPrice
    ensures 2.0 * ServicePrice(r, Peak) == 3.0 * ServicePrice(r, Valley)
    ensures 5.0 * ServicePrice(r, Valley) == 4.0 * r.servicePrice
  {
  }

  /** A bill's id names its vessel and ends in its number, in at least three digits. */
  lemma BillIDReads(vessel: string, n: nat)
    ensures var (s, front) := (BillID(vessel, n), "bill-" + vessel + "-");
            && front <= s && |s| >= |front| + 3
            && Decimal.AllDigits(s[|front|..]) && Decimal.Value(s[|front|..]) == n
  {
    hide Decimal.Pad3, Decimal.Value, Decimal.AllDigits;
    Decimal.Pad3Reads(n);
    var front := "bill-" + vessel + "-";
    assert BillID(vessel, n) == front + Decimal.Pad3(n);
  }

  /** Equal ids belong to one vessel and one number, whatever the vessels are called. */
  lemma BillIDInjective(v: string, n: nat, v': string, n': nat)
    requires BillID(v, n) == BillID(v', n')
    ensures v == v' && n == n'
  {
    hide Decimal.Pad3;
    var (p, p') := (Decimal.Pad3(n), Decimal.Pad3(n'));
    Decimal.Pad3Reads(n);
    Decimal.Pad3Reads(n');
    assert BillID(v, n)[5..] == v + "-" + p && BillID(v', n')[5..] == v' + "-" + p';
    LastDash(v, p, v', p');
    Decimal.Pad3Injective(n, n');
  }

  lemma LastDash(a: string, p: string, b: string, q: string)
    requires a + "-" + p == b + "-" + q && '-' !in p && '-' !in q
    ensures a == b && p == q
  {
    DashBehind(a, p, b, q);
    DashBehind(b, q, a, p);
    var s := a + "-" + p;
    assert a == s[..|a|] && b == s[..|b|] && p == s[|a| + 1..] && q == s[|b| + 1..];
  }

  lemma DashBehind(a: string, p: string, b: string, q: string)
    requires '-' !in p
    ensures |a| < |b| ==> a + "-" + p != b + "-" + q
  {
    assert (b + "-" + q)[|b|] == '-';
    if |a| < |b| < |a| + 1 + |p| {
      assert (a + "-" + p)[|b|] == p[|b| - |a| - 1];
    }
  }

  /** Bill `i` of vessel `v` carries number `n`. */
  ghost predicate BillNumber(b: Bills, v: string, i: nat, n: nat) {
    i < |BillsOf(b, v)| && 1 <= n <= b.number && BillsOf(b, v)[i].id == BillID(v, n)
  }

  ghost predicate HasNumber(b: Bills, v: string, i: nat) {
    exists n :: BillNumber(b, v, i, n)
  }

  /** Every bill has a number, and no two have the same. */
  ghost predicate NumberedBills(b: Bills) {
    && (forall v, i: nat :: i < |BillsOf(b, v)| ==> HasNumber(b, v, i))
    && (forall v, i, n, v', i' :: BillNumber(b, v, i, n) && BillNumber(b, v', i', n) ==> v == v' && i == i')
  }

  lemma SettleNumbers(m: Meters, b: Bills, r: Rate, vessel: string, hour: int, now: Time)
    requires NumberedBills(b)
    ensures NumberedBills(Settle(m, b, r, vessel, hour, now).1)
  {
    hide Decimal.Pad3, BillID, TierAt, EnergyPrice, ServicePrice;
    var (b1, bill) := (Settle(m, b, r, vessel, hour, now).1, Settle(m, b, r, vessel, hour, now).2);
    if bill.Ok? {
      var last := |BillsOf(b, vessel)|;
      SettleCharges(m, b, r, vessel, hour, now);
      assert bill.value.id == BillID(vessel, b1.number);
      forall v, i: nat | i < |BillsOf(b1, v)| ensures HasNumber(b1, v, i) {
        if v == vessel && i == last {
          assert BillNumber(b1, v, i, b1.number);
        } else {
          assert HasNumber(b, v, i);
          var n :| BillNumber(b, v, i, n);
          assert BillNumber(b1, v, i, n);
        }
      }
      forall v, i, n, v', i' | BillNumber(b1, v, i, n) && BillNumber(b1, v', i', n) ensures v == v' && i == i' {
        NumberBefore(b, b1, vessel, v, i, n);
        NumberBefore(b, b1, vessel, v', i', n);
      }
    }
  }

  /** Only the newest bill carries the newest number. */
  lemma NumberBefore(b: Bills, b1: Bills, vessel: string, v: string, i: nat, n: nat)
    requires NumberedBills(b) && b1.number == b.number + 1 && BillNumber(b1, v, i, n)
    requires |BillsOf(b1, vessel)| == |BillsOf(b, vessel)| + 1
    requires BillsOf(b1, vessel)[..|BillsOf(b, vessel)|] == BillsOf(b, vessel)
    requires BillsOf(b1, vessel)[|BillsOf(b, vessel)|].id == BillID(vessel, b1.number)
    requires forall x :: x != vessel ==> BillsOf(b1, x) == BillsOf(b, x)
    ensures if v == vessel && i == |BillsOf(b, vessel)| then n == b1.number else BillNumber(b, v, i, n)
  {
    hide BillID;
    if v == vessel && i == |BillsOf(b, vessel)| {
      BillIDInjective(v, n, vessel, b1.number);
    } else {
      assert BillsOf(b, v)[i] == BillsOf(b1, v)[i];
      assert HasNumber(b, v, i);
      var k :| BillNumber(b, v, i, k);
      BillIDInjective(v, n, v, k);
    }
  }

  lemma {:induction false} BillsNumbered(m: Meters, b: Bills, r: Rate, ops: seq<MeterOp>)
    requires NumberedBills(b)
    ensures NumberedBills(PerformAll(m, b, r, ops).1)
    decreases |ops|
  {
    hide NumberedBills, Settle, TakeSample, Start, Stop, Suspend, Resume;
    if ops != [] {
      var (m1, b1) := Perform(m, b, r, ops[0]);
      match ops[0] {
        case Settling(v, hour, at) => SettleNumbers(m, b, r, v, hour, at);
        case _ =>
      }
      BillsNumbered(m1, b1, r, ops[1..]);
    }
  }

  /** Over every run of metering and billing calls no two bills have the same id. */
  lemma BillIdsUnique(r: Rate, ops: seq<MeterOp>, v: string, i: nat, v': string, i': nat)
    requires var b := PerformAll(NO_METERS, NO_BILLS, r, ops).1; i < |BillsOf(b, v)| && i' < |BillsOf(b, v')|
    ensures var b := PerformAll(NO_METERS, NO_BILLS, r, ops).1;
            BillsOf(b, v)[i].id == BillsOf(b, v')[i'].id ==> v == v' && i == i'
  {
    hide PerformAll, BillID;
    BillsNumbered(NO_METERS, NO_BILLS, r, ops);
    var b := PerformAll(NO_METERS, NO_BILLS, r, ops).1;
    assert HasNumber(b, v, i) && HasNumber(b, v', i');
    var n :| BillNumber(b, v, i, n);
    var n' :| BillNumber(b, v', i', n');
    if BillsOf(b, v)[i].id == BillsOf(b, v')[i'].id {
      BillIDInjective(v, n, v', n');
    }
  }

  /** A vessel can be metered once: after its run exists no later start ever succeeds. */
  lemma NeverMeteredAgain(m: Meters, b: Bills, r: Rate, ops: seq<MeterOp>, vessel: string, berthID: string, now: Time)
    requires MeterInv(m) && BillInv(m, b, r) && forall op :: op in ops ==> Metered(op)
    requires vessel in m.active
    ensures Start(PerformAll(m, b, r, ops).0, vessel, berthID, now).1.Some?
  {
    hide PerformAll, MeterInv, BillInv;
    MeteringHistory(m, b, r, ops);
  }
}
