/**
 * The polling session of modbusManager.js. The store keys the session
 * touches (`isPolling`, `peakValue`, `chartData`, `testMetadata`), the
 * `startPolling.locked` flag, the shared client's open flag and the three
 * buttons' `disabled` flags are fields of one object.
 *
 * The two suspension points of the JavaScript code are explicit steps:
 * `StartPolling` stops at `await client.connectTCP(...)` and
 * `ConnectFinished` is its continuation; `PollLoop` stops at
 * `await client.readHoldingRegisters(...)` and `ReadCompleted` is its
 * continuation. `setTimeout(pollLoop, 1000)` adds one to `pendingTimers`,
 * and `TimerFired` is the timer running out.
 */
module ModbusManager {
  import opened Js
  import FormManager

  /** One entry of `chartData`: `{ time, loadTons }`. */
  datatype Sample = Sample(time: string, loadTons: real)

  /** What `readHoldingRegisters(0, 2)` settles with: two words, or a rejection. */
  datatype ReadResult = Registers(high: u16, low: u16) | ReadFailed

  /** A decoded reading: the raw 32-bit value and its three scalings. */
  datatype Reading = Reading(combined: int, kg: real, tons: real, kN: real)

  /** How a call of `startPolling` ended (or suspended). */
  datatype StartOutcome =
    | Duplicate   // already polling or a start is still connecting
    | Incomplete  // the test metadata is not complete
    | Connecting  // suspended in `await client.connectTCP(...)`
    | Started     // the client was already open: polling started at once

  const PollingIntervalMs: nat := 1000

  /** `(high << 16) | low` with JavaScript's 32-bit signed operators. */
  function Combine(high: u16, low: u16): int
  {
    BitOr(ShiftLeft(high as int, 16), low as int)
  }

  /** The int32 whose upper half is `high` and lower half `low` (two's complement). */
  function Int32Of(high: u16, low: u16): int
  {
    high as int * 0x1_0000 + low as int - (if high >= 0x8000 then TwoTo32 else 0)
  }

  /**
   * Below 0x8000 the high word lands in the upper half unchanged; from
   * 0x8000 on, `<<` makes the result a negative int32.
   */
  lemma CombineValue(high: u16, low: u16)
    ensures Combine(high, low) == Int32Of(high, low)
    ensures high < 0x8000 ==> Combine(high, low) == high as int * 0x1_0000 + low as int
    ensures high >= 0x8000 ==> Combine(high, low) < 0
  {
    var h, l := high as int, low as int;
    var x := h * 0x1_0000;
    HighHalf(h, x);
    assert ToUint32(l) == l by { ModUnique(l, TwoTo32, 0, l); }
    assert Combine(high, low) == ToInt32(OrBits(x, l, 32));
    OrDisjoint(x, l, 16, 32);
    var u := x + l;
    assert u % TwoTo32 == u by { ModUnique(u, TwoTo32, 0, u); }
    assert u >= TwoTo31 <==> h >= 0x8000;
    assert ToInt32(u) == u - (if h >= 0x8000 then TwoTo32 else 0);
    assert OrBits(x, l, 32) == u;
    assert Combine(high, low) == ToInt32(u);
  }

  /** `h << 16` for a 16-bit h, and its 32-bit pattern. */
  lemma HighHalf(h: int, x: int)
    requires 0 <= h < 0x1_0000 && x == h * 0x1_0000
    ensures Pow2(16) == 0x1_0000 && Pow2(32) == TwoTo32
    ensures 0 <= x < TwoTo32 && (x >= TwoTo31 <==> h >= 0x8000)
    ensures x + 0x1_0000 <= TwoTo32
    ensures h < 0x8000 ==> x + 0x1_0000 <= TwoTo31
    ensures ToUint32(ShiftLeft(h, 16)) == x
    ensures x % Pow2(16) == 0 && x % Pow2(32) == x
  {
    Pow2Constants();
    assert ToInt32(h) == h;
    var sh := ShiftLeft(h, 16);
    assert sh == if h >= 0x8000 then x - TwoTo32 else x;
    if h >= 0x8000 {
      ModUnique(sh, TwoTo32, -1, x);
    } else {
      ModUnique(sh, TwoTo32, 0, x);
    }
    ModUnique(x, 0x1_0000, h, 0);
    ModUnique(x, TwoTo32, 0, x);
  }

  /**
   * The register pair decoded and scaled (DLC-6: one count is 10 kg;
   * tonnes and kilonewtons from kg). `combined` is `(high << 16) | low`
   * by CombineValue.
   */
  function Decode(high: u16, low: u16): (r: Reading)
    ensures high < 0x8000 ==> r.combined == high as int * 0x1_0000 + low as int
    ensures high >= 0x8000 ==> r.combined < 0
    ensures r.tons == r.combined as real / 100.0
    ensures r.kg == 1000.0 * r.tons
    ensures r.kN == r.tons * 9.80665
  {
    var combined := Int32Of(high, low);
    var loadKg := combined as real * 10.0;
    Reading(combined, loadKg, loadKg / 1000.0, (loadKg * 9.80665) / 1000.0)
  }

  /** The decoded raw value is exactly what the JavaScript bit operators compute. */
  lemma DecodeCombines(high: u16, low: u16)
    ensures Decode(high, low).combined == Combine(high, low)
  {
    CombineValue(high, low);
  }

  function Max(a: real, b: real): real
  {
    if b > a then b else a
  }

  /** The greatest load among the samples, and 0 when there is none below it. */
  function PeakOf(samples: seq<Sample>): (r: real)
    ensures r >= 0.0
    ensures forall i :: 0 <= i < |samples| ==> samples[i].loadTons <= r
    ensures r == 0.0 || exists i :: 0 <= i < |samples| && samples[i].loadTons == r
  {
    if samples == [] then 0.0
    else
      var init := samples[..|samples| - 1];
      var p := PeakOf(init);
      assert forall i :: 0 <= i < |init| ==> init[i] == samples[i];
      Max(p, samples[|samples| - 1].loadTons)
  }

  /** One more sample: the peak of the longer run is the larger of the old peak and its load. */
  lemma PeakTracksSamples(samples: seq<Sample>, s: Sample)
    ensures PeakOf(samples + [s]) == Max(PeakOf(samples), s.loadTons)
  {
    assert (samples + [s])[..|samples|] == samples;
  }

  class PollingSession {
    var isPolling: bool
    /** `startPolling.locked` */
    var locked: bool
    /** `client.isOpen` */
    var clientOpen: bool
    var peakValue: real
    var chartData: seq<Sample>
    var testMetadata: FormManager.TestMetadata
    var startDisabled: bool
    var stopDisabled: bool
    var downloadDisabled: bool
    /** Calls of `pollLoop` scheduled with `setTimeout` and not yet run. */
    var pendingTimers: nat
    /** Register reads issued by `pollLoop` and not yet settled. */
    var readsInFlight: nat

    /**
     * Between steps the lock is only held by a start still waiting for its
     * connection, so not while polling; polling implies an open client.
     */
    predicate Valid()
      reads this
    {
      (locked ==> !isPolling) && (isPolling ==> clientOpen)
    }

    /**
     * The stored peak is the greatest load among the stored samples (or 0).
     * Successful reads keep this; `resetPeakValue` alone breaks it while
     * samples remain, and resetting together with `clearChartData` restores it.
     */
    predicate PeakTracked()
      reads this
    {
      peakValue == PeakOf(chartData)
    }

    /** The store's defaults and the buttons as the page first shows them. */
    constructor(meta: FormManager.TestMetadata)
      ensures Valid() && PeakTracked()
      ensures !isPolling && !locked && !clientOpen
      ensures peakValue == 0.0 && chartData == [] && testMetadata == meta
      ensures !startDisabled && stopDisabled && downloadDisabled
      ensures pendingTimers == 0 && readsInFlight == 0
    {
      isPolling := false;
      locked := false;
      clientOpen := false;
      peakValue := 0.0;
      chartData := [];
      testMetadata := meta;
      startDisabled := false;
      stopDisabled := true;
      downloadDisabled := true;
      pendingTimers := 0;
      readsInFlight := 0;
    }

    /** `pollLoop()` up to its read: with polling off it returns at once. */
    method PollLoop()
      modifies this
      ensures !old(isPolling) ==> unchanged(this)
      ensures old(isPolling) ==> readsInFlight == old(readsInFlight) + 1
      ensures isPolling == old(isPolling) && locked == old(locked) && clientOpen == old(clientOpen)
      ensures peakValue == old(peakValue) && chartData == old(chartData)
      ensures testMetadata == old(testMetadata) && pendingTimers == old(pendingTimers)
      ensures startDisabled == old(startDisabled) && stopDisabled == old(stopDisabled)
      ensures downloadDisabled == old(downloadDisabled)
    {
      if !isPolling {
        return;
      }
      readsInFlight := readsInFlight + 1;
    }

    /**
     * The rest of `pollLoop()` once the read settles: a reading updates the
     * peak and appends one sample; a failed read cleans up. Either way the
     * `finally` block schedules the next cycle.
     */
    method ReadCompleted(read: ReadResult, time: string)
      requires Valid() && readsInFlight > 0
      modifies this
      ensures Valid()
      ensures readsInFlight == old(readsInFlight) - 1
      ensures pendingTimers == old(pendingTimers) + 1
      ensures testMetadata == old(testMetadata) && locked == old(locked)
      ensures read.Registers? ==>
        var tons := Decode(read.high, read.low).tons;
        && peakValue == Max(old(peakValue), tons)
        && chartData == old(chartData) + [Sample(time, tons)]
        && isPolling == old(isPolling) && clientOpen == old(clientOpen)
        && startDisabled == old(startDisabled) && stopDisabled == old(stopDisabled)
        && downloadDisabled == old(downloadDisabled)
      ensures read.ReadFailed? ==>
        && peakValue == old(peakValue) && chartData == old(chartData)
        && !isPolling && !clientOpen
        && !startDisabled && stopDisabled && downloadDisabled
      ensures old(PeakTracked()) ==> PeakTracked()
    {
      readsInFlight := readsInFlight - 1;
      if read.Registers? {
        var loadTons := Decode(read.high, read.low).tons;
        PeakTracksSamples(chartData, Sample(time, loadTons));
        if loadTons > peakValue {
          peakValue := loadTons;
        }
        chartData := chartData + [Sample(time, loadTons)];
      } else {
        CleanupPolling();
      }
      pendingTimers := pendingTimers + 1;
    }

    /** A `setTimeout(pollLoop, 1000)` timer runs out. */
    method TimerFired()
      requires Valid() && pendingTimers > 0
      modifies this
      ensures Valid()
      ensures pendingTimers == old(pendingTimers) - 1
      ensures readsInFlight == old(readsInFlight) + (if old(isPolling) then 1 else 0)
      ensures isPolling == old(isPolling) && locked == old(locked) && clientOpen == old(clientOpen)
      ensures peakValue == old(peakValue) && chartData == old(chartData)
      ensures testMetadata == old(testMetadata)
      ensures startDisabled == old(startDisabled) && stopDisabled == old(stopDisabled)
      ensures downloadDisabled == old(downloadDisabled)
    {
      pendingTimers := pendingTimers - 1;
      PollLoop();
    }

    /** `cleanupPolling(...)`: close the client, stop polling, reset the buttons. */
    method CleanupPolling()
      requires Valid()
      modifies this
      ensures Valid()
      ensures !isPolling && !clientOpen
      ensures !startDisabled && stopDisabled && downloadDisabled
      ensures locked == old(locked) && peakValue == old(peakValue) && chartData == old(chartData)
      ensures testMetadata == old(testMetadata)
      ensures pendingTimers == old(pendingTimers) && readsInFlight == old(readsInFlight)
    {
      if clientOpen {
        clientOpen := false;
      }
      isPolling := false;
      startDisabled := false;
      stopDisabled := true;
      downloadDisabled := true;
    }

    /** `stopPolling(...)`: clean up, then re-enable the download button. */
    method StopPolling()
      requires Valid()
      modifies this
      ensures Valid()
      ensures !isPolling && !clientOpen
      ensures !startDisabled && stopDisabled && !downloadDisabled
      ensures locked == old(locked) && peakValue == old(peakValue) && chartData == old(chartData)
      ensures testMetadata == old(testMetadata)
      ensures pendingTimers == old(pendingTimers) && readsInFlight == old(readsInFlight)
    {
      CleanupPolling();
      downloadDisabled := false;
    }

    /** The connected branch of `startPolling`: set the buttons, start polling, run `pollLoop()`. */
    method BeginPolling()
      requires clientOpen
      modifies this
      ensures isPolling && clientOpen
      ensures startDisabled && !stopDisabled && downloadDisabled
      ensures readsInFlight == old(readsInFlight) + 1
      ensures locked == old(locked)
      ensures peakValue == old(peakValue) && chartData == old(chartData)
      ensures testMetadata == old(testMetadata) && pendingTimers == old(pendingTimers)
    {
      startDisabled := true;
      stopDisabled := false;
      downloadDisabled := true;
      isPolling := true;
      PollLoop();
    }

    /**
     * `startPolling(...)` up to `await client.connectTCP(...)`. With the
     * client already open it runs to the end at once.
     */
    method StartPolling() returns (outcome: StartOutcome)
      requires Valid()
      modifies this
      ensures Valid()
      ensures old(isPolling) || old(locked) <==> outcome == Duplicate
      ensures outcome == Duplicate ==>
        && isPolling == old(isPolling) && locked == old(locked) && clientOpen == old(clientOpen)
        && readsInFlight == old(readsInFlight)
        && startDisabled && stopDisabled && downloadDisabled
      ensures outcome == Incomplete <==>
        !old(isPolling) && !old(locked) && !FormManager.MetadataComplete(old(testMetadata))
      ensures outcome == Incomplete ==>
        && !isPolling && !locked && clientOpen == old(clientOpen)
        && readsInFlight == old(readsInFlight)
        && !startDisabled && stopDisabled && downloadDisabled
      ensures outcome == Connecting <==>
        !old(isPolling) && !old(locked) && FormManager.MetadataComplete(old(testMetadata))
        && !old(clientOpen)
      ensures outcome == Connecting ==>
        && !isPolling && locked && !clientOpen && readsInFlight == old(readsInFlight)
        && startDisabled && stopDisabled && downloadDisabled
      ensures outcome == Started ==>
        && isPolling && !locked && clientOpen
        && startDisabled && !stopDisabled && downloadDisabled
        && readsInFlight == old(readsInFlight) + 1
      ensures peakValue == old(peakValue) && chartData == old(chartData)
      ensures testMetadata == old(testMetadata) && pendingTimers == old(pendingTimers)
    {
      startDisabled := true;
      stopDisabled := true;
      downloadDisabled := true;
      if isPolling || locked {
        return Duplicate;
      }
      locked := true;
      var complete := FormManager.IsTestMetadataComplete(testMetadata);
      if !complete {
        startDisabled := false;
        locked := false;
        return Incomplete;
      }
      if !clientOpen {
        return Connecting;
      }
      BeginPolling();
      locked := false;
      return Started;
    }

    /**
     * The rest of `startPolling(...)` once `connectTCP` settles: on success
     * polling begins, on failure the session is cleaned up; the `finally`
     * block releases the lock in both cases.
     */
    method ConnectFinished(connected: bool)
      requires Valid() && locked
      modifies this
      ensures Valid()
      ensures !locked
      ensures connected ==>
        && isPolling && clientOpen
        && startDisabled && !stopDisabled && downloadDisabled
        && readsInFlight == old(readsInFlight) + 1
      ensures !connected ==>
        && !isPolling && !clientOpen
        && !startDisabled && stopDisabled && downloadDisabled
        && readsInFlight == old(readsInFlight)
      ensures peakValue == old(peakValue) && chartData == old(chartData)
      ensures testMetadata == old(testMetadata) && pendingTimers == old(pendingTimers)
    {
      if connected {
        clientOpen := true;
        BeginPolling();
      } else {
        CleanupPolling();
      }
      locked := false;
    }

    /** `getPeakValue()`: while the peak is tracked, the greatest load sampled so far. */
    function GetPeakValue(): (r: real)
      reads this
      ensures PeakTracked() ==> r == PeakOf(chartData)
      ensures PeakTracked() ==> r >= 0.0 && forall i :: 0 <= i < |chartData| ==> chartData[i].loadTons <= r
    {
      peakValue
    }

    /** `resetPeakValue()` */
    method ResetPeakValue()
      requires Valid()
      modifies this
      ensures Valid()
      ensures peakValue == 0.0 && GetPeakValue() == 0.0
      ensures old(chartData) == [] ==> PeakTracked()
      ensures isPolling == old(isPolling) && locked == old(locked) && clientOpen == old(clientOpen)
      ensures chartData == old(chartData) && testMetadata == old(testMetadata)
      ensures startDisabled == old(startDisabled) && stopDisabled == old(stopDisabled)
      ensures downloadDisabled == old(downloadDisabled)
      ensures pendingTimers == old(pendingTimers) && readsInFlight == old(readsInFlight)
    {
      peakValue := 0.0;
    }

    /** `clearChartData()` */
    method ClearChartData()
      requires Valid()
      modifies this
      ensures Valid()
      ensures chartData == []
      ensures old(peakValue) == 0.0 ==> PeakTracked()
      ensures isPolling == old(isPolling) && locked == old(locked) && clientOpen == old(clientOpen)
      ensures peakValue == old(peakValue) && testMetadata == old(testMetadata)
      ensures startDisabled == old(startDisabled) && stopDisabled == old(stopDisabled)
      ensures downloadDisabled == old(downloadDisabled)
      ensures pendingTimers == old(pendingTimers) && readsInFlight == old(readsInFlight)
    {
      chartData := [];
    }
  }

  /**
   * Nothing cancels the timer that the last cycle scheduled: when Start is
   * pressed again within the polling interval after Stop, that timer finds
   * polling on and a second chain of cycles runs beside the new one, so two
   * reads are in flight at once.
   */
  method RestartWithinInterval(meta: FormManager.TestMetadata, high: u16, low: u16)
    returns (inFlight: nat)
    requires FormManager.MetadataComplete(meta)
    ensures inFlight == 2
  {
    var session := new PollingSession(meta);
    var outcome := session.StartPolling();
    session.ConnectFinished(true);
    session.ReadCompleted(Registers(high, low), "t0");
    session.StopPolling();
    outcome := session.StartPolling();
    session.ConnectFinished(true);
    session.TimerFired();
    inFlight := session.readsInFlight;
  }
}
