/**
 * The BLE scan bookkeeping of the main view model: one `DeviceState` per
 * upper-cased address with a sliding window of signal strengths, the merge of
 * every advertisement into it, and the periodic recomputation of the result
 * lists (stale devices dropped, filter applied, favourites split off, strongest
 * first, at most twenty). Labels live in a preference store and in memory.
 * The clock is a parameter; the Bluetooth stack is represented only by the
 * fields of an advertisement that the merge reads.
 */
module Scanning {
  import opened Optional
  import opened Text

  const RssiWindowSize: nat := 5
  const DefaultRssi: int := -100
  const StaleMs: int := 10000
  const MaxResults: nat := 20
  const NordicCompanyId: int := 0x0059

  /** Devices always listed apart from the filtered results. */
  const FavoriteAddresses: set<string> := {"D0:C9:A1:37:19:08", "FD:9D:E6:96:73:E8"}

  // ---------------------------------------------------------------- signal strength

  /** Kotlin `Int` division by a positive divisor, which truncates toward zero. */
  function TruncDiv(a: int, b: int): (q: int)
    requires b > 0
    ensures -b < a - q * b < b
    ensures a >= 0 ==> 0 <= a - q * b
    ensures a <= 0 ==> a - q * b <= 0
  {
    if a >= 0 then a / b else -((-a) / b)
  }

  function SumOf(xs: seq<int>): int {
    if xs == [] then 0 else SumOf(xs[..|xs| - 1]) + xs[|xs| - 1]
  }

  /** `averageRssi` of a window: the truncated mean, or the default for no readings. */
  function WindowAverage(window: seq<int>): int {
    if window == [] then DefaultRssi else TruncDiv(SumOf(window), |window|)
  }

  /**
   * The average of no readings is the default; otherwise it is the sum
   * divided by the count with the remainder dropped toward zero.
   */
  lemma WindowAverageTruncates(window: seq<int>)
    ensures window == [] ==> WindowAverage(window) == DefaultRssi
    ensures var average, n := WindowAverage(window), |window|;
      window != [] ==> -n < SumOf(window) - average * n < n
    ensures var average, n := WindowAverage(window), |window|;
      window != [] && SumOf(window) >= 0 ==> 0 <= SumOf(window) - average * n
    ensures var average, n := WindowAverage(window), |window|;
      window != [] && SumOf(window) <= 0 ==> SumOf(window) - average * n <= 0
  {
  }

  lemma MulMonotone(a: int, b: int, n: nat)
    requires a <= b
    ensures a * n <= b * n
  {
    assert (b - a) * n >= 0;
  }

  /** Bounds on the readings bound their sum. */
  lemma {:induction false} SumOfBounds(xs: seq<int>, lo: int, hi: int)
    requires forall i :: 0 <= i < |xs| ==> lo <= xs[i] <= hi
    ensures lo * |xs| <= SumOf(xs) <= hi * |xs|
  {
    if xs != [] {
      SumOfBounds(xs[..|xs| - 1], lo, hi);
      assert lo * |xs| == lo * (|xs| - 1) + lo;
      assert hi * |xs| == hi * (|xs| - 1) + hi;
    }
  }

  /** The average of a non-empty window lies between the weakest and the strongest reading. */
  lemma AverageWithinWindow(window: seq<int>, lo: int, hi: int)
    requires window != []
    requires forall i :: 0 <= i < |window| ==> lo <= window[i] <= hi
    ensures lo <= WindowAverage(window) <= hi
  {
    var n := |window|;
    var s := SumOf(window);
    SumOfBounds(window, lo, hi);
    var q := TruncDiv(s, n);
    if q < lo {
      MulMonotone(q + 1, lo, n);
    }
    if q > hi {
      MulMonotone(hi + 1, q, n);
    }
  }

  /** The window after one more reading: the oldest drops out once five are held. */
  function Slide(window: seq<int>, rssi: int): seq<int> {
    (if |window| >= RssiWindowSize then window[1..] else window) + [rssi]
  }

  /**
   * The new reading comes last, after the newest earlier readings in order;
   * the oldest drops out once the window is full.
   */
  lemma SlideShape(window: seq<int>, rssi: int)
    ensures var r := Slide(window, rssi);
      && |r| == (if |window| >= RssiWindowSize then |window| else |window| + 1)
      && r[|r| - 1] == rssi
      && r[..|r| - 1] == window[|window| - (|r| - 1)..]
  {
  }

  /** The last (at most five) readings of a history. */
  function Latest(readings: seq<int>): (w: seq<int>)
    ensures |w| <= RssiWindowSize
  {
    if |readings| <= RssiWindowSize then readings else readings[|readings| - RssiWindowSize..]
  }

  /** Sliding keeps exactly the latest five readings of the whole history. */
  lemma SlideKeepsLatest(readings: seq<int>, rssi: int)
    ensures Slide(Latest(readings), rssi) == Latest(readings + [rssi])
    ensures |Slide(Latest(readings), rssi)| <= RssiWindowSize
  {
    var all := readings + [rssi];
    if |readings| > RssiWindowSize {
      assert Latest(readings)[1..] + [rssi] == all[|all| - RssiWindowSize..];
    } else if |readings| == RssiWindowSize {
      assert readings[1..] + [rssi] == all[|all| - RssiWindowSize..];
    }
  }

  // ---------------------------------------------------------------- devices

  datatype ScanResultUi = ScanResultUi(
    address: string,
    name: Option<string>,
    deviceLabel: Option<string>,
    averageRssi: int,
    lastSeenMs: int)

  /** The parts of an advertisement the merge reads; manufacturer data is keyed by company id. */
  datatype ScanRecord = ScanRecord(deviceName: Option<string>, manufacturerIds: set<int>)

  datatype BleDevice = BleDevice(address: string, name: Option<string>)

  /**
   * What is tracked per device: the newest name, the advertising flags seen
   * so far, the last five signal strengths and the time last seen.
   */
  datatype DeviceState = DeviceState(
    address: string,
    name: Option<string>,
    hasManufacturerData: bool,
    hasNordicData: bool,
    rssiWindow: seq<int>,
    lastSeenMs: int)
  {
    /** `addRssi`. */
    function AddRssi(rssi: int): DeviceState {
      this.(rssiWindow := Slide(rssiWindow, rssi))
    }

    /** `averageRssi`. */
    function AverageRssi(): int {
      WindowAverage(rssiWindow)
    }

    /** `toUi`. */
    function ToUi(deviceLabel: Option<string>): ScanResultUi {
      ScanResultUi(address, name, deviceLabel, AverageRssi(), lastSeenMs)
    }
  }

  /** `DeviceState(address, name)` with every other field defaulted. */
  function NewDeviceState(address: string, name: Option<string>): DeviceState {
    DeviceState(address, name, false, false, [], 0)
  }

  /**
   * The device's state after one advertisement: the advertised name wins over
   * the scan record's, which wins over the name already known; the reading
   * enters the window; the manufacturer flags only ever turn on.
   */
  function MergedState(previous: Option<DeviceState>, address: string, deviceName: Option<string>,
                       scanRecord: Option<ScanRecord>, rssi: int, now: int): (state: DeviceState)
    requires previous.Some? ==> previous.value.address == address
    ensures state.address == address && state.lastSeenMs == now
    ensures previous.None? || |previous.value.rssiWindow| <= RssiWindowSize ==> |state.rssiWindow| <= RssiWindowSize
    ensures state.rssiWindow == Slide(if previous.Some? then previous.value.rssiWindow else [], rssi)
    ensures deviceName.Some? ==> state.name == deviceName
    ensures deviceName.None? && scanRecord.Some? && scanRecord.value.deviceName.Some? ==> state.name == scanRecord.value.deviceName
    ensures deviceName.None? && (scanRecord.None? || scanRecord.value.deviceName.None?) ==>
      state.name == (if previous.Some? then previous.value.name else None)
    ensures state.hasManufacturerData <==>
      (previous.Some? && previous.value.hasManufacturerData) || (scanRecord.Some? && scanRecord.value.manufacturerIds != {})
    ensures state.hasNordicData <==>
      (previous.Some? && previous.value.hasNordicData) || (scanRecord.Some? && NordicCompanyId in scanRecord.value.manufacturerIds)
  {
    var recordName := if scanRecord.Some? then scanRecord.value.deviceName else None;
    var base := if previous.Some? then previous.value
                else NewDeviceState(address, if deviceName.Some? then deviceName else recordName);
    var named := base.(name := if deviceName.Some? then deviceName else if recordName.Some? then recordName else base.name);
    var seen := named.(lastSeenMs := now).AddRssi(rssi);
    seen.(hasManufacturerData := seen.hasManufacturerData || (scanRecord.Some? && scanRecord.value.manufacturerIds != {}),
          hasNordicData := seen.hasNordicData || (scanRecord.Some? && NordicCompanyId in scanRecord.value.manufacturerIds))
  }

  // ---------------------------------------------------------------- result lists

  datatype FilterMode = All | Beacons | Nordic

  /** A device's result row together with the advertising flags the filter reads. */
  datatype DeviceRow = DeviceRow(ui: ScanResultUi, hasManufacturerData: bool, hasNordicData: bool)

  predicate Passes(filter: FilterMode, row: DeviceRow) {
    match filter
    case All => true
    case Beacons => row.hasManufacturerData
    case Nordic => row.hasNordicData
  }

  predicate IsEligible(filter: FilterMode, row: DeviceRow) {
    Passes(filter, row) && row.ui.address !in FavoriteAddresses
  }

  /** The filtered, non-favourite rows, in order. */
  function Eligible(rows: seq<DeviceRow>, filter: FilterMode): (r: seq<ScanResultUi>)
    ensures |r| <= |rows|
  {
    if rows == [] then []
    else
      var rest := Eligible(rows[..|rows| - 1], filter);
      var last := rows[|rows| - 1];
      if IsEligible(filter, last) then rest + [last.ui] else rest
  }

  /** A row is listed exactly when some device's row is eligible with it. */
  lemma {:induction false} EligibleMembers(rows: seq<DeviceRow>, filter: FilterMode)
    ensures forall x :: x in Eligible(rows, filter) <==> exists row :: row in rows && row.ui == x && IsEligible(filter, row)
  {
    if rows != [] {
      var init, last := rows[..|rows| - 1], rows[|rows| - 1];
      assert rows == init + [last];
      EligibleMembers(init, filter);
    }
  }

  /** The favourite rows, in order, whatever the filter. */
  function FavoriteRows(rows: seq<DeviceRow>): (r: seq<ScanResultUi>)
    ensures |r| <= |rows|
  {
    if rows == [] then []
    else
      var rest := FavoriteRows(rows[..|rows| - 1]);
      var last := rows[|rows| - 1];
      if last.ui.address in FavoriteAddresses then rest + [last.ui] else rest
  }

  /** A row is a favourite row exactly when some device's row with a favourite address is it. */
  lemma {:induction false} FavoriteRowsMembers(rows: seq<DeviceRow>)
    ensures forall x :: x in FavoriteRows(rows) <==> exists row :: row in rows && row.ui == x && x.address in FavoriteAddresses
  {
    if rows != [] {
      var init, last := rows[..|rows| - 1], rows[|rows| - 1];
      assert rows == init + [last];
      FavoriteRowsMembers(init);
    }
  }

  predicate SortedDesc(rows: seq<ScanResultUi>) {
    forall i, j :: 0 <= i < j < |rows| ==> rows[i].averageRssi >= rows[j].averageRssi
  }

  /** Inserts `row` after every row at least as strong, so that equal rows keep their order. */
  function InsertDesc(sorted: seq<ScanResultUi>, row: ScanResultUi): (r: seq<ScanResultUi>)
    ensures |r| == |sorted| + 1
    decreases |sorted|
  {
    if sorted == [] then [row]
    else if sorted[0].averageRssi >= row.averageRssi then [sorted[0]] + InsertDesc(sorted[1..], row)
    else [row] + sorted
  }

  /** Inserting adds exactly the new row. */
  lemma {:induction false} InsertDescPermutes(sorted: seq<ScanResultUi>, row: ScanResultUi)
    ensures multiset(InsertDesc(sorted, row)) == multiset(sorted) + multiset{row}
    decreases |sorted|
  {
    if sorted != [] && sorted[0].averageRssi >= row.averageRssi {
      assert sorted == [sorted[0]] + sorted[1..];
      InsertDescPermutes(sorted[1..], row);
    }
  }

  /** Inserting into a list sorted strongest first keeps it sorted. */
  lemma {:induction false} InsertDescSorted(sorted: seq<ScanResultUi>, row: ScanResultUi)
    requires SortedDesc(sorted)
    ensures SortedDesc(InsertDesc(sorted, row))
    decreases |sorted|
  {
    if sorted != [] && sorted[0].averageRssi >= row.averageRssi {
      var tail := sorted[1..];
      var rest := InsertDesc(tail, row);
      InsertDescSorted(tail, row);
      InsertDescPermutes(tail, row);
      forall j | 0 <= j < |rest|
        ensures rest[j].averageRssi <= sorted[0].averageRssi
      {
        assert rest[j] in multiset(rest);
        if rest[j] != row {
          assert rest[j] in multiset(tail);
          var k :| 0 <= k < |tail| && tail[k] == rest[j];
          assert tail[k] == sorted[k + 1];
        }
      }
    }
  }

  /** `sortedByDescending { it.averageRssi }`: a stable sort, strongest first. */
  function SortByRssiDesc(rows: seq<ScanResultUi>): (r: seq<ScanResultUi>)
    ensures |r| == |rows|
  {
    if rows == [] then []
    else InsertDesc(SortByRssiDesc(rows[..|rows| - 1]), rows[|rows| - 1])
  }

  /** The sort is a permutation of its input, strongest first. */
  lemma {:induction false} SortByRssiDescSorts(rows: seq<ScanResultUi>)
    ensures multiset(SortByRssiDesc(rows)) == multiset(rows)
    ensures SortedDesc(SortByRssiDesc(rows))
  {
    if rows != [] {
      var init, last := rows[..|rows| - 1], rows[|rows| - 1];
      assert rows == init + [last];
      SortByRssiDescSorts(init);
      InsertDescPermutes(SortByRssiDesc(init), last);
      InsertDescSorted(SortByRssiDesc(init), last);
    }
  }

  function Take(rows: seq<ScanResultUi>, n: nat): seq<ScanResultUi> {
    if |rows| <= n then rows else rows[..n]
  }

  /** The scan results: eligible rows, strongest first, at most twenty. */
  function Results(rows: seq<DeviceRow>, filter: FilterMode): (r: seq<ScanResultUi>)
    ensures |r| <= MaxResults && |r| <= |rows|
    ensures |r| == (if |Eligible(rows, filter)| <= MaxResults then |Eligible(rows, filter)| else MaxResults)
  {
    Take(SortByRssiDesc(Eligible(rows, filter)), MaxResults)
  }

  /** The favourite results: every active favourite, strongest first. */
  function Favorites(rows: seq<DeviceRow>): (r: seq<ScanResultUi>)
    ensures |r| == |FavoriteRows(rows)| && |r| <= |rows|
  {
    SortByRssiDesc(FavoriteRows(rows))
  }

  /** Taking a prefix of a list sorted strongest first keeps its strongest rows. */
  lemma TakeOfSorted(sorted: seq<ScanResultUi>, n: nat)
    requires SortedDesc(sorted)
    ensures var t := Take(sorted, n);
      |t| <= n && SortedDesc(t) && t == sorted[..|t|] && multiset(t) <= multiset(sorted)
    ensures |sorted| <= n ==> Take(sorted, n) == sorted
    ensures var t := Take(sorted, n);
      forall i, j :: 0 <= i < |t| <= j < |sorted| ==> sorted[j].averageRssi <= t[i].averageRssi
  {
    var t := Take(sorted, n);
    assert sorted == t + sorted[|t|..];
    assert multiset(sorted) == multiset(t) + multiset(sorted[|t|..]);
  }

  /**
   * The scan results are at most twenty eligible rows (filter passed, not a
   * favourite), strongest first; they are the strongest of the eligible rows,
   * and when there are no more than twenty, all of them.
   */
  lemma ResultsAreStrongestEligible(rows: seq<DeviceRow>, filter: FilterMode)
    ensures var r := Results(rows, filter);
      |r| <= MaxResults && SortedDesc(r)
    ensures var r := Results(rows, filter);
      forall x :: x in r ==> x.address !in FavoriteAddresses && exists row :: row in rows && row.ui == x && Passes(filter, row)
    ensures var r := Results(rows, filter);
      multiset(r) <= multiset(Eligible(rows, filter))
    ensures var r := Results(rows, filter);
      |Eligible(rows, filter)| <= MaxResults ==> multiset(r) == multiset(Eligible(rows, filter))
    ensures var r := Results(rows, filter);
      var sorted := SortByRssiDesc(Eligible(rows, filter));
      forall i, j :: 0 <= i < |r| <= j < |sorted| ==> sorted[j].averageRssi <= r[i].averageRssi
  {
    var eligible := Eligible(rows, filter);
    var sorted := SortByRssiDesc(eligible);
    var r := Results(rows, filter);
    SortByRssiDescSorts(eligible);
    EligibleMembers(rows, filter);
    TakeOfSorted(sorted, MaxResults);
    forall x | x in r
      ensures x.address !in FavoriteAddresses && exists row :: row in rows && row.ui == x && Passes(filter, row)
    {
      assert x in multiset(r);
      assert x in multiset(eligible);
      assert x in eligible;
    }
  }

  /** The favourite list holds every active favourite, and only those, strongest first. */
  lemma FavoritesAreAllActiveFavorites(rows: seq<DeviceRow>)
    ensures SortedDesc(Favorites(rows))
    ensures forall x :: x in Favorites(rows) <==> exists row :: row in rows && row.ui == x && x.address in FavoriteAddresses
  {
    var f := FavoriteRows(rows);
    SortByRssiDescSorts(f);
    FavoriteRowsMembers(rows);
    forall x
      ensures x in Favorites(rows) <==> x in f
    {
      assert x in multiset(Favorites(rows)) <==> x in multiset(f);
    }
  }

  // ---------------------------------------------------------------- labels

  /** A value in the label preference store: labels are strings, anything else is ignored. */
  datatype PrefValue = StringPref(text: string) | OtherPref

  /** What `loadLabels` reads back: the non-blank string values. */
  function StoredLabels(prefs: map<string, PrefValue>): map<string, string> {
    map k | k in prefs && prefs[k].StringPref? && !IsBlank(prefs[k].text) :: prefs[k].text
  }

  /** Storing a non-blank label is seen by the next load under that key. */
  lemma StoredLabelsAfterPut(prefs: map<string, PrefValue>, key: string, text: string)
    requires !IsBlank(text)
    ensures StoredLabels(prefs[key := StringPref(text)]) == StoredLabels(prefs)[key := text]
  {
  }

  /** Removing a key removes its label from the next load. */
  lemma StoredLabelsAfterRemove(prefs: map<string, PrefValue>, key: string)
    ensures StoredLabels(prefs - {key}) == StoredLabels(prefs) - {key}
  {
  }

  /**
   * `loadLabels`: walks the preference store and keeps every non-blank string
   * value under its key.
   */
  method LoadLabels(prefs: map<string, PrefValue>) returns (stored: map<string, string>)
    ensures stored == StoredLabels(prefs)
    ensures forall k :: k in stored ==> !IsBlank(stored[k])
  {
    stored := map[];
    var remaining := prefs.Keys;
    while remaining != {}
      invariant remaining <= prefs.Keys
      invariant stored == map k | k in prefs && k !in remaining && prefs[k].StringPref? && !IsBlank(prefs[k].text) :: prefs[k].text
      decreases remaining
    {
      var key :| key in remaining;
      var value := prefs[key];
      if value.StringPref? && !IsBlank(value.text) {
        stored := stored[key := value.text];
      }
      remaining := remaining - {key};
    }
  }

  /** The label a result row carries. */
  function LabelOf(labels: map<string, string>, address: string): Option<string> {
    if address in labels then Some(labels[address]) else None
  }

  // ---------------------------------------------------------------- the view model

  predicate IsStale(now: int, lastSeenMs: int) {
    now - lastSeenMs > StaleMs
  }

  /** The keys whose devices are not stale, in order. */
  function KeepFresh(keys: seq<string>, states: map<string, DeviceState>, now: int): (r: seq<string>)
    requires forall i :: 0 <= i < |keys| ==> keys[i] in states
    ensures |r| <= |keys|
    ensures forall k :: k in r <==> k in keys && !IsStale(now, states[k].lastSeenMs)
    ensures (forall i, j :: 0 <= i < j < |keys| ==> keys[i] != keys[j]) ==> forall i, j :: 0 <= i < j < |r| ==> r[i] != r[j]
  {
    if keys == [] then []
    else
      var init, last := keys[..|keys| - 1], keys[|keys| - 1];
      assert keys == init + [last];
      var rest := KeepFresh(init, states, now);
      if IsStale(now, states[last].lastSeenMs) then rest else rest + [last]
  }

  /** The rows of the devices under `keys`, in order. */
  function Rows(keys: seq<string>, states: map<string, DeviceState>, labels: map<string, string>): (rows: seq<DeviceRow>)
    requires forall i :: 0 <= i < |keys| ==> keys[i] in states
    ensures |rows| == |keys|
    ensures forall i :: 0 <= i < |keys| ==> rows[i].ui.address == states[keys[i]].address
  {
    if keys == [] then []
    else
      var state := states[keys[|keys| - 1]];
      Rows(keys[..|keys| - 1], states, labels)
        + [DeviceRow(state.ToUi(LabelOf(labels, state.address)), state.hasManufacturerData, state.hasNordicData)]
  }

  /**
   * The removal loop of `updateResults`: walks the devices in order and keeps
   * those seen within the last ten seconds.
   */
  method DropStale(keys: seq<string>, states: map<string, DeviceState>, now: int)
      returns (kept: seq<string>, active: map<string, DeviceState>)
    requires forall i :: 0 <= i < |keys| ==> keys[i] in states
    ensures kept == KeepFresh(keys, states, now)
    ensures forall k :: k in active <==> k in kept
    ensures forall k :: k in active ==> active[k] == states[k]
  {
    kept := [];
    active := map[];
    var i := 0;
    while i < |keys|
      invariant 0 <= i <= |keys|
      invariant kept == KeepFresh(keys[..i], states, now)
      invariant forall k :: k in active <==> k in kept
      invariant forall k :: k in active ==> active[k] == states[k]
    {
      var key := keys[i];
      var state := states[key];
      assert keys[..i + 1] == keys[..i] + [key];
      if !IsStale(now, state.lastSeenMs) {
        kept := kept + [key];
        active := active[key := state];
      }
      i := i + 1;
    }
    assert keys[..|keys|] == keys;
  }

  class MainViewModel {
    /** The addresses of `deviceStates` in insertion order, as the source's insertion-ordered map iterates them. */
    var order: seq<string>
    var deviceStates: map<string, DeviceState>
    var labels: map<string, string>
    var labelPrefs: map<string, PrefValue>
    var filterMode: FilterMode
    var scanResults: seq<ScanResultUi>
    var favoriteResults: seq<ScanResultUi>

    /**
     * Every state is filed under its own address and holds at most five
     * readings; the order lists each key once; the labels in memory are what
     * the preference store reads back as.
     */
    ghost predicate Valid()
      reads this
    {
      && (forall k :: k in deviceStates ==> deviceStates[k].address == k && |deviceStates[k].rssiWindow| <= RssiWindowSize)
      && (forall i, j :: 0 <= i < j < |order| ==> order[i] != order[j])
      && (forall k :: k in deviceStates <==> k in order)
      && labels == StoredLabels(labelPrefs)
    }

    constructor(prefs: map<string, PrefValue>)
      ensures Valid()
      ensures labelPrefs == prefs && labels == StoredLabels(prefs)
      ensures order == [] && deviceStates == map[] && scanResults == [] && favoriteResults == []
      ensures filterMode == Beacons
    {
      var stored := LoadLabels(prefs);
      order := [];
      deviceStates := map[];
      labelPrefs := prefs;
      filterMode := Beacons;
      scanResults := [];
      favoriteResults := [];
      labels := stored;
    }

    /**
     * The merge step of `handleScanResult`: the advertisement's device gets (or
     * keeps) its state under the upper-cased address, takes the newest name,
     * time and reading, and accumulates the advertising flags.
     */
    method MergeScanResult(device: Option<BleDevice>, scanRecord: Option<ScanRecord>, rssi: int, now: int)
      requires Valid()
      modifies this
      ensures Valid()
      ensures labels == old(labels) && labelPrefs == old(labelPrefs) && filterMode == old(filterMode)
      ensures scanResults == old(scanResults) && favoriteResults == old(favoriteResults)
      ensures device.None? ==> order == old(order) && deviceStates == old(deviceStates)
      ensures device.Some? ==>
        var address := Uppercase(device.value.address);
        var previous := if address in old(deviceStates) then Some(old(deviceStates)[address]) else None;
        && deviceStates == old(deviceStates)[address := MergedState(previous, address, device.value.name, scanRecord, rssi, now)]
        && order == (if address in old(deviceStates) then old(order) else old(order) + [address])
    {
      if device.None? {
        return;
      }
      var address := Uppercase(device.value.address);
      var previous := None;
      if address in deviceStates {
        previous := Some(deviceStates[address]);
      } else {
        order := order + [address];
      }
      deviceStates := deviceStates[address := MergedState(previous, address, device.value.name, scanRecord, rssi, now)];
    }

    method UpdateResults(now: int)
      requires Valid()
      modifies this
      ensures Valid()
      ensures order == KeepFresh(old(order), old(deviceStates), now)
      ensures forall k :: k in deviceStates <==> k in old(deviceStates) && !IsStale(now, old(deviceStates)[k].lastSeenMs)
      ensures forall k :: k in deviceStates ==> deviceStates[k] == old(deviceStates)[k]
      ensures scanResults == Results(Rows(order, deviceStates, labels), filterMode)
      ensures favoriteResults == Favorites(Rows(order, deviceStates, labels))
      ensures labels == old(labels) && labelPrefs == old(labelPrefs) && filterMode == old(filterMode)
    {
      var kept, active := DropStale(order, deviceStates, now);
      order := kept;
      deviceStates := active;
      Publish();
    }

    /** Recomputes both displayed lists from the current devices, labels and filter. */
    method Publish()
      requires forall i :: 0 <= i < |order| ==> order[i] in deviceStates
      modifies this`scanResults, this`favoriteResults
      ensures scanResults == Results(Rows(order, deviceStates, labels), filterMode)
      ensures favoriteResults == Favorites(Rows(order, deviceStates, labels))
    {
      var rows := Rows(order, deviceStates, labels);
      scanResults := Results(rows, filterMode);
      favoriteResults := Favorites(rows);
    }

    /**
     * `handleScanResult`: an advertisement without a device is dropped and
     * nothing else happens; otherwise it is merged and the lists are recomputed.
     */
    method HandleScanResult(device: Option<BleDevice>, scanRecord: Option<ScanRecord>, rssi: int, now: int)
      requires Valid()
      modifies this
      ensures Valid()
      ensures labels == old(labels) && labelPrefs == old(labelPrefs) && filterMode == old(filterMode)
      ensures device.None? ==>
        order == old(order) && deviceStates == old(deviceStates)
        && scanResults == old(scanResults) && favoriteResults == old(favoriteResults)
      ensures device.Some? ==>
        var address := Uppercase(device.value.address);
        var merged := old(deviceStates)[address := MergedState(
                        if address in old(deviceStates) then Some(old(deviceStates)[address]) else None,
                        address, device.value.name, scanRecord, rssi, now)];
        var mergedOrder := if address in old(deviceStates) then old(order) else old(order) + [address];
        && order == KeepFresh(mergedOrder, merged, now)
        && (forall k :: k in deviceStates <==> k in merged && !IsStale(now, merged[k].lastSeenMs))
        && (forall k :: k in deviceStates ==> deviceStates[k] == merged[k])
        && address in deviceStates
        && deviceStates[address].lastSeenMs == now
        && scanResults == Results(Rows(order, deviceStates, labels), filterMode)
        && favoriteResults == Favorites(Rows(order, deviceStates, labels))
    {
      if device.None? {
        return;
      }
      MergeScanResult(device, scanRecord, rssi, now);
      UpdateResults(now);
    }

    /**
     * `setLabel`: the trimmed label is stored under the upper-cased address,
     * in memory and in the preference store; a blank label removes both.
     */
    method SetLabel(address: string, newLabel: string, now: int)
      requires Valid()
      modifies this
      ensures Valid()
      ensures var key := Uppercase(address);
        Trim(newLabel) == [] ==> labels == old(labels) - {key} && labelPrefs == old(labelPrefs) - {key}
      ensures var key := Uppercase(address);
        Trim(newLabel) != [] ==> labels == old(labels)[key := Trim(newLabel)]
                                 && labelPrefs == old(labelPrefs)[key := StringPref(Trim(newLabel))]
      ensures filterMode == old(filterMode)
      ensures order == KeepFresh(old(order), old(deviceStates), now)
      ensures forall k :: k in deviceStates <==> k in old(deviceStates) && !IsStale(now, old(deviceStates)[k].lastSeenMs)
      ensures forall k :: k in deviceStates ==> deviceStates[k] == old(deviceStates)[k]
      ensures scanResults == Results(Rows(order, deviceStates, labels), filterMode)
      ensures favoriteResults == Favorites(Rows(order, deviceStates, labels))
    {
      var key := Uppercase(address);
      var trimmed := Trim(newLabel);
      TrimEmptyIffBlank(newLabel);
      if IsBlank(trimmed) {
        StoredLabelsAfterRemove(labelPrefs, key);
        labels := labels - {key};
        labelPrefs := labelPrefs - {key};
      } else {
        StoredLabelsAfterPut(labelPrefs, key, trimmed);
        labels := labels[key := trimmed];
        labelPrefs := labelPrefs[key := StringPref(trimmed)];
      }
      UpdateResults(now);
    }

    /** `setFilterMode`: switches the filter and recomputes the lists. */
    method SetFilterMode(mode: FilterMode, now: int)
      requires Valid()
      modifies this
      ensures Valid()
      ensures filterMode == mode
      ensures labels == old(labels) && labelPrefs == old(labelPrefs)
      ensures order == KeepFresh(old(order), old(deviceStates), now)
      ensures forall k :: k in deviceStates <==> k in old(deviceStates) && !IsStale(now, old(deviceStates)[k].lastSeenMs)
      ensures forall k :: k in deviceStates ==> deviceStates[k] == old(deviceStates)[k]
      ensures scanResults == Results(Rows(order, deviceStates, labels), mode)
      ensures favoriteResults == Favorites(Rows(order, deviceStates, labels))
    {
      filterMode := mode;
      UpdateResults(now);
    }
  }
}
