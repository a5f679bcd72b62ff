# Muse realtime monitor: a verified model of its data path

This project models the data path of the Muse brainwave monitor (`main.py`).
The headset delivers EEG samples in batches. A sliding one-second window
collects them. Each time the window is full, the band powers (Delta, Theta,
Alpha, Beta, Gamma) are computed from the window's spectral estimate. One CSV
row is written and the powers are put on a queue. A visualizer process drains
that queue on every timer tick into five 200-slot histories.

The model has five modules:

- `WindowBuffer` (`window_buffer.dfy`): the `Buffer` class as a Dafny class
  over two arrays and a cursor. `Buffer.Add` rolls the arrays into new ones,
  as `np.roll` does, and then writes the slice in place. It is proved against
  the sequence function `Absorb`. Lemmas say what `Absorb` means: the batch
  lands after the held rows while it fits, an overflowing batch evicts exactly
  the oldest rows, a batch longer than the window leaves its first W rows, and
  the last slot carries the newest row and its timestamp.
- `BandPowers` (`band_powers.dfy`): the band table and the band selection of
  `compute_band_powers`, which works on a spectrum produced by the spectral
  estimator. Each band gets the mean of the channel-averaged densities whose
  frequency lies in `[low, high]`, or 0 when no bin qualifies.
- `Channel` (`channel.dfy`): the queue items. The `None` end marker is its own
  variant, `Stop`.
- `Ingest` (`ingest.dfy`): `eeg_callback` as a class holding the buffer, the
  CSV log (the rows written so far) and the queue (the items put so far).
- `Display` (`display.dfy`): the visualizer's histories as a 5 × 200 `array2`,
  and its `update` tick as a method proved against the function `Drain`.

Two behaviours of the code that a reader might not expect, which the model follows:

- The cursor of `Buffer` is never reset. After the first time the window
  fills, every later `add` reports it full again.
- A batch longer than the window keeps the batch's first W rows, not its last
  W rows.

## Model

| member | source | states |
|---|---|---|
| WindowBuffer.Rotate | main.py:78-79 | `np.roll(s, -k)` keeps the length and the elements (the same multiset) |
| WindowBuffer.RotateAt | main.py:78-79 | with `m = k % len(s)`, slot i of the rotation holds `s[i + m]`, wrapping past the end to `s[i + m - len(s)]` |
| WindowBuffer.WriteStart | main.py:76-81 | the cursor after eviction never exceeds the old one, is unchanged when the batch fits, and otherwise leaves exactly `min(n, W)` slots before the end of the window |
| WindowBuffer.Evicted | main.py:76-79 | the eviction step keeps every held element (same length, same multiset) and changes nothing when the batch fits |
| WindowBuffer.Written | main.py:84-90 | the write step keeps the slots before the cursor; a batch that fits is spliced in whole after them, an overlong one contributes only the head that fills the window |
| WindowBuffer.Cursor | main.py:76-90 | after a batch of n rows the cursor is `min(ptr + n, W)`, whether or not eviction happened and even after clamping at 0 |
| WindowBuffer.Absorb | main.py:73-90 | the contents after one `add`, eviction then write, have the buffer's length; what they hold is stated by the lemmas below |
| WindowBuffer.AbsorbFits | main.py:84-90 | while `ptr + n <= W` the batch lands right after the held rows and nothing else moves |
| WindowBuffer.AbsorbEvictsOldest | main.py:76-90 | an overflowing batch with `n <= W` leaves the last W rows of (held rows ++ batch), in order: exactly the oldest rows are evicted |
| WindowBuffer.AbsorbKeepsBatchHead | main.py:76-90 | a batch longer than the window leaves its first W rows, whatever was held |
| WindowBuffer.AbsorbLastSlot | main.py:76-93 | the last slot, which `add` returns as `latest`, is unchanged while the window stays short of full, and otherwise holds row `min(n, W) - 1` of the batch |
| WindowBuffer.LastSlotWhenFits | main.py:84-93 | without eviction the last slot is untouched, or holds the batch's last row when the batch exactly fills the window |
| WindowBuffer.LastSlotWhenEvicting | main.py:76-93 | with eviction and `n <= W` the last slot holds the batch's last row |
| WindowBuffer.LatestStampPairsWithLastRow | main.py:76-93 | rows and timestamps go through the same steps, so the returned timestamp is the one delivered with the row in the last slot |
| WindowBuffer.FeedCursorClamps | main.py:76-90 | over any sequence of batches the cursor is `min(ptr + total rows, W)` |
| WindowBuffer.FeedBelowCapacity | main.py:84-90 | while everything fits, successive batches are stored contiguously in delivery order and the slots past the cursor keep their contents |
| WindowBuffer.FreshBufferFill | main.py:63-90 | from a fresh buffer the window is the delivered rows followed by zeros, and the cursor is the number of rows delivered |
| WindowBuffer.Roll | main.py:78-79 | returns a new array whose contents are the left rotation of the old one |
| WindowBuffer.RollPart | main.py:76-79 | rolling one vector by the overflow `ptr + n - W` yields a new array holding the evicted contents |
| WindowBuffer.WriteSlice | main.py:88-89 | the array afterwards equals the old contents with `xs` spliced in at `start` |
| WindowBuffer.Buffer.constructor | main.py:63-67 | `W = int(256 * duration)`, all rows zero, all timestamps 0, cursor 0 |
| WindowBuffer.Buffer.Add | main.py:69-93 | rows and timestamps become `Absorb` of their old contents, the cursor becomes `Cursor(...)`, `full` holds iff the cursor reached W, and the returned window and latest timestamp are the buffer itself and its last timestamp |
| WindowBuffer.Buffer.Evict | main.py:76-81 | when `ptr + n > W` both vectors are rolled into new arrays and the cursor moves back by the overflow, clamped at 0; otherwise nothing changes |
| WindowBuffer.Buffer.WriteBatch | main.py:84-90 | the rows that fit are written at the cursor into both vectors, and the cursor becomes `min(ptr + n, W)` |
| BandPowers.Sum | main.py:118 | the sum of non-negative values is non-negative |
| BandPowers.Mean | main.py:118 | the mean of non-negative values is non-negative |
| BandPowers.SumOfConstant | main.py:118 | a sum of n copies of c is n·c |
| BandPowers.MeanOfConstant | main.py:118 | the mean of values that all equal c is c |
| BandPowers.ChannelAverage | main.py:111 | one average per bin; an average over non-negative channel densities is non-negative |
| BandPowers.InBand | main.py:116-118 | `avg_psd[idx_band]` is empty iff no bin lies in `[low, high]`; every bin inside contributes its value; every selected value comes from a bin inside |
| BandPowers.SelectionMatchesMask | main.py:116-118 | the selection has as many values as the mask has true entries, and sums to the masked sum |
| BandPowers.BandPowerIsMaskedMean | main.py:116-118 | a band's power is the masked sum over the masked count, or 0 when the mask is empty |
| BandPowers.BandPower | main.py:116-119 | 0 when no bin lies in the band; non-negative when all densities are |
| BandPowers.BandPowerOfZero | main.py:118 | all-zero densities give power 0 in any band |
| BandPowers.ComputeBandPowers | main.py:111-121 | one entry per band of `BANDS`, in table order, holding that band's power over the channel-averaged spectrum, and each band's name looks up its own entry |
| BandPowers.PowerOfBand | main.py:113-119 | entry k is the mean over band k of the channel-averaged spectrum |
| BandPowers.Find | main.py:139 | dictionary lookup: a value exists iff some entry has the key, and the value found is stored under that key |
| BandPowers.FindFirst | main.py:139 | when no two entries share a key, each key's lookup finds its own entry |
| BandPowers.FindByBandName | main.py:113-119 | in a result that lists the bands in order, each band name finds its own power |
| BandPowers.BandNamesDistinct | main.py:22-28 | the five band names are pairwise distinct, so the dict has five entries |
| BandPowers.PowersNonNegative | main.py:111-121 | non-negative densities give non-negative powers in every band |
| BandPowers.EmptyBandIsZero | main.py:118 | a band with no bin inside gets power 0 rather than an error |
| BandPowers.ZeroSpectrumZeroPowers | main.py:111-121 | an all-zero spectrum gives 0 in every band |
| BandPowers.AdjacentBandsShareEdges | main.py:22-28 | each band is non-empty and ends where the next one begins |
| BandPowers.BoundaryBinInBothBands | main.py:22-28 | with both ends inclusive, a bin at 4, 8, 13 or 30 Hz counts in both neighbouring bands |
| Ingest.CsvBandsAreBands | main.py:139 | the callback's column list names the bands in the order the result lists them |
| Ingest.HeaderIsTimestampThenBands | main.py:46 | the header is "Timestamp" followed by the five band columns |
| Ingest.ComputedHasCsvColumns | main.py:136-139 | every CSV column can be looked up in a computed result and finds the power at the same position |
| Ingest.CsvLine | main.py:139 | the row has one field per header column, starts with the timestamp, and field k + 1 is a power that the result pairs with the k-th CSV band name |
| Ingest.CsvLineMatchesHeader | main.py:138-139 | a data row has one field per header column: the timestamp under "Timestamp", then each band's power under its name |
| Ingest.AppendRow | main.py:143 | appending a six-field row keeps the log shaped: header first, then six-field data rows |
| Ingest.AppendRecord | main.py:148 | appending a complete record keeps every queued item a complete record |
| Ingest.Ingestor.constructor | main.py:44-46 | a one-second buffer of 256 zero samples, a log holding only the header row, an empty queue |
| Ingest.Ingestor.Callback | main.py:126-148 | the buffer absorbs the batch; when not full, log and queue are unchanged; when full, the powers of the window are queued, and the row `[latest] + powers` is logged unless the write raises ValueError |
| Ingest.Ingestor.Publish | main.py:134-148 | the ready branch: one record is queued either way, and one row of timestamp and band powers is logged unless the write fails |
| Display.Push | main.py:193-195 | shifting left by one and setting the last slot moves index i+1 to i and stores v at the end |
| Display.PushAllSlides | main.py:193-195 | after k pushes a history is the last 200 values of (old history ++ new values) |
| Display.ShiftThenSet | main.py:193-195 | shifting and then overwriting the last slot is one push |
| Display.ApplyRecord | main.py:191-199 | one record keeps every history 200 long |
| Display.CompleteRecordPushesEach | main.py:191-195 | a record holding every band pushes each band's value onto that band's history and leaves no band untouched |
| Display.BandNamesAreBands | main.py:166 | the plotted band names are the names of `BANDS`, in order |
| Display.Drain | main.py:185-199 | a tick meets the marker iff the queue holds one, stops right after the first one, and otherwise takes every item |
| Display.DrainInOrder | main.py:185-199 | a queue of complete records is taken whole, in FIFO order: each history becomes the last 200 values of (old history ++ that band's queued values) |
| Display.DrainStopsAtMarker | main.py:185-189 | items before the first marker are applied, the marker is taken, and nothing after it is |
| Display.Visualizer.constructor | main.py:180-181 | every band's history starts as 200 zeros |
| Display.Visualizer.ShiftRow | main.py:193 | row b is shifted left with its last value repeated; the other rows are unchanged |
| Display.Visualizer.SetLast | main.py:195 | only the last slot of row b changes, to v |
| Display.Visualizer.ApplyItem | main.py:191-199 | the histories become `ApplyRecord` of the old ones: a band missing from the record is shifted with its old last value repeated, and the remaining bands of that record are skipped |
| Display.Visualizer.Update | main.py:183-203 | the histories become `Drain` of the old ones, `consumed` items are taken, and the tick quits iff the stop flag is set and no marker was met |

## Left out

- The spectral estimate (`scipy.signal.welch` with `nperseg=fs`) is not modelled. `Ingest.Ingestor` takes it as a parameter: a total function from the window and the sampling rate to a spectrum with one frequency per bin and at least one channel per bin.
- Arithmetic is on exact reals. The source computes in floating point, so rounding, overflow and NaN are not modelled.
- Rows of the window are opaque values. The source's four-column shape and any mismatch between channel count and data are not checked.
- The `overlap` parameter of `Buffer.__init__` is never used by the source and is not modelled.
- WindowBuffer.Buffer.constructor: requires `duration >= 0`. For a duration of -1/256 or less `int()` gives a negative length and `np.zeros` raises; for -1/256 < duration < 0 `int()` gives 0, the buffer is empty and the first `add` raises IndexError. Neither error path is modelled. For non-negative values `int()` and floor agree.
- WindowBuffer.Buffer.Add: requires `W > 0`. With an empty buffer, `self.timestamps[-1]` raises IndexError, and that error path is not modelled.
- WindowBuffer.Buffer.Add: requires `|ts| == |batch|`, one timestamp per row. The code reads the row count from the data alone and writes `timestamps[:len_to_add]`. Extra timestamps are therefore ignored, and a single timestamp is broadcast to every written slot. Any other shortfall raises ValueError after the rows were already written (main.py:88-89). These mismatched deliveries are not modelled.
- WindowBuffer.Buffer.WriteBatch: requires `|ts| == |batch|` for the same reason as Add.
- Ingest.Ingestor.Callback: requires `|ts| == |batch|`, passed on to Add; the mismatched deliveries described under Add are not modelled.
- Ingest.Ingestor.Callback: ValueError from `writer.writerow` is the only write failure modelled, as an input flag. The text formatting of the CSV file is not modelled; the log is the sequence of rows written.
- Opening the log file (with its fallback directory), `atexit`, the headset proxy, headset discovery (`find_muse.py`), signal handling, the 300-second acquisition loop and process start-up and teardown are not modelled. They are I/O and process control.
- Qt windows, plots, `setData` and the 50 ms timer are not modelled. The histories they display are.
- Display.Visualizer.Update: the inter-process queue is a sequence `inbox` of the items present when the tick starts. The race between `empty()` and `get(block=False)` is not modelled, and neither is the removal of the consumed items from `Ingest.Ingestor.queue`: the two processes are not connected in the model.
- Display.Visualizer.ApplyItem: only KeyError is modelled for the bare `except`. Queue items are the marker or band-power records, so other exceptions cannot arise in the model.
