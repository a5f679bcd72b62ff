/*
 * Items on the queue from the acquisition process to the visualizer process.
 * The source puts a band-power dict per ready window and, at shutdown, None;
 * here the end-of-stream marker is its own variant.
 */
module Channel {
  import opened BandPowers

  datatype Item = Stop | Record(powers: Powers)

  /** A record in which every band can be looked up by name. */
  predicate Complete(p: Powers)
  {
    forall k :: 0 <= k < |BANDS| ==> Find(p, BANDS[k].name).Some?
  }
}
