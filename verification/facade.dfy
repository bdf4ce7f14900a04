/**
 The distance accessors of the robot facade (`Dreamster::scan`, `scan_a`, `scan_b`,
 `scan_c`). They copy a channel's stored `unsigned int` distance into an `int`.
 */
module Facade {
  import opened Ranging
  import opened Scheduler

  /** The 16-bit `unsigned int` to `int` conversion of the AVR target: values of
      2^15 and above come out negative. */
  function ToSigned16(u: nat): (v: int)
    requires u < WordLimit
    ensures -0x8000 <= v < 0x8000
    ensures v % WordLimit == u
    ensures u < 0x8000 ==> v == u
  {
    if u < 0x8000 then u else u - WordLimit
  }

  /** Reads the latest distance of channel `i`, as `scan_a`/`scan_b`/`scan_c` do. */
  function ScanChannel(q: Sequencer, i: nat): (d: int)
    requires WellFormed(q) && i < NumSonars
    ensures Inv(q) ==> d == q.sonars[i].distance && 0 <= d <= MaxDistance
  {
    ToSigned16(q.sonars[i].distance % WordLimit)
  }

  /** Reads the latest distances of channels A, B and C. */
  function ScanAll(q: Sequencer): (r: (int, int, int))
    requires WellFormed(q)
    ensures r == (ScanChannel(q, 0), ScanChannel(q, 1), ScanChannel(q, 2))
    ensures Inv(q) ==> 0 <= r.0 <= MaxDistance && 0 <= r.1 <= MaxDistance && 0 <= r.2 <= MaxDistance
  {
    var a := ScanChannel(q, 0);
    var b := ScanChannel(q, 1);
    var c := ScanChannel(q, 2);
    (a, b, c)
  }

  /** From start-up, whatever the echo lines do, every distance the main loop reads is
      a stored measurement between 0 and 400 centimetres, unchanged by the conversion. */
  lemma ScannedDistancesBounded(echoes: seq<seq<Level>>, i: nat)
    requires ValidTrace(echoes) && i < NumSonars
    ensures 0 <= ScanChannel(Run(Initial, echoes), i) <= MaxDistance
    ensures ScanChannel(Run(Initial, echoes), i) == Run(Initial, echoes).sonars[i].distance
  {
    RunPreservesInv(Initial, echoes);
  }
}
