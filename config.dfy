/** Construction-time configuration of a worker pool: the package constants
    and the clamping that `New` applies to its optional `Options` argument. */
module Config {

  newtype u8 = x: int | 0 <= x < 0x100
  newtype u32 = x: int | 0 <= x < 0x1_0000_0000

  /** Idle time, in seconds, after which a surplus worker may retire. */
  const DefaultTimeout: nat := 10
  /** Floor (and default) for the maximum number of workers. */
  const DefaultWorkers: nat := 64
  /** Floor (and default) for the capacity of the buffered job queue. */
  const DefaultQSize: nat := 128
  /** Capacity of each of the two output channels, ErrChan and ResultChan. */
  const OutputChanSize: nat := 100

  /** One second as a duration in nanoseconds. */
  const Second: nat := 1_000_000_000
  /** Largest value of a signed 64-bit duration. */
  const MaxDuration: nat := 0x7FFF_FFFF_FFFF_FFFF

  /** The caller's options; every field is an unsigned machine integer. */
  datatype Options = Options(timeout: u32, workers: u32, logs: u8, qSize: u32)

  /** What the pool keeps from its options: the worker ceiling, the idle
      timeout as a duration in nanoseconds, and the buffered queue capacity. */
  datatype Settings = Settings(maxWorkers: nat, timeout: nat, qSize: nat)

  /** A configured value raised to its floor: the larger of the two. */
  function Clamp(given: nat, floor: nat): (r: nat)
    ensures r >= floor && r >= given
    ensures r == given || r == floor
  {
    if given > floor then given else floor
  }

  /** The settings `New` derives from its variadic argument list: only a list
      of exactly one `Options` is looked at; each field below its floor is
      replaced by the default. */
  function Normalize(args: seq<Options>): (s: Settings)
    ensures s.maxWorkers >= DefaultWorkers && s.qSize >= DefaultQSize
    ensures s.timeout >= DefaultTimeout * Second
    ensures s.timeout <= MaxDuration
    ensures s.maxWorkers < 0x1_0000_0000 && s.qSize < 0x1_0000_0000
    ensures |args| != 1 ==> s == Settings(DefaultWorkers, DefaultTimeout * Second, DefaultQSize)
    ensures |args| == 1 ==>
      && s.maxWorkers == Clamp(args[0].workers as nat, DefaultWorkers)
      && s.timeout == Second * Clamp(args[0].timeout as nat, DefaultTimeout)
      && s.qSize == Clamp(args[0].qSize as nat, DefaultQSize)
  {
    if |args| == 1 then
      var o := args[0];
      Settings(Clamp(o.workers as nat, DefaultWorkers),
               Second * Clamp(o.timeout as nat, DefaultTimeout),
               Clamp(o.qSize as nat, DefaultQSize))
    else
      Settings(DefaultWorkers, DefaultTimeout * Second, DefaultQSize)
  }

  /** A single option is kept as given exactly when it is at least its floor;
      otherwise the floor is used. */
  lemma KeptIffAtLeastFloor(o: Options)
    ensures Normalize([o]).maxWorkers == o.workers as nat <==> o.workers as nat >= DefaultWorkers
    ensures Normalize([o]).qSize == o.qSize as nat <==> o.qSize as nat >= DefaultQSize
    ensures Normalize([o]).timeout == Second * o.timeout as nat <==> o.timeout as nat >= DefaultTimeout
  {
  }

  /** The worker counts 0, 1 and 2 are not kept as given: each becomes the
      floor of 64. */
  lemma SmallWorkerCountsRaised()
    ensures Normalize([Options(0, 1, 0, 0)]).maxWorkers == DefaultWorkers
    ensures Normalize([Options(0, 2, 0, 0)]).maxWorkers == DefaultWorkers
    ensures Normalize([Options(0, 0, 0, 0)]).maxWorkers == DefaultWorkers
  {
  }

  /** Queue sizes below, at and above the floor. */
  lemma QueueSizeFloor()
    ensures Normalize([Options(0, 0, 0, DefaultQSize as u32)]).qSize == DefaultQSize
    ensures Normalize([Options(0, 0, 0, (DefaultQSize - 1) as u32)]).qSize == DefaultQSize
    ensures Normalize([Options(0, 0, 0, (DefaultQSize + 1) as u32)]).qSize == DefaultQSize + 1
  {
  }
}
