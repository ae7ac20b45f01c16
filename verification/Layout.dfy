/**
 * Slot numbers of the shared array.  The object is one array of longs; every
 * structure in it is named by the slot at which it starts.
 */
module Layout {

  /** The two adjacent longs that one DWCAS reads and writes. */
  datatype Pair = Pair(lo: int, hi: int)

  const SIZE := 2
  const EXPAND_SIZE := 3
  const FREE_HEAD := 4
  const DATA_ALLOC := 6
  const COUNT := 7
  const FLAGS := 9
  const ID_CNTR := 10
  const FREE_TAIL := 12
  const MEM_BKT_START := 14
  const MEM_SLOTS := 48
  const BASE := MEM_BKT_START + MEM_SLOTS * 2
  const EVENT_TAIL := BASE
  const TAIL := BASE + 2
  const TS_SEC := BASE + 4
  const LIMIT_SEC := BASE + 8
  const EVENT_HEAD := BASE + 10
  const HEAD := BASE + 14
  const EMPTY_SEC := BASE + 16
  const DEQ_SEM := BASE + 18
  const ENQ_SEM := DEQ_SEM + 4
  const TARGET_SEC := ENQ_SEM + 8
  const STACK_HEAD := ENQ_SEM + 10
  const LEVEL := STACK_HEAD + 2
  const MAX_DEPTH := STACK_HEAD + 3
  const EVNT_SEM := STACK_HEAD + 4
  const HDR_END := EVNT_SEM + 18

  const NODE_SIZE := 4
  const EVENT_OFFSET := 2
  const VALUE_OFFSET := 3

  /** The words of the header of a data block, and how many they are. */
  const DATA_SLOTS := 0
  const TM_SEC := 1
  const TM_NSEC := 2
  const UID := 3
  const TYPE := 4
  const VEC_CNT := 5
  const DATA_LENGTH := 6
  const DATA_HDR := 7

  const PAGE_SLOTS := 512
  const PAGE_SIZE := 4096

  /** The words of the queue proper, which the heap does not touch: counters, limits and the four timestamps. */
  predicate Setting(x: int) {
    x == COUNT || x == FLAGS || x == LEVEL || x == MAX_DEPTH || x == DEQ_SEM || x == ENQ_SEM || x == EVNT_SEM ||
    x == TS_SEC || x == TS_SEC + 1 || x == LIMIT_SEC || x == LIMIT_SEC + 1 ||
    x == EMPTY_SEC || x == EMPTY_SEC + 1 || x == TARGET_SEC || x == TARGET_SEC + 1
  }

  /** The three lists that share add_end and remove_front. */
  datatype ListId = Items | Events | Free

  /** The stacks with a counter: one for each size class of freed blocks, and the LIFO of queued nodes. */
  datatype StackId = Bucket(i: int) | Lifo

  function HeadSlot(l: ListId): int {
    match l
    case Items => HEAD
    case Events => EVENT_HEAD
    case Free => FREE_HEAD
  }

  function TailSlot(l: ListId): int {
    match l
    case Items => TAIL
    case Events => EVENT_TAIL
    case Free => FREE_TAIL
  }

  function TopSlot(k: StackId): int {
    match k
    case Bucket(i) => MEM_BKT_START + 2 * i
    case Lifo => STACK_HEAD
  }
}
