/**
 A counting semaphore with direct hand-off: a post gives its unit to the first
 waiter, if there is one, and only otherwise raises the value.
 */
module Semaphores {
  import opened Sequences

  /** The value is a 32-bit unsigned integer. */
  const WORD: nat := 0x1_0000_0000

  /** Slots in the semaphore table. */
  const NUM_SEMS: nat := 300

  datatype Sem = Sem(value: nat, waiters: seq<nat>)

  /** The semaphore after `p` waits; `p` proceeds exactly when the value was positive. */
  function Wait(s: Sem, p: nat): Sem {
    if s.value > 0 then s.(value := s.value - 1) else s.(waiters := s.waiters + [p])
  }

  /** The semaphore after a post; the first waiter, if any, proceeds. */
  function Post(s: Sem): Sem {
    if s.waiters != [] then s.(waiters := s.waiters[1..]) else s.(value := (s.value + 1) % WORD)
  }

  /** Nobody waits while units are available, nobody waits twice. */
  ghost predicate Sound(s: Sem) {
    s.value < WORD && (s.value > 0 ==> s.waiters == []) && Distinct(s.waiters)
  }
}
