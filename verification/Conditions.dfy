/** Condition variables with the semantics POSIX gives them: a signal wakes at least one
    sleeper if there is one, perhaps more, and never anybody else. */

module Conditions {

  /** Whom one signal may wake. */
  predicate Signals(woken: set<nat>, sleepers: set<nat>) {
    woken <= sleepers && (sleepers != {} ==> woken != {})
  }
}
