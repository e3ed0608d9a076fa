/**
 * The lifecycle states of `Exchange::ILifecycleManager::LifecycleState`,
 * shared by the authenticators, the reporters and the runtime bookkeeping.
 */
module Lifecycle {
  datatype LifecycleState =
    | UNLOADED
    | LOADING
    | INITIALIZING
    | PAUSED
    | ACTIVE
    | SUSPENDED
    | HIBERNATED
    | TERMINATING
}
