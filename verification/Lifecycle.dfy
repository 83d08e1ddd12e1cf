/** The deployment lifecycle: thirteen states and the table of allowed moves. */
module Lifecycle {

  datatype State =
    | Pending
    | CreatingDatabase
    | PullingImage
    | CreatingContainer
    | Starting
    | Migrating
    | Healthchecking
    | Active
    | Stopped
    | Updating
    | Failed
    | Deleting
    | Deleted

  predicate CanTransition(from: State, to: State) {
    match from
    case Pending => to.CreatingDatabase? || to.Failed? || to.Deleting?
    case CreatingDatabase => to.PullingImage? || to.Failed?
    case PullingImage => to.CreatingContainer? || to.Failed?
    case CreatingContainer => to.Starting? || to.Failed?
    case Starting => to.Migrating? || to.Healthchecking? || to.Failed?
    case Migrating => to.Healthchecking? || to.Failed?
    case Healthchecking => to.Active? || to.Stopped? || to.Failed?
    case Active => to.Stopped? || to.Starting? || to.Updating? || to.Deleting? || to.Failed?
    case Stopped => to.Starting? || to.Updating? || to.Deleting? || to.Failed?
    case Updating => to.Active? || to.Stopped? || to.Failed?
    case Failed => to.Pending? || to.Deleting?
    case Deleting => to.Deleted? || to.Failed?
    case Deleted => to.Pending? || to.Deleting?
  }

  /** The states only a running procedure may leave a deployment in. */
  predicate Transient(s: State) {
    !s.Pending? && !s.Active? && !s.Stopped? && !s.Failed? && !s.Deleted?
  }

  /** The states in which the panel is, or is about to be, in use. */
  predicate Usable(s: State) {
    s.Healthchecking? || s.Active? || s.Stopped? || s.Updating?
  }

  /** Position on the creation path; -1 off the path. */
  function Rank(s: State): int {
    match s
    case Pending => 0
    case CreatingDatabase => 1
    case PullingImage => 2
    case CreatingContainer => 3
    case Starting => 4
    case Migrating => 5
    case Healthchecking => 6
    case Active => 7
    case _ => -1
  }

  /** The table read by target: what may fail, be deleted, become active, and what only the creation path reaches. */
  lemma EdgesByTarget(from: State)
    ensures CanTransition(from, Failed) <==> !from.Failed? && !from.Deleted?
    ensures CanTransition(from, Deleting) <==> !Transient(from)
    ensures CanTransition(from, Deleted) <==> from.Deleting?
    ensures CanTransition(from, Pending) <==> from.Failed? || from.Deleted?
    ensures CanTransition(from, Active) <==> from.Healthchecking? || from.Updating?
    ensures CanTransition(from, Stopped) <==> from.Healthchecking? || from.Updating? || from.Active?
    ensures CanTransition(from, Updating) <==> from.Active? || from.Stopped?
    ensures CanTransition(from, Starting) <==> from.CreatingContainer? || from.Active? || from.Stopped?
    ensures CanTransition(from, Healthchecking) <==> from.Starting? || from.Migrating?
    ensures forall to | Rank(to) == 1 || Rank(to) == 2 || Rank(to) == 3 || Rank(to) == 5 ::
      CanTransition(from, to) <==> Rank(from) == Rank(to) - 1
  {
    match from
    case _ =>
  }
}
