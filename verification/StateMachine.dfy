/** The Episode state machine (contract/src/rdh_contract/state_machine.py). */
module StateMachine {

  datatype EpisodeStatus =
    | RECORDING | UPLOADING | UPLOADED | PROCESSING | VERIFICATION_PENDING
    | ANNOTATION_PROCESSING | ANNOTATION_PENDING | ANNOTATION_REVIEW
    | PUBLISHED | REJECTED | FAILED

  const INITIAL_STATE := RECORDING

  function AllowedTransitions(source: EpisodeStatus): set<EpisodeStatus> {
    match source
    case RECORDING => {UPLOADING, FAILED}
    case UPLOADING => {UPLOADED, FAILED}
    case UPLOADED => {PROCESSING, FAILED}
    case PROCESSING => {VERIFICATION_PENDING, FAILED}
    case VERIFICATION_PENDING => {ANNOTATION_PROCESSING, REJECTED}
    case ANNOTATION_PROCESSING => {ANNOTATION_PENDING, FAILED}
    case ANNOTATION_PENDING => {ANNOTATION_REVIEW, REJECTED}
    case ANNOTATION_REVIEW => {PUBLISHED, ANNOTATION_PENDING, REJECTED}
    case PUBLISHED => {}
    case REJECTED => {}
    case FAILED => {}
  }

  predicate CanTransition(source: EpisodeStatus, target: EpisodeStatus) {
    target in AllowedTransitions(source)
  }

  predicate IsTerminal(status: EpisodeStatus) {
    status in {PUBLISHED, REJECTED, FAILED}
  }

  /** How far along the main chain a status is; every edge but the review's return climbs. */
  function Rank(status: EpisodeStatus): nat {
    match status
    case RECORDING => 0
    case UPLOADING => 1
    case UPLOADED => 2
    case PROCESSING => 3
    case VERIFICATION_PENDING => 4
    case ANNOTATION_PROCESSING => 5
    case ANNOTATION_PENDING => 6
    case ANNOTATION_REVIEW => 7
    case _ => 8
  }

  /** The only edge that goes back: an annotation under review is returned for rework. */
  predicate IsReturn(source: EpisodeStatus, target: EpisodeStatus) {
    source == ANNOTATION_REVIEW && target == ANNOTATION_PENDING
  }

  lemma EdgesClimb(source: EpisodeStatus, target: EpisodeStatus)
    requires CanTransition(source, target)
    ensures if IsReturn(source, target) then Rank(target) + 1 == Rank(source) else Rank(source) < Rank(target)
    ensures !IsTerminal(source)
  {
  }
}
