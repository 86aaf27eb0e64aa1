/**
 The client as its owner sees it: whether a worker lives, whether a fault is
 latched, whether the current run has delivered, and which sample the callback has
 taken.
 */
module ClientMoves {
  import opened ClientData

  /** `returned`: the callback has returned and the delivery is not yet counted.
      `place`: how many samples had been handed out when it last returned. */
  datatype Facade = Facade(live: bool, faulted: bool, delivered: bool, returned: bool, place: nat)

  datatype Label =
    | Silent
    | Works                             // some step of the worker
    | Takes(sample: Sample, place: nat) // the callback takes a sample and returns
    | Completes                         // the delivery is counted
    | Opens(t: Tid)                     // start: the data section
    | Spawns(t: Tid)                    // start: the worker exists
    | Undoes(t: Tid)                    // start: the rollback
    | GivesUp(t: Tid)                   // start: the end of the rollback
    | Refuses(t: Tid)                   // start: already running
    | StopReturns(t: Tid)
    | Answers(t: Tid, first: bool)      // wait_for_first_sample
    | CallsItself(t: Tid)               // start or stop, called inside the callback

  predicate Moves(f: Facade, l: Label, f': Facade) {
    match l
    case Silent => f' == f
    case Works =>
      && f.live && !f.returned && (f.faulted ==> f'.faulted)
      && f' == f.(live := f'.live, faulted := f'.faulted)
    case Takes(_, place) =>
      && f.live && !f.faulted && !f.returned && f.place < place && f' == f.(returned := true, place := place)
    case Completes => f.live && f.returned && f' == f.(returned := false, delivered := true)
    case Opens(_) => !f.live && f' == f.(faulted := false, delivered := false)
    case Spawns(_) => !f.live && !f.faulted && !f.delivered && !f.returned && f' == f.(live := true)
    case Undoes(_) => !f.live && f' == f.(faulted := f'.faulted, delivered := f'.delivered)
    case GivesUp(_) => !f.live && f' == f.(faulted := f'.faulted)
    case Refuses(_) => f.live && !f.faulted && f' == f
    case StopReturns(_) => !f.live && f' == f
    case Answers(_, first) => (first ==> f.delivered) && f' == f
    case CallsItself(_) => f.live && f' == f
  }
}
