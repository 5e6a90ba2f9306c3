/** The listing of a node's guests, as the guard reads it. */
module PveReader {
  datatype GuestType = Vm | Lxc

  datatype Guest = Guest(vmid: int, guestType: GuestType, status: string, node: string, template: bool) {
    predicate Stopped() {
      status == "stopped"
    }
  }

  /** Templates never run, so they are not counted. */
  predicate AllGuestsStopped(guests: seq<Guest>) {
    forall g :: g in guests && !g.template ==> g.Stopped()
  }
}
