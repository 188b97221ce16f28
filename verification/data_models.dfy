/** The `Bus` value type: one run of the bus, two unvalidated "H:MM" strings. */
module DataModels {

  /** Any two strings make a bus; nothing checks that they are well-formed times. */
  datatype Bus = Bus(departure: string, arrival: string) {

    /** The identity used by the user interface: the departure string. */
    function Id(): string {
      departure
    }
  }

  /** The identity of a bus is its departure string, whatever the arrival. */
  lemma IdIsDeparture(b: Bus)
    ensures b.Id() == b.departure
  {
  }

  /** Replacing the arrival never changes the identity. */
  lemma IdIgnoresArrival(b: Bus, arrival: string)
    ensures b.(arrival := arrival).Id() == b.Id()
  {
  }

  /** Two buses are the same item exactly when their departures agree. */
  lemma SameIdentityIff(b: Bus, c: Bus)
    ensures b.Id() == c.Id() <==> b.departure == c.departure
  {
  }
}
