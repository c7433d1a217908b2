/** The Cab schema: the fields of a cab record, their defaults, and the unique license plate. */
module CabModel {
  import opened Common

  /** The fields an administrator supplies (GraphQL CabInput); availability is not among them. */
  datatype CabInput = CabInput(
    driverName: string,
    carModel: string,
    licensePlate: string,
    capacity: int,
    pricePerKm: real,
    location: string,
    driverPhone: string)

  /** A stored cab: the input fields, the availability flag and the two timestamps. */
  datatype Cab = Cab(
    driverName: string,
    carModel: string,
    licensePlate: string,
    capacity: int,
    pricePerKm: real,
    location: string,
    isAvailable: bool,
    driverPhone: string,
    createdAt: Time,
    updatedAt: Time)

  /** The administrator-editable part of a stored cab. */
  function Fields(c: Cab): CabInput {
    CabInput(c.driverName, c.carModel, c.licensePlate, c.capacity, c.pricePerKm, c.location, c.driverPhone)
  }

  /** Every required field is present. A `required` String rejects the empty string; the two
      numbers are non-null in the GraphQL input and so always present. */
  function HasRequiredFields(input: CabInput): (ok: bool)
    ensures !ok <==> "" in [input.driverName, input.carModel, input.licensePlate, input.location, input.driverPhone]
  {
    && input.driverName != ""
    && input.carModel != ""
    && input.licensePlate != ""
    && input.location != ""
    && input.driverPhone != ""
  }

  /** A cab created from an input: available by default, both timestamps set to the creation time. */
  function NewCab(input: CabInput, now: Time): (c: Cab)
    ensures Fields(c) == input
    ensures c.isAvailable
    ensures c.createdAt == now && c.updatedAt == now
  {
    Cab(input.driverName, input.carModel, input.licensePlate, input.capacity, input.pricePerKm,
        input.location, true, input.driverPhone, now, now)
  }

  /** An update that replaces the input fields; the flag and the creation time stay. */
  function Overwrite(c: Cab, input: CabInput, now: Time): (r: Cab)
    ensures Fields(r) == input
    ensures r.isAvailable == c.isAvailable && r.createdAt == c.createdAt && r.updatedAt == now
  {
    Cab(input.driverName, input.carModel, input.licensePlate, input.capacity, input.pricePerKm,
        input.location, c.isAvailable, input.driverPhone, c.createdAt, now)
  }

  /** An update that sets only the availability flag. */
  function WithAvailability(c: Cab, available: bool, now: Time): (r: Cab)
    ensures Fields(r) == Fields(c)
    ensures r.isAvailable == available && r.createdAt == c.createdAt && r.updatedAt == now
  {
    c.(isAvailable := available, updatedAt := now)
  }

  /** The ids of the cabs that carry a given plate. */
  function PlateHolders(cabs: map<Id, Cab>, plate: string): (ids: set<Id>)
    ensures forall id :: id in ids <==> id in cabs && cabs[id].licensePlate == plate
  {
    set id | id in cabs && cabs[id].licensePlate == plate
  }

  /** Each cab is the only holder of its own plate. */
  ghost predicate SoleHolders(cabs: map<Id, Cab>) {
    forall id :: id in cabs ==> PlateHolders(cabs, cabs[id].licensePlate) == {id}
  }

  /** The unique index on licensePlate: no two cabs share a plate. */
  ghost predicate UniquePlates(cabs: map<Id, Cab>) {
    forall i, j :: i in cabs && j in cabs && cabs[i].licensePlate == cabs[j].licensePlate ==> i == j
  }

  /** The unique index holds exactly when each cab is the only holder of its own plate. */
  lemma UniquePlatesIsSoleHolders(cabs: map<Id, Cab>)
    ensures UniquePlates(cabs) <==> SoleHolders(cabs)
  {
    if UniquePlates(cabs) {
      forall id | id in cabs ensures PlateHolders(cabs, cabs[id].licensePlate) == {id} {
        var holders := PlateHolders(cabs, cabs[id].licensePlate);
        assert forall j :: j in holders ==> j == id;
        assert id in holders;
      }
    }
    if SoleHolders(cabs) {
      forall i, j | i in cabs && j in cabs && cabs[i].licensePlate == cabs[j].licensePlate ensures i == j {
        assert j in PlateHolders(cabs, cabs[i].licensePlate);
      }
    }
  }

  /** Writing a cab whose plate no other cab holds keeps the plates unique, for an insert and for
      an overwrite alike. */
  lemma UniquePlatesAfterWrite(cabs: map<Id, Cab>, id: Id, c: Cab)
    requires UniquePlates(cabs)
    requires PlateHolders(cabs, c.licensePlate) <= {id}
    ensures UniquePlates(cabs[id := c])
  {
  }

  /** Rewriting a cab without changing its plate keeps the plates unique. */
  lemma UniquePlatesAfterSamePlate(cabs: map<Id, Cab>, id: Id, c: Cab)
    requires UniquePlates(cabs)
    requires id in cabs && c.licensePlate == cabs[id].licensePlate
    ensures UniquePlates(cabs[id := c])
  {
    UniquePlatesAfterWrite(cabs, id, c);
  }
}
