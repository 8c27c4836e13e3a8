/**
 * The inherent data a block is built from: a dictionary from 8-byte identifiers to the
 * values inherent providers put there. Payload encoding is abstract: both inherents this
 * core reads or writes (the timestamp and the BABE slot) are 64-bit integers, kept as such.
 */
module Inherents {
  import opened Wrappers

  const U64_MODULUS: nat := 0x1_0000_0000_0000_0000

  /** An unsigned 64-bit integer. */
  type u64 = x: int | 0 <= x < U64_MODULUS

  /** An 8-byte inherent identifier, written as its ASCII characters. */
  type InherentIdentifier = seq<char>

  /** The identifier of the timestamp inherent. */
  const TIMESTAMP_INHERENT_IDENTIFIER: InherentIdentifier := "timstap0"

  /** The identifier of the BABE slot-number inherent. */
  const BABE_INHERENT_IDENTIFIER: InherentIdentifier := "babeslot"

  type InherentMap = map<InherentIdentifier, u64>

  datatype InherentError =
    | InherentMissing(id: InherentIdentifier)
    | InherentAlreadyExists(id: InherentIdentifier)

  /** The inherent data under construction, filled in place by the registered providers. */
  class InherentData {
    var data: InherentMap

    constructor ()
      ensures data == map[]
    {
      data := map[];
    }

    /** Stores `value` under `id`; an identifier that is already present is refused. */
    method PutData(id: InherentIdentifier, value: u64) returns (r: Outcome<InherentError>)
      modifies this
      ensures id in old(data) ==> r == Fail(InherentAlreadyExists(id)) && data == old(data)
      ensures id !in old(data) ==> r == Pass && data == old(data)[id := value]
    {
      if id in data {
        r := Fail(InherentAlreadyExists(id));
      } else {
        data := data[id := value];
        r := Pass;
      }
    }
  }

  /** The BABE slot number carried by a snapshot of the inherent data. */
  function BabeSlot(inherents: InherentMap): (r: Result<u64, InherentError>)
    ensures r.Ok? <==> BABE_INHERENT_IDENTIFIER in inherents
    ensures r.Ok? ==> r.value == inherents[BABE_INHERENT_IDENTIFIER]
    ensures r.Err? ==> r.error == InherentMissing(BABE_INHERENT_IDENTIFIER)
  {
    if BABE_INHERENT_IDENTIFIER in inherents then Ok(inherents[BABE_INHERENT_IDENTIFIER])
    else Err(InherentMissing(BABE_INHERENT_IDENTIFIER))
  }
}
