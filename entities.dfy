/** The backend's enumerations, stored as the strings their names spell. */
module Entities {

  datatype Gender = MALE | FEMALE

  datatype City = MOSCOW | SAINT_PETERSBURG

  datatype ParticipantStatus = REGISTERED | PRESENT | MATCHED

  function CityName(c: City): string {
    match c
    case MOSCOW => "MOSCOW"
    case SAINT_PETERSBURG => "SAINT_PETERSBURG"
  }

  function GenderName(g: Gender): string {
    match g
    case MALE => "MALE"
    case FEMALE => "FEMALE"
  }

  function StatusName(s: ParticipantStatus): string {
    match s
    case REGISTERED => "REGISTERED"
    case PRESENT => "PRESENT"
    case MATCHED => "MATCHED"
  }
}
