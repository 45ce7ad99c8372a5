// Names shared by every part of the model.
module Common {

  type PlayerId = int
  type CollectibleId = int
  // Accounts in the database; a player's id is its account's.
  type UserId = int
  // Nanoseconds.
  type Time = int

  datatype Option<+T> = None | Some(value: T)

  // Connections of the same player are told apart.
  datatype Client = Client(connection: int, id: PlayerId, username: string)

  datatype LatLng = LatLng(lat: real, lng: real)
}
