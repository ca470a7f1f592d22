/** The record the screen receives from the characters API, one per card. */
module Characters {

  /** One character as the API sends it; `createdAt` is carried but not used by the screen. */
  datatype Character = Character(
    id: int,
    name: string,
    gender: string,
    status: string,
    species: string,
    createdAt: string,
    image: string
  )
}
