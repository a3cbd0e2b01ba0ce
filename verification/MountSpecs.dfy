/** What a backend is asked to mount (pkg/backend/backend.go). */
module MountSpecs {
  datatype Source = Source(path: string, mode: string)

  datatype MountSpec = MountSpec(
    volumeID: string, target: string, sources: seq<Source>, options: map<string, string>, readOnly: bool)

  const RW := "RW"
  const RO := "RO"
  const NC := "NC"
}
