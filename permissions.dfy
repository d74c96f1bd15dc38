/**
 * The permission gate of the recording plugin: which Android permissions recording needs
 * on a given SDK version, and which of them still have to be requested.
 * The operating system's answer to checkSelfPermission is the `granted` set of a `Device`.
 */
module Permissions {

  datatype Permission =
    | RecordAudio
    | ReadMediaAudio
    | ReadMediaImages
    | ReadMediaVideo
    | WriteExternalStorage
    | ReadExternalStorage

  /** Build.VERSION_CODES.TIRAMISU (Android 13). */
  const TIRAMISU: int := 33
  /** PackageManager.PERMISSION_GRANTED. */
  const PERMISSION_GRANTED: int := 0
  /** The request code the plugin tags its permission request with. */
  const REQUEST_CODE: int := 1

  /** The device as the permission check sees it: its SDK level and the permissions it holds. */
  datatype Device = Device(sdkInt: int, granted: set<Permission>)

  predicate IsMediaPermission(p: Permission) {
    p == ReadMediaAudio || p == ReadMediaImages || p == ReadMediaVideo
  }

  /** The permissions recording needs: the fine-grained media ones from TIRAMISU on, the storage ones before. */
  function Required(sdkInt: int): (r: seq<Permission>)
    ensures |r| == if sdkInt >= TIRAMISU then 4 else 3
    ensures r[0] == RecordAudio
    ensures forall i :: 1 <= i < |r| ==> (IsMediaPermission(r[i]) <==> sdkInt >= TIRAMISU)
    ensures forall i, j :: 0 <= i < j < |r| ==> r[i] != r[j]
  {
    if sdkInt >= TIRAMISU then
      [RecordAudio, ReadMediaAudio, ReadMediaImages, ReadMediaVideo]
    else
      [RecordAudio, WriteExternalStorage, ReadExternalStorage]
  }

  /** The permissions of `perms` the device does not hold. */
  function NotGranted(perms: seq<Permission>, granted: set<Permission>): (r: seq<Permission>)
    ensures |r| <= |perms|
    ensures forall p :: p in r <==> p in perms && p !in granted
    ensures forall p :: multiset(r)[p] == if p in granted then 0 else multiset(perms)[p]
  {
    if perms == [] then []
    else
      assert perms == [perms[0]] + perms[1..];
      var rest := NotGranted(perms[1..], granted);
      if perms[0] in granted then rest else [perms[0]] + rest
  }

  /** The device holds every permission recording needs. */
  predicate Permitted(d: Device) {
    forall p :: p in Required(d.sdkInt) ==> p in d.granted
  }

  /** Nothing is left to request exactly when every permission is held. */
  lemma NothingMissingIff(perms: seq<Permission>, granted: set<Permission>)
    ensures NotGranted(perms, granted) == [] <==> forall p :: p in perms ==> p in granted
  {
  }

  /** The gate's verdict on a device agrees with the filter it runs. */
  lemma PermittedIff(d: Device)
    ensures Permitted(d) <==> NotGranted(Required(d.sdkInt), d.granted) == []
  {
    NothingMissingIff(Required(d.sdkInt), d.granted);
  }
}
