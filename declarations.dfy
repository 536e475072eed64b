/** What every driver module hands to the shared hardware base class when
    it is constructed, and the target file tree its post-install hook runs
    against. The base class itself (matching, priorities, the registry) is
    not part of this model. */
module Declarations {
  import opened Wrappers

  /** The arguments of `Hardware.__init__`: class name, PCI class ID, PCI
      vendor ID, the device-ID table and, when the driver passes one, a
      priority. */
  datatype Declaration = Declaration(
    className: string,
    classId: string,
    vendorId: string,
    devices: seq<string>,
    priority: Option<int>)

  /** The installed system under the destination directory, path to contents. */
  type Tree = map<string, string>

  /** A package list that names no package twice. */
  predicate NoDuplicates(pkgs: seq<string>) {
    forall i, j :: 0 <= i < j < |pkgs| ==> pkgs[i] != pkgs[j]
  }
}
