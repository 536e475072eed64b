/** The VMware guest driver module (cnchi/hardware/vmware.py): its
    declaration constants and its package list. */
module Vmware {
  import opened Wrappers
  import opened PciIds
  import opened Declarations

  const ClassName: string := "Vmware"
  // Empty: the module names no PCI class; what the base class makes of
  // that is not part of this model.
  const ClassId: string := ""
  const VendorId: string := "0x15ad"
  const Devices: seq<string> := ["0x0405", "0x0710"]

  /** The declaration `Vmware.__init__` passes to the base class. Unlike the
      NVIDIA module it passes no priority, so the base class's default
      applies. */
  function Declare(): (d: Declaration)
    ensures d.className == "Vmware" && d.classId == "" && d.vendorId == "0x15ad"
    ensures d.devices == ["0x0405", "0x0710"]
    ensures d.priority == None
  {
    Declaration(ClassName, ClassId, VendorId, Devices, None)
  }

  /** The two device IDs are well formed, in ascending order; the vendor ID
      is well formed and the class ID is not an ID at all. */
  lemma DeclarationIds()
    ensures Ascending(Devices) && |Devices| == 2
    ensures IsPciId(VendorId) && !IsPciId(ClassId)
  {
    assert AscendingFrom(Devices, 0);
    AscendingFromIsAscending(Devices, 0);
    assert Devices[0..] == Devices;
  }

  /** `get_packages`: the video driver, the mouse input driver and the guest
      tools, in that order; nothing depends on the machine. */
  function Packages(): (pkgs: seq<string>)
    ensures pkgs == ["xf86-video-vmware", "xf86-input-vmmouse", "open-vm-tools"]
    ensures NoDuplicates(pkgs)
  {
    ["xf86-video-vmware", "xf86-input-vmmouse", "open-vm-tools"]
  }

  /** `post_install`: the body is `pass`, so the target tree is left as it is. */
  function PostInstall(destDir: string, target: Tree): (after: Tree)
    ensures after == target
  {
    target
  }
}
