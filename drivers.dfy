/** The two driver modules behind one interface: each is a subclass of the
    installer's hardware base class overriding `get_packages` and
    `post_install`. Here they are the variants of one datatype, and the
    machine name is an explicit argument for both (the VMware module never
    looks at it). */
module Drivers {
  import opened Wrappers
  import opened Declarations
  import Nvidia304xx
  import Vmware

  datatype Driver = Nvidia304xxDriver | VmwareDriver

  function Declare(driver: Driver): Declaration {
    match driver
    case Nvidia304xxDriver => Nvidia304xx.Declare()
    case VmwareDriver => Vmware.Declare()
  }

  function Packages(driver: Driver, machine: string): seq<string> {
    match driver
    case Nvidia304xxDriver => Nvidia304xx.Packages(machine)
    case VmwareDriver => Vmware.Packages()
  }

  function PostInstall(driver: Driver, destDir: string, target: Tree): Tree {
    match driver
    case Nvidia304xxDriver => Nvidia304xx.PostInstall(destDir, target)
    case VmwareDriver => Vmware.PostInstall(destDir, target)
  }

  /** No driver asks for the same package twice, on any machine. */
  lemma PackagesAreDistinct(driver: Driver, machine: string)
    ensures NoDuplicates(Packages(driver, machine))
  {
    match driver
    case Nvidia304xxDriver => Nvidia304xx.PackagesAreDistinct(machine);
    case VmwareDriver =>
  }

  /** The VMware package list is the same for any two machines. */
  lemma VmwareIgnoresMachine(m1: string, m2: string)
    ensures Packages(VmwareDriver, m1) == Packages(VmwareDriver, m2)
  {
  }

  /** The NVIDIA package list differs between x86_64 and any other machine,
      and is the same for any two machines on the same side. */
  lemma MachineDependence(m1: string, m2: string)
    ensures Packages(Nvidia304xxDriver, m1) == Packages(Nvidia304xxDriver, m2) <==>
      (m1 == "x86_64") == (m2 == "x86_64")
  {
    if (m1 == "x86_64") != (m2 == "x86_64") {
      assert |Packages(Nvidia304xxDriver, m1)| != |Packages(Nvidia304xxDriver, m2)|;
    }
  }


  /** Neither driver's post-install hook changes the target tree, whatever
      the destination directory. */
  lemma PostInstallChangesNothing(driver: Driver, destDir: string, target: Tree)
    ensures PostInstall(driver, destDir, target) == target
  {
  }

  /** Only the NVIDIA module passes a priority to the base class, and the two
      modules claim different vendors. */
  lemma DeclarationsDiffer()
    ensures Declare(Nvidia304xxDriver).priority == Some(0)
    ensures Declare(VmwareDriver).priority == None
    ensures Declare(Nvidia304xxDriver).vendorId != Declare(VmwareDriver).vendorId
  {
  }
}
