# Cnchi hardware driver declarations and the settings store

This project models three modules of the Cnchi installer in Dafny.

- `cnchi/hardware/nvidia_304xx.py` declares the legacy NVIDIA 304xx driver.
  It gives a class name, a PCI class ID, a vendor ID, a table of 520 device
  IDs and a priority. It also gives a package list that grows by two
  `lib32-` packages on an x86_64 machine, a post-install hook that does
  nothing, and the fact that the driver is proprietary.
- `cnchi/hardware/vmware.py` declares the VMware guest driver. It gives a
  vendor ID, an empty class ID, two device IDs and a fixed package list of
  three packages. It passes no priority, and its post-install hook does
  nothing.
- `cnchi/_settings.py` is the shared settings store. It has four parts:
  - a `Singleton` metaclass that caches one instance per class (and, as
    written, hands back what the cached descriptor's `__get__` returns; see
    "Findings");
  - `DataObject`, whose attributes are loaded from a dictionary;
  - the `SharedData` descriptor, which returns one object to every owner;
  - the `NonSharedData` descriptor, which keeps one entry per owner name in
    a dictionary.

The files are laid out as follows.

- `pci_ids.dfy` defines PCI ID strings (`0x` and four lower-case hex
  digits) and their order. The order is string order on the four digits. It
  also holds the lemmas that turn a chain of neighbouring comparisons into
  facts about the whole table.
- `nvidia_304xx.dfy` and `vmware.dfy` model the two driver modules. In the
  NVIDIA model the device table is written row by row, exactly as the
  source lines 49-123 give it.
- `drivers.dfy` puts both drivers behind one datatype. It matches the
  `Hardware` subclass interface (`get_packages`, `post_install`).
- `settings.dfy` models the settings store with Dafny classes:
  - `DataObject` keeps its attribute dictionary in a map field.
  - Each descriptor class is a Dafny class.
  - Each Python class object under `Singleton` becomes a class of its own
    (`SharedDataClass`, `NonSharedDataClass`). Its `instance` field stands
    for the cached `_instance`.
- `wrappers.dfy` holds `Option`. `declarations.dfy` holds the declaration
  record and the tree type shared by the drivers.

Python values stored in the settings are the datatype `Settings.Value`.
`PyData` carries a reference to a `DataObject`, so it can be compared by
identity. `PyOther` stands for any other value.

## Model

| member | source | states |
|---|---|---|
| Nvidia304xx.Declare | cnchi/hardware/nvidia_304xx.py:34-37 | the driver declares class name "Nvidia_304xx", class "0x0300", vendor "0x10de", priority 0 and the device table |
| Nvidia304xx.DevicesAscending | cnchi/hardware/nvidia_304xx.py:48-123 | every entry of the device table is a well-formed PCI ID, and the table is strictly ascending |
| Nvidia304xx.DevicesDistinct | cnchi/hardware/nvidia_304xx.py:48-123 | no device ID occurs twice in the table |
| Nvidia304xx.DevicesMembership | cnchi/hardware/nvidia_304xx.py:49-49 | "0x0040" is claimed by the driver, while "0x0000" (below the first entry) is not |
| Nvidia304xx.DevicesCount | cnchi/hardware/nvidia_304xx.py:48-123 | the table holds 520 device IDs |
| PciIds.AscendingIsSorted | cnchi/hardware/nvidia_304xx.py:48-123 | in an ascending ID table every earlier entry is before every later one, not only its neighbour |
| PciIds.AscendingHasNoRepeats | cnchi/hardware/nvidia_304xx.py:48-123 | an ascending ID table has no repeated entry |
| PciIds.BelowFirstIsAbsent | cnchi/hardware/nvidia_304xx.py:48-123 | an ID before the first entry of an ascending table is not in the table |
| Nvidia304xx.Packages | cnchi/hardware/nvidia_304xx.py:130-134 | on "x86_64" the list is the five base packages followed by the two lib32 packages; on any other machine it is exactly the five base packages |
| Nvidia304xx.BasePackagesFirst | cnchi/hardware/nvidia_304xx.py:131-133 | on every machine the list begins with the five base packages, and anything extra is only appended after them |
| Nvidia304xx.MultilibExactlyOnX86_64 | cnchi/hardware/nvidia_304xx.py:132-133 | the list contains a "lib32-" package if and only if the machine is "x86_64" |
| Nvidia304xx.PackagesAreDistinct | cnchi/hardware/nvidia_304xx.py:130-134 | the list never names a package twice, on any machine |
| Nvidia304xx.PostInstall | cnchi/hardware/nvidia_304xx.py:136-138 | the hook leaves the target tree unchanged for every destination directory |
| Nvidia304xx.IsProprietary | cnchi/hardware/nvidia_304xx.py:140-141 | the driver is proprietary |
| Vmware.Declare | cnchi/hardware/vmware.py:32-35 | the driver declares class name "Vmware", an empty class ID, vendor "0x15ad", the device IDs "0x0405" and "0x0710", and no priority |
| Vmware.DeclarationIds | cnchi/hardware/vmware.py:33-35 | both device IDs and the vendor ID are well-formed PCI IDs, the devices are ascending, and the empty class ID is not an ID |
| Vmware.Packages | cnchi/hardware/vmware.py:43-44 | the list is exactly the video driver, the mouse driver and the guest tools, in that order, without duplicates |
| Vmware.PostInstall | cnchi/hardware/vmware.py:46-47 | the hook leaves the target tree unchanged for every destination directory |
| Drivers.PackagesAreDistinct | cnchi/hardware/nvidia_304xx.py:130-134 | for either driver and any machine, the package list has no duplicates |
| Drivers.VmwareIgnoresMachine | cnchi/hardware/vmware.py:43-44 | the VMware list is the same on any two machines |
| Drivers.MachineDependence | cnchi/hardware/nvidia_304xx.py:132-133 | two NVIDIA lists are equal exactly when both machines are x86_64 or neither is |
| Drivers.PostInstallChangesNothing | cnchi/hardware/nvidia_304xx.py:136-138 | for either driver, the post-install hook changes nothing |
| Drivers.DeclarationsDiffer | cnchi/hardware/nvidia_304xx.py:126-128 | only the NVIDIA driver passes a priority (0), and the two drivers claim different vendors |
| Settings.InitialAttributes | cnchi/_settings.py:53-61 | given a dictionary, the object's attributes are the dictionary's entries plus `_initialized` = True (overriding any `_initialized` key); given anything else, only `_initialized` = False |
| Settings.DataObject.constructor | cnchi/_settings.py:53-61 | the loop over the dictionary's entries leaves exactly the attributes given by InitialAttributes |
| Settings.SharedData.constructor | cnchi/_settings.py:76-80 | a new instance has the given name and a fresh DataObject built from `from_dict` |
| Settings.SharedData.Init | cnchi/_settings.py:76-80 | `__init__` sets the name, and creates the data object only when none is stored yet; an existing one is kept |
| Settings.SharedData.Get | cnchi/_settings.py:82-83 | the descriptor returns its stored object |
| Settings.SharedGetIgnoresOwner | cnchi/_settings.py:82-83 | every owner, including access through the class, gets the same object |
| Settings.SharedDataClass.Call | cnchi/_settings.py:34-41 | as written: the first call constructs and caches an instance; every call returns the cached instance's shared DataObject (through its `__get__`), never the descriptor, and later calls ignore their arguments |
| Settings.ConstructTwice | cnchi/_settings.py:34-41 | as written: two constructions return one DataObject, which holds the data of the first |
| Settings.SharedDataClass.IntendedCall | cnchi/_settings.py:34-41 | as intended: the first call constructs and caches an instance; later calls return that instance whatever their arguments |
| Settings.IntendedConstructTwice | cnchi/_settings.py:34-41 | as intended: two constructions give one instance, which keeps the first name and the first data |
| Settings.Checked | cnchi/_settings.py:112-114 | the check adds the owner's entry only when it is missing and never overwrites an existing entry |
| Settings.Assigned | cnchi/_settings.py:108-110 | setting gives the owner's entry the new value and leaves every other entry as it was |
| Settings.NonSharedData.constructor | cnchi/_settings.py:98-102 | a new instance has the given name and an empty dictionary |
| Settings.NonSharedData.Init | cnchi/_settings.py:98-102 | `__init__` sets the name, and creates the dictionary only when none is stored yet |
| Settings.NonSharedData.InstanceDataCheck | cnchi/_settings.py:112-114 | a missing owner gets a fresh empty DataObject as its entry; the dictionary is otherwise as Checked describes |
| Settings.NonSharedData.Get | cnchi/_settings.py:104-106 | returns the owner's existing entry, or the fresh empty DataObject it has just stored |
| Settings.NonSharedData.Set | cnchi/_settings.py:108-110 | the dictionary becomes Assigned of the old dictionary, the owner and the value |
| Settings.NonSharedData.GetFromClass | cnchi/_settings.py:104-114 | a read through the class itself (owner None) raises AttributeError |
| Settings.NonSharedDataClass.Call | cnchi/_settings.py:34-41 | as written: the first call constructs and caches an instance with an empty dictionary, and every call raises AttributeError, because reading the cached instance through the class calls its `__get__` |
| Settings.NonSharedConstructionRaises | cnchi/_settings.py:37-41 | as written: `NonSharedData(name)` raises AttributeError even on a class with no cached instance, after caching the instance it built |
| Settings.NonSharedDataClass.IntendedCall | cnchi/_settings.py:34-41 | as intended: one NonSharedData instance, and so one dictionary, serves every construction |
| Settings.GetAfterSet | cnchi/_settings.py:104-110 | a get after a set for the same owner finds the value set and adds nothing |
| Settings.SetThenGet | cnchi/_settings.py:104-110 | on the descriptor object, set followed by get returns the value set |
| Settings.CheckIsIdempotent | cnchi/_settings.py:112-114 | a second check for an owner changes nothing |
| Settings.GetTwice | cnchi/_settings.py:104-106 | two gets for one owner return the same object |
| Settings.LastSetWins | cnchi/_settings.py:108-110 | of two sets for one owner the last one wins |
| Settings.SetsForOthersCommute | cnchi/_settings.py:108-110 | sets for different owners commute, and neither changes what the other owner reads |

## Left out

- The `Hardware` base class is not part of this model. That includes its device matching, its use of the priority, the driver registry and how a driver is chosen when several match. The declarations are recorded exactly as passed; nothing is proved about how they are used.
- `os.uname()[-1]` becomes the `machine` parameter of `Nvidia304xx.Packages`.
- The VMware driver's `is_proprietary` is inherited from the base class, so it is not modelled.
- PciIds.Before compares IDs as strings of four lower-case hex digits. That agrees with numeric order for such strings, but the numeric reading is not modelled.
- The `from config import settings` import in `cnchi/_settings.py` is unused by the modelled code and is left out.
- Python's metaclass and descriptor protocols are not modelled in general. Each class object under `Singleton` is an explicit object whose `Call` method stands for `Singleton.__call__`. Reading `cls._instance` through the class is modelled as the cached descriptor's `__get__(None, cls)`, which is what Python does for these two classes. Each `__get__`/`__set__` is an explicit method taking the owner, or for NonSharedData the owner's `name`.
- The truthiness test `not cls._instance` is modelled as a null test on the cache. Once SharedData has cached an instance, the object tested is the shared DataObject, which defines neither `__bool__` nor `__len__` and so is always true. Once NonSharedData has cached an instance, the read raises before any truth test.
- `NonSharedData.__get__` through the class itself (owner None) raises AttributeError at `instance.name`; `Settings.NonSharedData.GetFromClass` models that read. Assigning through the class never calls `__set__`; it replaces the descriptor, and that path is not represented.
- An owner without a `name` attribute makes `__get__` and `__set__` raise AttributeError. An owner whose `name` is not a string, or is unhashable, is also excluded by the string parameter.
- Non-string dictionary keys passed to `DataObject` make `setattr` raise TypeError. The model's dictionaries have string keys only.
- Settings.InitialAttributes: keys naming an attribute every object already has are treated as ordinary keys. In Python, `__dict__` replaces the whole attribute dictionary, so entries set before it are lost and the result depends on iteration order. `__class__` raises TypeError, and `__weakref__` raises AttributeError.
- Settings.InitialAttributes: iteration order of the dictionary is not modelled. For every other key the keys are distinct, so the resulting attributes do not depend on the order.
- Dictionary values (`PyDict`) are modelled by value. Python stores a reference, so a later in-place change to a dictionary held by a `DataObject` attribute or a `NonSharedData` entry is visible through the store. That aliasing, and in-place mutation of stored dictionaries, are not captured.
- Choosing among several matching drivers, for example by priority or by proprietary status, is not done in these files. The model follows the code and leaves it out.

## Findings

| source | as written | input that shows it | evidently intended | confidence | as-written member | corrected member |
|---|---|---|---|---|---|---|
| cnchi/_settings.py:37-41 | once `_instance` is set, `cls._instance` finds a SharedData instance, which is a descriptor, so Python returns its `__get__(None, SharedData)`: the shared DataObject, not the singleton | `SharedData("s", {"a": 1})` returns a DataObject with attribute `a`, and a second call returns that same DataObject | every call returns the one cached SharedData instance | medium, not executed | Settings.SharedDataClass.Call | Settings.SharedDataClass.IntendedCall |
| cnchi/_settings.py:37-41 | once `_instance` is set, `cls._instance` calls the cached NonSharedData instance's `__get__(None, NonSharedData)`, whose `_instance_data_check(None)` reads `None.name` (line 113) and raises AttributeError | `NonSharedData("x")` caches an instance at line 39 and then raises at line 41; every later call raises at line 38 | every call returns the one cached NonSharedData instance | high, not executed | Settings.NonSharedDataClass.Call | Settings.NonSharedDataClass.IntendedCall |
