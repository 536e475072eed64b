/** The legacy NVIDIA driver module for GeForce 6 and 7 series cards
    (cnchi/hardware/nvidia_304xx.py): its declaration constants, its device
    table and its package list. */
module Nvidia304xx {
  import opened PciIds
  import opened Wrappers
  import opened Declarations

  const ClassName: string := "Nvidia_304xx"
  const ClassId: string := "0x0300"
  const VendorId: string := "0x10de"
  const Priority: int := 0

  // DEVICES, one constant per line of the source table: Row00 is line 49 of
  // nvidia_304xx.py and RowNN is line 49 + NN. Devices joins them in order,
  // in five blocks of fifteen lines, each nested to the right so that the
  // head of every part is one step away.
  const Row00: seq<string> := ["0x0040", "0x0041", "0x0042", "0x0043", "0x0044", "0x0045", "0x0046"]
  const Row01: seq<string> := ["0x0047", "0x0048", "0x004e", "0x0090", "0x0091", "0x0092", "0x0093"]
  const Row02: seq<string> := ["0x0095", "0x0098", "0x0099", "0x009d", "0x00c0", "0x00c1", "0x00c2"]
  const Row03: seq<string> := ["0x00c3", "0x00c8", "0x00c9", "0x00cc", "0x00cd", "0x00ce", "0x00f1"]
  const Row04: seq<string> := ["0x00f2", "0x00f3", "0x00f4", "0x00f5", "0x00f6", "0x00f8", "0x00f9"]
  const Row05: seq<string> := ["0x0140", "0x0141", "0x0142", "0x0143", "0x0144", "0x0145", "0x0146"]
  const Row06: seq<string> := ["0x0147", "0x0148", "0x0149", "0x014a", "0x014c", "0x014d", "0x014e"]
  const Row07: seq<string> := ["0x014f", "0x0160", "0x0161", "0x0162", "0x0163", "0x0164", "0x0165"]
  const Row08: seq<string> := ["0x0166", "0x0167", "0x0168", "0x0169", "0x016a", "0x0191", "0x0193"]
  const Row09: seq<string> := ["0x0194", "0x0197", "0x019d", "0x019e", "0x01d0", "0x01d1", "0x01d2"]
  const Row10: seq<string> := ["0x01d3", "0x01d6", "0x01d7", "0x01d8", "0x01da", "0x01db", "0x01dc"]
  const Row11: seq<string> := ["0x01dd", "0x01de", "0x01df", "0x0221", "0x0222", "0x0240", "0x0241"]
  const Row12: seq<string> := ["0x0242", "0x0244", "0x0245", "0x0247", "0x0290", "0x0291", "0x0292"]
  const Row13: seq<string> := ["0x0293", "0x0294", "0x0295", "0x0297", "0x0298", "0x0299", "0x029a"]
  const Row14: seq<string> := ["0x029b", "0x029c", "0x029d", "0x029e", "0x029f", "0x02e0", "0x02e1"]
  const Row15: seq<string> := ["0x02e2", "0x02e3", "0x02e4", "0x038b", "0x0390", "0x0391", "0x0392"]
  const Row16: seq<string> := ["0x0393", "0x0394", "0x0395", "0x0397", "0x0398", "0x0399", "0x039c"]
  const Row17: seq<string> := ["0x039e", "0x03d0", "0x03d1", "0x03d2", "0x03d5", "0x03d6", "0x0400"]
  const Row18: seq<string> := ["0x0401", "0x0402", "0x0403", "0x0404", "0x0405", "0x0406", "0x0407"]
  const Row19: seq<string> := ["0x0408", "0x0409", "0x040a", "0x040b", "0x040c", "0x040d", "0x040e"]
  const Row20: seq<string> := ["0x040f", "0x0410", "0x0420", "0x0421", "0x0422", "0x0423", "0x0424"]
  const Row21: seq<string> := ["0x0425", "0x0426", "0x0427", "0x0428", "0x0429", "0x042a", "0x042b"]
  const Row22: seq<string> := ["0x042c", "0x042d", "0x042e", "0x042f", "0x0531", "0x0533", "0x053a"]
  const Row23: seq<string> := ["0x053b", "0x053e", "0x05e0", "0x05e1", "0x05e2", "0x05e3", "0x05e6"]
  const Row24: seq<string> := ["0x05e7", "0x05ea", "0x05eb", "0x05ed", "0x05f8", "0x05f9", "0x05fd"]
  const Row25: seq<string> := ["0x05fe", "0x05ff", "0x0600", "0x0601", "0x0602", "0x0603", "0x0604"]
  const Row26: seq<string> := ["0x0605", "0x0606", "0x0607", "0x0608", "0x0609", "0x060a", "0x060b"]
  const Row27: seq<string> := ["0x060c", "0x060d", "0x060f", "0x0610", "0x0611", "0x0612", "0x0613"]
  const Row28: seq<string> := ["0x0614", "0x0615", "0x0617", "0x0618", "0x0619", "0x061a", "0x061b"]
  const Row29: seq<string> := ["0x061c", "0x061d", "0x061e", "0x061f", "0x0621", "0x0622", "0x0623"]
  const Row30: seq<string> := ["0x0625", "0x0626", "0x0627", "0x0628", "0x062a", "0x062b", "0x062c"]
  const Row31: seq<string> := ["0x062d", "0x062e", "0x0630", "0x0631", "0x0632", "0x0635", "0x0637"]
  const Row32: seq<string> := ["0x0638", "0x063a", "0x0640", "0x0641", "0x0643", "0x0644", "0x0645"]
  const Row33: seq<string> := ["0x0646", "0x0647", "0x0648", "0x0649", "0x064a", "0x064b", "0x064c"]
  const Row34: seq<string> := ["0x0651", "0x0652", "0x0653", "0x0654", "0x0656", "0x0658", "0x0659"]
  const Row35: seq<string> := ["0x065a", "0x065b", "0x065c", "0x06c0", "0x06c4", "0x06ca", "0x06cd"]
  const Row36: seq<string> := ["0x06d1", "0x06d2", "0x06d8", "0x06d9", "0x06da", "0x06dc", "0x06dd"]
  const Row37: seq<string> := ["0x06de", "0x06df", "0x06e0", "0x06e1", "0x06e2", "0x06e3", "0x06e4"]
  const Row38: seq<string> := ["0x06e5", "0x06e6", "0x06e7", "0x06e8", "0x06e9", "0x06ea", "0x06eb"]
  const Row39: seq<string> := ["0x06ec", "0x06ef", "0x06f1", "0x06f8", "0x06f9", "0x06fa", "0x06fb"]
  const Row40: seq<string> := ["0x06fd", "0x06ff", "0x07e0", "0x07e1", "0x07e2", "0x07e3", "0x07e5"]
  const Row41: seq<string> := ["0x0840", "0x0844", "0x0845", "0x0846", "0x0847", "0x0848", "0x0849"]
  const Row42: seq<string> := ["0x084a", "0x084b", "0x084c", "0x084d", "0x084f", "0x0860", "0x0861"]
  const Row43: seq<string> := ["0x0862", "0x0863", "0x0864", "0x0865", "0x0866", "0x0867", "0x0868"]
  const Row44: seq<string> := ["0x0869", "0x086a", "0x086c", "0x086d", "0x086e", "0x086f", "0x0870"]
  const Row45: seq<string> := ["0x0871", "0x0872", "0x0873", "0x0874", "0x0876", "0x087a", "0x087d"]
  const Row46: seq<string> := ["0x087e", "0x087f", "0x08a0", "0x08a2", "0x08a3", "0x08a4", "0x08a5"]
  const Row47: seq<string> := ["0x0a20", "0x0a22", "0x0a23", "0x0a26", "0x0a27", "0x0a28", "0x0a29"]
  const Row48: seq<string> := ["0x0a2a", "0x0a2b", "0x0a2c", "0x0a2d", "0x0a32", "0x0a34", "0x0a35"]
  const Row49: seq<string> := ["0x0a38", "0x0a3c", "0x0a60", "0x0a62", "0x0a63", "0x0a64", "0x0a65"]
  const Row50: seq<string> := ["0x0a66", "0x0a67", "0x0a68", "0x0a69", "0x0a6a", "0x0a6c", "0x0a6e"]
  const Row51: seq<string> := ["0x0a6f", "0x0a70", "0x0a71", "0x0a72", "0x0a73", "0x0a74", "0x0a75"]
  const Row52: seq<string> := ["0x0a76", "0x0a78", "0x0a7a", "0x0a7c", "0x0ca0", "0x0ca2", "0x0ca3"]
  const Row53: seq<string> := ["0x0ca4", "0x0ca5", "0x0ca7", "0x0ca8", "0x0ca9", "0x0cac", "0x0caf"]
  const Row54: seq<string> := ["0x0cb0", "0x0cb1", "0x0cbc", "0x0dc0", "0x0dc4", "0x0dc5", "0x0dc6"]
  const Row55: seq<string> := ["0x0dcd", "0x0dce", "0x0dd1", "0x0dd2", "0x0dd3", "0x0dd6", "0x0dd8"]
  const Row56: seq<string> := ["0x0dda", "0x0de0", "0x0de1", "0x0de2", "0x0de3", "0x0de4", "0x0de5"]
  const Row57: seq<string> := ["0x0de8", "0x0de9", "0x0dea", "0x0deb", "0x0dec", "0x0ded", "0x0dee"]
  const Row58: seq<string> := ["0x0def", "0x0df0", "0x0df1", "0x0df2", "0x0df3", "0x0df4", "0x0df5"]
  const Row59: seq<string> := ["0x0df6", "0x0df7", "0x0df8", "0x0df9", "0x0dfa", "0x0dfc", "0x0e22"]
  const Row60: seq<string> := ["0x0e23", "0x0e24", "0x0e30", "0x0e31", "0x0e3a", "0x0e3b", "0x0f00"]
  const Row61: seq<string> := ["0x0f01", "0x0fc0", "0x0fc1", "0x0fc2", "0x0fc6", "0x0fce", "0x0fd1"]
  const Row62: seq<string> := ["0x0fd2", "0x0fd3", "0x0fd4", "0x0fd5", "0x0fd8", "0x0fd9", "0x0fe0"]
  const Row63: seq<string> := ["0x0ff2", "0x0ffb", "0x0ffc", "0x0ffd", "0x0fff", "0x1022", "0x1028"]
  const Row64: seq<string> := ["0x1040", "0x1042", "0x1048", "0x1049", "0x104a", "0x1050", "0x1051"]
  const Row65: seq<string> := ["0x1052", "0x1054", "0x1055", "0x1056", "0x1057", "0x1058", "0x1059"]
  const Row66: seq<string> := ["0x105a", "0x107d", "0x1080", "0x1081", "0x1082", "0x1084", "0x1086"]
  const Row67: seq<string> := ["0x1087", "0x1088", "0x1089", "0x108b", "0x1091", "0x1094", "0x1096"]
  const Row68: seq<string> := ["0x109a", "0x109b", "0x10c0", "0x10c3", "0x10c5", "0x10d8", "0x1180"]
  const Row69: seq<string> := ["0x1183", "0x1185", "0x1188", "0x1189", "0x118f", "0x11a0", "0x11a1"]
  const Row70: seq<string> := ["0x11a7", "0x11ba", "0x11bc", "0x11bd", "0x11be", "0x11bf", "0x11c0"]
  const Row71: seq<string> := ["0x11c6", "0x1200", "0x1201", "0x1203", "0x1205", "0x1206", "0x1207"]
  const Row72: seq<string> := ["0x1208", "0x1210", "0x1211", "0x1212", "0x1213", "0x1241", "0x1243"]
  const Row73: seq<string> := ["0x1244", "0x1245", "0x1246", "0x1247", "0x1248", "0x1249", "0x124b"]
  const Row74: seq<string> := ["0x124d", "0x1251"]

  const Devices: seq<string> := Block0 + (Block1 + (Block2 + (Block3 + Block4)))
  const Block0: seq<string> :=
    Row00 + (Row01 + (Row02 + (Row03 + (Row04 +
    (Row05 + (Row06 + (Row07 + (Row08 + (Row09 +
    (Row10 + (Row11 + (Row12 + (Row13 + (Row14))))))))))))))
  const Block1: seq<string> :=
    Row15 + (Row16 + (Row17 + (Row18 + (Row19 +
    (Row20 + (Row21 + (Row22 + (Row23 + (Row24 +
    (Row25 + (Row26 + (Row27 + (Row28 + (Row29))))))))))))))
  const Block2: seq<string> :=
    Row30 + (Row31 + (Row32 + (Row33 + (Row34 +
    (Row35 + (Row36 + (Row37 + (Row38 + (Row39 +
    (Row40 + (Row41 + (Row42 + (Row43 + (Row44))))))))))))))
  const Block3: seq<string> :=
    Row45 + (Row46 + (Row47 + (Row48 + (Row49 +
    (Row50 + (Row51 + (Row52 + (Row53 + (Row54 +
    (Row55 + (Row56 + (Row57 + (Row58 + (Row59))))))))))))))
  const Block4: seq<string> :=
    Row60 + (Row61 + (Row62 + (Row63 + (Row64 +
    (Row65 + (Row66 + (Row67 + (Row68 + (Row69 +
    (Row70 + (Row71 + (Row72 + (Row73 + (Row74))))))))))))))

  /** The declaration `Nvidia_304xx.__init__` passes to the base class: the
      display-controller class, NVIDIA's vendor ID, the table above and an
      explicit priority of 0. */
  function Declare(): (d: Declaration)
    ensures d.className == "Nvidia_304xx"
    ensures d.classId == "0x0300" && d.vendorId == "0x10de" && d.priority == Some(0)
    ensures d.devices == Devices
  {
    Declaration(ClassName, ClassId, VendorId, Devices, Some(Priority))
  }

  const BasePackages: seq<string> :=
    ["nvidia-304xx", "nvidia-304xx-utils", "nvidia-304xx-libgl", "libvdpau", "libcl"]
  const MultilibPackages: seq<string> := ["lib32-nvidia-304xx-libgl", "lib32-libvdpau"]

  /** `get_packages`, with the machine name that `os.uname()` would report
      passed in: the 32-bit compatibility libraries are added on x86_64 only. */
  function Packages(machine: string): (pkgs: seq<string>)
    ensures machine == "x86_64" ==>
      pkgs == ["nvidia-304xx", "nvidia-304xx-utils", "nvidia-304xx-libgl", "libvdpau", "libcl",
               "lib32-nvidia-304xx-libgl", "lib32-libvdpau"]
    ensures machine != "x86_64" ==>
      pkgs == ["nvidia-304xx", "nvidia-304xx-utils", "nvidia-304xx-libgl", "libvdpau", "libcl"]
  {
    if machine == "x86_64" then BasePackages + MultilibPackages else BasePackages
  }

  /** Whatever the machine, the five base packages come first, in order; the
      x86_64 branch only appends. */
  lemma BasePackagesFirst(machine: string)
    ensures |Packages(machine)| >= 5 && Packages(machine)[..5] == BasePackages
    ensures Packages(machine) == BasePackages + Packages(machine)[5..]
  {
  }

  /** The naming convention of Arch Linux's 32-bit compatibility packages. */
  predicate IsMultilib(pkg: string) {
    |pkg| >= 6 && pkg[..6] == "lib32-"
  }

  /** A 32-bit compatibility ("lib32-") package is requested exactly when the machine is x86_64. */
  lemma MultilibExactlyOnX86_64(machine: string)
    ensures (exists p :: p in Packages(machine) && IsMultilib(p)) <==> machine == "x86_64"
  {
    if machine == "x86_64" {
      assert IsMultilib(Packages(machine)[5]);
    } else {
      forall p | p in Packages(machine) ensures !IsMultilib(p) {
        assert p[0] != 'l' || p[3] != '3';
      }
    }
  }

  /** No package is requested twice, on any machine. */
  lemma PackagesAreDistinct(machine: string)
    ensures NoDuplicates(Packages(machine))
  {
  }

  /** `post_install`: the body is empty, so the target tree is left as it is
      whatever the destination directory. */
  function PostInstall(destDir: string, target: Tree): (after: Tree)
    ensures after == target
  {
    target
  }

  /** `is_proprietary`: this driver is always the proprietary one. */
  function IsProprietary(): (proprietary: bool)
    ensures proprietary
  {
    true
  }

  // Each row is checked on its own, by evaluation: it is ascending and ends
  // before the next row starts.
  lemma Row00Fits() ensures Fits(Row00, Row01) { CheckRow(Row00, Row01); }
  lemma Row01Fits() ensures Fits(Row01, Row02) { CheckRow(Row01, Row02); }
  lemma Row02Fits() ensures Fits(Row02, Row03) { CheckRow(Row02, Row03); }
  lemma Row03Fits() ensures Fits(Row03, Row04) { CheckRow(Row03, Row04); }
  lemma Row04Fits() ensures Fits(Row04, Row05) { CheckRow(Row04, Row05); }
  lemma Row05Fits() ensures Fits(Row05, Row06) { CheckRow(Row05, Row06); }
  lemma Row06Fits() ensures Fits(Row06, Row07) { CheckRow(Row06, Row07); }
  lemma Row07Fits() ensures Fits(Row07, Row08) { CheckRow(Row07, Row08); }
  lemma Row08Fits() ensures Fits(Row08, Row09) { CheckRow(Row08, Row09); }
  lemma Row09Fits() ensures Fits(Row09, Row10) { CheckRow(Row09, Row10); }
  lemma Row10Fits() ensures Fits(Row10, Row11) { CheckRow(Row10, Row11); }
  lemma Row11Fits() ensures Fits(Row11, Row12) { CheckRow(Row11, Row12); }
  lemma Row12Fits() ensures Fits(Row12, Row13) { CheckRow(Row12, Row13); }
  lemma Row13Fits() ensures Fits(Row13, Row14) { CheckRow(Row13, Row14); }
  lemma Row14Fits() ensures Fits(Row14, Row15) { CheckRow(Row14, Row15); }
  lemma Row15Fits() ensures Fits(Row15, Row16) { CheckRow(Row15, Row16); }
  lemma Row16Fits() ensures Fits(Row16, Row17) { CheckRow(Row16, Row17); }
  lemma Row17Fits() ensures Fits(Row17, Row18) { CheckRow(Row17, Row18); }
  lemma Row18Fits() ensures Fits(Row18, Row19) { CheckRow(Row18, Row19); }
  lemma Row19Fits() ensures Fits(Row19, Row20) { CheckRow(Row19, Row20); }
  lemma Row20Fits() ensures Fits(Row20, Row21) { CheckRow(Row20, Row21); }
  lemma Row21Fits() ensures Fits(Row21, Row22) { CheckRow(Row21, Row22); }
  lemma Row22Fits() ensures Fits(Row22, Row23) { CheckRow(Row22, Row23); }
  lemma Row23Fits() ensures Fits(Row23, Row24) { CheckRow(Row23, Row24); }
  lemma Row24Fits() ensures Fits(Row24, Row25) { CheckRow(Row24, Row25); }
  lemma Row25Fits() ensures Fits(Row25, Row26) { CheckRow(Row25, Row26); }
  lemma Row26Fits() ensures Fits(Row26, Row27) { CheckRow(Row26, Row27); }
  lemma Row27Fits() ensures Fits(Row27, Row28) { CheckRow(Row27, Row28); }
  lemma Row28Fits() ensures Fits(Row28, Row29) { CheckRow(Row28, Row29); }
  lemma Row29Fits() ensures Fits(Row29, Row30) { CheckRow(Row29, Row30); }
  lemma Row30Fits() ensures Fits(Row30, Row31) { CheckRow(Row30, Row31); }
  lemma Row31Fits() ensures Fits(Row31, Row32) { CheckRow(Row31, Row32); }
  lemma Row32Fits() ensures Fits(Row32, Row33) { CheckRow(Row32, Row33); }
  lemma Row33Fits() ensures Fits(Row33, Row34) { CheckRow(Row33, Row34); }
  lemma Row34Fits() ensures Fits(Row34, Row35) { CheckRow(Row34, Row35); }
  lemma Row35Fits() ensures Fits(Row35, Row36) { CheckRow(Row35, Row36); }
  lemma Row36Fits() ensures Fits(Row36, Row37) { CheckRow(Row36, Row37); }
  lemma Row37Fits() ensures Fits(Row37, Row38) { CheckRow(Row37, Row38); }
  lemma Row38Fits() ensures Fits(Row38, Row39) { CheckRow(Row38, Row39); }
  lemma Row39Fits() ensures Fits(Row39, Row40) { CheckRow(Row39, Row40); }
  lemma Row40Fits() ensures Fits(Row40, Row41) { CheckRow(Row40, Row41); }
  lemma Row41Fits() ensures Fits(Row41, Row42) { CheckRow(Row41, Row42); }
  lemma Row42Fits() ensures Fits(Row42, Row43) { CheckRow(Row42, Row43); }
  lemma Row43Fits() ensures Fits(Row43, Row44) { CheckRow(Row43, Row44); }
  lemma Row44Fits() ensures Fits(Row44, Row45) { CheckRow(Row44, Row45); }
  lemma Row45Fits() ensures Fits(Row45, Row46) { CheckRow(Row45, Row46); }
  lemma Row46Fits() ensures Fits(Row46, Row47) { CheckRow(Row46, Row47); }
  lemma Row47Fits() ensures Fits(Row47, Row48) { CheckRow(Row47, Row48); }
  lemma Row48Fits() ensures Fits(Row48, Row49) { CheckRow(Row48, Row49); }
  lemma Row49Fits() ensures Fits(Row49, Row50) { CheckRow(Row49, Row50); }
  lemma Row50Fits() ensures Fits(Row50, Row51) { CheckRow(Row50, Row51); }
  lemma Row51Fits() ensures Fits(Row51, Row52) { CheckRow(Row51, Row52); }
  lemma Row52Fits() ensures Fits(Row52, Row53) { CheckRow(Row52, Row53); }
  lemma Row53Fits() ensures Fits(Row53, Row54) { CheckRow(Row53, Row54); }
  lemma Row54Fits() ensures Fits(Row54, Row55) { CheckRow(Row54, Row55); }
  lemma Row55Fits() ensures Fits(Row55, Row56) { CheckRow(Row55, Row56); }
  lemma Row56Fits() ensures Fits(Row56, Row57) { CheckRow(Row56, Row57); }
  lemma Row57Fits() ensures Fits(Row57, Row58) { CheckRow(Row57, Row58); }
  lemma Row58Fits() ensures Fits(Row58, Row59) { CheckRow(Row58, Row59); }
  lemma Row59Fits() ensures Fits(Row59, Row60) { CheckRow(Row59, Row60); }
  lemma Row60Fits() ensures Fits(Row60, Row61) { CheckRow(Row60, Row61); }
  lemma Row61Fits() ensures Fits(Row61, Row62) { CheckRow(Row61, Row62); }
  lemma Row62Fits() ensures Fits(Row62, Row63) { CheckRow(Row62, Row63); }
  lemma Row63Fits() ensures Fits(Row63, Row64) { CheckRow(Row63, Row64); }
  lemma Row64Fits() ensures Fits(Row64, Row65) { CheckRow(Row64, Row65); }
  lemma Row65Fits() ensures Fits(Row65, Row66) { CheckRow(Row65, Row66); }
  lemma Row66Fits() ensures Fits(Row66, Row67) { CheckRow(Row66, Row67); }
  lemma Row67Fits() ensures Fits(Row67, Row68) { CheckRow(Row67, Row68); }
  lemma Row68Fits() ensures Fits(Row68, Row69) { CheckRow(Row68, Row69); }
  lemma Row69Fits() ensures Fits(Row69, Row70) { CheckRow(Row69, Row70); }
  lemma Row70Fits() ensures Fits(Row70, Row71) { CheckRow(Row70, Row71); }
  lemma Row71Fits() ensures Fits(Row71, Row72) { CheckRow(Row71, Row72); }
  lemma Row72Fits() ensures Fits(Row72, Row73) { CheckRow(Row72, Row73); }
  lemma Row73Fits() ensures Fits(Row73, Row74) { CheckRow(Row73, Row74); }
  lemma Row74Fits() ensures Fits(Row74, []) { CheckRow(Row74, []); }

  lemma Block0Fits()
    ensures Fits(Block0, Block1) && Block0[0] == Row00[0]
  {
    Row14Fits();
    var p := Row14;
    Row13Fits(); Prepend(Row13, p); p := Row13 + p;
    Row12Fits(); Prepend(Row12, p); p := Row12 + p;
    Row11Fits(); Prepend(Row11, p); p := Row11 + p;
    Row10Fits(); Prepend(Row10, p); p := Row10 + p;
    Row09Fits(); Prepend(Row09, p); p := Row09 + p;
    Row08Fits(); Prepend(Row08, p); p := Row08 + p;
    Row07Fits(); Prepend(Row07, p); p := Row07 + p;
    Row06Fits(); Prepend(Row06, p); p := Row06 + p;
    Row05Fits(); Prepend(Row05, p); p := Row05 + p;
    Row04Fits(); Prepend(Row04, p); p := Row04 + p;
    Row03Fits(); Prepend(Row03, p); p := Row03 + p;
    Row02Fits(); Prepend(Row02, p); p := Row02 + p;
    Row01Fits(); Prepend(Row01, p); p := Row01 + p;
    Row00Fits(); Prepend(Row00, p); p := Row00 + p;
    assert p == Block0;
  }

  lemma Block1Fits()
    ensures Fits(Block1, Block2) && Block1[0] == Row15[0]
  {
    Row29Fits();
    var p := Row29;
    Row28Fits(); Prepend(Row28, p); p := Row28 + p;
    Row27Fits(); Prepend(Row27, p); p := Row27 + p;
    Row26Fits(); Prepend(Row26, p); p := Row26 + p;
    Row25Fits(); Prepend(Row25, p); p := Row25 + p;
    Row24Fits(); Prepend(Row24, p); p := Row24 + p;
    Row23Fits(); Prepend(Row23, p); p := Row23 + p;
    Row22Fits(); Prepend(Row22, p); p := Row22 + p;
    Row21Fits(); Prepend(Row21, p); p := Row21 + p;
    Row20Fits(); Prepend(Row20, p); p := Row20 + p;
    Row19Fits(); Prepend(Row19, p); p := Row19 + p;
    Row18Fits(); Prepend(Row18, p); p := Row18 + p;
    Row17Fits(); Prepend(Row17, p); p := Row17 + p;
    Row16Fits(); Prepend(Row16, p); p := Row16 + p;
    Row15Fits(); Prepend(Row15, p); p := Row15 + p;
    assert p == Block1;
  }

  lemma Block2Fits()
    ensures Fits(Block2, Block3) && Block2[0] == Row30[0]
  {
    Row44Fits();
    var p := Row44;
    Row43Fits(); Prepend(Row43, p); p := Row43 + p;
    Row42Fits(); Prepend(Row42, p); p := Row42 + p;
    Row41Fits(); Prepend(Row41, p); p := Row41 + p;
    Row40Fits(); Prepend(Row40, p); p := Row40 + p;
    Row39Fits(); Prepend(Row39, p); p := Row39 + p;
    Row38Fits(); Prepend(Row38, p); p := Row38 + p;
    Row37Fits(); Prepend(Row37, p); p := Row37 + p;
    Row36Fits(); Prepend(Row36, p); p := Row36 + p;
    Row35Fits(); Prepend(Row35, p); p := Row35 + p;
    Row34Fits(); Prepend(Row34, p); p := Row34 + p;
    Row33Fits(); Prepend(Row33, p); p := Row33 + p;
    Row32Fits(); Prepend(Row32, p); p := Row32 + p;
    Row31Fits(); Prepend(Row31, p); p := Row31 + p;
    Row30Fits(); Prepend(Row30, p); p := Row30 + p;
    assert p == Block2;
  }

  lemma Block3Fits()
    ensures Fits(Block3, Block4) && Block3[0] == Row45[0]
  {
    Row59Fits();
    var p := Row59;
    Row58Fits(); Prepend(Row58, p); p := Row58 + p;
    Row57Fits(); Prepend(Row57, p); p := Row57 + p;
    Row56Fits(); Prepend(Row56, p); p := Row56 + p;
    Row55Fits(); Prepend(Row55, p); p := Row55 + p;
    Row54Fits(); Prepend(Row54, p); p := Row54 + p;
    Row53Fits(); Prepend(Row53, p); p := Row53 + p;
    Row52Fits(); Prepend(Row52, p); p := Row52 + p;
    Row51Fits(); Prepend(Row51, p); p := Row51 + p;
    Row50Fits(); Prepend(Row50, p); p := Row50 + p;
    Row49Fits(); Prepend(Row49, p); p := Row49 + p;
    Row48Fits(); Prepend(Row48, p); p := Row48 + p;
    Row47Fits(); Prepend(Row47, p); p := Row47 + p;
    Row46Fits(); Prepend(Row46, p); p := Row46 + p;
    Row45Fits(); Prepend(Row45, p); p := Row45 + p;
    assert p == Block3;
  }

  lemma Block4Fits()
    ensures Fits(Block4, []) && Block4[0] == Row60[0]
  {
    Row74Fits();
    var p := Row74;
    Row73Fits(); Prepend(Row73, p); p := Row73 + p;
    Row72Fits(); Prepend(Row72, p); p := Row72 + p;
    Row71Fits(); Prepend(Row71, p); p := Row71 + p;
    Row70Fits(); Prepend(Row70, p); p := Row70 + p;
    Row69Fits(); Prepend(Row69, p); p := Row69 + p;
    Row68Fits(); Prepend(Row68, p); p := Row68 + p;
    Row67Fits(); Prepend(Row67, p); p := Row67 + p;
    Row66Fits(); Prepend(Row66, p); p := Row66 + p;
    Row65Fits(); Prepend(Row65, p); p := Row65 + p;
    Row64Fits(); Prepend(Row64, p); p := Row64 + p;
    Row63Fits(); Prepend(Row63, p); p := Row63 + p;
    Row62Fits(); Prepend(Row62, p); p := Row62 + p;
    Row61Fits(); Prepend(Row61, p); p := Row61 + p;
    Row60Fits(); Prepend(Row60, p); p := Row60 + p;
    assert p == Block4;
  }

  /** Five blocks that each fit the next join into an ascending table. Stated
      for any blocks, so that its proof does not see the table's contents. */
  lemma BlocksJoin(b0: seq<string>, b1: seq<string>, b2: seq<string>, b3: seq<string>, b4: seq<string>)
    requires Fits(b0, b1) && Fits(b1, b2) && Fits(b2, b3) && Fits(b3, b4) && Fits(b4, [])
    ensures Ascending(b0 + (b1 + (b2 + (b3 + b4))))
  {
    Join(b3, b4);
    Join(b2, b3 + b4);
    Join(b1, b2 + (b3 + b4));
    Join(b0, b1 + (b2 + (b3 + b4)));
  }

  /** DEVICES is a table of well-formed IDs in strictly ascending order. */
  lemma DevicesAscending()
    ensures Ascending(Devices)
  {
    Block0Fits(); Block1Fits(); Block2Fits(); Block3Fits(); Block4Fits();
    BlocksJoin(Block0, Block1, Block2, Block3, Block4);
  }

  /** DEVICES names no ID twice. */
  lemma DevicesDistinct()
    ensures AllIds(Devices)
    ensures forall i, j :: 0 <= i < j < |Devices| ==> Devices[i] != Devices[j]
  {
    DevicesAscending();
    AscendingHasNoRepeats(Devices);
  }

  /** "0x0040" (the GeForce 6800 Ultra) opens the table, so it is listed and
      no ID below it, such as "0x0000", is. */
  lemma DevicesMembership()
    ensures "0x0040" in Devices && "0x0000" !in Devices
  {
    DevicesAscending();
    assert Devices[0] == "0x0040";
    BelowFirstIsAbsent(Devices, "0x0000");
  }

  /** The table has 520 entries. */
  lemma DevicesCount()
    ensures |Devices| == 520
  {
  }
}
