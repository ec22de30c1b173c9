/** `parse_pci`: the NVIDIA functions in the output of `lspci`, with the counts other code trusts. */
module PciParser {
  import opened Wrappers
  import opened Text
  import opened Lines

  datatype DeviceType = Gpu | Audio

  datatype Device = Device(address: string, deviceType: DeviceType, driver: Option<string>, modules: seq<string>,
                           group: string)

  datatype Values = Values(pciCount: nat, nvidiaBound: nat, vfioBound: nat, unbound: nat, unknownBound: nat,
                           devices: seq<Device>)

  // ----- lines and blocks -----

  /** A header and the lines that belong to it. */
  type Block = b: seq<string> | b != [] witness [""]

  predicate Hex(c: char) {
    '0' <= c <= '9' || 'a' <= c <= 'f' || 'A' <= c <= 'F'
  }

  lemma HexMeans(c: char)
    ensures Hex(c) <==> c in "0123456789abcdefABCDEF"
  {
    var all := "0123456789abcdefABCDEF";
    assert all[..10] == "0123456789" && all[10..16] == "abcdef" && all[16..] == "ABCDEF";
    assert '0' <= c <= '9' ==> all[c as int - '0' as int] == c;
    assert 'a' <= c <= 'f' ==> all[10 + (c as int - 'a' as int)] == c;
    assert 'A' <= c <= 'F' ==> all[16 + (c as int - 'A' as int)] == c;
  }

  predicate AllHex(s: string) {
    forall k :: 0 <= k < |s| ==> Hex(s[k])
  }

  /** A domain of n hexadecimal digits, a bus, a device and a function, and white space. */
  predicate HeaderWith(line: string, n: nat) {
    && |line| > n + 8 && AllHex(line[..n]) && line[n] == ':' && AllHex(line[n + 1..n + 3]) && line[n + 3] == ':'
    && AllHex(line[n + 4..n + 6]) && line[n + 6] == '.' && '0' <= line[n + 7] <= '7' && Space(line[n + 8])
  }

  predicate IsHeader(line: string) {
    exists n :: 4 <= n <= 8 && HeaderWith(line, n)
  }

  predicate IsSeparator(line: string) {
    Strip(line) == "--"
  }

  /** The lines of the block under way, up to the next header, without the separators of `grep`. */
  function Body(lines: seq<string>): seq<string> {
    if lines == [] || IsHeader(lines[0]) then []
    else (if IsSeparator(lines[0]) then [] else [lines[0]]) + Body(lines[1..])
  }

  /** One block per header. */
  function Blocks(lines: seq<string>): (blocks: seq<Block>)
    ensures forall b :: b in blocks ==> IsHeader(b[0])
  {
    if lines == [] then []
    else if IsHeader(lines[0]) then [[lines[0]] + Body(lines[1..])] + Blocks(lines[1..])
    else Blocks(lines[1..])
  }

  // ----- one block -----

  /** `rsplit(".", 1)[0]` */
  function BeforeLastDot(s: string): string {
    if '.' !in s then s else if s[|s| - 1] == '.' then s[..|s| - 1] else BeforeLastDot(s[..|s| - 1])
  }

  function Address(header: string): string {
    FirstWord(header)
  }

  function Group(header: string): string {
    BeforeLastDot(Address(header))
  }

  predicate GpuWords(header: string) {
    Contains(Fold(header), "vga") || Contains(Fold(header), "3d controller")
  }

  /** \[10de:[0-9a-f]{4}\] */
  predicate NvidiaId(header: string) {
    exists k :: 0 <= k <= |header| - 11 && NvidiaIdAt(header, k)
  }

  predicate NvidiaIdAt(header: string, k: nat)
    requires k <= |header| - 11
  {
    Fold(header[k..k + 6]) == "[10de:" && AllHex(header[k + 6..k + 10]) && header[k + 10] == ']'
  }

  predicate IsNvidiaGpu(header: string) {
    GpuWords(header) && (Contains(Fold(header), "nvidia corporation") || NvidiaId(header))
  }

  function Groups(blocks: seq<Block>): (groups: set<string>)
    ensures forall g :: g in groups <==> exists b :: b in blocks && IsNvidiaGpu(b[0]) && Group(b[0]) == g
  {
    set b: Block | b in blocks && IsNvidiaGpu(b[0]) :: Group(b[0])
  }

  /** The text after the first occurrence of the phrase, in any case. */
  function After(text: string, phrase: string): Option<string> {
    if |phrase| <= |text| && Fold(text[..|phrase|]) == phrase then Some(text[|phrase|..])
    else if text == "" then None
    else After(text[1..], phrase)
  }

  /** `Kernel driver in use:\s*(\S+)` */
  function DriverIn(block: string): (driver: Option<string>)
    ensures driver.Some? ==> driver.value != ""
  {
    match After(block, "kernel driver in use:")
    case None => None
    case Some(rest) => if StripLeft(rest) == "" then None else Some(FirstWord(StripLeft(rest)))
  }

  /** The characters up to the first line feed. */
  function ToLineFeed(s: string): string {
    if s == "" || s[0] == '\n' then "" else [s[0]] + ToLineFeed(s[1..])
  }

  function SplitCommas(s: string, item: string): seq<string> {
    if s == "" then [Strip(item)]
    else if s[0] == ',' then [Strip(item)] + SplitCommas(s[1..], "")
    else SplitCommas(s[1..], item + [s[0]])
  }

  /** `Kernel modules:\s*(.+)`; when only white space is left, one character of it is still matched. */
  function ModulesIn(block: string): seq<string> {
    match After(block, "kernel modules:")
    case None => []
    case Some(rest) =>
      if StripLeft(rest) != "" then SplitCommas(ToLineFeed(StripLeft(rest)), "")
      else if exists k :: 0 <= k < |rest| && rest[k] != '\n' then [""]
      else []
  }

  function DeviceOf(block: Block, groups: set<string>): Option<Device> {
    var header := block[0];
    var isGpu := Group(header) in groups && GpuWords(header);
    var isAudio := Group(header) in groups && Contains(Fold(header), "audio");
    if !isGpu && !isAudio then None
    else Some(Device(Address(header), if isGpu then Gpu else Audio, DriverIn(Join(block)), ModulesIn(Join(block)),
                     Group(header)))
  }

  function Devices(blocks: seq<Block>, groups: set<string>): seq<Device> {
    if blocks == [] then []
    else (match DeviceOf(blocks[0], groups) case None => [] case Some(d) => [d]) + Devices(blocks[1..], groups)
  }

  // ----- the counts -----

  datatype Binding = ToNvidia | ToVfio | ToNothing | ToUnknown

  function BindingOf(d: Device): Binding {
    if d.driver.None? || d.driver.value == "" then ToNothing
    else if d.driver.value == "nvidia" then ToNvidia
    else if d.driver.value == "vfio-pci" then ToVfio
    else ToUnknown
  }

  function Count(devices: seq<Device>, binding: Binding): nat {
    if devices == [] then 0
    else Count(devices[..|devices| - 1], binding)
         + if devices[|devices| - 1].deviceType.Gpu? && BindingOf(devices[|devices| - 1]) == binding then 1 else 0
  }

  function Gpus(devices: seq<Device>): nat {
    if devices == [] then 0
    else Gpus(devices[..|devices| - 1]) + if devices[|devices| - 1].deviceType.Gpu? then 1 else 0
  }

  function Counted(devices: seq<Device>): Values {
    Values(Gpus(devices), Count(devices, ToNvidia), Count(devices, ToVfio), Count(devices, ToNothing),
           Count(devices, ToUnknown), devices)
  }

  function DevicesIn(lines: seq<string>): seq<Device> {
    Devices(Blocks(lines), Groups(Blocks(lines)))
  }

  function Parsed(text: string): Values {
    Counted(DevicesIn(SplitLines(text)))
  }

  // ----- the parser -----

  /** What is still to come: the block under way with the rest of its lines, and the blocks after it. */
  function Closing(current: seq<string>, lines: seq<string>): seq<Block> {
    (if current == [] then [] else [current + Body(lines)]) + Blocks(lines)
  }

  lemma ClosingStep(current: seq<string>, lines: seq<string>)
    requires lines != []
    ensures var line, rest := lines[0], lines[1..];
            Closing(current, lines) ==
              if IsHeader(line) then (if current == [] then [] else [current]) + Closing([line], rest)
              else Closing(if current != [] && !IsSeparator(line) then current + [line] else current, rest)
  {
    var line, rest := lines[0], lines[1..];
    if IsHeader(line) {
      assert current + [] == current;
    } else if current != [] {
      assert current + ([line] + Body(rest)) == current + [line] + Body(rest);
      assert [] + Body(rest) == Body(rest);
    }
  }

  /** One line more, whatever was collected before it. */
  lemma CollectStep(blocks: seq<Block>, current: seq<string>, lines: seq<string>, k: nat)
    requires k < |lines|
    ensures var line := lines[k];
            blocks + Closing(current, lines[k..]) ==
              if IsHeader(line) then
                (if current == [] then blocks else blocks + [current]) + Closing([line], lines[k + 1..])
              else blocks + Closing(if current != [] && !IsSeparator(line) then current + [line] else current,
                                    lines[k + 1..])
  {
    CollectOne(blocks, current, lines[k..]);
    assert lines[k..][1..] == lines[k + 1..];
  }

  lemma CollectOne(blocks: seq<Block>, current: seq<string>, lines: seq<string>)
    requires lines != []
    ensures var line, rest := lines[0], lines[1..];
            blocks + Closing(current, lines) ==
              if IsHeader(line) then (if current == [] then blocks else blocks + [current]) + Closing([line], rest)
              else blocks + Closing(if current != [] && !IsSeparator(line) then current + [line] else current, rest)
  {
    ClosingStep(current, lines);
    if IsHeader(lines[0]) {
      var closed: seq<Block> := if current == [] then [] else [current];
      Regroup(blocks, closed, Closing([lines[0]], lines[1..]));
      assert blocks + [] == blocks;
    }
  }

  method CollectBlocks(lines: seq<string>) returns (blocks: seq<Block>)
    ensures blocks == Blocks(lines)
  {
    blocks := [];
    var current: seq<string> := [];
    var k := 0;
    while k < |lines|
      invariant 0 <= k <= |lines| && blocks + Closing(current, lines[k..]) == Blocks(lines)
    {
      var line := lines[k];
      CollectStep(blocks, current, lines, k);
      if IsHeader(line) {
        if current != [] {
          blocks := blocks + [current];
        }
        current := [line];
      } else if current != [] && Strip(line) != "--" {
        current := current + [line];
      }
      k := k + 1;
    }
    assert lines[k..] == [] && current + [] == current;
    if current != [] {
      blocks := blocks + [current];
    }
  }

  lemma CountedStep(devices: seq<Device>, d: Device)
    ensures var v := Counted(devices);
            var one := (binding: Binding) => if d.deviceType.Gpu? && BindingOf(d) == binding then 1 else 0;
            Counted(devices + [d]) ==
              Values(v.pciCount + (if d.deviceType.Gpu? then 1 else 0), v.nvidiaBound + one(ToNvidia),
                     v.vfioBound + one(ToVfio),
                     v.unbound + one(ToNothing), v.unknownBound + one(ToUnknown), devices + [d])
  {
    assert (devices + [d])[..|devices|] == devices;
  }

  /** One block: its entry, if it has one, and the counters. */
  method Record(v: Values, block: Block, groups: set<string>) returns (v': Values)
    requires v == Counted(v.devices)
    ensures v' == Counted(v'.devices)
    ensures v'.devices == v.devices + match DeviceOf(block, groups) case None => [] case Some(d) => [d]
  {
    v' := v;
    var found := DeviceOf(block, groups);
    if found.None? {
      return;
    }
    var d := found.value;
    CountedStep(v.devices, d);
    v' := v'.(devices := v.devices + [d]);
    if d.deviceType != Gpu {
      return;
    }
    v' := v'.(pciCount := v.pciCount + 1);
    if d.driver.None? {
      v' := v'.(unbound := v.unbound + 1);
    } else if d.driver.value == "nvidia" {
      v' := v'.(nvidiaBound := v.nvidiaBound + 1);
    } else if d.driver.value == "vfio-pci" {
      v' := v'.(vfioBound := v.vfioBound + 1);
    } else {
      v' := v'.(unknownBound := v.unknownBound + 1);
    }
  }

  lemma DevicesStep(blocks: seq<Block>, groups: set<string>, k: nat, found: seq<Device>)
    requires k < |blocks|
    ensures found + Devices(blocks[k..], groups) ==
            found + (match DeviceOf(blocks[k], groups) case None => [] case Some(d) => [d])
              + Devices(blocks[k + 1..], groups)
  {
    var left := blocks[k..];
    assert left[0] == blocks[k] && left[1..] == blocks[k + 1..];
    var next := match DeviceOf(blocks[k], groups) case None => [] case Some(d) => [d];
    assert found + (next + Devices(left[1..], groups)) == found + next + Devices(left[1..], groups);
  }

  method ParsePci(text: string) returns (values: Values)
    ensures values == Parsed(text)
  {
    var blocks := CollectBlocks(SplitLines(text));
    var groups := Groups(blocks);
    values := Values(0, 0, 0, 0, 0, []);
    var k := 0;
    while k < |blocks|
      invariant 0 <= k <= |blocks| && values == Counted(values.devices)
      invariant values.devices + Devices(blocks[k..], groups) == Devices(blocks, groups)
    {
      DevicesStep(blocks, groups, k, values.devices);
      values := Record(values, blocks[k], groups);
      k := k + 1;
    }
    assert values.devices + Devices(blocks[k..], groups) == values.devices;
  }

  // ----- what the counts are worth -----

  lemma {:induction false} CountsAddUp(devices: seq<Device>)
    ensures Gpus(devices)
            == Count(devices, ToNvidia) + Count(devices, ToVfio) + Count(devices, ToNothing) + Count(devices, ToUnknown)
  {
    if devices != [] {
      CountsAddUp(devices[..|devices| - 1]);
    }
  }

  predicate GpuAt(devices: seq<Device>, k: nat) {
    k < |devices| && devices[k].deviceType.Gpu?
  }

  /** Where the gpu entries are. */
  function GpuEntries(devices: seq<Device>): set<nat> {
    set k: nat | k < |devices| && GpuAt(devices, k)
  }

  lemma {:induction false} GpusAreEntries(devices: seq<Device>)
    ensures Gpus(devices) == |GpuEntries(devices)|
  {
    if devices != [] {
      var n := |devices| - 1;
      GpusAreEntries(devices[..n]);
      assert forall k: nat :: k < n ==> (GpuAt(devices, k) <==> GpuAt(devices[..n], k));
      assert GpuEntries(devices) == GpuEntries(devices[..n]) + if GpuAt(devices, n) then {n} else {};
    } else {
      assert GpuEntries(devices) == {};
    }
  }

  /** Where the gpu entries with this driver are. */
  function Having(devices: seq<Device>, driver: Option<string>): set<nat> {
    set k: nat | k < |devices| && GpuAt(devices, k) && devices[k].driver == driver
  }

  lemma {:induction false} CountIsHaving(devices: seq<Device>, binding: Binding, driver: Option<string>)
    requires forall d :: d in devices ==> (BindingOf(d) == binding <==> d.driver == driver)
    ensures Count(devices, binding) == |Having(devices, driver)|
  {
    if devices != [] {
      var n := |devices| - 1;
      CountIsHaving(devices[..n], binding, driver);
      HavingLast(devices, driver);
    } else {
      assert Having(devices, driver) == {};
    }
  }

  lemma HavingLast(devices: seq<Device>, driver: Option<string>)
    requires devices != []
    ensures var n := |devices| - 1;
            |Having(devices, driver)| == |Having(devices[..n], driver)|
                                         + if GpuAt(devices, n) && devices[n].driver == driver then 1 else 0
  {
    var n := |devices| - 1;
    assert forall k: nat :: k < n ==> (GpuAt(devices, k) <==> GpuAt(devices[..n], k));
    assert Having(devices, driver)
           == Having(devices[..n], driver) + if GpuAt(devices, n) && devices[n].driver == driver then {n} else {};
  }

  lemma {:induction false} DriversAreNamed(blocks: seq<Block>, groups: set<string>)
    ensures forall d :: d in Devices(blocks, groups) ==> d.driver != Some("")
  {
    if blocks != [] {
      DriversAreNamed(blocks[1..], groups);
    }
  }

  /** What the counters count: the gpu entries driven by nvidia, by vfio-pci, and by nothing; those
      driven by anything else are the rest of them. */
  lemma CountersMean(text: string)
    ensures var v := Parsed(text);
            && v.nvidiaBound == |Having(v.devices, Some("nvidia"))|
            && v.vfioBound == |Having(v.devices, Some("vfio-pci"))|
            && v.unbound == |Having(v.devices, None)|
            && v.unknownBound == v.pciCount - v.nvidiaBound - v.vfioBound - v.unbound
  {
    var devices := Parsed(text).devices;
    DriversAreNamed(Blocks(SplitLines(text)), Groups(Blocks(SplitLines(text))));
    CountIsHaving(devices, ToNvidia, Some("nvidia"));
    CountIsHaving(devices, ToVfio, Some("vfio-pci"));
    CountIsHaving(devices, ToNothing, None);
    CountsAddUp(devices);
  }

  /** Every gpu entry is counted once, under exactly one binding. */
  lemma Conservation(text: string)
    ensures var v := Parsed(text);
            && v.nvidiaBound + v.vfioBound + v.unbound + v.unknownBound == v.pciCount
            && v.pciCount == |GpuEntries(v.devices)|
  {
    CountsAddUp(Parsed(text).devices);
    GpusAreEntries(Parsed(text).devices);
  }

  lemma {:induction false} CountIsZero(devices: seq<Device>, binding: Binding)
    ensures Count(devices, binding) == 0 <==> forall d :: d in devices && d.deviceType.Gpu? ==> BindingOf(d) != binding
  {
    if devices != [] {
      var n := |devices| - 1;
      CountIsZero(devices[..n], binding);
      assert devices == devices[..n] + [devices[n]];
    }
  }

  /** Every entry shares its function group with a header that names an NVIDIA gpu. */
  lemma EntriesAreNvidia(text: string, d: Device)
    requires d in Parsed(text).devices
    ensures exists b: Block :: b in Blocks(SplitLines(text)) && IsNvidiaGpu(b[0]) && Group(b[0]) == d.group
  {
    EntryHasGroup(Blocks(SplitLines(text)), Groups(Blocks(SplitLines(text))), d);
  }

  lemma {:induction false} EntryHasGroup(blocks: seq<Block>, groups: set<string>, d: Device)
    requires d in Devices(blocks, groups)
    ensures d.group in groups
  {
    if DeviceOf(blocks[0], groups) != Some(d) {
      EntryHasGroup(blocks[1..], groups, d);
    }
  }

  // ----- the consumers -----

  datatype Summary = Summary(pciObserved: bool, pciOk: bool, expectedGpuCount: Option<int>, values: Values)

  /** `GpuSummary.all_bound_to_vfio` */
  predicate AllBoundToVfio(s: Summary) {
    && s.pciObserved && s.pciOk && s.expectedGpuCount.Some? && s.values.pciCount > 0
    && s.values.pciCount == s.expectedGpuCount.value && s.values.nvidiaBound == 0
    && s.values.vfioBound == s.values.pciCount
    && s.values.unbound == 0 && s.values.unknownBound == 0
  }

  /** On parsed values the verdict is right: there is a gpu, and every one is driven by vfio-pci. */
  lemma VfioMeansEveryGpu(s: Summary, text: string)
    requires s.values == Parsed(text)
    ensures AllBoundToVfio(s) <==>
            && s.pciObserved && s.pciOk && s.expectedGpuCount == Some(s.values.pciCount) && s.values.pciCount > 0
            && forall d :: d in s.values.devices && d.deviceType.Gpu? ==> d.driver == Some("vfio-pci")
  {
    CountsAddUp(s.values.devices);
    NoOtherDriver(s.values.devices);
  }

  lemma NoOtherDriver(devices: seq<Device>)
    ensures Count(devices, ToNvidia) == 0 && Count(devices, ToNothing) == 0 && Count(devices, ToUnknown) == 0 <==>
            forall d :: d in devices && d.deviceType.Gpu? ==> d.driver == Some("vfio-pci")
  {
    CountIsZero(devices, ToNvidia);
    CountIsZero(devices, ToNothing);
    CountIsZero(devices, ToUnknown);
    forall d | d in devices && d.deviceType.Gpu?
      ensures d.driver == Some("vfio-pci") <==>
              BindingOf(d) != ToNvidia && BindingOf(d) != ToNothing && BindingOf(d) != ToUnknown
    {
    }
  }

  datatype Ownership = AllNvidia | AllVfio | Mixed | Unbound | Unknown

  /** `_ownership` */
  function OwnershipOf(s: Summary): Ownership {
    var v := s.values;
    if !s.pciOk || v.pciCount == 0 || v.unknownBound != 0 then Unknown
    else if v.unbound != 0 then if v.unbound == v.pciCount then Unbound else Mixed
    else if v.nvidiaBound == v.pciCount then AllNvidia
    else if v.vfioBound == v.pciCount then AllVfio
    else Mixed
  }

  ghost predicate Occurs(devices: seq<Device>, binding: Binding) {
    exists d :: d in devices && d.deviceType.Gpu? && BindingOf(d) == binding
  }

  lemma OccursCounts(devices: seq<Device>, binding: Binding)
    ensures Occurs(devices, binding) <==> Count(devices, binding) > 0
  {
    CountIsZero(devices, binding);
  }

  /** At least two of the known bindings, none included. */
  ghost predicate TwoKinds(devices: seq<Device>) {
    || (Occurs(devices, ToNvidia) && Occurs(devices, ToVfio))
    || (Occurs(devices, ToNvidia) && Occurs(devices, ToNothing))
    || (Occurs(devices, ToVfio) && Occurs(devices, ToNothing))
  }

  /** "mixed" is said exactly when PCI is readable, no driver is unknown, and two kinds of binding occur. */
  lemma MixedMeansTwoKinds(s: Summary, text: string)
    requires s.values == Parsed(text)
    ensures OwnershipOf(s) == Mixed <==> s.pciOk && !Occurs(s.values.devices, ToUnknown) && TwoKinds(s.values.devices)
  {
    var devices := s.values.devices;
    CountsAddUp(devices);
    MixedByCounts(s);
    OccursCounts(devices, ToNvidia);
    OccursCounts(devices, ToVfio);
    OccursCounts(devices, ToNothing);
    OccursCounts(devices, ToUnknown);
  }

  /** What is said of the ownership in each case: of the drivers of all gpus. */
  lemma OwnershipMeans(s: Summary, text: string)
    requires s.values == Parsed(text)
    ensures var some := exists d :: d in s.values.devices && d.deviceType.Gpu?;
            var known := s.pciOk && some && !Occurs(s.values.devices, ToUnknown);
            && (OwnershipOf(s) == Unknown <==> !known)
            && (OwnershipOf(s) == AllNvidia <==> known && Uniform(s.values.devices, Some("nvidia")))
            && (OwnershipOf(s) == AllVfio <==> known && Uniform(s.values.devices, Some("vfio-pci")))
            && (OwnershipOf(s) == Unbound <==> known && Uniform(s.values.devices, None))
  {
    CountsAddUp(s.values.devices);
    OwnershipByCounts(s);
    NoGpus(s.values.devices);
    OccursCounts(s.values.devices, ToUnknown);
    UniformCounts(text);
  }

  lemma UniformCounts(text: string)
    ensures var v := Parsed(text);
            && (Uniform(v.devices, Some("nvidia")) <==> v.nvidiaBound == v.pciCount)
            && (Uniform(v.devices, Some("vfio-pci")) <==> v.vfioBound == v.pciCount)
            && (Uniform(v.devices, None) <==> v.unbound == v.pciCount)
  {
    var devices := Parsed(text).devices;
    DriversAreNamed(Blocks(SplitLines(text)), Groups(Blocks(SplitLines(text))));
    UniformMeans(devices, ToNvidia, Some("nvidia"));
    UniformMeans(devices, ToVfio, Some("vfio-pci"));
    UniformMeans(devices, ToNothing, None);
  }

  lemma OwnershipByCounts(s: Summary)
    requires s.values.pciCount == s.values.nvidiaBound + s.values.vfioBound + s.values.unbound + s.values.unknownBound
    ensures var known := s.pciOk && s.values.pciCount > 0 && s.values.unknownBound == 0;
            && (OwnershipOf(s) == Unknown <==> !known)
            && (OwnershipOf(s) == AllNvidia <==> known && s.values.nvidiaBound == s.values.pciCount)
            && (OwnershipOf(s) == AllVfio <==> known && s.values.vfioBound == s.values.pciCount)
            && (OwnershipOf(s) == Unbound <==> known && s.values.unbound == s.values.pciCount)
  {
  }

  lemma {:induction false} NoGpus(devices: seq<Device>)
    ensures Gpus(devices) > 0 <==> exists d :: d in devices && d.deviceType.Gpu?
  {
    if devices != [] {
      var n := |devices| - 1;
      NoGpus(devices[..n]);
      assert devices == devices[..n] + [devices[n]];
    }
  }

  /** Every gpu has this driver. */
  ghost predicate Uniform(devices: seq<Device>, driver: Option<string>) {
    forall d :: d in devices && d.deviceType.Gpu? ==> d.driver == driver
  }

  lemma {:induction false} UniformMeans(devices: seq<Device>, binding: Binding, driver: Option<string>)
    requires forall d :: d in devices ==> (BindingOf(d) == binding <==> d.driver == driver)
    ensures Uniform(devices, driver) <==> Count(devices, binding) == Gpus(devices)
    ensures Count(devices, binding) <= Gpus(devices)
  {
    if devices != [] {
      var n := |devices| - 1;
      UniformMeans(devices[..n], binding, driver);
      assert devices == devices[..n] + [devices[n]];
    }
  }

  lemma MixedByCounts(s: Summary)
    requires s.values.pciCount == s.values.nvidiaBound + s.values.vfioBound + s.values.unbound + s.values.unknownBound
    ensures OwnershipOf(s) == Mixed <==>
            s.pciOk && s.values.unknownBound == 0 &&
            ((s.values.nvidiaBound > 0 && s.values.vfioBound > 0) || (s.values.nvidiaBound > 0 && s.values.unbound > 0)
             || (s.values.vfioBound > 0 && s.values.unbound > 0))
  {
  }

  // ----- separators -----

  /** A header keeps its first digit when it is stripped. */
  lemma HeaderStripped(line: string, n: nat)
    requires 4 <= n && HeaderWith(line, n)
    ensures Strip(line) != "--"
  {
    assert line[..n][0] == line[0] && Hex(line[0]);
    assert StripLeft(line) == line;
    StripRightKeeps(line);
  }

  lemma SeparatorIsNoHeader(line: string)
    requires IsSeparator(line)
    ensures !IsHeader(line)
  {
    forall n | 4 <= n <= 8 ensures !HeaderWith(line, n) {
      if HeaderWith(line, n) {
        HeaderStripped(line, n);
      }
    }
  }

  lemma {:induction false} SeparatorInBody(before: seq<string>, line: string, after: seq<string>)
    requires IsSeparator(line)
    ensures Body(before + [line] + after) == Body(before + after)
  {
    SeparatorIsNoHeader(line);
    if before == [] {
      assert before + [line] + after == [line] + after && before + after == after && ([line] + after)[1..] == after;
      assert [] + Body(after) == Body(after);
    } else {
      assert (before + [line] + after)[1..] == before[1..] + [line] + after
             && (before + after)[1..] == before[1..] + after;
      SeparatorInBody(before[1..], line, after);
    }
  }

  lemma {:induction false} SeparatorAnywhere(before: seq<string>, line: string, after: seq<string>)
    requires IsSeparator(line)
    ensures Blocks(before + [line] + after) == Blocks(before + after)
  {
    SeparatorIsNoHeader(line);
    if before == [] {
      assert before + [line] + after == [line] + after && before + after == after && ([line] + after)[1..] == after;
    } else {
      assert (before + [line] + after)[1..] == before[1..] + [line] + after
             && (before + after)[1..] == before[1..] + after;
      SeparatorInBody(before[1..], line, after);
      SeparatorAnywhere(before[1..], line, after);
    }
  }

  /** Two dashes, alone on their line but for white space. */
  ghost predicate Dashes(line: string) {
    exists a: string, b: string :: Surrounds(line, a, "--", b)
  }

  lemma DashesMean(line: string)
    ensures IsSeparator(line) <==> Dashes(line)
  {
    if a: string, b: string :| Surrounds(line, a, "--", b) {
      StripFinds(line, a, "--", b);
    }
    StripMeans(line);
  }

  /** Separator lines inserted anywhere between the lines of a text change nothing. */
  lemma SeparatorsAreIgnored(before: string, line: string, after: string)
    requires EndsLine(before) && Unbroken(line) && Dashes(line)
    ensures Parsed(before + (line + "\n" + after)) == Parsed(before + after)
  {
    DashesMean(line);
    SplitAround(before, line, after);
    SeparatorAnywhere(SplitLines(before), line, SplitLines(after));
  }
}
