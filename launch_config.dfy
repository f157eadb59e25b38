/**
 * From the option values to the engine's configuration record: what the
 * launcher does after option parsing (cli.js, lines 231-325). Each field is
 * set by its own guarded assignment; a malformed memory size throws before
 * anything is handed to the engine.
 */
module LaunchConfig {
  import opened Wrappers
  import opened MemorySize
  import opened BootOrder
  import opened JsParseInt

  /**
   * The host's path services, which the model does not interpret: the
   * launcher's asset directory, `path.join` and `path.resolve` (relative to
   * the working directory).
   */
  datatype Host = Host(assetsDir: string, join: (string, string) -> string, resolve: string -> string)

  /**
   * The parsed option values, defaults applied. `None` is an option that was
   * not given and has no default.
   */
  datatype Values = Values(
    help: bool,
    version: bool,
    mem: Option<string>,
    vgaMem: Option<string>,
    hda: Option<string>,
    hdb: Option<string>,
    fda: Option<string>,
    fdb: Option<string>,
    cdrom: Option<string>,
    boot: Option<string>,
    kernel: Option<string>,
    initrd: Option<string>,
    append: Option<string>,
    bios: Option<string>,
    vgaBios: Option<string>,
    acpi: bool,
    nographic: bool,
    netdev: Option<string>,
    autostart: bool,
    disableKeyboard: bool,
    disableMouse: bool,
    disableSpeaker: bool,
    fastboot: bool,
    logLevel: Option<string>)

  /** The values when no option is given: the declared defaults. */
  function DefaultValues(): Values {
    Values(
      help := false, version := false,
      mem := Some("512M"), vgaMem := Some("8M"),
      hda := None, hdb := None, fda := None, fdb := None, cdrom := None,
      boot := Some("c"), kernel := None, initrd := None, append := None,
      bios := None, vgaBios := None,
      acpi := false, nographic := false, netdev := None,
      autostart := true, disableKeyboard := false, disableMouse := false,
      disableSpeaker := false, fastboot := false,
      logLevel := Some("0"))
  }

  /** A disk, firmware or kernel image reference, `{ url }`. */
  datatype Image = Image(url: string)

  /** The configuration object handed to the engine; `None` is a property never assigned. */
  datatype Config = Config(
    wasmPath: Option<string>,
    autostart: Option<bool>,
    memorySize: Option<nat>,
    vgaMemorySize: Option<nat>,
    bios: Option<Image>,
    vgaBios: Option<Image>,
    hda: Option<Image>,
    hdb: Option<Image>,
    fda: Option<Image>,
    fdb: Option<Image>,
    cdrom: Option<Image>,
    bzimage: Option<Image>,
    initrd: Option<Image>,
    cmdline: Option<string>,
    bootOrder: Option<int>,
    acpi: Option<bool>,
    fastboot: Option<bool>,
    disableKeyboard: Option<bool>,
    disableMouse: Option<bool>,
    disableSpeaker: Option<bool>,
    logLevel: Option<int>)

  const EmptyConfig: Config := Config(
    None, None, None, None, None, None, None, None, None, None,
    None, None, None, None, None, None, None, None, None, None, None)

  /** JavaScript truthiness of an optional string: present and not empty. */
  predicate Given(s: Option<string>) {
    s.Some? && s.value != []
  }

  /** `createV86Image`: a reference to the resolved path, or nothing for an empty or absent path. */
  function CreateImage(host: Host, path: Option<string>): (r: Option<Image>)
    ensures r.Some? <==> Given(path)
    ensures r.Some? ==> r.value.url == host.resolve(path.value)
  {
    if Given(path) then Some(Image(host.resolve(path.value))) else None
  }

  /** `parseInt(values['log-level'])`; an absent value reads as NaN. */
  function LogLevel(s: Option<string>): Option<int> {
    if s.None? then None else ParseInt(s.value)
  }

  /** A parsed size as the `if (size)` test sees it: zero and null are both skipped. */
  function NonZeroSize(r: SizeResult): Option<nat> {
    if r.Bytes? && r.bytes != 0 then Some(r.bytes) else None
  }

  /** A feature flag: the property is set, to `true`, only when the flag is on. */
  function Flag(on: bool): Option<bool> {
    if on then Some(true) else None
  }

  /** The firmware image: the user's path as given, or the bundled file in the asset directory. */
  function Firmware(host: Host, path: Option<string>, bundled: string): Image {
    Image(if Given(path) then path.value else host.join(host.assetsDir, bundled))
  }

  /** A malformed memory size, in the order the launcher parses them. */
  function SizeError(v: Values): Option<string> {
    if ParseMemorySize(v.mem).InvalidFormat? then Some(ParseMemorySize(v.mem).message)
    else if ParseMemorySize(v.vgaMem).InvalidFormat? then Some(ParseMemorySize(v.vgaMem).message)
    else None
  }

  /** `wasm_path`, `autostart` and the two memory sizes (zero and absent sizes are left out). */
  predicate DescribesMemory(host: Host, v: Values, c: Config) {
    && c.wasmPath == Some(host.join(host.assetsDir, "v86.wasm"))
    && c.autostart == Some(v.autostart)
    && c.memorySize == NonZeroSize(ParseMemorySize(v.mem))
    && c.vgaMemorySize == NonZeroSize(ParseMemorySize(v.vgaMem))
  }

  /** The two firmware images, always present. */
  predicate DescribesFirmware(host: Host, v: Values, c: Config) {
    && c.bios == Some(Firmware(host, v.bios, "seabios.bin"))
    && c.vgaBios == Some(Firmware(host, v.vgaBios, "vgabios.bin"))
  }

  /** Disk, floppy and CD-ROM images, present for the options given. */
  predicate DescribesStorage(host: Host, v: Values, c: Config) {
    && c.hda == CreateImage(host, v.hda)
    && c.hdb == CreateImage(host, v.hdb)
    && c.fda == CreateImage(host, v.fda)
    && c.fdb == CreateImage(host, v.fdb)
    && c.cdrom == CreateImage(host, v.cdrom)
  }

  /** Kernel, initial ramdisk, command line and boot order; "c" leaves the boot order out. */
  predicate DescribesBoot(host: Host, v: Values, c: Config) {
    && c.bzimage == CreateImage(host, v.kernel)
    && c.initrd == CreateImage(host, v.initrd)
    && c.cmdline == (if Given(v.append) then v.append else None)
    && c.bootOrder == (if Given(v.boot) && v.boot.value != "c" then Some(ParseBootOrder(v.boot)) else None)
  }

  /** Feature flags, set to `true` only when on, and the log level when it parses. */
  predicate DescribesSystem(v: Values, c: Config) {
    && c.acpi == Flag(v.acpi)
    && c.fastboot == Flag(v.fastboot)
    && c.disableKeyboard == Flag(v.disableKeyboard)
    && c.disableMouse == Flag(v.disableMouse)
    && c.disableSpeaker == Flag(v.disableSpeaker)
    && c.logLevel == LogLevel(v.logLevel)
  }

  /** Field by field, the configuration the launcher builds from `v`. */
  predicate Describes(host: Host, v: Values, c: Config) {
    && DescribesMemory(host, v, c)
    && DescribesFirmware(host, v, c)
    && DescribesStorage(host, v, c)
    && DescribesBoot(host, v, c)
    && DescribesSystem(v, c)
  }

  /**
   * One memory size as the launcher applies it: a malformed size throws, a
   * zero or absent size leaves the property unset.
   */
  method SizeSetting(size: Option<string>) returns (r: Result<Option<nat>, string>)
    ensures r.Failure? <==> ParseMemorySize(size).InvalidFormat?
    ensures r.Failure? ==> r.error == InvalidSizeMessage(size.value)
    ensures r.Success? ==> r.value == NonZeroSize(ParseMemorySize(size))
  {
    var parsed := ParseMemorySize(size);
    if parsed.InvalidFormat? {
      return Failure(parsed.message);
    }
    r := Success(None);
    if parsed.Bytes? && parsed.bytes != 0 {
      r := Success(Some(parsed.bytes));
    }
  }

  /** BIOS configuration: both firmware images are always set. */
  method FirmwareSection(host: Host, v: Values) returns (bios: Option<Image>, vgaBios: Option<Image>)
    ensures bios == Some(Firmware(host, v.bios, "seabios.bin"))
    ensures vgaBios == Some(Firmware(host, v.vgaBios, "vgabios.bin"))
  {
    var biosPath := if Given(v.bios) then v.bios.value else host.join(host.assetsDir, "seabios.bin");
    bios := Some(Image(biosPath));
    var vgaBiosPath := if Given(v.vgaBios) then v.vgaBios.value else host.join(host.assetsDir, "vgabios.bin");
    vgaBios := Some(Image(vgaBiosPath));
  }

  /** Storage configuration: one image per drive option given. */
  method StorageSection(host: Host, v: Values)
    returns (hda: Option<Image>, hdb: Option<Image>, fda: Option<Image>, fdb: Option<Image>, cdrom: Option<Image>)
    ensures hda == CreateImage(host, v.hda) && hdb == CreateImage(host, v.hdb)
    ensures fda == CreateImage(host, v.fda) && fdb == CreateImage(host, v.fdb)
    ensures cdrom == CreateImage(host, v.cdrom)
  {
    hda, hdb, fda, fdb, cdrom := None, None, None, None, None;
    if Given(v.hda) {
      hda := CreateImage(host, v.hda);
    }
    if Given(v.hdb) {
      hdb := CreateImage(host, v.hdb);
    }
    if Given(v.fda) {
      fda := CreateImage(host, v.fda);
    }
    if Given(v.fdb) {
      fdb := CreateImage(host, v.fdb);
    }
    if Given(v.cdrom) {
      cdrom := CreateImage(host, v.cdrom);
    }
  }

  /** Boot configuration: kernel, ramdisk, command line, and a boot order other than "c". */
  method BootSection(host: Host, v: Values)
    returns (bzimage: Option<Image>, initrd: Option<Image>, cmdline: Option<string>, bootOrder: Option<int>)
    ensures bzimage == CreateImage(host, v.kernel) && initrd == CreateImage(host, v.initrd)
    ensures cmdline.Some? <==> Given(v.append)
    ensures cmdline.Some? ==> cmdline == v.append
    ensures bootOrder.Some? <==> Given(v.boot) && v.boot.value != "c"
    ensures bootOrder.Some? ==> bootOrder.value == ParseBootOrder(v.boot) && IsBootCode(bootOrder.value)
  {
    bzimage, initrd, cmdline, bootOrder := None, None, None, None;
    if Given(v.kernel) {
      bzimage := CreateImage(host, v.kernel);
    }
    if Given(v.initrd) {
      initrd := CreateImage(host, v.initrd);
    }
    if Given(v.append) {
      cmdline := Some(v.append.value);
    }
    if Given(v.boot) && v.boot.value != "c" {
      bootOrder := Some(ParseBootOrder(v.boot));
    }
  }

  /** System, input/output and debug configuration: flags set only when on, the log level when it parses. */
  method SystemSection(v: Values)
    returns (acpi: Option<bool>, fastboot: Option<bool>, disableKeyboard: Option<bool>,
             disableMouse: Option<bool>, disableSpeaker: Option<bool>, logLevel: Option<int>)
    ensures acpi == Flag(v.acpi) && fastboot == Flag(v.fastboot)
    ensures disableKeyboard == Flag(v.disableKeyboard) && disableMouse == Flag(v.disableMouse)
    ensures disableSpeaker == Flag(v.disableSpeaker)
    ensures logLevel == LogLevel(v.logLevel)
  {
    acpi, fastboot, disableKeyboard, disableMouse, disableSpeaker := None, None, None, None, None;
    if v.acpi {
      acpi := Some(true);
    }
    if v.fastboot {
      fastboot := Some(true);
    }
    if v.disableKeyboard {
      disableKeyboard := Some(true);
    }
    if v.disableMouse {
      disableMouse := Some(true);
    }
    if v.disableSpeaker {
      disableSpeaker := Some(true);
    }
    logLevel := None;
    var parsed := LogLevel(v.logLevel);
    if parsed.Some? {
      logLevel := parsed;
    }
  }

  /**
   * The configuration block. Every property starts out unset except
   * `wasm_path` and `autostart`; the sections above assign the rest, each
   * under its own condition and in the launcher's order, and the record is
   * assembled at the end. A malformed memory size throws before anything
   * else is assigned.
   */
  method BuildConfig(host: Host, v: Values) returns (r: Result<Config, string>)
    ensures r.Failure? <==> SizeError(v).Some?
    ensures r.Failure? ==> r.error == SizeError(v).value
    ensures r.Success? ==> Describes(host, v, r.value)
  {
    var wasmPath := Some(host.join(host.assetsDir, "v86.wasm"));
    var autostart := Some(v.autostart);

    // Memory configuration
    var memorySize := SizeSetting(v.mem);
    if memorySize.Failure? {
      return Failure(memorySize.error);
    }
    var vgaMemorySize := SizeSetting(v.vgaMem);
    if vgaMemorySize.Failure? {
      return Failure(vgaMemorySize.error);
    }

    var bios, vgaBios := FirmwareSection(host, v);
    var hda, hdb, fda, fdb, cdrom := StorageSection(host, v);
    var bzimage, initrd, cmdline, bootOrder := BootSection(host, v);
    var acpi, fastboot, disableKeyboard, disableMouse, disableSpeaker, logLevel := SystemSection(v);

    return Success(Config(
      wasmPath, autostart, memorySize.value, vgaMemorySize.value, bios, vgaBios,
      hda, hdb, fda, fdb, cdrom, bzimage, initrd, cmdline, bootOrder,
      acpi, fastboot, disableKeyboard, disableMouse, disableSpeaker, logLevel));
  }

  /** What one run of the launcher does with its option values. */
  datatype Outcome = ShowHelp | ShowVersion | Start(config: Config) | Crash(message: string)

  /** Help wins over version, version over starting the engine; a bad size ends the run. */
  method Launch(host: Host, v: Values) returns (o: Outcome)
    ensures o == ShowHelp <==> v.help
    ensures o == ShowVersion <==> !v.help && v.version
    ensures o.Crash? <==> !v.help && !v.version && SizeError(v).Some?
    ensures o.Start? <==> !v.help && !v.version && SizeError(v).None?
    ensures o.Crash? ==> o.message == SizeError(v).value
    ensures o.Start? ==> !v.help && !v.version && Describes(host, v, o.config)
  {
    if v.help {
      return ShowHelp;
    } else if v.version {
      return ShowVersion;
    }
    var built := BuildConfig(host, v);
    match built
    case Success(config) => return Start(config);
    case Failure(message) => return Crash(message);
  }

  /** The description leaves no freedom: at most one configuration fits the values. */
  lemma DescribesUnique(host: Host, v: Values, c1: Config, c2: Config)
    requires Describes(host, v, c1) && Describes(host, v, c2)
    ensures c1 == c2
  {
  }

  /** `wasm_path`, `autostart`, `bios` and `vga_bios` are always set; firmware defaults to the bundled files. */
  lemma AlwaysPresentFields(host: Host, v: Values, c: Config)
    requires Describes(host, v, c)
    ensures c.wasmPath.Some? && c.autostart.Some? && c.bios.Some? && c.vgaBios.Some?
    ensures !Given(v.bios) ==> c.bios == Some(Image(host.join(host.assetsDir, "seabios.bin")))
    ensures Given(v.bios) ==> c.bios == Some(Image(v.bios.value))
    ensures !Given(v.vgaBios) ==> c.vgaBios == Some(Image(host.join(host.assetsDir, "vgabios.bin")))
    ensures Given(v.vgaBios) ==> c.vgaBios == Some(Image(v.vgaBios.value))
  {
  }

  /**
   * `boot_order` is left out exactly for an empty boot string or the
   * default "c"; any other string sets it, to a valid code.
   */
  lemma BootOrderField(host: Host, v: Values, c: Config)
    requires Describes(host, v, c)
    ensures c.bootOrder.None? <==> !Given(v.boot) || v.boot.value == "c"
    ensures c.bootOrder.Some? ==> IsBootCode(c.bootOrder.value)
    ensures c.bootOrder.Some? && v.boot.value[0] !in {'a', 'b', 'd', 'n'} ==> c.bootOrder == Some(HardDisk)
  {
  }

  /** "z" and "cd" are not the default string, so they set the hard-disk code explicitly; "d" picks the CD-ROM. */
  lemma BootOrderFieldExamples(host: Host, v: Values, c: Config)
    requires Describes(host, v, c)
    ensures v.boot == Some("z") ==> c.bootOrder == Some(HardDisk)
    ensures v.boot == Some("cd") ==> c.bootOrder == Some(HardDisk)
    ensures v.boot == Some("d") ==> c.bootOrder == Some(CdRom)
    ensures v.boot == Some("c") ==> c.bootOrder == None
  {
    BootOrderField(host, v, c);
  }

  /** A memory size of zero is parsed, and then not set: "0M" leaves `memory_size` out. */
  lemma ZeroMemoryOmitted(host: Host, v: Values, c: Config)
    requires Describes(host, v, c)
    requires v.mem == Some("0M") && v.vgaMem == Some("0M")
    ensures c.memorySize.None? && c.vgaMemorySize.None?
  {
    ZeroSize();
  }

  /** `--netdev` and `--nographic` are parsed but change nothing in the configuration. */
  lemma IgnoresNetdevAndNographic(host: Host, v: Values, c: Config, netdev: Option<string>, nographic: bool)
    ensures Describes(host, v, c) <==> Describes(host, v.(netdev := netdev, nographic := nographic), c)
    ensures SizeError(v) == SizeError(v.(netdev := netdev, nographic := nographic))
  {
  }

  /** With no options at all: 512 MiB, 8 MiB of video memory, bundled firmware, log level 0, nothing else. */
  lemma DefaultConfiguration(host: Host, c: Config)
    requires Describes(host, DefaultValues(), c)
    ensures SizeError(DefaultValues()).None?
    ensures c == EmptyConfig.(
      wasmPath := Some(host.join(host.assetsDir, "v86.wasm")),
      autostart := Some(true),
      memorySize := Some(536870912),
      vgaMemorySize := Some(8388608),
      bios := Some(Image(host.join(host.assetsDir, "seabios.bin"))),
      vgaBios := Some(Image(host.join(host.assetsDir, "vgabios.bin"))),
      logLevel := Some(0))
  {
    DefaultMemorySize();
    DefaultVgaMemorySize();
    ParseIntIgnoresTail("0", []);
    assert "0" + [] == "0";
    assert Decimal.Value("0") == 0 by {
      assert "0"[..0] == [];
    }
  }
}
