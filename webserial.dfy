/**
 * The workflows of src/web/webserial.ts: the module-level `isFlashing` and
 * `PORT` variables (kept here as the fields of one `WebSerialState`
 * object), `getPort`, the flash, erase and monitor commands, and the
 * mapping from a build manifest's `flash_files` to `PartitionInfo` records.
 * The user's picks, the device's answers and the workspace's files are
 * parameters; every call the workflows make is recorded in a ghost log.
 */
module WebSerial {
  import opened Wrappers
  import opened Host
  import opened ByteCodec
  import opened JsNumbers
  import opened PortMatching
  import SerialPseudoTerminal

  /** The baud rates the flash command offers, in picker order. */
  const FlashBaudRates: seq<nat> := [115200, 230400, 460800, 921600]
  /** The baud rates the monitor command offers, in picker order. */
  const MonitorBaudRates: seq<nat> := [74880, 115200]
  /** The fixed baud rate of the erase command. */
  const EraseBaudRate: nat := 115200
  const FlashBusyMessage: string := "Please wait until previous flashing is finished"
  const EraseBusyMessage: string := "Waiting for flash to complete...\nTry again later"
  const ManifestMissingSuffix: string := " does not exists."
  /** `FileType.File` of the editor's file-system API. */
  const FileTypeFile: nat := 1

  // ---------------------------------------------------------------------------
  // Flash plan
  // ---------------------------------------------------------------------------

  /** `PartitionInfo`; `address` is whatever `parseInt` made of the offset. */
  datatype PartitionInfo = PartitionInfo(name: string, data: string, address: JsNumber)

  /** `FlashSectionMessage`. */
  datatype FlashSectionMessage = FlashSectionMessage(sections: seq<PartitionInfo>, flashSize: string, flashMode: string, flashFreq: string)

  /** One entry of the manifest's `flash_files` object: offset key and file name, in `Object.keys` order. */
  datatype FlashFile = FlashFile(offset: string, fileName: string)

  /** The manifest's `flash_settings`. */
  datatype FlashSettings = FlashSettings(flashFreq: string, flashMode: string, flashSize: string)

  /** What `JSON.parse` makes of `flasher_args.json`. */
  datatype Manifest = Manifest(flashFiles: seq<FlashFile>, flashSettings: FlashSettings)

  /**
   * The workspace as the flash command sees it: the manifest's URI, the
   * file type `stat` reports for it (`None` when `stat` throws), its content
   * (`None` when falsy), its parsed form, and the bytes of each binary under
   * `build/` that can be read, by file name.
   */
  datatype Workspace = Workspace(
    manifestUri: string,
    manifestStat: Option<nat>,
    manifestContent: Option<seq<byte>>,
    manifest: Manifest,
    binaries: map<string, seq<byte>>)

  /** Why `getFlashSectionsForCurrentWorkspace` threw. */
  datatype SectionsError =
    | StatFailed                        // `workspace.fs.stat` threw
    | ManifestNotAFile(message: string) // `${flashInfoFileName} does not exists.`
    | BuildBeforeFlashing               // the manifest content was falsy
    | BinaryUnreadable(fileName: string) // `readFile` of a listed binary threw

  /** `FlashOptions` as the loader receives them, without the two callbacks (the progress report is `ProgressMessage`; the MD5 hash is not modelled). */
  datatype FlashOptions = FlashOptions(
    fileArray: seq<PartitionInfo>,
    flashSize: string,
    flashFreq: string,
    flashMode: string,
    eraseAll: bool,
    compress: bool)

  /** `readFileIntoBuffer`: a record named after the file, at the parsed offset, whose data decodes back to the file's bytes. */
  function ReadFileIntoBuffer(name: string, offset: string, bytes: seq<byte>): (p: PartitionInfo)
    ensures p.name == name
    ensures p.address == ParseInt(offset)
    ensures |p.data| == |bytes| && StringToUInt8Array(p.data) == Some(bytes)
  {
    DecodeEncode(bytes);
    PartitionInfo(name, UInt8ArrayToString(bytes), ParseInt(offset))
  }

  /**
   * The partitions for `flash_files`: one per entry, in key order, or the
   * first entry whose binary cannot be read.
   */
  function PartitionsFor(files: seq<FlashFile>, binaries: map<string, seq<byte>>): (r: Result<seq<PartitionInfo>, SectionsError>)
    ensures r.Success? <==> forall i :: 0 <= i < |files| ==> files[i].fileName in binaries
    ensures r.Success? ==> |r.value| == |files|
    ensures r.Success? ==> forall i :: 0 <= i < |files| ==>
      r.value[i] == ReadFileIntoBuffer(files[i].fileName, files[i].offset, binaries[files[i].fileName])
    ensures r.Failure? ==> exists k ::
      && 0 <= k < |files| && files[k].fileName !in binaries
      && r.error == BinaryUnreadable(files[k].fileName)
      && (forall j :: 0 <= j < k ==> files[j].fileName in binaries)
  {
    if files == [] then Success([])
    else if files[0].fileName !in binaries then Failure(BinaryUnreadable(files[0].fileName))
    else match PartitionsFor(files[1..], binaries)
      case Failure(e) => Failure(e)
      case Success(rest) =>
        Success([ReadFileIntoBuffer(files[0].fileName, files[0].offset, binaries[files[0].fileName])] + rest)
  }

  /** The binary that makes `PartitionsFor` fail is the first one that cannot be read. */
  lemma PartitionsForFirstMissing(files: seq<FlashFile>, binaries: map<string, seq<byte>>, i: nat)
    requires i < |files| && files[i].fileName !in binaries
    requires forall j :: 0 <= j < i ==> files[j].fileName in binaries
    ensures PartitionsFor(files, binaries) == Failure(BinaryUnreadable(files[i].fileName))
  {
    var r := PartitionsFor(files, binaries);
    var k :| 0 <= k < |files| && files[k].fileName !in binaries
      && r.error == BinaryUnreadable(files[k].fileName)
      && (forall j :: 0 <= j < k ==> files[j].fileName in binaries);
    assert k == i;
  }

  /** When every binary can be read, `PartitionsFor` is the record-by-record mapping. */
  lemma PartitionsForAll(files: seq<FlashFile>, binaries: map<string, seq<byte>>, sections: seq<PartitionInfo>)
    requires forall i :: 0 <= i < |files| ==> files[i].fileName in binaries
    requires |sections| == |files|
    requires forall i :: 0 <= i < |files| ==>
      sections[i] == ReadFileIntoBuffer(files[i].fileName, files[i].offset, binaries[files[i].fileName])
    ensures PartitionsFor(files, binaries) == Success(sections)
  {
    var r := PartitionsFor(files, binaries);
    assert r.value == sections;
  }

  /** A manifest listing a bootloader at 0x1000 and an application at 0x10000 yields two records, in manifest order. */
  lemma TwoPartitionPlan(boot: seq<byte>, app: seq<byte>)
    ensures var files := [FlashFile("0x1000", "bootloader.bin"), FlashFile("0x10000", "app.bin")];
      var r := PartitionsFor(files, map["bootloader.bin" := boot, "app.bin" := app]);
      && r.Success? && |r.value| == 2
      && r.value[0].name == "bootloader.bin" && r.value[0].address == Finite(0x1000)
      && r.value[1].name == "app.bin" && r.value[1].address == Finite(0x10000)
      && StringToUInt8Array(r.value[0].data) == Some(boot)
      && StringToUInt8Array(r.value[1].data) == Some(app)
  {
    ParseIntOffsets();
    var files := [FlashFile("0x1000", "bootloader.bin"), FlashFile("0x10000", "app.bin")];
    var binaries := map["bootloader.bin" := boot, "app.bin" := app];
    assert files[0].fileName in binaries && files[1].fileName in binaries;
  }

  /** `getFlashSectionsForCurrentWorkspace`, as a value. */
  function FlashSections(ws: Workspace): (r: Result<FlashSectionMessage, SectionsError>)
    ensures ws.manifestStat.None? ==> r == Failure(StatFailed)
    ensures ws.manifestStat.Some? && ws.manifestStat != Some(FileTypeFile) ==>
      r == Failure(ManifestNotAFile(ws.manifestUri + ManifestMissingSuffix))
    ensures ws.manifestStat == Some(FileTypeFile) && ws.manifestContent.None? ==> r == Failure(BuildBeforeFlashing)
    ensures r.Success? ==> ws.manifestStat == Some(FileTypeFile) && ws.manifestContent.Some?
    ensures ws.manifestStat == Some(FileTypeFile) && ws.manifestContent.Some? ==>
      (r.Success? <==> PartitionsFor(ws.manifest.flashFiles, ws.binaries).Success?)
    ensures ws.manifestStat == Some(FileTypeFile) && ws.manifestContent.Some? && r.Failure? ==>
      r.error == PartitionsFor(ws.manifest.flashFiles, ws.binaries).error
    ensures r.Success? ==>
      && PartitionsFor(ws.manifest.flashFiles, ws.binaries) == Success(r.value.sections)
      && r.value.flashFreq == ws.manifest.flashSettings.flashFreq
      && r.value.flashMode == ws.manifest.flashSettings.flashMode
      && r.value.flashSize == ws.manifest.flashSettings.flashSize
  {
    if ws.manifestStat.None? then Failure(StatFailed)
    else if ws.manifestStat.value != FileTypeFile then Failure(ManifestNotAFile(ws.manifestUri + ManifestMissingSuffix))
    else if ws.manifestContent.None? then Failure(BuildBeforeFlashing)
    else match PartitionsFor(ws.manifest.flashFiles, ws.binaries)
      case Failure(e) => Failure(e)
      case Success(sections) =>
        var settings := ws.manifest.flashSettings;
        Success(FlashSectionMessage(sections, settings.flashSize, settings.flashMode, settings.flashFreq))
  }

  /**
   * `getFlashSectionsForCurrentWorkspace`: checks the manifest, then walks
   * `flash_files` in key order building one record per entry.
   */
  method GetFlashSections(ws: Workspace) returns (r: Result<FlashSectionMessage, SectionsError>)
    ensures r == FlashSections(ws)
  {
    if ws.manifestStat.None? {
      return Failure(StatFailed);
    }
    if ws.manifestStat.value != FileTypeFile {
      return Failure(ManifestNotAFile(ws.manifestUri + ManifestMissingSuffix));
    }
    if ws.manifestContent.None? {
      return Failure(BuildBeforeFlashing);
    }
    var files := ws.manifest.flashFiles;
    var sections: seq<PartitionInfo> := [];
    for i := 0 to |files|
      invariant |sections| == i
      invariant forall k :: 0 <= k < i ==> files[k].fileName in ws.binaries
      invariant forall k :: 0 <= k < i ==>
        sections[k] == ReadFileIntoBuffer(files[k].fileName, files[k].offset, ws.binaries[files[k].fileName])
    {
      var name := files[i].fileName;
      if name !in ws.binaries {
        PartitionsForFirstMissing(files, ws.binaries, i);
        return Failure(BinaryUnreadable(name));
      }
      sections := sections + [ReadFileIntoBuffer(name, files[i].offset, ws.binaries[name])];
    }
    PartitionsForAll(files, ws.binaries, sections);
    var settings := ws.manifest.flashSettings;
    r := Success(FlashSectionMessage(sections, settings.flashSize, settings.flashMode, settings.flashFreq));
  }

  /** The flash options `flashWithWebSerial` hands to the loader. */
  function FlashOptionsFor(message: FlashSectionMessage): (o: FlashOptions)
    ensures o.fileArray == message.sections
    ensures o.flashSize == message.flashSize && o.flashFreq == message.flashFreq && o.flashMode == message.flashMode
    ensures !o.eraseAll && o.compress
  {
    FlashOptions(message.sections, message.flashSize, message.flashFreq, message.flashMode, false, true)
  }

  /** The `reportProgress` callback's message; an index past the sections throws (`None`). */
  function ProgressMessage(sections: seq<PartitionInfo>, fileIndex: nat, written: nat, total: nat): (m: Option<string>)
    ensures m.Some? <==> fileIndex < |sections|
  {
    if fileIndex < |sections| then
      Some(sections[fileIndex].name + " (" + DecimalString(written) + "/" + DecimalString(total) + ")")
    else None
  }

  /** A progress message names the section being written, then the two counters, which read back as written. */
  lemma ProgressMessageReadsBack(sections: seq<PartitionInfo>, fileIndex: nat, written: nat, total: nat)
    requires fileIndex < |sections|
    ensures exists w: string, t: string ::
      && w == DecimalString(written) && t == DecimalString(total)
      && ProgressMessage(sections, fileIndex, written, total) == Some(sections[fileIndex].name + " (" + w + "/" + t + ")")
      && ParseInt(w) == Finite(written)
      && ParseInt(t) == Finite(total)
  {
    ParseIntDecimal(written);
    ParseIntDecimal(total);
    var w, t := DecimalString(written), DecimalString(total);
    assert ProgressMessage(sections, fileIndex, written, total) == Some(sections[fileIndex].name + " (" + w + "/" + t + ")");
  }

  // ---------------------------------------------------------------------------
  // Module state and the workflows
  // ---------------------------------------------------------------------------

  /** A call a workflow makes, or an assignment to `isFlashing`. */
  datatype Effect =
    | ShowInformation(message: string)            // `window.showInformationMessage`
    | Prompt(call: PortPrompt)                    // one of `getPort`'s two calls
    | FlashingSet(value: bool)                    // `isFlashing = value`
    | NewTransport(transport: Transport)          // `new Transport(port)`
    | TransportConnect(transport: Transport)      // `transport.connect()`
    | NewLoader(transport: Transport, baudRate: nat) // `new ESPLoader({transport, baudrate, ...})`
    | LoaderMain                                  // `esploader.main()`
    | LoaderWriteFlash(options: FlashOptions)     // `esploader.writeFlash(options)`
    | LoaderEraseFlash                            // `esploader.eraseFlash()`
    | TransportDisconnect(transport: Transport)   // `transport.disconnect()`

  /**
   * `getPort()`: it rejects when `requestSerialPort` (`grant`) or
   * `navigator.serial.getPorts()` (`listing`) rejects, resolves to `null`
   * when the grant is declined or no authorized port matches, and to the
   * first match otherwise.
   */
  function QueryPort(grant: Result<Option<PortInfo>, Thrown>, listing: Result<seq<SerialPort>, Thrown>): (r: Result<Option<SerialPort>, Thrown>)
    ensures r.Failure? <==> grant.Failure? || (grant.value.Some? && listing.Failure?)
    ensures r.Failure? ==> r.error == if grant.Failure? then grant.error else listing.error
    ensures r.Success? && r.value.Some? ==>
      grant.value.Some? && r.value.value in listing.value && Matches(r.value.value, grant.value.value)
    ensures r.Success? && r.value.None? ==>
      grant.value.None? || forall k :: 0 <= k < |listing.value| ==> !Matches(listing.value[k], grant.value.value)
    ensures grant.Success? && grant.value.Some? && listing.Success? ==> r == Success(ResolveGrant(grant.value, listing.value))
  {
    match grant
    case Failure(e) => Failure(e)
    case Success(None) => Success(None)
    case Success(Some(info)) =>
      match listing
      case Failure(e) => Failure(e)
      case Success(ports) => Success(ResolveGrant(Some(info), ports))
  }

  /** Whether `getPort()` resolved to a port. */
  predicate PortFound(grant: Result<Option<PortInfo>, Thrown>, listing: Result<seq<SerialPort>, Thrown>)
  {
    QueryPort(grant, listing).Success? && QueryPort(grant, listing).value.Some?
  }

  /** The calls `getPort` makes: the port list is asked for only after a grant. */
  function PortPromptEffects(grant: Result<Option<PortInfo>, Thrown>): seq<Effect>
  {
    if grant.Success? && grant.value.Some? then [Prompt(RequestSerialPort), Prompt(GetAuthorizedPorts)] else [Prompt(RequestSerialPort)]
  }

  /** Why a workflow ended. */
  datatype WorkflowError = Threw(error: Thrown) | SectionsFailed(reason: SectionsError)

  /** How `flashWithWebSerial`'s run ended. */
  datatype FlashRun =
    | FlashBusy
    | FlashNoPort
    | FlashCancelled
    | FlashFailed(error: WorkflowError)
    | Flashed(baudRate: nat, options: FlashOptions)

  /** How `eraseflash` ended. */
  datatype EraseRun = EraseBusy | EraseNoPort | EraseFailed(error: Thrown) | Erased

  /** How `monitorWithWebserial` ended: a rejection carries what was thrown. */
  datatype MonitorRun =
    | MonitorNoPort
    | MonitorCancelled
    | MonitorFailed(error: Thrown)
    | Monitoring(terminal: SerialPseudoTerminal.SerialTerminal)

  class WebSerialState {
    var isFlashing: bool
    /** `PORT`. */
    var port: Option<SerialPort>
    ghost var effects: seq<Effect>

    constructor ()
      ensures !isFlashing && port.None? && effects == []
    {
      isFlashing := false;
      port := None;
      effects := [];
    }

    /** `getPort()`. */
    method GetPort(grant: Result<Option<PortInfo>, Thrown>, listing: Result<seq<SerialPort>, Thrown>)
      returns (p: Result<Option<SerialPort>, Thrown>)
      modifies this`effects
      ensures p == QueryPort(grant, listing)
      ensures effects == old(effects) + PortPromptEffects(grant)
    {
      effects := effects + [Prompt(RequestSerialPort)];
      if grant.Failure? {
        return Failure(grant.error);
      }
      if grant.value.None? {
        return Success(None);
      }
      effects := effects + [Prompt(GetAuthorizedPorts)];
      if listing.Failure? {
        return Failure(listing.error);
      }
      p := Success(FindPort(listing.value, grant.value.value));
    }

    /**
     * `flashWithWebSerial`. It refuses to start while `isFlashing` is set but
     * never sets it. `pick` is the index of the chosen baud rate (`None` when
     * the picker is dismissed); `main`, `write` and `disconnect` are what the
     * loader's handshake, its flash write and the final disconnect do. A
     * rejection, of `getPort` included, escapes the progress task and leaves
     * `PORT` as it was.
     */
    method FlashWithWebSerial(grant: Result<Option<PortInfo>, Thrown>, listing: Result<seq<SerialPort>, Thrown>, pick: Option<nat>,
                              main: Outcome<Thrown>, ws: Workspace, write: Outcome<Thrown>, disconnect: Outcome<Thrown>)
      returns (r: FlashRun, ghost t: Transport?)
      requires pick.Some? ==> pick.value < |FlashBaudRates|
      modifies this`port, this`effects
      ensures isFlashing == old(isFlashing)
      ensures r.FlashBusy? <==> old(isFlashing)
      ensures r.FlashBusy? ==> port == old(port) && effects == old(effects) + [ShowInformation(FlashBusyMessage)]
      ensures !old(isFlashing) ==> old(effects) + PortPromptEffects(grant) <= effects
      ensures !old(isFlashing) && QueryPort(grant, listing).Failure? ==>
        r == FlashFailed(Threw(QueryPort(grant, listing).error)) && port == old(port) && effects == old(effects) + PortPromptEffects(grant)
      ensures r == FlashNoPort <==> !old(isFlashing) && QueryPort(grant, listing) == Success(None)
      ensures r.FlashNoPort? ==> port == old(port) && effects == old(effects) + PortPromptEffects(grant)
      ensures r == FlashCancelled <==> !old(isFlashing) && PortFound(grant, listing) && pick.None?
      ensures t != null <==> !old(isFlashing) && PortFound(grant, listing)
      ensures t != null ==> fresh(t) && t.device == QueryPort(grant, listing).value.value
      ensures r.FlashCancelled? ==>
        port == old(port) && effects == old(effects) + PortPromptEffects(grant) + [NewTransport(t)]
      ensures r.FlashFailed? && t != null ==> port == old(port) && pick.Some?
      ensures r.FlashFailed? && t != null ==> (
        var base := old(effects) + PortPromptEffects(grant) + [NewTransport(t), NewLoader(t, FlashBaudRates[pick.value]), LoaderMain];
        if main.Fail? then r.error == Threw(main.error) && effects == base
        else if FlashSections(ws).Failure? then r.error == SectionsFailed(FlashSections(ws).error) && effects == base
        else
          var options := FlashOptionsFor(FlashSections(ws).value);
          if write.Fail? then r.error == Threw(write.error) && effects == base + [LoaderWriteFlash(options)]
          else disconnect.Fail? && r.error == Threw(disconnect.error) && effects == base + [LoaderWriteFlash(options), TransportDisconnect(t)])
      ensures t != null && pick.Some? && main.Pass? && FlashSections(ws).Success? && write.Pass? && disconnect.Pass? ==> r.Flashed?
      ensures r.Flashed? ==>
        && t != null && pick.Some? && r.baudRate == FlashBaudRates[pick.value] && r.baudRate in {115200, 230400, 460800, 921600}
        && main.Pass? && write.Pass? && disconnect.Pass?
        && FlashSections(ws).Success? && r.options == FlashOptionsFor(FlashSections(ws).value)
        && port.None?
        && effects == old(effects) + PortPromptEffects(grant)
             + [NewTransport(t), NewLoader(t, r.baudRate), LoaderMain, LoaderWriteFlash(r.options), TransportDisconnect(t)]
    {
      t := null;
      if isFlashing {
        effects := effects + [ShowInformation(FlashBusyMessage)];
        return FlashBusy, t;
      }
      var found := GetPort(grant, listing);
      if found.Failure? {
        return FlashFailed(Threw(found.error)), t;
      }
      if found.value.None? {
        return FlashNoPort, t;
      }
      var transport := new Transport(found.value.value);
      t := transport;
      effects := effects + [NewTransport(transport)];
      if pick.None? {
        return FlashCancelled, t;
      }
      var baudRate := FlashBaudRates[pick.value];
      effects := effects + [NewLoader(transport, baudRate), LoaderMain];
      ghost var base := effects;
      assert base == old(effects) + PortPromptEffects(grant) + [NewTransport(t), NewLoader(t, FlashBaudRates[pick.value]), LoaderMain];
      if main.Fail? {
        return FlashFailed(Threw(main.error)), t;
      }
      var message := GetFlashSections(ws);
      if message.Failure? {
        return FlashFailed(SectionsFailed(message.error)), t;
      }
      var options := FlashOptionsFor(message.value);
      effects := effects + [LoaderWriteFlash(options)];
      if write.Fail? {
        return FlashFailed(Threw(write.error)), t;
      }
      effects := effects + [TransportDisconnect(transport)];
      assert effects == base + [LoaderWriteFlash(options), TransportDisconnect(t)];
      if disconnect.Fail? {
        return FlashFailed(Threw(disconnect.error)), t;
      }
      port := None;
      r := Flashed(baudRate, options);
    }

    /**
     * `eraseflash`. It sets `isFlashing` before asking for a port and clears
     * it only when no port is found or the erase completed: a rejection of
     * `getPort`, of `transport.connect()` (`connect`) or of the loader's
     * erase (`erase`) escapes with `isFlashing` still set. The final
     * disconnect is not awaited.
     */
    method EraseFlash(grant: Result<Option<PortInfo>, Thrown>, listing: Result<seq<SerialPort>, Thrown>,
                      connect: Outcome<Thrown>, erase: Outcome<Thrown>)
      returns (r: EraseRun, ghost t: Transport?)
      modifies this`isFlashing, this`port, this`effects
      ensures r.EraseBusy? <==> old(isFlashing)
      ensures r.EraseBusy? ==>
        isFlashing && port == old(port) && effects == old(effects) + [ShowInformation(EraseBusyMessage)]
      ensures !old(isFlashing) && QueryPort(grant, listing).Failure? ==>
        && r == EraseFailed(QueryPort(grant, listing).error) && isFlashing && port == old(port)
        && effects == old(effects) + [FlashingSet(true)] + PortPromptEffects(grant)
      ensures r == EraseNoPort <==> !old(isFlashing) && QueryPort(grant, listing) == Success(None)
      ensures r.EraseNoPort? ==>
        && !isFlashing && port == old(port)
        && effects == old(effects) + [FlashingSet(true)] + PortPromptEffects(grant) + [FlashingSet(false)]
      ensures t != null <==> !old(isFlashing) && PortFound(grant, listing)
      ensures t != null ==> fresh(t) && t.device == QueryPort(grant, listing).value.value
      ensures t != null && connect.Fail? ==>
        && r == EraseFailed(connect.error) && isFlashing && port == old(port)
        && effects == old(effects) + [FlashingSet(true)] + PortPromptEffects(grant) + [NewTransport(t), TransportConnect(t)]
      ensures t != null && connect.Pass? && erase.Fail? ==>
        && r == EraseFailed(erase.error) && isFlashing && port == old(port)
        && effects == old(effects) + [FlashingSet(true)] + PortPromptEffects(grant)
             + [NewTransport(t), TransportConnect(t), NewLoader(t, EraseBaudRate), LoaderEraseFlash]
      ensures r.Erased? <==> t != null && connect.Pass? && erase.Pass?
      ensures r.Erased? ==>
        && t != null && !isFlashing && port.None?
        && effects == old(effects) + [FlashingSet(true)] + PortPromptEffects(grant)
             + [NewTransport(t), TransportConnect(t), NewLoader(t, EraseBaudRate), LoaderEraseFlash,
                FlashingSet(false), TransportDisconnect(t)]
    {
      t := null;
      if isFlashing {
        effects := effects + [ShowInformation(EraseBusyMessage)];
        return EraseBusy, t;
      }
      isFlashing := true;
      effects := effects + [FlashingSet(true)];
      var found := GetPort(grant, listing);
      if found.Failure? {
        return EraseFailed(found.error), t;
      }
      if found.value.None? {
        isFlashing := false;
        effects := effects + [FlashingSet(false)];
        return EraseNoPort, t;
      }
      var transport := new Transport(found.value.value);
      t := transport;
      effects := effects + [NewTransport(transport), TransportConnect(transport)];
      if connect.Fail? {
        return EraseFailed(connect.error), t;
      }
      effects := effects + [NewLoader(transport, EraseBaudRate), LoaderEraseFlash];
      if erase.Fail? {
        return EraseFailed(erase.error), t;
      }
      isFlashing := false;
      effects := effects + [FlashingSet(false), TransportDisconnect(transport)];
      port := None;
      r := Erased;
    }

    /**
     * `monitorWithWebserial`: stores the granted port in `PORT` (even if the
     * baud-rate pick is then dismissed), connects a new transport and builds
     * a terminal at the chosen baud rate. A rejection of `getPort` or of
     * `transport.connect()` (`connect`) rejects the command. It neither
     * reads nor sets `isFlashing`.
     */
    method MonitorWithWebserial(grant: Result<Option<PortInfo>, Thrown>, listing: Result<seq<SerialPort>, Thrown>,
                                pick: Option<nat>, connect: Outcome<Thrown>)
      returns (r: MonitorRun, ghost t: Transport?)
      requires pick.Some? ==> pick.value < |MonitorBaudRates|
      modifies this`port, this`effects
      ensures isFlashing == old(isFlashing)
      ensures QueryPort(grant, listing).Failure? ==>
        r == MonitorFailed(QueryPort(grant, listing).error) && port == old(port) && effects == old(effects) + PortPromptEffects(grant)
      ensures r == MonitorNoPort <==> QueryPort(grant, listing) == Success(None)
      ensures r.MonitorNoPort? ==> port == old(port) && effects == old(effects) + PortPromptEffects(grant)
      ensures PortFound(grant, listing) ==> port == QueryPort(grant, listing).value
      ensures r == MonitorCancelled <==> PortFound(grant, listing) && pick.None?
      ensures r.MonitorCancelled? ==> effects == old(effects) + PortPromptEffects(grant)
      ensures t != null <==> PortFound(grant, listing) && pick.Some?
      ensures t != null ==>
        && fresh(t) && t.device == QueryPort(grant, listing).value.value
        && effects == old(effects) + PortPromptEffects(grant) + [NewTransport(t), TransportConnect(t)]
      ensures t != null && connect.Fail? ==> r == MonitorFailed(connect.error)
      ensures r.Monitoring? <==> t != null && connect.Pass?
      ensures r.Monitoring? ==>
        && fresh(r.terminal) && r.terminal.transport == t
        && r.terminal.baudRate == MonitorBaudRates[pick.value] && r.terminal.baudRate in {74880, 115200}
        && r.terminal.Valid() && !r.terminal.closed && r.terminal.State() == SerialPseudoTerminal.Term(false, [], [], [])
    {
      t := null;
      var found := GetPort(grant, listing);
      if found.Failure? {
        return MonitorFailed(found.error), t;
      }
      if found.value.None? {
        return MonitorNoPort, t;
      }
      port := found.value;
      if pick.None? {
        return MonitorCancelled, t;
      }
      var transport := new Transport(found.value.value);
      t := transport;
      effects := effects + [NewTransport(transport), TransportConnect(transport)];
      if connect.Fail? {
        return MonitorFailed(connect.error), t;
      }
      var terminal := new SerialPseudoTerminal.SerialTerminal(transport, MonitorBaudRates[pick.value]);
      r := Monitoring(terminal);
    }
  }
}
