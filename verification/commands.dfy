/** The plugin's command interface as the dispatcher sees it: the call each
    opcode makes (with its arguments reinterpreted from the native ones), the
    plugin's reply, and the convention that turns a reply into the native
    result and the writes into host memory. */
module Commands {
  import opened Native
  import Opcodes

  /** The five native dispatch arguments. */
  datatype Request = Request(opcode: int, index: int, value: int, ptr: int, opt: real)

  /** A call on the plugin's current command interface. Arguments that the
      value transcoder reads out of host memory are recorded by the address
      they are read from. */
  datatype Call =
    | Open
    | Close
    | SetProgram(program: int)
    | GetProgram
    | SetProgramName(nameAt: int)
    | GetProgramName
    | GetParameterLabel(index: int)
    | GetParameterDisplay(index: int)
    | GetParameterName(index: int)
    | SetSampleRate(rate: real)
    | SetBlockSize(blockSize: int)
    | MainsChanged(on: bool)
    | EditorGetRect
    | EditorOpen(window: int)
    | EditorClose
    | EditorIdle
    | GetChunk(isPreset: bool)
    | SetChunk(dataAt: int, length: int, isPreset: bool)
    | ProcessEvents(eventsAt: int)
    | CanParameterBeAutomated(index: int)
    | String2Parameter(index: int, textAt: int)
    | GetProgramNameIndexed(index: int)
    | GetInputProperties(index: int)
    | GetOutputProperties(index: int)
    | GetCategory
    | SetSpeakerArrangement(inputAt: int, outputAt: int)
    | SetBypass(bypass: bool)
    | GetEffectName
    | GetVendorString
    | GetProductString
    | GetVendorVersion
    | CanDo(capabilityAt: int)
    | GetTailSize
    | GetParameterProperties(index: int)
    | GetVstVersion
    | EditorKeyDown(ascii: int, virtualKey: int, modifiers: int)
    | EditorKeyUp(ascii: int, virtualKey: int, modifiers: int)
    | SetEditorKnobMode(mode: int)
    | GetMidiProgramName(programAt: int, channel: int)
    | GetCurrentMidiProgramName(channel: int)
    | GetMidiProgramCategory(categoryAt: int, channel: int)
    | HasMidiProgramsChanged(channel: int)
    | GetMidiKeyName(keyNameAt: int, channel: int)
    | BeginSetProgram
    | EndSetProgram
    | GetSpeakerArrangement
    | StartProcess
    | StopProcess
    | SetPanLaw(law: int, gain: real)
    | BeginLoadBank(chunkInfoAt: int)
    | BeginLoadProgram(chunkInfoAt: int)
    | SetProcessPrecision(precision: int)
    | GetNumberOfMidiInputChannels
    | GetNumberOfMidiOutputChannels
    // reached through the parameter entry points rather than the dispatcher
    | SetParameter(index: int, value: real)
    | GetParameter(index: int)

  /** A call on the plugin's optional legacy command interface. */
  datatype LegacyCall =
    | GetVu
    | EditorKey(keyCode: int)
    | EditorTop
    | EditorSleep
    | Identify
    | GetProgramCategoriesCount
    | CopyCurrentProgramTo(index: int)
    | ConnectInput(index: int, connected: bool)
    | ConnectOutput(index: int, connected: bool)
    | GetCurrentPosition
    | GetDestinationBuffer
    | SetBlockSizeAndSampleRate(blockSize: int, sampleRate: real)
    | GetErrorText
    | Idle
    | GetIcon
    | SetViewPosition(x: int, y: int)
    | KeysRequired
    // reached through the accumulating process entry point
    | ProcessAcc

  /** What a plugin method gives back when it returns normally. Each call
      reads the one field its return type corresponds to: `flag` for a bool,
      `number` for an integer or enumeration, `level` for a float, `text`
      for a string that may be null, `chunk` for a byte array that may be
      null, `present` for an object that may be null, and `flag` with
      `rect` for the editor bounds. */
  datatype Answer = Answer(
    flag: bool,
    number: int,
    level: real,
    text: Option<string>,
    chunk: Option<seq<byte>>,
    present: bool,
    rect: Rect)

  /** The plugin either returns or raises an exception. */
  datatype Reply = Throws | Returns(answer: Answer)

  /** How a dispatch case turns the plugin's answer into the native result. */
  datatype Convention =
    | Constant(n: int)                      // fixed result once the call returns
    | Flag                                  // true -> 1, false -> 0
    | InvertedFlag                          // true -> 0, false -> 1
    | Number                                // the plugin's integer, passed through
    | TruncatedLevel                        // the plugin's float, truncated toward zero
    | TextOut(capacity: nat)                // string copied to ptr, result 1
    | TextIfPresent(capacity: nat)          // non-null string copied to ptr, result 1; else 0
    | StructIfPresent(kind: StructKind)     // non-null object transcoded to ptr, result 1; else 0
    | NumberThenStruct(kind: StructKind)    // the plugin's integer; struct at ptr filled in
    | NumberThenText(capacity: nat)         // the plugin's integer; string copied to ptr
    | NumberIfPresent                       // the plugin's integer if the object is non-null; else 0
    | Stateful                              // handled by the proxy: registry, editor rectangle, teardown
    | Unhandled                             // no case in this table

  /** The outcome of a stateless dispatch case. */
  datatype Outcome = Outcome(result: int, writes: seq<Write>)

  /** The current dispatch table: the convention of each opcode it handles. */
  function CurrentConvention(op: int): (conv: Convention)
    ensures conv.Stateful? <==>
      op == Opcodes.Close || op == Opcodes.OnOff || op == Opcodes.EditorGetRectangle ||
      op == Opcodes.ChunkGet || op == Opcodes.GetSpeakerArrangement
    ensures !conv.Unhandled? ==> LegacyConvention(op).Unhandled?
  {
    match op
    case 0 => Constant(0)  // Open
    case 1 => Stateful  // Close
    case 2 => Constant(1)  // ProgramSet
    case 3 => Number  // ProgramGet
    case 4 => Constant(1)  // ProgramSetName
    case 5 => TextOut(MaxProgNameLen)  // ProgramGetName
    case 6 => TextOut(MaxParamStrLen)  // ParameterGetLabel
    case 7 => TextOut(MaxParamStrLen)  // ParameterGetDisplay
    case 8 => TextOut(MaxParamStrLen)  // ParameterGetName
    case 10 => Constant(1)  // SampleRateSet
    case 11 => Constant(1)  // BlockSizeSet
    case 12 => Stateful  // OnOff
    case 13 => Stateful  // EditorGetRectangle
    case 14 => Number  // EditorOpen
    case 15 => Constant(1)  // EditorClose
    case 19 => Constant(1)  // EditorIdle
    case 23 => Stateful  // ChunkGet
    case 24 => Flag  // ChunkSet
    case 25 => Flag  // ProcessEvents
    case 26 => Flag  // ParameterCanBeAutomated
    case 27 => Flag  // ParameterFromString
    case 29 => TextIfPresent(MaxProgNameLen)  // ProgramGetNameByIndex
    case 33 => StructIfPresent(PinProperties)  // GetInputProperties
    case 34 => StructIfPresent(PinProperties)  // GetOutputProperties
    case 35 => Number  // PluginGetCategory
    case 42 => Number  // SetSpeakerArrangement
    case 44 => Flag  // SetBypass
    case 45 => TextIfPresent(MaxEffectNameLen)  // PluginGetName
    case 47 => TextIfPresent(MaxVendorStrLen)  // VendorGetString
    case 48 => TextIfPresent(MaxProductStrLen)  // ProductGetString
    case 49 => Number  // VendorGetVersion
    case 51 => Number  // CanDo
    case 52 => Number  // GetTailSizeInSamples
    case 56 => StructIfPresent(ParameterProperties)  // ParameterGetProperties
    case 58 => Number  // GetVstVersion
    case 59 => Flag  // EditorKeyDown
    case 60 => Flag  // EditorKeyUp
    case 61 => Flag  // SetKnobMode
    case 62 => NumberThenStruct(MidiProgramName)  // MidiProgramGetName
    case 63 => NumberThenStruct(MidiProgramName)  // MidiProgramGetCurrent
    case 64 => NumberThenStruct(MidiProgramCategory)  // MidiProgramGetCategory
    case 65 => Flag  // MidiProgramsChanged
    case 66 => NumberThenText(MaxNameLen)  // MidiKeyGetName
    case 67 => Flag  // BeginSetProgram
    case 68 => Flag  // EndSetProgram
    case 69 => Stateful  // GetSpeakerArrangement
    case 71 => Number  // ProcessStart
    case 72 => Number  // ProcessStop
    case 74 => Flag  // SetPanLaw
    case 75 => Number  // BeginLoadBank
    case 76 => Number  // BeginLoadProgram
    case 77 => Flag  // SetProcessPrecision
    case 78 => Number  // MidiGetInputChannelCount
    case 79 => Number  // MidiGetOutputChannelCount
    case _ => Unhandled
  }

  /** The legacy dispatch table, consulted only for opcodes the current
      table does not handle. */
  function LegacyConvention(op: int): (conv: Convention)
    ensures !conv.Stateful?
    ensures conv.Constant? ==> conv.n == 0
  {
    match op
    case 9 => TruncatedLevel  // VuGet
    case 18 => Flag  // EditorKey
    case 20 => Flag  // EditorTop
    case 21 => Flag  // EditorSleep
    case 22 => Number  // Identify
    case 28 => Number  // ProgramGetCategoriesCount
    case 30 => Number  // ProgramCopy
    case 31 => Flag  // ConnectInput
    case 32 => Flag  // ConnectOutput
    case 36 => Number  // GetCurrentPosition
    case 37 => NumberIfPresent  // GetDestinationBuffer
    case 43 => Flag  // SetBlockSizeAndSampleRate
    case 46 => TextIfPresent(ErrorTextLen)  // GetErrorText
    case 53 => Flag  // Idle
    case 54 => Constant(0)  // GetIcon
    case 55 => Flag  // SetViewPosition
    case 57 => InvertedFlag  // KeysRequired
    case _ => Unhandled
  }

  /** Stands for "issued by no opcode": the calls made through the
      parameter and accumulating-process entry points. */
  const NoOpcode: int := -1

  /** The opcode that issues a given plugin call: the routing is one-to-one,
      so every call on the current interface comes from exactly one opcode. */
  function Issuer(call: Call): int
  {
    match call
    case Open => Opcodes.Open
    case Close => Opcodes.Close
    case SetProgram(_) => Opcodes.ProgramSet
    case GetProgram => Opcodes.ProgramGet
    case SetProgramName(_) => Opcodes.ProgramSetName
    case GetProgramName => Opcodes.ProgramGetName
    case GetParameterLabel(_) => Opcodes.ParameterGetLabel
    case GetParameterDisplay(_) => Opcodes.ParameterGetDisplay
    case GetParameterName(_) => Opcodes.ParameterGetName
    case SetSampleRate(_) => Opcodes.SampleRateSet
    case SetBlockSize(_) => Opcodes.BlockSizeSet
    case MainsChanged(_) => Opcodes.OnOff
    case EditorGetRect => Opcodes.EditorGetRectangle
    case EditorOpen(_) => Opcodes.EditorOpen
    case EditorClose => Opcodes.EditorClose
    case EditorIdle => Opcodes.EditorIdle
    case GetChunk(_) => Opcodes.ChunkGet
    case SetChunk(_, _, _) => Opcodes.ChunkSet
    case ProcessEvents(_) => Opcodes.ProcessEvents
    case CanParameterBeAutomated(_) => Opcodes.ParameterCanBeAutomated
    case String2Parameter(_, _) => Opcodes.ParameterFromString
    case GetProgramNameIndexed(_) => Opcodes.ProgramGetNameByIndex
    case GetInputProperties(_) => Opcodes.GetInputProperties
    case GetOutputProperties(_) => Opcodes.GetOutputProperties
    case GetCategory => Opcodes.PluginGetCategory
    case SetSpeakerArrangement(_, _) => Opcodes.SetSpeakerArrangement
    case SetBypass(_) => Opcodes.SetBypass
    case GetEffectName => Opcodes.PluginGetName
    case GetVendorString => Opcodes.VendorGetString
    case GetProductString => Opcodes.ProductGetString
    case GetVendorVersion => Opcodes.VendorGetVersion
    case CanDo(_) => Opcodes.CanDo
    case GetTailSize => Opcodes.GetTailSizeInSamples
    case GetParameterProperties(_) => Opcodes.ParameterGetProperties
    case GetVstVersion => Opcodes.GetVstVersion
    case EditorKeyDown(_, _, _) => Opcodes.EditorKeyDown
    case EditorKeyUp(_, _, _) => Opcodes.EditorKeyUp
    case SetEditorKnobMode(_) => Opcodes.SetKnobMode
    case GetMidiProgramName(_, _) => Opcodes.MidiProgramGetName
    case GetCurrentMidiProgramName(_) => Opcodes.MidiProgramGetCurrent
    case GetMidiProgramCategory(_, _) => Opcodes.MidiProgramGetCategory
    case HasMidiProgramsChanged(_) => Opcodes.MidiProgramsChanged
    case GetMidiKeyName(_, _) => Opcodes.MidiKeyGetName
    case BeginSetProgram => Opcodes.BeginSetProgram
    case EndSetProgram => Opcodes.EndSetProgram
    case GetSpeakerArrangement => Opcodes.GetSpeakerArrangement
    case StartProcess => Opcodes.ProcessStart
    case StopProcess => Opcodes.ProcessStop
    case SetPanLaw(_, _) => Opcodes.SetPanLaw
    case BeginLoadBank(_) => Opcodes.BeginLoadBank
    case BeginLoadProgram(_) => Opcodes.BeginLoadProgram
    case SetProcessPrecision(_) => Opcodes.SetProcessPrecision
    case GetNumberOfMidiInputChannels => Opcodes.MidiGetInputChannelCount
    case GetNumberOfMidiOutputChannels => Opcodes.MidiGetOutputChannelCount
    case SetParameter(_, _) => NoOpcode
    case GetParameter(_) => NoOpcode
  }

  /** The opcode that issues a given legacy call. */
  function LegacyIssuer(call: LegacyCall): int
  {
    match call
    case GetVu => Opcodes.VuGet
    case EditorKey(_) => Opcodes.EditorKey
    case EditorTop => Opcodes.EditorTop
    case EditorSleep => Opcodes.EditorSleep
    case Identify => Opcodes.Identify
    case GetProgramCategoriesCount => Opcodes.ProgramGetCategoriesCount
    case CopyCurrentProgramTo(_) => Opcodes.ProgramCopy
    case ConnectInput(_, _) => Opcodes.ConnectInput
    case ConnectOutput(_, _) => Opcodes.ConnectOutput
    case GetCurrentPosition => Opcodes.GetCurrentPosition
    case GetDestinationBuffer => Opcodes.GetDestinationBuffer
    case SetBlockSizeAndSampleRate(_, _) => Opcodes.SetBlockSizeAndSampleRate
    case GetErrorText => Opcodes.GetErrorText
    case Idle => Opcodes.Idle
    case GetIcon => Opcodes.GetIcon
    case SetViewPosition(_, _) => Opcodes.SetViewPosition
    case KeysRequired => Opcodes.KeysRequired
    case ProcessAcc => NoOpcode
  }

  /** The call an opcode of the current table makes, with `index`, `value`,
      `ptr` and `opt` reinterpreted as that case does. A pointer-sized
      `value` cast to a 32-bit integer or to an enumeration (whose
      underlying type is a 32-bit integer) keeps its low 32 bits. The
      parameter calls are never made here: they have entry points of their
      own. */
  function Translate(op: int, rq: Request): (call: Call)
    requires !CurrentConvention(op).Unhandled?
    ensures !call.SetParameter? && !call.GetParameter?
  {
    match op
    case 0 => Call.Open  // Open
    case 1 => Call.Close  // Close
    case 2 => SetProgram(ToInt32(rq.value))  // ProgramSet
    case 3 => GetProgram  // ProgramGet
    case 4 => SetProgramName(rq.ptr)  // ProgramSetName
    case 5 => GetProgramName  // ProgramGetName
    case 6 => GetParameterLabel(rq.index)  // ParameterGetLabel
    case 7 => GetParameterDisplay(rq.index)  // ParameterGetDisplay
    case 8 => GetParameterName(rq.index)  // ParameterGetName
    case 10 => SetSampleRate(rq.opt)  // SampleRateSet
    case 11 => SetBlockSize(ToInt32(rq.value))  // BlockSizeSet
    case 12 => MainsChanged(rq.value != 0)  // OnOff
    case 13 => EditorGetRect  // EditorGetRectangle
    case 14 => Call.EditorOpen(rq.ptr)  // EditorOpen
    case 15 => Call.EditorClose  // EditorClose
    case 19 => Call.EditorIdle  // EditorIdle
    case 23 => GetChunk(rq.index != 0)  // ChunkGet
    case 24 => SetChunk(rq.ptr, ToInt32(rq.value), rq.index != 0)  // ChunkSet
    case 25 => Call.ProcessEvents(rq.ptr)  // ProcessEvents
    case 26 => CanParameterBeAutomated(rq.index)  // ParameterCanBeAutomated
    case 27 => String2Parameter(rq.index, rq.ptr)  // ParameterFromString
    case 29 => GetProgramNameIndexed(rq.index)  // ProgramGetNameByIndex
    case 33 => Call.GetInputProperties(rq.index)  // GetInputProperties
    case 34 => Call.GetOutputProperties(rq.index)  // GetOutputProperties
    case 35 => GetCategory  // PluginGetCategory
    case 42 => Call.SetSpeakerArrangement(rq.value, rq.ptr)  // SetSpeakerArrangement
    case 44 => Call.SetBypass(rq.value != 0)  // SetBypass
    case 45 => GetEffectName  // PluginGetName
    case 47 => GetVendorString  // VendorGetString
    case 48 => GetProductString  // ProductGetString
    case 49 => GetVendorVersion  // VendorGetVersion
    case 51 => Call.CanDo(rq.ptr)  // CanDo
    case 52 => GetTailSize  // GetTailSizeInSamples
    case 56 => GetParameterProperties(rq.index)  // ParameterGetProperties
    case 58 => Call.GetVstVersion  // GetVstVersion
    case 59 => Call.EditorKeyDown(ToByte(rq.index), ToInt32(rq.value), TruncateTowardZero(rq.opt))  // EditorKeyDown
    case 60 => Call.EditorKeyUp(ToByte(rq.index), ToInt32(rq.value), TruncateTowardZero(rq.opt))  // EditorKeyUp
    case 61 => SetEditorKnobMode(ToInt32(rq.value))  // SetKnobMode
    case 62 => GetMidiProgramName(rq.ptr, rq.index)  // MidiProgramGetName
    case 63 => GetCurrentMidiProgramName(rq.index)  // MidiProgramGetCurrent
    case 64 => GetMidiProgramCategory(rq.ptr, rq.index)  // MidiProgramGetCategory
    case 65 => HasMidiProgramsChanged(rq.index)  // MidiProgramsChanged
    case 66 => GetMidiKeyName(rq.ptr, rq.index)  // MidiKeyGetName
    case 67 => Call.BeginSetProgram  // BeginSetProgram
    case 68 => Call.EndSetProgram  // EndSetProgram
    case 69 => Call.GetSpeakerArrangement  // GetSpeakerArrangement
    case 71 => StartProcess  // ProcessStart
    case 72 => StopProcess  // ProcessStop
    case 74 => Call.SetPanLaw(ToInt32(rq.value), rq.opt)  // SetPanLaw
    case 75 => Call.BeginLoadBank(rq.ptr)  // BeginLoadBank
    case 76 => Call.BeginLoadProgram(rq.ptr)  // BeginLoadProgram
    case 77 => Call.SetProcessPrecision(ToInt32(rq.value))  // SetProcessPrecision
    case 78 => GetNumberOfMidiInputChannels  // MidiGetInputChannelCount
    case 79 => GetNumberOfMidiOutputChannels  // MidiGetOutputChannelCount
    case _ => assert false; Call.Open
  }

  /** The call an opcode of the legacy table makes. */
  function TranslateLegacy(op: int, rq: Request): (call: LegacyCall)
    requires !LegacyConvention(op).Unhandled?
    ensures LegacyIssuer(call) == op
  {
    match op
    case 9 => GetVu  // VuGet
    case 18 => LegacyCall.EditorKey(ToInt32(rq.value))  // EditorKey
    case 20 => LegacyCall.EditorTop  // EditorTop
    case 21 => LegacyCall.EditorSleep  // EditorSleep
    case 22 => LegacyCall.Identify  // Identify
    case 28 => GetProgramCategoriesCount  // ProgramGetCategoriesCount
    case 30 => CopyCurrentProgramTo(rq.index)  // ProgramCopy
    case 31 => LegacyCall.ConnectInput(rq.index, rq.value != 0)  // ConnectInput
    case 32 => LegacyCall.ConnectOutput(rq.index, rq.value != 0)  // ConnectOutput
    case 36 => LegacyCall.GetCurrentPosition  // GetCurrentPosition
    case 37 => LegacyCall.GetDestinationBuffer  // GetDestinationBuffer
    case 43 => LegacyCall.SetBlockSizeAndSampleRate(ToInt32(rq.value), rq.opt)  // SetBlockSizeAndSampleRate
    case 46 => LegacyCall.GetErrorText  // GetErrorText
    case 53 => LegacyCall.Idle  // Idle
    case 54 => LegacyCall.GetIcon  // GetIcon
    case 55 => LegacyCall.SetViewPosition(rq.index, ToInt32(rq.value))  // SetViewPosition
    case 57 => LegacyCall.KeysRequired  // KeysRequired
    case _ => assert false; LegacyCall.GetVu
  }

  /** The native result and host-memory writes of a stateless case, once the
      plugin has returned `a`. */
  function Apply(conv: Convention, a: Answer): (o: Outcome)
    requires !conv.Stateful? && !conv.Unhandled?
    ensures |o.writes| <= 1
    ensures (conv.Flag? || conv.InvertedFlag?) ==> o.writes == [] && (o.result == 0 || o.result == 1)
    ensures conv.Flag? ==> (o.result == 1 <==> a.flag)
    ensures conv.InvertedFlag? ==> (o.result == 0 <==> a.flag)
    ensures (conv.TextIfPresent? || conv.StructIfPresent?) ==>
      (o.result == 1 <==> o.writes != []) && (o.result == 0 <==> o.writes == [])
    ensures conv.Constant? ==> o == Outcome(conv.n, [])
    ensures (conv.Number? || conv.NumberThenStruct? || conv.NumberThenText?) ==> o.result == a.number
    ensures conv.Number? ==> o.writes == []
    ensures conv.NumberThenStruct? ==> o.writes == [StructWrite(conv.kind)]
    ensures conv.NumberThenText? ==> o.writes == [TextWrite(a.text, conv.capacity)]
    ensures conv.TruncatedLevel? ==> (
      o.writes == [] &&
      (0.0 <= a.level ==> 0 <= o.result && o.result as real <= a.level < o.result as real + 1.0) &&
      (a.level < 0.0 ==> o.result <= 0 && o.result as real - 1.0 < a.level <= o.result as real))
    ensures conv.TextOut? ==> o == Outcome(1, [TextWrite(a.text, conv.capacity)])
    ensures conv.TextIfPresent? ==> (
      (o.result == 1 <==> a.text.Some?) &&
      (a.text.Some? ==> o.writes == [TextWrite(a.text, conv.capacity)]))
    ensures conv.StructIfPresent? ==> (
      (o.result == 1 <==> a.present) &&
      (a.present ==> o.writes == [StructWrite(conv.kind)]))
    ensures conv.NumberIfPresent? ==> o.writes == [] && o.result == (if a.present then a.number else 0)
    ensures forall w :: w in o.writes && w.TextWrite? ==> w.text == a.text
    ensures forall w :: w in o.writes ==> !w.PointerWrite?
  {
    match conv
    case Constant(n) => Outcome(n, [])
    case Flag => Outcome(if a.flag then 1 else 0, [])
    case InvertedFlag => Outcome(if a.flag then 0 else 1, [])
    case Number => Outcome(a.number, [])
    case TruncatedLevel => Outcome(TruncateTowardZero(a.level), [])
    case TextOut(cap) => Outcome(1, [TextWrite(a.text, cap)])
    case TextIfPresent(cap) =>
      if a.text.Some? then Outcome(1, [TextWrite(a.text, cap)]) else Outcome(0, [])
    case StructIfPresent(kind) =>
      if a.present then Outcome(1, [StructWrite(kind)]) else Outcome(0, [])
    case NumberThenStruct(kind) => Outcome(a.number, [StructWrite(kind)])
    case NumberThenText(cap) => Outcome(a.number, [TextWrite(a.text, cap)])
    case NumberIfPresent => if a.present then Outcome(a.number, []) else Outcome(0, [])
  }

  /** Every call of the current table names the opcode that issued it. */
  lemma IssuerOfTranslate(op: int, rq: Request)
    requires !CurrentConvention(op).Unhandled?
    ensures Issuer(Translate(op, rq)) == op
  {
    if op < 10 {
      IssuerOfTranslateFrom0(op, rq);
    } else if op < 20 {
      IssuerOfTranslateFrom10(op, rq);
    } else if op < 30 {
      IssuerOfTranslateFrom20(op, rq);
    } else if op < 40 {
      IssuerOfTranslateFrom30(op, rq);
    } else if op < 50 {
      IssuerOfTranslateFrom40(op, rq);
    } else if op < 60 {
      IssuerOfTranslateFrom50(op, rq);
    } else if op < 70 {
      IssuerOfTranslateFrom60(op, rq);
    } else {
      IssuerOfTranslateFrom70(op, rq);
    }
  }

  // The opcode range in groups of ten, proved apart to keep each proof small.

  lemma IssuerOfTranslateFrom0(op: int, rq: Request)
    requires !CurrentConvention(op).Unhandled? && 0 <= op < 10
    ensures Issuer(Translate(op, rq)) == op
  {
  }

  lemma IssuerOfTranslateFrom10(op: int, rq: Request)
    requires !CurrentConvention(op).Unhandled? && 10 <= op < 20
    ensures Issuer(Translate(op, rq)) == op
  {
  }

  lemma IssuerOfTranslateFrom20(op: int, rq: Request)
    requires !CurrentConvention(op).Unhandled? && 20 <= op < 30
    ensures Issuer(Translate(op, rq)) == op
  {
  }

  lemma IssuerOfTranslateFrom30(op: int, rq: Request)
    requires !CurrentConvention(op).Unhandled? && 30 <= op < 40
    ensures Issuer(Translate(op, rq)) == op
  {
  }

  lemma IssuerOfTranslateFrom40(op: int, rq: Request)
    requires !CurrentConvention(op).Unhandled? && 40 <= op < 50
    ensures Issuer(Translate(op, rq)) == op
  {
  }

  lemma IssuerOfTranslateFrom50(op: int, rq: Request)
    requires !CurrentConvention(op).Unhandled? && 50 <= op < 60
    ensures Issuer(Translate(op, rq)) == op
  {
  }

  lemma IssuerOfTranslateFrom60(op: int, rq: Request)
    requires !CurrentConvention(op).Unhandled? && 60 <= op < 70
    ensures Issuer(Translate(op, rq)) == op
  {
  }

  lemma IssuerOfTranslateFrom70(op: int, rq: Request)
    requires !CurrentConvention(op).Unhandled? && 70 <= op
    ensures Issuer(Translate(op, rq)) == op
  {
  }

  /** Distinct opcodes of the current table make calls on distinct plugin
      methods, whatever the native arguments. */
  lemma TranslateInjective(op1: int, op2: int, rq1: Request, rq2: Request)
    requires !CurrentConvention(op1).Unhandled? && !CurrentConvention(op2).Unhandled?
    requires Translate(op1, rq1) == Translate(op2, rq2)
    ensures op1 == op2
  {
    IssuerOfTranslate(op1, rq1);
    IssuerOfTranslate(op2, rq2);
  }
}
