/** The opcode vocabulary of the VST 2.x dispatcher: the number the host
    passes for each named opcode of the published ABI. The dispatcher casts
    the host's 32-bit opcode to this enumeration without a range check, so
    any other value is passed through unchanged and matches no case. */
module Opcodes {

  const Open: int := 0
  const Close: int := 1
  const ProgramSet: int := 2
  const ProgramGet: int := 3
  const ProgramSetName: int := 4
  const ProgramGetName: int := 5
  const ParameterGetLabel: int := 6
  const ParameterGetDisplay: int := 7
  const ParameterGetName: int := 8
  const VuGet: int := 9
  const SampleRateSet: int := 10
  const BlockSizeSet: int := 11
  const OnOff: int := 12
  const EditorGetRectangle: int := 13
  const EditorOpen: int := 14
  const EditorClose: int := 15
  const EditDraw: int := 16
  const EditMouse: int := 17
  const EditorKey: int := 18
  const EditorIdle: int := 19
  const EditorTop: int := 20
  const EditorSleep: int := 21
  const Identify: int := 22
  const ChunkGet: int := 23
  const ChunkSet: int := 24
  const ProcessEvents: int := 25
  const ParameterCanBeAutomated: int := 26
  const ParameterFromString: int := 27
  const ProgramGetCategoriesCount: int := 28
  const ProgramGetNameByIndex: int := 29
  const ProgramCopy: int := 30
  const ConnectInput: int := 31
  const ConnectOutput: int := 32
  const GetInputProperties: int := 33
  const GetOutputProperties: int := 34
  const PluginGetCategory: int := 35
  const GetCurrentPosition: int := 36
  const GetDestinationBuffer: int := 37
  const OfflineNotify: int := 38
  const OfflinePrepare: int := 39
  const OfflineRun: int := 40
  const ProcessVarIo: int := 41
  const SetSpeakerArrangement: int := 42
  const SetBlockSizeAndSampleRate: int := 43
  const SetBypass: int := 44
  const PluginGetName: int := 45
  const GetErrorText: int := 46
  const VendorGetString: int := 47
  const ProductGetString: int := 48
  const VendorGetVersion: int := 49
  const VendorSpecific: int := 50
  const CanDo: int := 51
  const GetTailSizeInSamples: int := 52
  const Idle: int := 53
  const GetIcon: int := 54
  const SetViewPosition: int := 55
  const ParameterGetProperties: int := 56
  const KeysRequired: int := 57
  const GetVstVersion: int := 58
  const EditorKeyDown: int := 59
  const EditorKeyUp: int := 60
  const SetKnobMode: int := 61
  const MidiProgramGetName: int := 62
  const MidiProgramGetCurrent: int := 63
  const MidiProgramGetCategory: int := 64
  const MidiProgramsChanged: int := 65
  const MidiKeyGetName: int := 66
  const BeginSetProgram: int := 67
  const EndSetProgram: int := 68
  const GetSpeakerArrangement: int := 69
  const ShellGetNextPlugin: int := 70
  const ProcessStart: int := 71
  const ProcessStop: int := 72
  const SetTotalSampleToProcess: int := 73
  const SetPanLaw: int := 74
  const BeginLoadBank: int := 75
  const BeginLoadProgram: int := 76
  const SetProcessPrecision: int := 77
  const MidiGetInputChannelCount: int := 78
  const MidiGetOutputChannelCount: int := 79
}
