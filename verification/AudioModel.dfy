// The values the watchdog exchanges with the Windows audio stack (src/audio).

module AudioModel {

  // HRESULT: negative means failure.
  type ResultCode = int

  const RESULT_OK: ResultCode := 0

  predicate Succeeded(code: ResultCode) { code >= 0 }

  // A call with an out-parameter. Whether `value` means anything depends on
  // the code and on the caller.
  datatype Reply<+T> = Reply(code: ResultCode, value: T)

  datatype EndpointFlow = UnknownFlow | Render | Capture

  datatype EndpointState = Active | Disabled | NotPresent | Unplugged

  // An endpoint as the enumeration reports it. The exclusive-mode state is
  // always read from its store and is not kept here.
  datatype AudioEndpoint = AudioEndpoint(
    id: string,
    name: string,
    description: string,
    flow: EndpointFlow,
    state: EndpointState,
    isDefault: bool)

  datatype AudioFormat = AudioFormat(
    sampleRate: nat,
    validBits: nat,
    containerBits: nat,
    isFloat: bool,
    channels: nat,
    channelMask: nat)
  {
    predicate Matches(rate: nat, bits: nat) { sampleRate == rate && validBits == bits }
  }

  const DEFAULT_FORMAT := AudioFormat(0, 0, 0, false, 2, 3)

  const SUPPORTED_SAMPLE_RATES: seq<nat> := [
    8000, 11025, 12000, 16000, 22050, 24000, 32000, 44100,
    48000, 88200, 96000, 176400, 192000, 352800, 384000]

  const SUPPORTED_BIT_DEPTHS: seq<nat> := [16, 24, 32]

  predicate IsSupportedSampleRate(rate: nat) { rate in SUPPORTED_SAMPLE_RATES }

  predicate IsSupportedBitDepth(bits: nat) { bits in SUPPORTED_BIT_DEPTHS }
}
